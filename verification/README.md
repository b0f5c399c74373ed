# Cluster visibility, modelled and proved

A hub of managed clusters has to answer, per user, "which clusters may I get?", as a list and as a watch.
Evaluating role bindings for every cluster on every call is too slow, so an authorization cache does it in the
background: it periodically synchronizes with the cluster, role and role-binding listers, re-reviews only
what looks changed, keeps two inverted indexes (user -> names, group -> names), and notifies per-client watchers.

This project models that cache, the direct evaluation it must agree with, its watchers and the cleaning of role
scopes, and proves that the fast, incremental form agrees with the slow, direct one, and exactly when it does not.

## How it is laid out

| file | content |
|---|---|
| `Rbac.dfy` | the rule evaluator: which requests a list of policy rules allows |
| `Scope.dfy` | what a role scope leaves of a role's rules; slices compacted in place |
| `Reviews.dfy` | snapshots of the listers, and the direct evaluation of access over one |
| `Requests.dfy` | review requests, when a request is skipped, which requests a round makes |
| `SubjectIndex.dfy` | the inverted indexes, one single-subject step at a time, and the store that takes the steps |
| `Rounds.dfy` | one synchronization as a fold over its requests, and the order-free closed form it equals |
| `Runs.dfy` | theorems over every sequence of synchronizations |
| `Watch.dfy` | a watcher's view, its event stream, and agreement with the list view |
| `Delivery.dfy` | notifications, the Watch goroutine, the client and Stop as interleaved atomic steps |
| `EndToEnd.dfy` | from role bindings to what a watch client holds |
| `Limits.dfy` | two stronger statements that fail, with inputs, and the exact conditions |
| `CacheWatchers.dfy`, `AuthCaches.dfy`, `ClusterCaches.dfy` | the objects as the source runs them, each method proved against the functions above |
| `Options.dfy`, `Listers.dfy` | optional values; enumeration of a set in an arbitrary order |

`dafny verify dfyconfig.toml` checks everything.

## How it is modelled

* **Values and objects.** Snapshots, rules, requests, records and events are datatypes. The subject stores with their
  shared mutable name sets, the review stores, the watcher list, the cache and the watcher are classes whose methods
  update fields in place. `ReviewStores.Valid` is the inverted-index invariant: each index is the inverse of the
  records, no subject is kept for nothing, and no two keys share a mutable set. Every method keeps it.
* **Order.** Listers, stores and Go maps promise no order, so snapshots hold sets and maps, and every method that
  iterates over one draws an arbitrary enumeration. `Rounds.Synchronized` is the closed form that every order reaches.
* **A run** is a sequence of snapshots, one per synchronization and constant during it. From one snapshot to the next an
  object is either unchanged or carries a (uid, resource version) never seen before (`Runs.FreshVersions`), as
  Kubernetes promises. A name that is not listed in some round and comes back is a new name to the cache.
* **Subjects.** How a subject maps to a user, to a group or to neither is an uninterpreted function in `Reviews.Config`,
  which also holds the API group and resource of the cache and the optional super user. The cluster cache is the
  instance with group `cluster.open-cluster-management.io` and resource `managedclusters`; the cluster-set cache has the
  same shape.
* **Overflow** of a watcher's queue is the last thing that happens to that watcher's view. Until then its queue never
  changes what it believes (`Watch.OfferedIsHeard`).
* **Slices.** `remove` overwrites the array behind its argument, so a rule held by the lister has an array behind its
  resources. `RemoveEscalatingResources` has no `modifies` clause: nothing that was allocated before may be written.
* **Skipping.** The comment at pkg/cache/common.go:251 says an unchanged lister state skips the synchronization; the
  return is commented out, and the model follows the code: every round runs.

## What holds, and what does not

1. *No lost grants*, on every run: after each synchronization the record of every listed name includes the whole direct
   review of the current snapshot, although most reviews are skipped.
2. *Freshness* in the other direction fails: when a binding is deleted, no request mentions it any more and the old
   review stays (`Limits.WithdrawnGrantStays`). Exactly: a record is the direct review of the last snapshot that gave a
   reason to review its name (`Runs.BoundedStaleness`, `Runs.ListedIff`), and is fresh if and only if nothing allowed
   there has been withdrawn since (`Limits.FreshIff`). Which snapshots give a reason is read off the snapshots alone
   (`Runs.HasReason`, proved equivalent to what the records make the cache do in `Runs.NeedsReviewIff`): the name was
   not listed the last time, its non-empty version changed, or a binding covers it that did not cover it in the round
   before as the same binding with the same role. On grow-only runs the list is exact.
3. *The watcher view agrees with the list view* about a name, after all rounds since a watcher joined, if and only if
   the name has not drifted since (`Watch.DriftIff`, and `AuthCache.WatcherDriftIff` for the objects); `Watch.Drifted`
   too is read off the snapshots. The watcher has to be ready when it joins: it has nothing too much, and misses a name
   only if the next round reviews it. A registered one is, if versions are not empty and no cluster returns to a version
   it has left (`Watch.RegisteredDriftIff`). Drift begins when the cluster listing fails while Get still works, and the
   binding pass reviews a name outside the known ones that the user may access: its record is purged, but the watcher,
   told "added", is not told "deleted" (`Limits.FailedListingLeaks`). It lasts through later successful listings, until
   the name is listed again or the binding pass finds that the user may not access it (`Limits.DriftLasts`). Without a
   failing listing nothing drifts.
4. *Delivery*: over every interleaving, until Stop, the client receives the initial and the enqueued events in order,
   then at most one Error event, then the channel closes; after Stop, events may be lost, but none is made up, repeated
   or reordered. Nothing gets stuck: until Stop and overflow the goroutine and the client alone can always deliver
   everything that is due, and after Stop the goroutine can return by itself. A client that has caught up, and replays what it received over nothing (if it asked for the existing
   objects) or over the list it began with (if it did not), holds of each visible name what the list says, and on a
   grow-only run what direct evaluation says, if and only if the name has not drifted since it began, however long the
   server had been running (`EndToEnd.NewClientSeesDirectEvaluation`).
5. *Scope cleaning* allows nothing new. It never allows a listed escalating pair without a subresource; with one it does,
   exactly when a bounded rule of the role grants the subresource in its starred form (`Scope.EscalatesIff`), so a
   non-escalating scope over `*/secrets` reads the secrets of image streams (`Scope.SecretsEscalate`).

## Model

| member | source | states |
|---|---|---|
| Rbac.SubresourceForm | pkg/cache/rbac/allow.go:64-90 | With a subresource, the length, prefix and suffix conditions accept exactly three texts: everything, the combined resource, and the starred subresource |
| Rbac.URLForm | pkg/cache/rbac/allow.go:106-120 | A path pattern matches itself, or ends in stars and matches exactly the extensions of the stem before them |
| Rbac.RuleAllowsResource | pkg/cache/rbac/allow.go:21-104 | What a rule allows of a resource request in plain terms: wildcard or literal verb, group and resource, the subresource forms, and no or the right names |
| Rbac.RuleAllowsPath | pkg/cache/rbac/allow.go:34-120 | What a rule allows of a path request in plain terms |
| Scope.WithoutElements | pkg/apis/helpers/scope.go:222-230 | The filter keeps exactly the elements that are not dropped |
| Scope.WithoutTwice | pkg/apis/helpers/scope.go:250 | Removing one escalating resource after another is one order-preserving filter by all of them |
| Scope.ResolvedElements | pkg/apis/helpers/scope.go:168-186 | An escalating scope leaves the rules as they are; otherwise the result is exactly the cleaned bounded rules |
| Scope.CleanedAllows | pkg/apis/helpers/scope.go:236-258 | A cleaned rule allows a resource request if and only if the rule does through a resource that is not escalating for it |
| Scope.CleanedKeeps | pkg/apis/helpers/scope.go:236-258 | Cleaning takes exactly the resources that the list has for one of the rule's own groups, and leaves all else |
| Scope.ResolvedIsBounded | pkg/apis/helpers/scope.go:175-180 | A non-escalating scope leaves no wildcard verb, group or resource in any rule |
| Scope.BoundedIsKept | pkg/apis/helpers/scope.go:181-183 | Every rule without a wildcard contributes its cleaned form |
| Scope.BoundedAllows | pkg/apis/helpers/scope.go:236-258 | What a cleaned rule without wildcards allows, in plain terms |
| Scope.ResolvedIsSound | pkg/apis/helpers/scope.go:153-187 | Resolved rules allow no request, for resources or paths, that the role's own rules did not |
| Scope.ResolvedExactly | pkg/apis/helpers/scope.go:153-187 | If-and-only-if description, in plain terms, of the resource requests that a non-escalating scope leaves |
| Scope.ResolvedPaths | pkg/apis/helpers/scope.go:168-186 | Path requests lose only the rules with a wildcard |
| Scope.EscalatesIff | pkg/apis/helpers/scope.go:124-187 | A request for a listed (group, resource) pair is still allowed if and only if it names a subresource that some rule without wildcards grants, and keeps, in its starred form |
| Scope.ResolvedNeverEscalates | pkg/apis/helpers/scope.go:124-144 | So without a subresource a listed pair is never allowed, whatever shares its rule |
| Scope.NeverPolicyNorSecrets | pkg/apis/helpers/scope.go:124-144 | With the list of the source: core secrets, OAuth tokens, roles and bindings are never left to a non-escalating scope |
| Scope.OnlyStarred | pkg/apis/helpers/scope.go:127-137 | Secrets of image streams and external IPs of services are left exactly to rules that grant them in the starred form |
| Scope.StarredEscalates | pkg/apis/helpers/scope.go:236-258 | For every listed pair that names a subresource, the starred rule of its group is an input on which a non-escalating scope allows it |
| Scope.SecretsEscalate | pkg/apis/helpers/scope.go:127 | That input for the secrets of image streams, with the list of the source |
| Scope.Has | pkg/apis/helpers/scope.go:213-220 | Finds a value if and only if the slice holds it |
| Scope.Remove | pkg/apis/helpers/scope.go:222-230 | In place: the result is the filter of the old contents, and the cells after it keep what they held |
| Scope.RemoveEscalatingResources | pkg/apis/helpers/scope.go:236-258 | The value is the rule filtered by all matching entries; a fresh copy if one matches, else the rule itself; nothing held by the lister is written |
| Scope.ResolveRule | pkg/apis/helpers/scope.go:169-183 | One rule contributes itself, nothing, or a cleaned copy |
| Scope.ResolveAll | pkg/apis/helpers/scope.go:168-186 | The loop computes the specified rules, in order |
| Scope.ResolveRules | pkg/apis/helpers/scope.go:153-187 | A bad scope and a failed lookup are errors, a missing role gives no rules, and otherwise the specified rules |
| Reviews.AllowedSet | pkg/cache/rbac/subject_locator.go:34-58 | The finite set of exactly the subjects that direct evaluation allows |
| Reviews.GetAllowed | pkg/cache/rbac/reviewer.go:54-60 | What a rule allows of the cache's own get request, in plain terms |
| Reviews.AllowedIff | pkg/cache/rbac/subject_locator.go:34-67 | Whom direct evaluation allows, in plain terms: the masters group, the super user if set, and the subjects of bindings whose role has a rule for it |
| Reviews.AllowedSubjects | pkg/cache/rbac/subject_locator.go:34-67 | Exactly the allowed subjects, and exactly one kind of error: a binding whose role is missing |
| Reviews.UsersAndGroups | pkg/cache/rbac/reviewer.go:62-64 | The union over the subjects of what each maps to |
| Reviews.MakeReview | pkg/cache/rbac/reviewer.go:53-69 | A review is the direct access of the name for verb get, and has an error if and only if some binding's role is missing |
| Reviews.DirectIsEvaluation | pkg/cache/rbac/subject_locator.go:34-58 | The users and groups of a direct review admit a user if and only if some allowed subject is the user or a group of theirs |
| Reviews.DirectIncludesBinding | pkg/cache/rbac/subject_locator.go:45-54 | All subjects of a granting binding are in the direct review |
| Requests.WrittenIsSkipped | pkg/cache/common.go:382-462 | A record just written for a request satisfies that request |
| Requests.GetResourceNames | pkg/cache/common.go:494-510 | Exactly the names and the "all" flag of the rules that cover the cache's group and resource |
| Requests.ExtractorCovers | pkg/cache/common.go:494-510 | Whenever a role allows get on a name, the extractor answers "all" or has the name |
| Requests.ExtractedExactly | pkg/cache/common.go:494-510 | And it answers "all", or has the name, for nothing but rules that the evaluator would accept for get, were it not for their verbs |
| Requests.CoveringIff | pkg/cache/common.go:282-292 | Which names the binding pass visits for a binding, in plain terms: the known ones if the role has a rule for the resource without names, else the named ones |
| Requests.VisitsAreFunctional | pkg/cache/common.go:292-299 | The requests of the binding pass about one name never ask for two versions of an object |
| SubjectIndex.RemoveAllHolds | pkg/cache/common.go:466-477 | Removing a name takes exactly that name from exactly those subjects, repeated or not, and leaves no empty entry |
| SubjectIndex.AddAllHolds | pkg/cache/common.go:480-492 | Adding a name gives exactly that name to exactly those subjects, repeated or not |
| SubjectIndex.InverseIsUnique | pkg/cache/common.go:466-492 | Two indexes without empty entries that invert the same records are equal, in whatever order they were built |
| SubjectIndex.InverseInverts | pkg/cache/common.go:466-492 | The explicit inverse is one, and the only one |
| SubjectIndex.ReplaceInverts | pkg/cache/common.go:230-243 | Removing what a review lost and adding what it has turns the inverse of the old records into that of the new |
| SubjectIndex.RemoveInverts | pkg/cache/common.go:311-316 | Removing a purged name from its record's subjects leaves the inverse of the remaining records |
| SubjectIndex.NoFlicker | pkg/cache/common.go:230-242 | After any number of single steps, a subject in both reviews has the name, one in neither does not, and other names are untouched |
| SubjectIndex.TrailIsSteady | pkg/cache/common.go:230-242 | So after every single step of a replacement |
| SubjectIndex.TrailIsCalm | pkg/cache/common.go:230-242 | A store whose history grew by those steps had no content on the way that flickers |
| SubjectIndex.SubjectStore.Names | pkg/cache/common.go:330-344 | Reads exactly the names under a subject |
| SubjectIndex.SubjectStore.DeleteOne | pkg/cache/common.go:467-475 | One removal step in the shared mutable set; an emptied record leaves the store; the history gains the new content |
| SubjectIndex.SubjectStore.AddOneName | pkg/cache/common.go:481-490 | One addition step; a missing record is created first; the history gains the new content |
| SubjectIndex.SubjectStore.DeleteName | pkg/cache/common.go:466-477 | The removal loop: the final content, and a history that gained exactly the content after each removal |
| SubjectIndex.SubjectStore.AddName | pkg/cache/common.go:480-492 | The addition loop: the final content, and a history that gained exactly the content after each addition |
| SubjectIndex.DeleteFromBoth | pkg/cache/common.go:313-314 | Both stores lose the name, and stay apart |
| SubjectIndex.ReplaceInBoth | pkg/cache/common.go:239-242 | The four passes: final contents, exactly which contents both stores had on the way, and the two stores stay apart |
| Rounds.RunOneName | pkg/cache/common.go:214-246 | For any requests in any order, a name is reviewed if and only if a request for it was unsatisfied at the start; then the record has the direct review and the versions of all its requests, else it is untouched |
| Rounds.IndexesFollowAccess | pkg/cache/common.go:239-242 | Both indexes are determined by whom the records admit |
| Rounds.ListedByIndexes | pkg/cache/common.go:324-347 | The records admit a user to a name if and only if the user index, or the group index for one of the groups, holds it |
| Rounds.OrderIndependence | pkg/cache/common.go:203-208 | Two schedules of the same snapshot leave the same records, temporary ones included, and the same two indexes |
| Rounds.StaleIsUnsatisfied | pkg/cache/common.go:425-462 | A listed name has an unsatisfied request if and only if it is new, its non-empty version changed, or a covering binding or role version is unrecorded |
| Rounds.RefreshedIsMerged | pkg/cache/common.go:382-411 | The versions a record ends up with depend on the visits alone |
| Rounds.RoundIsSynchronized | pkg/cache/common.go:249-322 | Refinement: passes in any order and the purge end in the order-free closed form |
| Runs.KnownNames | pkg/cache/common.go:264-268 | Known-name conservation: the records' keys are the known names, which are the names just listed, or none if listing failed |
| Runs.StepOfName | pkg/cache/common.go:214-246 | A round gives a name's record the direct review, or leaves the whole record alone |
| Runs.ObservedIsSeen | pkg/cache/common.go:382-411 | Every version a record holds was shown by some snapshot of the run |
| Runs.GrantsKept | pkg/cache/common.go:382-462 | The invariant: a current binding and role that are both recorded for a name have their subjects in its record |
| Runs.BindingNotLost | pkg/cache/common.go:275-305 | Each current binding that grants get on a listed name has all its subjects in the record |
| Runs.NoLostGrants | pkg/cache/common.go:249-305 | After every round of every run, a listed name's record includes its whole direct review |
| Runs.EveryGrantIsListed | pkg/cache/common.go:324-347 | Whoever may get a listed cluster has it in the list |
| Runs.AdminsAreListed | pkg/cache/common.go:324-347 | Whoever is bound to a role that allows everything has every listed cluster in the list |
| Runs.NoStaleGrants | pkg/cache/common.go:249-305 | On grow-only runs no record has more than the direct review |
| Runs.ExactOnGrowOnly | pkg/cache/common.go:249-347 | On grow-only runs the list is exactly the existing clusters that direct evaluation allows |
| Runs.RecordedVersion | pkg/cache/common.go:388-402 | A record's version is the last non-empty one its name was listed with since it appeared |
| Runs.RecordedIffCovered | pkg/cache/common.go:275-305 | Of a name listed in both rounds, a covering binding and its role are recorded if and only if they covered it in the round before |
| Runs.AllRolesSkipNewNames | pkg/cache/common.go:288-290 | A role about all names is applied to the names of the round before: its binding is not recorded for a new one |
| Runs.NeedsReviewIff | pkg/cache/common.go:425-462 | The round reviews a listed name if and only if the snapshots alone give a reason |
| Runs.BoundedStaleness | pkg/cache/common.go:214-246 | Every record is the direct review of the last snapshot with a reason to review the name, and the name has been listed ever since |
| Runs.ListedIff | pkg/cache/common.go:324-347 | The list answers for a name if and only if direct evaluation of that snapshot does |
| Runs.Settles | pkg/cache/common.go:249-322 | A state that already knows the listing is a fixed point after one round |
| Runs.Stabilises | pkg/cache/common.go:249-322 | On an unchanged snapshot a second round changes nobody's access and neither index, and a third changes nothing, versions included |
| Watch.OfferTwice | pkg/cache/watcher.go:112-171 | The same notification again has no effect |
| Watch.OfferedIsHeard | pkg/cache/watcher.go:126-135 | Before it overflows, the bounded queue does not influence the view |
| Watch.ReactionFits | pkg/cache/watcher.go:112-171 | The event of a notification tells a client exactly what knownResources becomes, and fits what it was |
| Watch.HiddenIsIgnored | pkg/cache/watcher.go:113-116 | A name outside the visible set has no effect |
| Watch.LostIsDeleted | pkg/cache/watcher.go:122-135 | A visible name without access is forgotten and its deletion sent, if it was known; else nothing happens |
| Watch.AccessibleIsSent | pkg/cache/watcher.go:137-167 | A visible accessible name is added if unknown, modified if its version changed, and else left alone |
| Watch.HiddenFromRounds | pkg/cache/watcher.go:113-116 | Over any rounds a watcher neither learns, forgets nor is sent anything about a name outside its visible set |
| Watch.RemembersAnyway | pkg/cache/watcher.go:124-135 | The view changes even if the event finds no room |
| Watch.RoomForAThousand | pkg/cache/watcher.go:94 | As long as a thousand places are enough there is no overflow |
| Watch.OverflowIsFull | pkg/cache/watcher.go:126-135 | An overflow means that exactly a thousand events are waiting |
| Watch.HearIsFaithful | pkg/cache/watcher.go:112-171 | One notification keeps replay exact and its event fitting |
| Watch.ReplayIsKnown | pkg/cache/watcher.go:112-171 | Over any history, the initial view and the events replay to knownResources; Added is new, Modified changes a version, Deleted was known |
| Watch.RunNotesAt | pkg/cache/common.go:244 | A round notifies about a name if and only if it reviews it, always with the direct review |
| Watch.RoundAt | pkg/cache/common.go:264-266 | What a whole round, purge included, makes a watcher believe about a name |
| Watch.UnlistedIsVisited | pkg/cache/common.go:286-303 | A name outside the listing is reviewed if and only if the binding pass visits it |
| Watch.ReadyStrays | pkg/cache/common.go:195-201 | For a watcher that was ready, a name strays in a round if and only if it leaks |
| Watch.NameAgrees | pkg/cache/common.go:249-322 | For any watcher and visible name, view and list agree after a round if and only if the name does not stray |
| Watch.RoundAgreesIff | pkg/cache/common.go:249-322 | Any watcher's view and list agree after a round if and only if nothing strays: purged names and temporary records do no harm by themselves |
| Watch.BoxAgreesIff | pkg/cache/watcher.go:112-171 | The same of a watcher with its queue, unless that overflows |
| Watch.RoundVersions | pkg/cache/watcher.go:137-163 | With a non-empty version, the view and the record hold the lister's current one of each accessible listed name |
| Watch.RoundsReachRun | pkg/cache/common.go:249-272 | From wherever a run has led, rounds in any order reach the state of the longer run |
| Watch.DriftStep | pkg/cache/common.go:264-266 | One more round, from agreement or from drift: drift begins, lasts or ends exactly as defined |
| Watch.DriftIff | pkg/cache/common.go:249-322 | For a watcher that is ready for the name at the first round: after all rounds, in every order of the requests, view and list agree on the name if and only if it has not drifted |
| Watch.WatcherAgrees | pkg/cache/common.go:373-379 | For a watcher that is ready at the first round, the views agree if and only if no visible name has drifted |
| Watch.NoFailureNoDrift | pkg/cache/common.go:195-201 | On a run without a failing listing nothing drifts |
| Watch.NoMissedUpdate | pkg/cache/common.go:388-402 | After all rounds of any run each visible accessible name has its current version in view and record, even if a binding request reviewed it last |
| Watch.RegisteredIsReady | pkg/cache/watcher.go:75-97 | A watcher registered between rounds, even from a newer lister, is ready for the next round |
| Watch.RegisteredDriftIff | pkg/cache/watcher.go:75-97 | A watcher registered between rounds agrees about a visible name after all later rounds if and only if the name has not drifted since |
| Watch.FollowOneMore | pkg/cache/common.go:373-379 | A watcher that joined in some round hears one more round from the state that all rounds have led to |
| Watch.FollowedDriftIff | pkg/cache/common.go:349-379 | A watcher that joined ready in any round agrees about a visible name now if and only if the name has not drifted since |
| Watch.RegisteredAgrees | pkg/cache/watcher.go:75-97 | Registered while the listed clusters are still there, it agrees at once |
| Limits.WithdrawnGrantStays | pkg/cache/common.go:282-304 | A two-round run in which the list keeps a cluster that the user may no longer get |
| Limits.FreshIff | pkg/cache/common.go:282-304 | A record is fresh if and only if nothing has been withdrawn since the last snapshot that gave a reason to review the name |
| Limits.FailedListingLeaks | pkg/cache/common.go:195-201 | A round with a failing listing after which a watcher holds a name that the cache does not list |
| Limits.DriftLasts | pkg/cache/common.go:319-321 | The watcher still holds it after a second round that lists successfully |
| Limits.HalfBrokenSchedule | pkg/cache/common.go:292-299 | The one request of the binding pass is a schedule of that round |
| Limits.DriftHappens | pkg/cache/common.go:195-201 | Both inputs in full, requests included: the views disagree after the first and after the second round |
| Delivery.NotifyConserves | pkg/cache/watcher.go:126-167 | A notification appends its event to what is due and to the queue, or overflows |
| Delivery.HandOver | pkg/cache/watcher.go:103-108 | An event the client takes was the first in flight |
| Delivery.StepKeepsInv | pkg/cache/watcher.go:175-247 | Every step of anybody keeps the invariant |
| Delivery.StepConserves | pkg/cache/watcher.go:175-217 | Until Stop, no step loses, repeats or reorders an event |
| Delivery.BehaviorKeeps | pkg/cache/watcher.go:175-247 | Both, over every interleaving |
| Delivery.DeliveredInOrder | pkg/cache/watcher.go:175-217 | Until Stop, the client has a prefix of the initial and enqueued events, and after close such a prefix and one Error |
| Delivery.StepKeepsOrder | pkg/cache/watcher.go:103-108 | No step, Stop or not, repeats or reorders what is received, in flight and queued |
| Delivery.DeliveredWithin | pkg/cache/watcher.go:103-217 | Stop or not, what the client received, but for a last Error, is a subsequence of the initial and enqueued events |
| Delivery.ErrorIsLast | pkg/cache/watcher.go:201-203 | An Error event is the last thing received, and the channel is closed |
| Delivery.ClosedIsFinal | pkg/cache/watcher.go:176 | Nothing is received after close |
| Delivery.StopClosesOnce | pkg/cache/watcher.go:235-247 | However often Stop is called, userStop is closed once |
| Delivery.StopStays | pkg/cache/watcher.go:235-247 | userStop is closed if and only if Stop has been called |
| Delivery.ErrorStopsInitial | pkg/cache/watcher.go:184-191 | With an error queued, no further initial object is begun |
| Delivery.ClientCanCatchUp | pkg/cache/watcher.go:175-217 | Progress: until Stop and overflow, the goroutine and the client alone can go on until the client has received everything due |
| Delivery.ErrorCanBeReported | pkg/cache/watcher.go:184-203 | Once queued, the error can reach the client, and the channel closes |
| Delivery.OverflowCanBeReported | pkg/cache/watcher.go:131-135 | So whoever overflows can be told, once the error is pushed |
| Delivery.StoppedCanEnd | pkg/cache/watcher.go:103-108 | After Stop the goroutine can return without the client |
| Delivery.AlwaysMirrors | pkg/cache/watcher.go:85-217 | What is due, replayed over nothing or over the list the client began with, is the watcher's view in every reachable state before overflow |
| Delivery.FeedIsHistory | pkg/cache/watcher.go:112-171 | Before overflow, the watcher's view is what the notifications among the steps make of it |
| Delivery.ClientCatchesUp | pkg/cache/watcher.go:85-217 | Until Stop and overflow, what the client holds, plus what is in flight and queued, is the watcher's view, with or without the existing objects |
| EndToEnd.BehaviorFollowsRounds | pkg/cache/common.go:373-379 | A watcher whose notification steps are those of the rounds has the rounds' view |
| EndToEnd.ClientSeesList | pkg/cache/watcher.go:75-217 | A caught-up client, ready when it began, is right about a visible name, by the list, if and only if the name has not drifted since |
| EndToEnd.ClientCanSeeList | pkg/cache/watcher.go:112-217 | And from every state of such a run, until Stop and overflow, delivery alone can get the client there |
| EndToEnd.RoundsListExactly | pkg/cache/common.go:249-347 | On a grow-only run, after any past, the list after the rounds is what direct evaluation gives |
| EndToEnd.ClientSeesDirectEvaluation | pkg/cache/common.go:249-347 | On a grow-only run, after any past, a caught-up client that was ready when it began is right by direct evaluation, if and only if the name has not drifted since |
| EndToEnd.NewClientSeesDirectEvaluation | pkg/registry/managedcluster/storage.go:102-125 | So for a client registered with a running server, with or without the existing objects |
| CacheWatchers.FirstView | pkg/cache/watcher.go:78-82 | The first view holds each listed object at its version, and nothing else |
| CacheWatchers.CacheWatcher.constructor | pkg/cache/watcher.go:75-110 | First view, initial Added events if asked for, an empty queue: a state in which delivery begins |
| CacheWatchers.CacheWatcher.GroupMembershipChanged | pkg/cache/watcher.go:112-171 | View, queue and overflow become what the notification function says |
| CacheWatchers.CacheWatcher.Enqueue | pkg/cache/watcher.go:126-135 | The non-blocking send: appended if there is room for it, else only the overflow is noted |
| CacheWatchers.CacheWatcher.Take | pkg/cache/watcher.go:208 | Takes the first event of the queue, if there is one, and leaves the others in order; the view stays |
| CacheWatchers.CacheWatcher.Stop | pkg/cache/watcher.go:235-247 | Stopped, and closed once |
| AuthCaches.ListResources | pkg/cache/managedcluster.go:50-65 | Exactly one request per listed cluster with its version, or the lister's failure |
| AuthCaches.RequestsFor | pkg/cache/common.go:292-297 | Exactly one request per name, with the binding's and the role's versions |
| AuthCaches.PassesAreSchedule | pkg/cache/common.go:264-265 | The requests of the two passes are a schedule of the snapshot |
| AuthCaches.ReviewStores.constructor | pkg/cache/common.go:183-185 | Three empty stores that share nothing |
| AuthCaches.ReviewStores.ToRemove | pkg/cache/common.go:230-237 | Exactly the old record's users and groups that the review no longer has |
| AuthCaches.ReviewStores.Replace | pkg/cache/common.go:230-243 | The record is replaced, both indexes stay its inverse, and no content that either index had on the way flickers |
| AuthCaches.ReviewStores.Delete | pkg/cache/common.go:313-315 | The record is gone, both indexes are the inverse of the rest, and on the way other names were untouched |
| AuthCaches.ReviewStores.PurgeRecords | pkg/cache/common.go:309-317 | In any order, exactly the listed records remain |
| AuthCaches.ReviewStores.ListNames | pkg/cache/common.go:324-347 | Read from the indexes alone: exactly the names whose record admits the user |
| AuthCaches.WatcherList.Notify | pkg/cache/common.go:373-379 | Every watcher is offered the notification, one that is registered twice no more than once in effect |
| AuthCaches.WatcherList.Add | pkg/cache/common.go:349-354 | Appended, the others unchanged |
| AuthCaches.WatcherList.Remove | pkg/cache/common.go:356-371 | Its first occurrence is cut out of the list, the others in order; nothing happens if it is not there |
| AuthCaches.WatcherList.Take | pkg/cache/watcher.go:208 | Takes from one watcher's queue and changes no view |
| AuthCaches.RoundAllAgreeIff | pkg/cache/common.go:373-379 | Of all watchers that do not overflow in a round, exactly those agree with the list for which no name strays |
| AuthCaches.AllFollowOneMore | pkg/cache/common.go:373-379 | All watchers that have not overflowed follow the rounds through one more |
| AuthCaches.AuthCache.constructor | pkg/cache/common.go:154-193 | The empty cache, at rest before any round |
| AuthCaches.AuthCache.RestIsRun | pkg/cache/common.go:249-272 | Between synchronizations the cache is in the state that its snapshots determine |
| AuthCaches.AuthCache.WatcherDriftIff | pkg/cache/common.go:349-379 | Through any synchronizations, additions, removals and takes: a watcher object that has not overflowed, and was ready when it joined, agrees about a visible name if and only if the name has not drifted since |
| AuthCaches.AuthCache.AddWatcher | pkg/cache/common.go:349-354 | The watcher joins with the view it has, in the round of the moment; the others go on following |
| AuthCaches.AuthCache.RemoveWatcher | pkg/cache/common.go:356-371 | The watcher leaves, the others in order and following on |
| AuthCaches.AuthCache.Take | pkg/cache/watcher.go:208 | A watcher's queue is drained between synchronizations; all follow on |
| AuthCaches.AuthCache.SyncRequest | pkg/cache/common.go:214-246 | Skipped without effect, or one review: records, indexes and every watcher move together, and neither index flickers on the way |
| AuthCaches.AuthCache.SyncAll | pkg/cache/common.go:203-208 | Requests in the order given are the fold over them |
| AuthCaches.AuthCache.SyncResources | pkg/cache/common.go:195-211 | The names just listed, none if the listing failed, and exactly their requests |
| AuthCaches.AuthCache.SyncBinding | pkg/cache/common.go:282-304 | Nothing for a missing role; else a request per name, the known names for an "all" role |
| AuthCaches.AuthCache.SynchronizeClusterRoleBindings | pkg/cache/common.go:275-305 | Exactly the requests of all bindings, in any order |
| AuthCaches.AuthCache.SyncPasses | pkg/cache/common.go:264-265 | The two passes make a schedule and reach its fold |
| AuthCaches.AuthCache.NotifyGone | pkg/cache/common.go:319-321 | Every watcher hears, in any order, that nobody can access the names that are gone |
| AuthCaches.AuthCache.PurgeDeletedResources | pkg/cache/common.go:308-322 | Only listed names keep records, and the known names that are gone are announced |
| AuthCaches.AuthCache.Synchronize | pkg/cache/common.go:249-272 | The cache and every watcher are where the past and one more round take them; a watcher agrees with the list if and only if no name strayed in it |
| ClusterCaches.SelectedServes | pkg/cache/managedcluster.go:67-86 | The filtered answer has every cluster that direct evaluation gives, and on a grow-only run nothing else |
| ClusterCaches.FirstViewIsRegistered | pkg/cache/watcher.go:75-97 | The listed objects are exactly what a registered watcher starts from |
| ClusterCaches.ClusterCache.List | pkg/cache/managedcluster.go:67-86 | Each cluster once: listed for the user, still in the lister, accepted by the selector; right after a round it serves what direct evaluation gives |
| ClusterCaches.ClusterCache.NewWatcher | pkg/registry/managedcluster/storage.go:121-125 | A new watcher starts from the user's list, with the existing objects to be sent or none, in a state in which delivery begins, and joins the cache, whose records do not change |
| ClusterCaches.ClusterCache.RemoveWatcher | pkg/cache/managedcluster.go:105-107 | The watcher leaves the cache's list |

## Left out

- Delivery.DeliveredInOrder: a prefix is promised until Stop only, since emit may then drop any event; `DeliveredWithin`, `ErrorIsLast` and `ClosedIsFinal` hold after it too.
- CacheWatchers.CacheWatcher.GroupMembershipChanged: on overflow it only notes the overflow; the removal from the cache's list and the push on the error channel, which need the lock that the notification already holds, are the optional step `PushError` in `Delivery.dfy`.
- ClusterCaches.ClusterCache.List: a lister error other than "not found" is not modelled.
- Reviews.AllowedSubjects: a failing binding lister, which leaves only the fixed subjects and an error, is not modelled: the properties are about binding listers that answer.
- Scope.ResolveRules: the parsing of the scope text is an input (role name and escalating flag, or a bad scope), because that code is in a library outside the repository.
- Reviews.UsersAndGroups: the mapping of one subject to a user or a group is uninterpreted, because that code is in a library outside the repository.
- SubjectIndex.SubjectStore.AddOneName: a step is one subject; a record that is created but has no name yet, or has lost its last name but is still stored, which no list can tell from a missing one, is not a content of its own.
- CacheWatchers.CacheWatcher.Enqueue: as above, its default branch only notes the overflow.
- AuthCaches.AuthCache.SynchronizeClusterRoleBindings: a failing binding lister is not modelled.
- The Watch goroutine is a state machine in `Delivery.dfy`, not a method, because its steps interleave with the notifications, the client and Stop.
- In the objects, a synchronization runs to completion and queues are drained between synchronizations; draining during one is covered by `Delivery.dfy` alone.
- Lists that run while a synchronization does, and every other question of locks and memory races.
- The branch of skipReview for a nil request, which no caller makes.
- SkipSynchronize, the version joiners and lastState: their result gates nothing.
- pkg/cache/managedclusterset.go: the same shape as the cluster cache.
- ResolveGettableNamespaces, ScopesToVisibleNamespaces and the visible names that REST.Watch builds: a watcher's visible set is arbitrary.
- The gap between creating a watcher and adding it to the cache: one step between rounds.
- Label selectors beyond an arbitrary predicate on clusters; the sorted order of set listings; SubjectsStrings; error texts, logging and high-water marks.
- REST storage, table conversion, server start-up, options, schemes and deployment files.
