/**
 One synchronization of the authorization cache, as a fold of `SyncOne` over the round's requests
 followed by the purge, and the closed form it always equals (pkg/cache/common.go: syncRequest,
 synchronize, purgeDeletedResources, listNames).
 */
module Rounds {
  import opened Options
  import opened Reviews
  import opened Requests
  import opened SubjectIndex

  /** The last review of a name: what had been observed, and whom it allowed. */
  datatype Record = Record(seen: ReviewRequest, access: Access)

  type Records = map<string, Record>

  datatype State = State(known: set<string>, records: Records)

  const EMPTY := State({}, map[])

  function Last(records: Records, name: string): Option<ReviewRequest> {
    if name in records then Some(records[name].seen) else None
  }

  /** Records are stored under their own name. */
  ghost predicate WellNamed(records: Records) {
    forall n :: n in records ==> records[n].seen.name == n
  }

  /** Between rounds the records are exactly those of the known names. */
  ghost predicate Consistent(st: State) {
    st.records.Keys == st.known && WellNamed(st.records)
  }

  function ListNames(st: State, user: User): set<string> {
    set n | n in st.records && st.records[n].access.Admits(user)
  }

  /******* The two indexes of a state *******/

  ghost function UsersOf(records: Records): Relation {
    map n | n in records :: records[n].access.users
  }

  ghost function GroupsOf(records: Records): Relation {
    map n | n in records :: records[n].access.groups
  }

  ghost function UserIndex(records: Records): Index {
    InverseOf(UsersOf(records))
  }

  ghost function GroupIndex(records: Records): Index {
    InverseOf(GroupsOf(records))
  }

  /** The indexes are determined by whom the records admit. */
  lemma IndexesFollowAccess(a: Records, b: Records)
    requires a.Keys == b.Keys && forall n :: n in a ==> a[n].access == b[n].access
    ensures UserIndex(a) == UserIndex(b) && GroupIndex(a) == GroupIndex(b)
  {
    assert UsersOf(a) == UsersOf(b) && GroupsOf(a) == GroupsOf(b);
  }

  /** The list of a user can be read from the indexes alone. */
  lemma ListedByIndexes(records: Records, user: User, n: string)
    ensures n in records && records[n].access.Admits(user) <==>
            || Holds(UserIndex(records), user.name, n)
            || exists g | g in user.groups :: Holds(GroupIndex(records), g, n)
  {
    hide InverseOf;
    InverseInverts(UserIndex(records), UsersOf(records));
    InverseInverts(GroupIndex(records), GroupsOf(records));
    assert forall g :: Holds(GroupIndex(records), g, n) <==> n in GroupsOf(records) && g in GroupsOf(records)[n];
  }

  /******* The passes *******/

  function SyncOne(cfg: Config, snap: Snapshot, request: ReviewRequest, records: Records): Records {
    if SkipReview(request, Last(records, request.name)) then records
    else records[request.name := Record(Observed(request, Last(records, request.name)),
                                        Direct(cfg, snap, request.name))]
  }

  function Run(cfg: Config, snap: Snapshot, requests: seq<ReviewRequest>, records: Records): Records {
    if requests == [] then records
    else SyncOne(cfg, snap, requests[|requests| - 1], Run(cfg, snap, requests[..|requests| - 1], records))
  }

  function Purge(records: Records, names: set<string>): Records {
    map n | n in records && n in names :: records[n]
  }

  /******* What a sequence of requests does to one name *******/

  /** Some request for the name is not satisfied by the records the round started with. */
  ghost predicate Unsatisfied(requests: seq<ReviewRequest>, records: Records, name: string) {
    exists r | r in requests :: r.name == name && !SkipReview(r, Last(records, name))
  }

  /** The object versions of one kind that the requests for a name mention. */
  function Mentioned(requests: seq<ReviewRequest>, name: string, kind: Kind): map<string, string> {
    if requests == [] then map[]
    else
      var rest, r := Mentioned(requests[..|requests| - 1], name, kind), requests[|requests| - 1];
      if r.name == name then rest + r.Versions(kind) else rest
  }

  function VersionOf(requests: seq<ReviewRequest>, name: string, before: string): string {
    if requests == [] then before
    else
      var rest, r := VersionOf(requests[..|requests| - 1], name, before), requests[|requests| - 1];
      if r.name == name && r.version != "" then r.version else rest
  }

  function Merged(requests: seq<ReviewRequest>, name: string, last: Option<ReviewRequest>)
    : ReviewRequest
  {
    var base := match last case None => NOTHING_SEEN case Some(seen) => seen;
    ReviewRequest(
      name,
      VersionOf(requests, name, base.version),
      base.roleVersions + Mentioned(requests, name, OfRole),
      base.bindingVersions + Mentioned(requests, name, OfBinding))
  }

  lemma {:induction false} Gathered(requests: seq<ReviewRequest>, name: string, kind: Kind)
    ensures forall uid :: uid in Mentioned(requests, name, kind) ==>
                            exists r | r in requests :: r.name == name && uid in r.Versions(kind)
                                                        && r.Versions(kind)[uid] == Mentioned(requests, name, kind)[uid]
    ensures forall r :: r in requests && r.name == name ==>
                          r.Versions(kind).Keys <= Mentioned(requests, name, kind).Keys
  {
    if requests != [] {
      var front, last := requests[..|requests| - 1], requests[|requests| - 1];
      Gathered(front, name, kind);
      assert requests == front + [last];
      assert forall r :: r in front ==> r in requests;
      assert last in requests;
    }
  }

  /** When the requests for a name agree on its version, that is the version gathered. */
  lemma {:induction false} GatheredVersion(requests: seq<ReviewRequest>, name: string, version: string, before: string)
    requires forall r :: r in requests && r.name == name ==> r.version == "" || r.version == version
    ensures VersionOf(requests, name, before) ==
            if exists r | r in requests :: r.name == name && r.version != "" then version else before
  {
    if requests != [] {
      var front, last := requests[..|requests| - 1], requests[|requests| - 1];
      GatheredVersion(front, name, version, before);
      assert requests == front + [last];
      assert last in requests;
      if r :| r in front && r.name == name && r.version != "" {
        assert r in requests;
      }
    }
  }

  /** Coherent requests that are satisfied by the start add nothing to it. */
  lemma SatisfiedAddsNothing(requests: seq<ReviewRequest>, name: string, seen: ReviewRequest)
    requires seen.name == name
    requires forall r :: r in requests && r.name == name ==> SkipReview(r, Some(seen))
    ensures Merged(requests, name, Some(seen)) == seen
  {
    hide Mentioned;
    KindAddsNothing(requests, name, seen, OfBinding);
    KindAddsNothing(requests, name, seen, OfRole);
    GatheredVersion(requests, name, seen.version, seen.version);
  }

  lemma KindAddsNothing(requests: seq<ReviewRequest>, name: string, seen: ReviewRequest, kind: Kind)
    requires forall r :: r in requests && r.name == name ==> SkipReview(r, Some(seen))
    ensures seen.Versions(kind) + Mentioned(requests, name, kind) == seen.Versions(kind)
  {
    hide Mentioned;
    Gathered(requests, name, kind);
    forall uid | uid in Mentioned(requests, name, kind)
      ensures uid in seen.Versions(kind) && seen.Versions(kind)[uid] == Mentioned(requests, name, kind)[uid]
    {
      var r :| r in requests && r.name == name && uid in r.Versions(kind)
               && r.Versions(kind)[uid] == Mentioned(requests, name, kind)[uid];
    }
  }

  lemma SkippedAddsNothing(request: ReviewRequest, seen: ReviewRequest)
    requires SkipReview(request, Some(seen))
    ensures Observed(request, Some(seen)) == seen
  {
    assert seen.bindingVersions + request.bindingVersions == seen.bindingVersions;
    assert seen.roleVersions + request.roleVersions == seen.roleVersions;
  }

  lemma MergeOneMore(requests: seq<ReviewRequest>, r: ReviewRequest, last: Option<ReviewRequest>)
    ensures Observed(r, Some(Merged(requests, r.name, last))) == Merged(requests + [r], r.name, last)
  {
    assert (requests + [r])[..|requests|] == requests;
    var base := match last case None => NOTHING_SEEN case Some(seen) => seen;
    assert (base.bindingVersions + Mentioned(requests, r.name, OfBinding)) + r.bindingVersions
           == base.bindingVersions + Mentioned(requests + [r], r.name, OfBinding);
    assert (base.roleVersions + Mentioned(requests, r.name, OfRole)) + r.roleVersions
           == base.roleVersions + Mentioned(requests + [r], r.name, OfRole);
  }

  lemma MergeOther(requests: seq<ReviewRequest>, r: ReviewRequest, name: string, last: Option<ReviewRequest>)
    requires r.name != name
    ensures Merged(requests + [r], name, last) == Merged(requests, name, last)
  {
    assert (requests + [r])[..|requests|] == requests;
  }

  /** As far as `name` goes, `after` is what the requests make of `records`. */
  ghost predicate Outcome(cfg: Config, snap: Snapshot, requests: seq<ReviewRequest>, records: Records,
                          after: Records, name: string)
  {
    if Unsatisfied(requests, records, name) then
      && name in after
      && after[name] == Record(Merged(requests, name, Last(records, name)), Direct(cfg, snap, name))
    else
      && (name in after <==> name in records)
      && (name in records ==> after[name] == records[name])
  }

  /**
   The main step: whatever the order of the requests, a name is reviewed if and only if some request
   for it was unsatisfied at the start, and then its record has the direct review and the versions of
   every request; otherwise its record is untouched.
   */
  lemma {:induction false} RunOneName(cfg: Config, snap: Snapshot, requests: seq<ReviewRequest>, records: Records,
                                      name: string)
    requires WellNamed(records)
    ensures Outcome(cfg, snap, requests, records, Run(cfg, snap, requests, records), name)
  {
    if requests != [] {
      var front, r := requests[..|requests| - 1], requests[|requests| - 1];
      assert requests == front + [r];
      RunOneName(cfg, snap, front, records, name);
      var middle, last := Run(cfg, snap, front, records), Last(records, name);
      if r.name != name {
        MergeOther(front, r, name, last);
        assert Unsatisfied(requests, records, name) <==> Unsatisfied(front, records, name);
      } else {
        MergeOneMore(front, r, last);
        if Unsatisfied(front, records, name) {
          UnsatisfiedGrows(front, r, records, name);
          if SkipReview(r, Last(middle, name)) {
            SkippedAddsNothing(r, middle[name].seen);
          }
        } else {
          assert Last(middle, name) == last;
          NothingMerged(front, records, name);
          assert Unsatisfied(requests, records, name) <==> !SkipReview(r, last);
          if !SkipReview(r, last) {
            ObservedAfterNothing(front, r, records);
          }
        }
      }
    }
  }

  lemma UnsatisfiedGrows(front: seq<ReviewRequest>, r: ReviewRequest, records: Records, name: string)
    requires Unsatisfied(front, records, name)
    ensures Unsatisfied(front + [r], records, name)
  {
    var q :| q in front && q.name == name && !SkipReview(q, Last(records, name));
    assert q in front + [r];
  }

  /** Requests that were all satisfied at the start merge to what the start had observed. */
  lemma NothingMerged(requests: seq<ReviewRequest>, records: Records, name: string)
    requires WellNamed(records) && !Unsatisfied(requests, records, name)
    ensures if name in records then Merged(requests, name, Last(records, name)) == records[name].seen
            else Merged(requests, name, None) == ReviewRequest(name, "", map[], map[])
  {
    if name in records {
      forall r | r in requests && r.name == name
        ensures SkipReview(r, Some(records[name].seen))
      {
      }
      SatisfiedAddsNothing(requests, name, records[name].seen);
    } else {
      forall r | r in requests
        ensures r.name != name
      {
        assert !SkipReview(r, Last(records, name));
      }
      Gathered(requests, name, OfBinding);
      Gathered(requests, name, OfRole);
      GatheredVersion(requests, name, "", "");
      assert Mentioned(requests, name, OfBinding) == map[] && Mentioned(requests, name, OfRole) == map[];
    }
  }

  lemma ObservedAfterNothing(requests: seq<ReviewRequest>, r: ReviewRequest, records: Records)
    requires WellNamed(records) && !Unsatisfied(requests, records, r.name)
    ensures Observed(r, Last(records, r.name)) == Merged(requests + [r], r.name, Last(records, r.name))
  {
    NothingMerged(requests, records, r.name);
    MergeOneMore(requests, r, Last(records, r.name));
  }

  /******* Order independence *******/

  /** What requests about one name mention, when they are its visits and possibly its listing. */
  lemma AsksMention(requests: seq<ReviewRequest>, name: string, listed: Option<string>, visits: set<Visit>, kind: Kind)
    requires AskAbout(requests, name, listed, visits) && Functional(visits)
    ensures Mentioned(requests, name, kind) == VersionMap(Objects(visits, kind))
  {
    var gathered, expected := Mentioned(requests, name, kind), VersionMap(Objects(visits, kind));
    forall uid | uid in gathered
      ensures uid in expected && expected[uid] == gathered[uid]
    {
      var x := MentionedObject(requests, name, listed, visits, kind, uid);
      VersionMapAt(Objects(visits, kind));
    }
    forall uid | uid in expected
      ensures uid in gathered
    {
      ObjectMentioned(requests, name, listed, visits, kind, Find(Objects(visits, kind), uid));
    }
  }

  lemma MentionedObject(requests: seq<ReviewRequest>, name: string, listed: Option<string>, visits: set<Visit>,
                        kind: Kind, uid: string)
    returns (x: Versioned)
    requires AskAbout(requests, name, listed, visits) && uid in Mentioned(requests, name, kind)
    ensures x == Versioned(uid, Mentioned(requests, name, kind)[uid]) && x in Objects(visits, kind)
  {
    Gathered(requests, name, kind);
    var r :| r in requests && r.name == name && uid in r.Versions(kind)
             && r.Versions(kind)[uid] == Mentioned(requests, name, kind)[uid];
    MentionedByVisit(r, name, listed, visits, kind, uid);
    x := Versioned(uid, r.Versions(kind)[uid]);
  }

  lemma ObjectMentioned(requests: seq<ReviewRequest>, name: string, listed: Option<string>, visits: set<Visit>,
                        kind: Kind, x: Versioned)
    requires AskAbout(requests, name, listed, visits) && x in Objects(visits, kind)
    ensures x.uid in Mentioned(requests, name, kind)
  {
    var v :| v in visits && v.Object(kind) == x;
    var r := BindingRequest(v, name);
    assert IsAskedFor(r, name, listed, visits);
    assert r in requests && x.uid in r.Versions(kind);
    Gathered(requests, name, kind);
  }

  lemma MentionedByVisit(r: ReviewRequest, name: string, listed: Option<string>, visits: set<Visit>, kind: Kind,
                         uid: string)
    requires IsAskedFor(r, name, listed, visits) && uid in r.Versions(kind)
    ensures Versioned(uid, r.Versions(kind)[uid]) in Objects(visits, kind)
  {
    assert listed.Some? ==> uid !in ClusterRequest(name, listed.value).Versions(kind);
    var v :| v in visits && r == BindingRequest(v, name);
    assert v.Object(kind) == Versioned(uid, r.Versions(kind)[uid]);
  }

  lemma AsksGatherVersion(requests: seq<ReviewRequest>, name: string, listed: Option<string>, visits: set<Visit>,
                          before: string)
    requires AskAbout(requests, name, listed, visits)
    ensures VersionOf(requests, name, before) == if listed.Some? && listed.value != "" then listed.value else before
  {
    var version := if listed.Some? then listed.value else "";
    forall r | r in requests && r.name == name
      ensures r.version == "" || r.version == version
    {
      assert IsAskedFor(r, name, listed, visits);
    }
    if version != "" {
      assert IsAskedFor(ClusterRequest(name, version), name, listed, visits);
    }
    GatheredVersion(requests, name, version, before);
  }

  /**
   Order independence: two schedules of the same snapshot leave the same three stores, temporary
   records included, although they may review a name for different requests.
   */
  lemma OrderIndependence(cfg: Config, snap: Snapshot, known: set<string>, records: Records,
                          a: seq<ReviewRequest>, b: seq<ReviewRequest>)
    requires snap.Valid() && WellNamed(records)
    requires IsSchedule(cfg, snap, known, a) && IsSchedule(cfg, snap, known, b)
    ensures Run(cfg, snap, a, records) == Run(cfg, snap, b, records)
    ensures UserIndex(Run(cfg, snap, a, records)) == UserIndex(Run(cfg, snap, b, records))
    ensures GroupIndex(Run(cfg, snap, a, records)) == GroupIndex(Run(cfg, snap, b, records))
  {
    var after, other := Run(cfg, snap, a, records), Run(cfg, snap, b, records);
    forall n
      ensures n in after <==> n in other
      ensures n in after ==> after[n] == other[n]
    {
      RunOneName(cfg, snap, a, records, n);
      RunOneName(cfg, snap, b, records, n);
      var listed, visits := ListedVersion(snap, n), VisitsTo(cfg, snap, known, n);
      VisitsAreFunctional(cfg, snap, known, n);
      ScheduleAsks(cfg, snap, known, a, n);
      ScheduleAsks(cfg, snap, known, b, n);
      SameAsks(a, b, n, listed, visits, records);
    }
  }

  lemma SameAsks(a: seq<ReviewRequest>, b: seq<ReviewRequest>, name: string, listed: Option<string>,
                 visits: set<Visit>, records: Records)
    requires AskAbout(a, name, listed, visits) && AskAbout(b, name, listed, visits) && Functional(visits)
    ensures Merged(a, name, Last(records, name)) == Merged(b, name, Last(records, name))
    ensures Unsatisfied(a, records, name) <==> Unsatisfied(b, records, name)
  {
    AsksMention(a, name, listed, visits, OfBinding);
    AsksMention(b, name, listed, visits, OfBinding);
    AsksMention(a, name, listed, visits, OfRole);
    AsksMention(b, name, listed, visits, OfRole);
    var before := if name in records then records[name].seen.version else "";
    AsksGatherVersion(a, name, listed, visits, before);
    AsksGatherVersion(b, name, listed, visits, before);
    assert forall r :: r in a && r.name == name <==> r in b && r.name == name;
  }

  /******* The closed form *******/

  /**
   There is a reason to review a listed name: it is new, its cluster has another non-empty version,
   or a binding or role that covers it has a version that is not recorded.
   */
  ghost predicate Stale(version: string, visits: set<Visit>, last: Option<ReviewRequest>) {
    match last
    case None => true
    case Some(seen) =>
      || (version != "" && version != seen.version)
      || !AllKnown(VersionMap(Objects(visits, OfBinding)), seen.bindingVersions)
      || !AllKnown(VersionMap(Objects(visits, OfRole)), seen.roleVersions)
  }

  /** What a listed name has observed after the round. */
  ghost function Refreshed(name: string, version: string, visits: set<Visit>, last: Option<ReviewRequest>)
    : ReviewRequest
  {
    var base := match last case None => NOTHING_SEEN case Some(seen) => seen;
    ReviewRequest(
      name,
      if version != "" then version else base.version,
      base.roleVersions + VersionMap(Objects(visits, OfRole)),
      base.bindingVersions + VersionMap(Objects(visits, OfBinding)))
  }

  ghost predicate NeedsReview(cfg: Config, snap: Snapshot, st: State, name: string)
    requires name in snap.clusters
  {
    Stale(snap.clusters[name].version, VisitsTo(cfg, snap, st.known, name), Last(st.records, name))
  }

  ghost function SynchronizedRecord(cfg: Config, snap: Snapshot, st: State, name: string): Record
    requires name in snap.clusters
  {
    Record(
      Refreshed(name, snap.clusters[name].version, VisitsTo(cfg, snap, st.known, name), Last(st.records, name)),
      if NeedsReview(cfg, snap, st, name) then Direct(cfg, snap, name) else st.records[name].access)
  }

  /** The whole effect of a synchronization, name by name and without any order. */
  ghost function Synchronized(cfg: Config, snap: Snapshot, st: State): State {
    State(snap.Listed(), map n | n in snap.Listed() :: SynchronizedRecord(cfg, snap, st, n))
  }

  /** A visit's request is skipped exactly when both of its versions are recorded. */
  lemma VisitSkipped(v: Visit, name: string, seen: ReviewRequest)
    requires seen.name == name
    ensures SkipReview(BindingRequest(v, name), Some(seen)) <==>
            && v.binding.uid in seen.bindingVersions && seen.bindingVersions[v.binding.uid] == v.binding.version
            && v.role.uid in seen.roleVersions && seen.roleVersions[v.role.uid] == v.role.version
  {
    var r := BindingRequest(v, name);
    assert v.binding.uid in r.bindingVersions && v.role.uid in r.roleVersions;
  }

  lemma AllVisitsKnown(visits: set<Visit>, seen: ReviewRequest)
    requires Functional(visits)
    ensures AllKnown(VersionMap(Objects(visits, OfBinding)), seen.bindingVersions)
            && AllKnown(VersionMap(Objects(visits, OfRole)), seen.roleVersions)
            <==> forall v :: v in visits ==> SkipReview(BindingRequest(v, seen.name), Some(seen))
  {
    AllVersionsKnown(Objects(visits, OfBinding), seen.bindingVersions);
    AllVersionsKnown(Objects(visits, OfRole), seen.roleVersions);
    forall v | v in visits
      ensures SkipReview(BindingRequest(v, seen.name), Some(seen)) <==>
              && v.binding.uid in seen.bindingVersions && seen.bindingVersions[v.binding.uid] == v.binding.version
              && v.role.uid in seen.roleVersions && seen.roleVersions[v.role.uid] == v.role.version
    {
      VisitSkipped(v, seen.name, seen);
      assert v.Object(OfBinding) in Objects(visits, OfBinding) && v.Object(OfRole) in Objects(visits, OfRole);
    }
  }

  /** A listed name has an unsatisfied request exactly when there is a reason to review it. */
  lemma StaleIsUnsatisfied(requests: seq<ReviewRequest>, records: Records, name: string, version: string,
                           visits: set<Visit>)
    requires WellNamed(records) && Functional(visits) && AskAbout(requests, name, Some(version), visits)
    ensures Unsatisfied(requests, records, name) <==> Stale(version, visits, Last(records, name))
  {
    assert IsAskedFor(ClusterRequest(name, version), name, Some(version), visits);
    if name in records {
      AllVisitsKnown(visits, records[name].seen);
      forall r | r in requests && r.name == name
        ensures IsAskedFor(r, name, Some(version), visits)
      {
      }
      forall v | v in visits
        ensures BindingRequest(v, name) in requests
      {
        assert IsAskedFor(BindingRequest(v, name), name, Some(version), visits);
      }
    }
  }

  /** The closed form of one listed name is what the requests about it make of its record. */
  lemma RefreshedIsMerged(requests: seq<ReviewRequest>, records: Records, name: string, version: string,
                          visits: set<Visit>)
    requires WellNamed(records) && Functional(visits) && AskAbout(requests, name, Some(version), visits)
    ensures Refreshed(name, version, visits, Last(records, name)) == Merged(requests, name, Last(records, name))
    ensures !Unsatisfied(requests, records, name) ==>
              name in records && Refreshed(name, version, visits, Last(records, name)) == records[name].seen
  {
    AsksMention(requests, name, Some(version), visits, OfBinding);
    AsksMention(requests, name, Some(version), visits, OfRole);
    var before := if name in records then records[name].seen.version else "";
    AsksGatherVersion(requests, name, Some(version), visits, before);
    if !Unsatisfied(requests, records, name) {
      StaleIsUnsatisfied(requests, records, name, version, visits);
      NothingMerged(requests, records, name);
    }
  }

  lemma SynchronizedOneName(cfg: Config, snap: Snapshot, st: State, requests: seq<ReviewRequest>, n: string)
    requires snap.Valid() && Consistent(st) && IsSchedule(cfg, snap, st.known, requests) && n in snap.Listed()
    ensures n in Run(cfg, snap, requests, st.records)
    ensures Run(cfg, snap, requests, st.records)[n] == SynchronizedRecord(cfg, snap, st, n)
  {
    var version, visits := snap.clusters[n].version, VisitsTo(cfg, snap, st.known, n);
    VisitsAreFunctional(cfg, snap, st.known, n);
    ScheduleAsks(cfg, snap, st.known, requests, n);
    RunOneName(cfg, snap, requests, st.records, n);
    StaleIsUnsatisfied(requests, st.records, n, version, visits);
    RefreshedIsMerged(requests, st.records, n, version, visits);
  }

  lemma SynchronizedAt(cfg: Config, snap: Snapshot, st: State, n: string)
    requires n in snap.Listed()
    ensures n in Synchronized(cfg, snap, st).records
    ensures Synchronized(cfg, snap, st).records[n] == SynchronizedRecord(cfg, snap, st, n)
  {
  }

  lemma SynchronizedIsConsistent(cfg: Config, snap: Snapshot, st: State)
    ensures Consistent(Synchronized(cfg, snap, st))
  {
  }

  lemma SynchronizedNames(cfg: Config, snap: Snapshot, st: State)
    ensures Synchronized(cfg, snap, st).known == snap.Listed()
    ensures Synchronized(cfg, snap, st).records.Keys == snap.Listed()
  {
  }

  /**
   Refinement: every synchronization, whatever the order of its requests, ends in the closed form.
   The binding pass may insert records for names outside the listing; the purge removes them.
   */
  lemma RoundIsSynchronized(cfg: Config, snap: Snapshot, st: State, requests: seq<ReviewRequest>)
    requires snap.Valid() && Consistent(st) && IsSchedule(cfg, snap, st.known, requests)
    ensures State(snap.Listed(), Purge(Run(cfg, snap, requests, st.records), snap.Listed()))
            == Synchronized(cfg, snap, st)
  {
    forall n | n in snap.Listed()
      ensures RecordIs(Run(cfg, snap, requests, st.records), cfg, snap, st, n)
    {
      SynchronizedOneName(cfg, snap, st, requests, n);
    }
    PurgedIsSynchronized(cfg, snap, st, Run(cfg, snap, requests, st.records));
  }

  ghost predicate RecordIs(records: Records, cfg: Config, snap: Snapshot, st: State, n: string) {
    n in snap.clusters && n in records && records[n] == SynchronizedRecord(cfg, snap, st, n)
  }

  lemma PurgedIsSynchronized(cfg: Config, snap: Snapshot, st: State, run: Records)
    requires forall n :: n in snap.Listed() ==> RecordIs(run, cfg, snap, st, n)
    ensures State(snap.Listed(), Purge(run, snap.Listed())) == Synchronized(cfg, snap, st)
  {
    hide Purge, SynchronizedRecord, Synchronized;
    var closed := Synchronized(cfg, snap, st);
    SynchronizedNames(cfg, snap, st);
    forall n | n in snap.Listed()
      ensures n in run && n in closed.records && run[n] == closed.records[n]
    {
      assert RecordIs(run, cfg, snap, st, n);
      SynchronizedAt(cfg, snap, st, n);
    }
    PurgeIs(run, snap.Listed(), closed);
  }

  lemma PurgeIs(records: Records, names: set<string>, closed: State)
    requires closed.known == names == closed.records.Keys
    requires forall n :: n in names ==> n in records && records[n] == closed.records[n]
    ensures State(names, Purge(records, names)) == closed
  {
    assert Purge(records, names) == closed.records;
  }
}
