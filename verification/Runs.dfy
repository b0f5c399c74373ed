/**
 What the cache guarantees over whole runs: any sequence of snapshots, one synchronization each.
 The record of a name is compared with the direct review of that name, although most reviews are
 skipped.
 */
module Runs {
  import opened Options
  import opened Rbac
  import opened Reviews
  import opened Requests
  import opened Rounds

  ghost function StateAfter(cfg: Config, run: seq<Snapshot>): State {
    if run == [] then EMPTY
    else Synchronized(cfg, run[|run| - 1], StateAfter(cfg, run[..|run| - 1]))
  }

  ghost function Front(run: seq<Snapshot>): seq<Snapshot>
    requires run != []
  {
    run[..|run| - 1]
  }

  function Now(run: seq<Snapshot>): Snapshot
    requires run != []
  {
    run[|run| - 1]
  }

  /** An object of this kind with this uid and version is in the snapshot. */
  ghost predicate Shows(snap: Snapshot, kind: Kind, x: Versioned) {
    match kind
    case OfBinding => exists b | b in snap.bindings :: Versioned(b.uid, b.version) == x
    case OfRole => exists n | n in snap.roles :: Versioned(snap.roles[n].uid, snap.roles[n].version) == x
  }

  ghost predicate Seen(run: seq<Snapshot>, kind: Kind, x: Versioned) {
    exists i | 0 <= i < |run| :: Shows(run[i], kind, x)
  }

  /**
   Kubernetes versions: an object is unchanged since the previous snapshot, or carries a (uid,
   version) never seen before.
   */
  ghost predicate FreshVersions(before: seq<Snapshot>, snap: Snapshot) {
    before != [] ==>
      && (forall b | b in snap.bindings && Seen(before, OfBinding, Versioned(b.uid, b.version)) ::
            b in Now(before).bindings)
      && (forall n | n in snap.roles && Seen(before, OfRole, Versioned(snap.roles[n].uid, snap.roles[n].version)) ::
            n in Now(before).roles && Now(before).roles[n] == snap.roles[n])
  }

  ghost predicate ValidRun(run: seq<Snapshot>) {
    run != [] ==> ValidRun(Front(run)) && Now(run).Valid() && FreshVersions(Front(run), Now(run))
  }

  /** Known-name conservation: the records are those of the known names, which are the ones just listed. */
  lemma KnownNames(cfg: Config, run: seq<Snapshot>)
    ensures Consistent(StateAfter(cfg, run))
    ensures run != [] ==> StateAfter(cfg, run).known == Now(run).Listed()
  {
    if run != [] {
      SynchronizedIsConsistent(cfg, Now(run), StateAfter(cfg, Front(run)));
    }
  }

  lemma ValidOneMore(run: seq<Snapshot>, snap: Snapshot)
    requires ValidRun(run) && snap.Valid() && FreshVersions(run, snap)
    ensures ValidRun(run + [snap])
  {
    assert Front(run + [snap]) == run;
  }

  lemma AfterOneMore(cfg: Config, run: seq<Snapshot>, snap: Snapshot)
    ensures StateAfter(cfg, run + [snap]) == Synchronized(cfg, snap, StateAfter(cfg, run))
  {
    assert (run + [snap])[..|run|] == run;
  }

  /******* One step *******/

  /** A round leaves a name's record alone, or gives it the direct review. */
  lemma StepOfName(cfg: Config, snap: Snapshot, st: State, n: string)
    requires snap.Valid() && Consistent(st) && n in Synchronized(cfg, snap, st).records
    ensures n in snap.Listed()
    ensures if NeedsReview(cfg, snap, st, n)
            then Synchronized(cfg, snap, st).records[n].access == Direct(cfg, snap, n)
            else n in st.records && Synchronized(cfg, snap, st).records[n] == st.records[n]
  {
    SynchronizedAt(cfg, snap, st, n);
    if !NeedsReview(cfg, snap, st, n) {
      NotStaleIsUnchanged(n, snap.clusters[n].version, VisitsTo(cfg, snap, st.known, n), st.records[n].seen);
    }
  }

  lemma NotStaleIsUnchanged(name: string, version: string, visits: set<Visit>, seen: ReviewRequest)
    requires seen.name == name && !Stale(version, visits, Some(seen))
    ensures Refreshed(name, version, visits, Some(seen)) == seen
  {
    assert seen.bindingVersions + VersionMap(Objects(visits, OfBinding)) == seen.bindingVersions;
    assert seen.roleVersions + VersionMap(Objects(visits, OfRole)) == seen.roleVersions;
  }

  /** After a round, a covered name has observed the binding and role that cover it. */
  ghost predicate Recorded(seen: ReviewRequest, v: Visit) {
    forall kind :: v.Object(kind).uid in seen.Versions(kind)
                   && seen.Versions(kind)[v.Object(kind).uid] == v.Object(kind).version
  }

  lemma VisitIsRecorded(name: string, version: string, visits: set<Visit>, last: Option<ReviewRequest>, v: Visit)
    requires Functional(visits) && v in visits
    ensures Recorded(Refreshed(name, version, visits, last), v)
  {
    hide VersionMap;
    forall kind
      ensures v.Object(kind).uid in Refreshed(name, version, visits, last).Versions(kind)
      ensures Refreshed(name, version, visits, last).Versions(kind)[v.Object(kind).uid] == v.Object(kind).version
    {
      VersionMapAt(Objects(visits, kind));
      assert v.Object(kind) in Objects(visits, kind);
    }
  }

  /******* Observed versions have been seen *******/

  ghost predicate AllSeen(run: seq<Snapshot>, seen: ReviewRequest) {
    forall kind, uid :: uid in seen.Versions(kind) ==> Seen(run, kind, Versioned(uid, seen.Versions(kind)[uid]))
  }

  lemma SeenLater(run: seq<Snapshot>, kind: Kind, x: Versioned)
    requires run != [] && (Seen(Front(run), kind, x) || Shows(Now(run), kind, x))
    ensures Seen(run, kind, x)
  {
    if Seen(Front(run), kind, x) {
      var i :| 0 <= i < |run| - 1 && Shows(Front(run)[i], kind, x);
      assert Shows(run[i], kind, x);
    }
  }

  lemma VisitIsShown(cfg: Config, snap: Snapshot, known: set<string>, name: string, kind: Kind, x: Versioned)
    requires x in Objects(VisitsTo(cfg, snap, known, name), kind)
    ensures Shows(snap, kind, x)
  {
    var v :| v in VisitsTo(cfg, snap, known, name) && v.Object(kind) == x;
    var b :| b in snap.bindings && Covering(cfg, snap, known, b, name) && v == VisitOf(b, snap.roles[b.roleRef]);
  }

  lemma RefreshedVersion(name: string, version: string, visits: set<Visit>, last: Option<ReviewRequest>,
                         kind: Kind, uid: string)
    requires uid in Refreshed(name, version, visits, last).Versions(kind)
    ensures var x := Versioned(uid, Refreshed(name, version, visits, last).Versions(kind)[uid]);
            || x in Objects(visits, kind)
            || (last.Some? && uid in last.value.Versions(kind) && last.value.Versions(kind)[uid] == x.version)
  {
  }

  lemma {:induction false} ObservedIsSeen(cfg: Config, run: seq<Snapshot>, n: string)
    requires n in StateAfter(cfg, run).records
    ensures AllSeen(run, StateAfter(cfg, run).records[n].seen)
  {
    var before, snap := StateAfter(cfg, Front(run)), Now(run);
    SynchronizedAt(cfg, snap, before, n);
    var visits, last := VisitsTo(cfg, snap, before.known, n), Last(before.records, n);
    var seen := Refreshed(n, snap.clusters[n].version, visits, last);
    if n in before.records {
      ObservedIsSeen(cfg, Front(run), n);
    }
    forall kind, uid | uid in seen.Versions(kind)
      ensures Seen(run, kind, Versioned(uid, seen.Versions(kind)[uid]))
    {
      var x := Versioned(uid, seen.Versions(kind)[uid]);
      RefreshedVersion(n, snap.clusters[n].version, visits, last, kind, uid);
      if x in Objects(visits, kind) {
        VisitIsShown(cfg, snap, before.known, n, kind, x);
      }
      SeenLater(run, kind, x);
    }
  }

  /******* No lost grants *******/

  /** A binding and its role, both recorded for a name, have their subjects in the name's record. */
  ghost predicate GrantKept(cfg: Config, snap: Snapshot, record: Record, b: Binding) {
    Grants(snap, b, GetRequest(cfg, record.seen.name)) && Recorded(record.seen, VisitOf(b, snap.roles[b.roleRef]))
    ==> record.access.Includes(AccessOf(cfg, set s | s in b.subjects))
  }

  lemma {:induction false} GrantsKept(cfg: Config, run: seq<Snapshot>, n: string, b: Binding)
    requires ValidRun(run) && n in StateAfter(cfg, run).records && b in Now(run).bindings
    ensures GrantKept(cfg, Now(run), StateAfter(cfg, run).records[n], b)
  {
    var front, before, snap := Front(run), StateAfter(cfg, Front(run)), Now(run);
    var record := StateAfter(cfg, run).records[n];
    KnownNames(cfg, front);
    KnownNames(cfg, run);
    StepOfName(cfg, snap, before, n);
    if Grants(snap, b, GetRequest(cfg, n)) && Recorded(record.seen, VisitOf(b, snap.roles[b.roleRef])) {
      if NeedsReview(cfg, snap, before, n) {
        DirectIncludesBinding(cfg, snap, b, n);
      } else {
        ObservedIsSeen(cfg, front, n);
        RecordedIsUnchanged(front, snap, record.seen, b);
        GrantsKept(cfg, front, n, b);
      }
    }
  }

  /** A current binding and role that were recorded before are those of the previous snapshot. */
  lemma RecordedIsUnchanged(before: seq<Snapshot>, snap: Snapshot, seen: ReviewRequest, b: Binding)
    requires before != [] && FreshVersions(before, snap) && AllSeen(before, seen) && snap.Valid()
    requires b in snap.bindings && b.roleRef in snap.roles && Recorded(seen, VisitOf(b, snap.roles[b.roleRef]))
    ensures b in Now(before).bindings
    ensures b.roleRef in Now(before).roles && Now(before).roles[b.roleRef] == snap.roles[b.roleRef]
  {
    var v := VisitOf(b, snap.roles[b.roleRef]);
    assert v.Object(OfBinding).uid in seen.Versions(OfBinding);
    assert v.Object(OfRole).uid in seen.Versions(OfRole);
    assert Seen(before, OfBinding, v.binding);
    assert Seen(before, OfRole, v.role);
  }

  /** After every round, each binding that grants get on a listed name has its subjects in the record. */
  lemma BindingNotLost(cfg: Config, run: seq<Snapshot>, n: string, b: Binding)
    requires run != [] && ValidRun(run) && n in Now(run).Listed()
    requires b in Now(run).bindings && Grants(Now(run), b, GetRequest(cfg, n))
    ensures n in StateAfter(cfg, run).records
    ensures StateAfter(cfg, run).records[n].access.Includes(AccessOf(cfg, set s | s in b.subjects))
  {
    var before, snap := StateAfter(cfg, Front(run)), Now(run);
    KnownNames(cfg, Front(run));
    KnownNames(cfg, run);
    StepOfName(cfg, snap, before, n);
    SynchronizedAt(cfg, snap, before, n);
    if NeedsReview(cfg, snap, before, n) {
      DirectIncludesBinding(cfg, snap, b, n);
    } else {
      ExtractorCovers(cfg, snap.roles[b.roleRef].rules, n);
      var visits := VisitsTo(cfg, snap, before.known, n);
      assert Covering(cfg, snap, before.known, b, n);
      VisitsAreFunctional(cfg, snap, before.known, n);
      VisitIsRecorded(n, snap.clusters[n].version, visits, Last(before.records, n), VisitOf(b, snap.roles[b.roleRef]));
      GrantsKept(cfg, run, n, b);
    }
  }

  /** The subjects that direct evaluation allows whatever the bindings. */
  function FixedSubjects(cfg: Config): set<Subject> {
    {MASTERS} + if cfg.superUser != "" then {SuperUser(cfg)} else {}
  }

  lemma {:induction false} FixedNotLost(cfg: Config, run: seq<Snapshot>, n: string)
    requires ValidRun(run) && n in StateAfter(cfg, run).records
    ensures StateAfter(cfg, run).records[n].access.Includes(AccessOf(cfg, FixedSubjects(cfg)))
  {
    var before, snap := StateAfter(cfg, Front(run)), Now(run);
    KnownNames(cfg, Front(run));
    StepOfName(cfg, snap, before, n);
    if NeedsReview(cfg, snap, before, n) {
      assert FixedSubjects(cfg) <= AllowedSet(cfg, snap, GetRequest(cfg, n));
    } else {
      FixedNotLost(cfg, Front(run), n);
    }
  }

  /**
   No lost grants, over every run: after each synchronization the record of every listed name
   includes the whole direct review of the current snapshot.
   */
  lemma NoLostGrants(cfg: Config, run: seq<Snapshot>, n: string)
    requires run != [] && ValidRun(run) && n in Now(run).Listed()
    ensures n in StateAfter(cfg, run).records
    ensures StateAfter(cfg, run).records[n].access.Includes(Direct(cfg, Now(run), n))
  {
    KnownNames(cfg, run);
    var allowed, access := AllowedSet(cfg, Now(run), GetRequest(cfg, n)), StateAfter(cfg, run).records[n].access;
    forall s | s in allowed
      ensures access.Includes(AccessOf(cfg, {s}))
    {
      SubjectNotLost(cfg, run, n, s);
    }
    IncludesEach(cfg, access, allowed);
  }

  lemma SubjectNotLost(cfg: Config, run: seq<Snapshot>, n: string, s: Subject)
    requires run != [] && ValidRun(run) && n in Now(run).Listed() && n in StateAfter(cfg, run).records
    requires Allowed(cfg, Now(run), GetRequest(cfg, n), s)
    ensures StateAfter(cfg, run).records[n].access.Includes(AccessOf(cfg, {s}))
  {
    hide StateAfter, ValidRun, AccessOf, RulesAllow;
    if s in FixedSubjects(cfg) {
      FixedNotLost(cfg, run, n);
      IncludesPart(cfg, StateAfter(cfg, run).records[n].access, {s}, FixedSubjects(cfg));
    } else {
      var b :| b in Now(run).bindings && Grants(Now(run), b, GetRequest(cfg, n)) && s in b.subjects;
      BindingNotLost(cfg, run, n, b);
      IncludesPart(cfg, StateAfter(cfg, run).records[n].access, {s}, set t | t in b.subjects);
    }
  }

  lemma IncludesPart(cfg: Config, access: Access, part: set<Subject>, whole: set<Subject>)
    requires part <= whole && access.Includes(AccessOf(cfg, whole))
    ensures access.Includes(AccessOf(cfg, part))
  {
  }

  lemma IncludesEach(cfg: Config, access: Access, subjects: set<Subject>)
    requires forall s :: s in subjects ==> access.Includes(AccessOf(cfg, {s}))
    ensures access.Includes(AccessOf(cfg, subjects))
  {
    forall u | u in AccessOf(cfg, subjects).users
      ensures u in access.users
    {
      var s :| s in subjects && cfg.principal(s) == UserName(u);
      assert u in AccessOf(cfg, {s}).users;
    }
    forall g | g in AccessOf(cfg, subjects).groups
      ensures g in access.groups
    {
      var s :| s in subjects && cfg.principal(s) == GroupName(g);
      assert g in AccessOf(cfg, {s}).groups;
    }
  }

  /** Nobody who may get a listed cluster misses it in the list. */
  lemma EveryGrantIsListed(cfg: Config, run: seq<Snapshot>, n: string, user: User)
    requires run != [] && ValidRun(run) && n in Now(run).Listed() && MayGet(cfg, Now(run), n, user)
    ensures n in ListNames(StateAfter(cfg, run), user)
  {
    NoLostGrants(cfg, run, n);
    DirectIsEvaluation(cfg, Now(run), n, user);
  }

  const EVERYTHING := PolicyRule(["*"], ["*"], ["*"], [], [])

  /** An administrator, bound to a role that allows everything, has every listed cluster in the list. */
  lemma AdminsAreListed(cfg: Config, run: seq<Snapshot>, n: string, b: Binding, s: Subject, user: User)
    requires run != [] && ValidRun(run) && n in Now(run).Listed()
    requires b in Now(run).bindings && b.roleRef in Now(run).roles && s in b.subjects
    requires EVERYTHING in Now(run).roles[b.roleRef].rules
    requires cfg.principal(s) == UserName(user.name) || exists g | g in user.groups :: cfg.principal(s) == GroupName(g)
    ensures n in ListNames(StateAfter(cfg, run), user)
  {
    AllowedIff(cfg, Now(run), n, s);
    assert "*" in EVERYTHING.verbs && "*" in EVERYTHING.apiGroups && "*" in EVERYTHING.resources;
    assert MayGet(cfg, Now(run), n, user);
    EveryGrantIsListed(cfg, run, n, user);
  }

  /******* Exactness on grow-only runs *******/

  /** No direct review loses a subject from one snapshot to the next. */
  ghost predicate GrowOnly(cfg: Config, run: seq<Snapshot>) {
    run != [] && Front(run) != [] ==>
      GrowOnly(cfg, Front(run)) && Grows(cfg, Now(Front(run)), Now(run))
  }

  ghost predicate Grows(cfg: Config, before: Snapshot, after: Snapshot) {
    forall n: string :: Direct(cfg, after, n).Includes(Direct(cfg, before, n))
  }

  lemma {:induction false} NoStaleGrants(cfg: Config, run: seq<Snapshot>, n: string)
    requires ValidRun(run) && GrowOnly(cfg, run) && n in StateAfter(cfg, run).records
    ensures Direct(cfg, Now(run), n).Includes(StateAfter(cfg, run).records[n].access)
  {
    var before, snap := StateAfter(cfg, Front(run)), Now(run);
    KnownNames(cfg, Front(run));
    StepOfName(cfg, snap, before, n);
    if !NeedsReview(cfg, snap, before, n) {
      NoStaleGrants(cfg, Front(run), n);
      assert Direct(cfg, snap, n).Includes(Direct(cfg, Now(Front(run)), n));
    }
  }

  /**
   Exact agreement on grow-only runs: the cache lists for a user exactly the existing clusters that
   direct evaluation lets the user get.
   */
  lemma ExactOnGrowOnly(cfg: Config, run: seq<Snapshot>, user: User)
    requires run != [] && ValidRun(run) && GrowOnly(cfg, run)
    ensures forall n :: n in ListNames(StateAfter(cfg, run), user) <==>
                          n in Now(run).Listed() && MayGet(cfg, Now(run), n, user)
  {
    KnownNames(cfg, run);
    forall n | n in Now(run).Listed()
      ensures n in ListNames(StateAfter(cfg, run), user) <==> MayGet(cfg, Now(run), n, user)
    {
      NoLostGrants(cfg, run, n);
      NoStaleGrants(cfg, run, n);
      DirectIsEvaluation(cfg, Now(run), n, user);
    }
  }

  /******* Bounded staleness *******/

  /** The name has been listed in every round from the i-th on. */
  ghost predicate ListedSince(run: seq<Snapshot>, n: string, i: nat) {
    run != [] && n in Now(run).Listed() && i < |run| && (i == |run| - 1 || ListedSince(Front(run), n, i))
  }

  /** The names known after these rounds, from a state that knew `start`: those just listed. */
  ghost function KnownAfter(start: set<string>, run: seq<Snapshot>): set<string> {
    if run == [] then start else Now(run).Listed()
  }

  /** The names known when the last round of a run began. */
  ghost function KnownBefore(run: seq<Snapshot>): set<string>
    requires run != []
  {
    KnownAfter({}, Front(run))
  }

  /** The last non-empty version that a name has been listed with since it appeared, if any. */
  ghost function LastVersion(run: seq<Snapshot>, n: string): string {
    if run == [] || n !in Now(run).Listed() then ""
    else if Now(run).clusters[n].version != "" then Now(run).clusters[n].version
    else LastVersion(Front(run), n)
  }

  /** In the last round the binding covered the name. */
  ghost predicate CoveredBy(cfg: Config, run: seq<Snapshot>, n: string, b: Binding) {
    run != [] && b in Now(run).bindings && Covering(cfg, Now(run), KnownBefore(run), b, n)
  }

  /** ... and so it did in the round before, as the same binding with the same role. */
  ghost predicate AlreadyCoveredBy(cfg: Config, run: seq<Snapshot>, n: string, b: Binding)
    requires CoveredBy(cfg, run, n, b)
  {
    CoveredBy(cfg, Front(run), n, b) && Now(Front(run)).roles[b.roleRef] == Now(run).roles[b.roleRef]
  }

  /**
   The snapshots give a reason to review a listed name: it was not listed the last time, or its cluster
   has another non-empty version, or some binding covers it that did not already do so.
   */
  ghost predicate HasReason(cfg: Config, run: seq<Snapshot>, n: string)
    requires run != [] && n in Now(run).Listed()
  {
    || n !in KnownBefore(run)
    || (Now(run).clusters[n].version != "" && Now(run).clusters[n].version != LastVersion(Front(run), n))
    || exists b | b in Now(run).bindings :: CoveredBy(cfg, run, n, b) && !AlreadyCoveredBy(cfg, run, n, b)
  }

  /** A record's version is the last non-empty one listed. */
  lemma {:induction false} RecordedVersion(cfg: Config, run: seq<Snapshot>, n: string)
    requires n in StateAfter(cfg, run).records
    ensures StateAfter(cfg, run).records[n].seen.version == LastVersion(run, n)
  {
    hide Direct, NeedsReview;
    var before := StateAfter(cfg, Front(run));
    SynchronizedAt(cfg, Now(run), before, n);
    KnownNames(cfg, Front(run));
    if n in before.records {
      RecordedVersion(cfg, Front(run), n);
    }
  }

  /** The two versions of a visit are recorded. */
  lemma RecordedByKind(seen: ReviewRequest, v: Visit)
    ensures Recorded(seen, v) <==>
            && v.binding.uid in seen.bindingVersions && seen.bindingVersions[v.binding.uid] == v.binding.version
            && v.role.uid in seen.roleVersions && seen.roleVersions[v.role.uid] == v.role.version
  {
    var binding, role := v.Object(OfBinding), v.Object(OfRole);
    assert binding == v.binding && role == v.role;
    assert seen.Versions(OfBinding) == seen.bindingVersions && seen.Versions(OfRole) == seen.roleVersions;
  }

  /**
   The heart of it: for a name listed in both rounds, the binding and role of a visit are recorded if
   and only if that visit was already made in the round before.
   */
  lemma RecordedIffCovered(cfg: Config, run: seq<Snapshot>, n: string, b: Binding)
    requires ValidRun(run) && run != [] && n in StateAfter(cfg, Front(run)).records && CoveredBy(cfg, run, n, b)
    ensures Recorded(StateAfter(cfg, Front(run)).records[n].seen, VisitOf(b, Now(run).roles[b.roleRef]))
            <==> AlreadyCoveredBy(cfg, run, n, b)
  {
    hide StateAfter, ValidRun, NeedsReview, SynchronizedRecord, Recorded, Synchronized;
    var front := Front(run);
    var seen, role := StateAfter(cfg, front).records[n].seen, Now(run).roles[b.roleRef];
    KnownNames(cfg, front);
    ValidFront(cfg, run);
    if AlreadyCoveredBy(cfg, run, n, b) {
      CoveredIsRecorded(cfg, front, n, b);
    }
    if Recorded(seen, VisitOf(b, role)) {
      ObservedIsSeen(cfg, front, n);
      RecordedIsUnchanged(front, Now(run), seen, b);
      RecordedWasCovered(cfg, front, n, b);
    }
  }

  lemma ValidFront(cfg: Config, run: seq<Snapshot>)
    requires ValidRun(run) && run != []
    ensures ValidRun(Front(run)) && Now(run).Valid() && FreshVersions(Front(run), Now(run))
    ensures Front(run) != [] ==> Now(Front(run)).Valid()
    ensures KnownBefore(run) == StateAfter(cfg, Front(run)).known
  {
    KnownNames(cfg, Front(run));
  }

  /** What covers a listed name is recorded by the round. */
  lemma CoveredIsRecorded(cfg: Config, run: seq<Snapshot>, n: string, b: Binding)
    requires ValidRun(run) && n in StateAfter(cfg, run).records && CoveredBy(cfg, run, n, b)
    ensures Recorded(StateAfter(cfg, run).records[n].seen, VisitOf(b, Now(run).roles[b.roleRef]))
  {
    hide ValidRun, NeedsReview, Recorded, Refreshed, VisitsTo, Direct;
    var before, snap := StateAfter(cfg, Front(run)), Now(run);
    ValidFront(cfg, run);
    SynchronizedAt(cfg, snap, before, n);
    var visits := VisitsTo(cfg, snap, before.known, n);
    VisitsAreFunctional(cfg, snap, before.known, n);
    CoveringVisits(cfg, snap, before.known, n, b);
    VisitIsRecorded(n, snap.clusters[n].version, visits, Last(before.records, n), VisitOf(b, snap.roles[b.roleRef]));
  }

  lemma CoveringVisits(cfg: Config, snap: Snapshot, known: set<string>, n: string, b: Binding)
    requires b in snap.bindings && Covering(cfg, snap, known, b, n)
    ensures VisitOf(b, snap.roles[b.roleRef]) in VisitsTo(cfg, snap, known, n)
  {
  }

  /**
   A binding of the snapshot that is recorded, and whose role is about the name, covered it: a role
   about all names misses only the names that are new, and what is recorded for those was visited.
   */
  lemma RecordedWasCovered(cfg: Config, run: seq<Snapshot>, n: string, b: Binding)
    requires ValidRun(run) && n in StateAfter(cfg, run).records
    requires b in Now(run).bindings && b.roleRef in Now(run).roles
    requires var rules := Now(run).roles[b.roleRef].rules;
             AllIn(rules, cfg.apiGroup, cfg.resource) || n in NamesIn(rules, cfg.apiGroup, cfg.resource)
    requires Recorded(StateAfter(cfg, run).records[n].seen, VisitOf(b, Now(run).roles[b.roleRef]))
    ensures CoveredBy(cfg, run, n, b)
  {
    hide ValidRun, NeedsReview, Direct, AllIn, NamesIn;
    var before, snap := StateAfter(cfg, Front(run)), Now(run);
    ValidFront(cfg, run);
    KnownNames(cfg, Front(run));
    if n !in before.known {
      SynchronizedAt(cfg, snap, before, n);
      RecordedByKind(StateAfter(cfg, run).records[n].seen, VisitOf(b, snap.roles[b.roleRef]));
      NewIsVisited(cfg, snap, before.known, n, snap.clusters[n].version, b);
    }
  }

  /** A binding recorded by the very first review of a name was visited. */
  lemma NewIsVisited(cfg: Config, snap: Snapshot, known: set<string>, n: string, version: string, b: Binding)
    requires snap.Valid() && b in snap.bindings
    requires b.uid in Refreshed(n, version, VisitsTo(cfg, snap, known, n), None).bindingVersions
    ensures Covering(cfg, snap, known, b, n)
  {
    var visits := VisitsTo(cfg, snap, known, n);
    var x := Find(Objects(visits, OfBinding), b.uid);
    var v :| v in visits && v.Object(OfBinding) == x;
    var d :| d in snap.bindings && Covering(cfg, snap, known, d, n) && v == VisitOf(d, snap.roles[d.roleRef]);
    assert d.uid == b.uid;
  }

  /** A role about all names is applied to the names of the round before: its bindings do not visit a new one. */
  lemma AllRolesSkipNewNames(cfg: Config, run: seq<Snapshot>, n: string, b: Binding, rule: PolicyRule)
    requires ValidRun(run) && run != [] && n in Now(run).Listed()
    requires Front(run) == [] || n !in Now(Front(run)).Listed()
    requires b in Now(run).bindings && b.roleRef in Now(run).roles && rule in Now(run).roles[b.roleRef].rules
    requires rule.resourceNames == [] && ("*" in rule.apiGroups || cfg.apiGroup in rule.apiGroups)
    requires "*" in rule.resources || cfg.resource in rule.resources
    ensures n in StateAfter(cfg, run).records
    ensures b.uid !in StateAfter(cfg, run).records[n].seen.bindingVersions
  {
    hide ValidRun, NeedsReview, Direct, Targets;
    var before, snap := StateAfter(cfg, Front(run)), Now(run);
    ValidFront(cfg, run);
    KnownNames(cfg, Front(run));
    SynchronizedAt(cfg, snap, before, n);
    CoveringIff(cfg, snap, before.known, b, n);
    if b.uid in StateAfter(cfg, run).records[n].seen.bindingVersions {
      NewIsVisited(cfg, snap, before.known, n, snap.clusters[n].version, b);
    }
  }

  /** The round reviews a listed name if and only if the snapshots give a reason. */
  lemma NeedsReviewIff(cfg: Config, run: seq<Snapshot>, n: string)
    requires ValidRun(run) && run != [] && n in Now(run).Listed()
    ensures NeedsReview(cfg, Now(run), StateAfter(cfg, Front(run)), n) <==> HasReason(cfg, run, n)
  {
    hide StateAfter, ValidRun, Recorded, Targets, Synchronized, AlreadyCoveredBy;
    var before, snap := StateAfter(cfg, Front(run)), Now(run);
    ValidFront(cfg, run);
    KnownNames(cfg, Front(run));
    if n in before.known {
      RecordedVersion(cfg, Front(run), n);
      VisitsAreFunctional(cfg, snap, before.known, n);
      var seen := before.records[n].seen;
      AllVisitsRecorded(cfg, snap, before.known, n, seen);
      forall b | b in snap.bindings && Covering(cfg, snap, before.known, b, n)
        ensures Recorded(seen, VisitOf(b, snap.roles[b.roleRef])) <==> AlreadyCoveredBy(cfg, run, n, b)
      {
        RecordedIffCovered(cfg, run, n, b);
      }
    }
  }

  lemma AllVisitsRecorded(cfg: Config, snap: Snapshot, known: set<string>, n: string, seen: ReviewRequest)
    requires snap.Valid() && seen.name == n
    ensures var visits := VisitsTo(cfg, snap, known, n);
            && AllKnown(VersionMap(Objects(visits, OfBinding)), seen.bindingVersions)
            && AllKnown(VersionMap(Objects(visits, OfRole)), seen.roleVersions)
            <==> forall b | b in snap.bindings && Covering(cfg, snap, known, b, n) ::
                   Recorded(seen, VisitOf(b, snap.roles[b.roleRef]))
  {
    hide Recorded, Covering, Functional, VersionMap, AllKnown, Objects, SkipReview;
    var visits := VisitsTo(cfg, snap, known, n);
    VisitsAreFunctional(cfg, snap, known, n);
    AllVisitsKnown(visits, seen);
    forall v: Visit
      ensures SkipReview(BindingRequest(v, seen.name), Some(seen)) <==> Recorded(seen, v)
    {
      VisitSkipped(v, seen.name, seen);
      RecordedByKind(seen, v);
    }
  }

  /** The last round that had a reason to review the name, or -1. */
  ghost function LastReviewed(cfg: Config, run: seq<Snapshot>, n: string): int {
    if run == [] then -1
    else if n in Now(run).Listed() && HasReason(cfg, run, n) then |run| - 1
    else LastReviewed(cfg, Front(run), n)
  }

  /**
   Every record is the direct review of the last snapshot that gave a reason to review its name, and
   the name has been listed in every round since.
   */
  lemma {:induction false} BoundedStaleness(cfg: Config, run: seq<Snapshot>, n: string)
    requires ValidRun(run) && n in StateAfter(cfg, run).records
    ensures 0 <= LastReviewed(cfg, run, n) < |run| && ListedSince(run, n, LastReviewed(cfg, run, n))
    ensures StateAfter(cfg, run).records[n].access == Direct(cfg, run[LastReviewed(cfg, run, n)], n)
  {
    hide Direct, NeedsReview, Synchronized, FreshVersions, HasReason;
    var front, before, snap := Front(run), StateAfter(cfg, Front(run)), Now(run);
    KnownNames(cfg, front);
    StepOfName(cfg, snap, before, n);
    NeedsReviewIff(cfg, run, n);
    if !NeedsReview(cfg, snap, before, n) {
      BoundedStaleness(cfg, front, n);
      assert front[LastReviewed(cfg, front, n)] == run[LastReviewed(cfg, front, n)];
    }
  }

  /** So the cache answers for a listed name as direct evaluation did at that snapshot. */
  lemma ListedIff(cfg: Config, run: seq<Snapshot>, n: string, user: User)
    requires run != [] && ValidRun(run) && n in Now(run).Listed()
    ensures 0 <= LastReviewed(cfg, run, n) < |run|
    ensures n in ListNames(StateAfter(cfg, run), user) <==> MayGet(cfg, run[LastReviewed(cfg, run, n)], n, user)
  {
    hide Direct, MayGet, StateAfter, ValidRun, LastReviewed;
    KnownNames(cfg, run);
    BoundedStaleness(cfg, run, n);
    DirectIsEvaluation(cfg, run[LastReviewed(cfg, run, n)], n, user);
  }

  /******* Stabilisation *******/

  /** The visits to a name depend on the known names only through the name itself. */
  lemma VisitsByMembership(cfg: Config, snap: Snapshot, a: set<string>, b: set<string>, n: string)
    requires n in a <==> n in b
    ensures VisitsTo(cfg, snap, a, n) == VisitsTo(cfg, snap, b, n)
  {
    forall d | d in snap.bindings
      ensures Covering(cfg, snap, a, d, n) <==> Covering(cfg, snap, b, d, n)
    {
    }
  }

  /** Once refreshed, a name gives no reason to be reviewed again. */
  lemma RefreshedIsNotStale(name: string, version: string, visits: set<Visit>, last: Option<ReviewRequest>)
    ensures !Stale(version, visits, Some(Refreshed(name, version, visits, last)))
  {
  }

  /** A state that already knows the listing is settled by one round. */
  lemma Settles(cfg: Config, snap: Snapshot, st: State)
    requires snap.Valid() && Consistent(st)
    ensures st.known == snap.Listed() ==>
              Synchronized(cfg, snap, Synchronized(cfg, snap, st)) == Synchronized(cfg, snap, st)
  {
    hide SynchronizedRecord, NeedsReview, RecordIs, Direct;
    var next := Synchronized(cfg, snap, st);
    SynchronizedIsConsistent(cfg, snap, st);
    if st.known == snap.Listed() {
      forall n | n in snap.Listed()
        ensures RecordIs(next.records, cfg, snap, next, n)
      {
        SettledRecord(cfg, snap, st, n);
      }
      PurgedIsSynchronized(cfg, snap, next, next.records);
      assert Purge(next.records, snap.Listed()) == next.records;
    }
  }

  /** A name known before the round is left alone by the next round on the same snapshot. */
  lemma SettledRecord(cfg: Config, snap: Snapshot, st: State, n: string)
    requires snap.Valid() && Consistent(st) && n in snap.Listed() && n in st.known
    ensures RecordIs(Synchronized(cfg, snap, st).records, cfg, snap, Synchronized(cfg, snap, st), n)
  {
    var next := Synchronized(cfg, snap, st);
    SynchronizedIsConsistent(cfg, snap, st);
    SynchronizedAt(cfg, snap, st, n);
    VisitsByMembership(cfg, snap, st.known, next.known, n);
    var version, visits := snap.clusters[n].version, VisitsTo(cfg, snap, st.known, n);
    RefreshedIsNotStale(n, version, visits, Last(st.records, n));
    NotStaleIsUnchanged(n, version, visits, next.records[n].seen);
  }

  /**
   Stabilisation: with an unchanged snapshot a second round changes nobody's access and neither index,
   and a third changes nothing at all.
   */
  lemma Stabilises(cfg: Config, snap: Snapshot, st: State)
    requires snap.Valid() && Consistent(st)
    ensures var first := Synchronized(cfg, snap, st);
            var second := Synchronized(cfg, snap, first);
            && first.known == second.known
            && first.records.Keys == second.records.Keys
            && (forall n :: n in first.records ==> second.records[n].access == first.records[n].access)
            && UserIndex(second.records) == UserIndex(first.records)
            && GroupIndex(second.records) == GroupIndex(first.records)
            && Synchronized(cfg, snap, second) == second
  {
    hide UserIndex, GroupIndex, SynchronizedRecord;
    var first := Synchronized(cfg, snap, st);
    var second := Synchronized(cfg, snap, first);
    SynchronizedIsConsistent(cfg, snap, st);
    Settles(cfg, snap, first);
    forall n | n in first.records
      ensures n in second.records && second.records[n].access == first.records[n].access
    {
      SecondAccess(cfg, snap, st, n);
    }
    IndexesFollowAccess(second.records, first.records);
  }

  lemma SecondAccess(cfg: Config, snap: Snapshot, st: State, n: string)
    requires snap.Valid() && Consistent(st) && n in snap.Listed()
    ensures var first := Synchronized(cfg, snap, st);
            n in first.records && n in Synchronized(cfg, snap, first).records
            && Synchronized(cfg, snap, first).records[n].access == first.records[n].access
  {
    var first := Synchronized(cfg, snap, st);
    SynchronizedIsConsistent(cfg, snap, st);
    SynchronizedAt(cfg, snap, st, n);
    SynchronizedAt(cfg, snap, first, n);
    if n in st.known {
      SettledRecord(cfg, snap, st, n);
    }
  }
}
