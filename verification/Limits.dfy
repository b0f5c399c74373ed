/**
 Where the cache's promises stop: two stronger statements that fail, each with an input that shows it
 and the exact condition under which the statement holds.
 */
module Limits {
  import opened Rbac
  import opened Reviews
  import opened Requests
  import opened Rounds
  import opened Runs
  import opened Watch

  /******* A withdrawn grant *******/

  /** A role that allows get on one name. */
  function Viewer(cfg: Config, n: string): ClusterRole {
    ClusterRole("viewer", "role-uid", "1", [PolicyRule(["get"], [cfg.apiGroup], [cfg.resource], [n], [])])
  }

  function GrantTo(s: Subject): Binding {
    Binding("binding-uid", "1", "viewer", [s])
  }

  function OneCluster(cfg: Config, n: string, listFails: bool, bindings: set<Binding>): Snapshot {
    Snapshot(map[n := Cluster(n, "1", map[])], listFails, map["viewer" := Viewer(cfg, n)], bindings)
  }

  lemma ViewerGrants(cfg: Config, n: string, listFails: bool, s: Subject)
    ensures Grants(OneCluster(cfg, n, listFails, {GrantTo(s)}), GrantTo(s), GetRequest(cfg, n))
    ensures Direct(cfg, OneCluster(cfg, n, listFails, {GrantTo(s)}), n).Includes(AccessOf(cfg, {s}))
    ensures Covers(Viewer(cfg, n).rules[0], cfg.apiGroup, cfg.resource)
  {
    var rule, request := Viewer(cfg, n).rules[0], GetRequest(cfg, n);
    assert "get" in rule.verbs && cfg.apiGroup in rule.apiGroups && cfg.resource in rule.resources;
    assert OneResourceMatches(cfg.resource, request.CombinedResource(), "");
    assert RuleAllows(request, rule);
    assert rule in Viewer(cfg, n).rules;
    var snap := OneCluster(cfg, n, listFails, {GrantTo(s)});
    DirectIncludesBinding(cfg, snap, GrantTo(s), n);
    assert (set t | t in GrantTo(s).subjects) == {s};
  }

  lemma GrantedRound(cfg: Config, n: string, s: Subject, user: User)
    requires cfg.principal(s) == UserName(user.name)
    ensures var st := Synchronized(cfg, OneCluster(cfg, n, false, {GrantTo(s)}), EMPTY);
            && Consistent(st) && n in st.records
            && st.records[n].seen.version == "1" && st.records[n].access.Admits(user)
  {
    var granted := OneCluster(cfg, n, false, {GrantTo(s)});
    SynchronizedAt(cfg, granted, EMPTY, n);
    SynchronizedIsConsistent(cfg, granted, EMPTY);
    ViewerGrants(cfg, n, false, s);
    assert user.name in AccessOf(cfg, {s}).users;
  }

  lemma WithdrawnRound(cfg: Config, n: string, st: State)
    requires Consistent(st) && n in st.records && st.records[n].seen.version == "1"
    ensures n in Synchronized(cfg, OneCluster(cfg, n, false, {}), st).records
    ensures Synchronized(cfg, OneCluster(cfg, n, false, {}), st).records[n] == st.records[n]
  {
    var withdrawn := OneCluster(cfg, n, false, {});
    assert VisitsTo(cfg, withdrawn, st.known, n) == {};
    assert Objects({}, OfBinding) == {} && Objects({}, OfRole) == {};
    SynchronizedAt(cfg, withdrawn, st, n);
    StepOfName(cfg, withdrawn, st, n);
  }

  lemma OneClusterIsValid(cfg: Config, n: string, listFails: bool, bindings: set<Binding>)
    requires forall a, b :: a in bindings && b in bindings ==> a == b
    ensures OneCluster(cfg, n, listFails, bindings).Valid()
  {
    var snap := OneCluster(cfg, n, listFails, bindings);
    forall m | m in snap.clusters
      ensures snap.clusters[m].name == m
    {
    }
    forall m | m in snap.roles
      ensures m == "viewer" && snap.roles[m].name == m
    {
    }
  }

  lemma TwoRounds(cfg: Config, n: string, s: Subject)
    ensures var first, second := OneCluster(cfg, n, false, {GrantTo(s)}), OneCluster(cfg, n, false, {});
            && ValidRun([first, second])
            && StateAfter(cfg, [first, second]) == Synchronized(cfg, second, Synchronized(cfg, first, EMPTY))
  {
    var first, second := OneCluster(cfg, n, false, {GrantTo(s)}), OneCluster(cfg, n, false, {});
    OneClusterIsValid(cfg, n, false, {GrantTo(s)});
    OneClusterIsValid(cfg, n, false, {});
    ValidOneMore([], first);
    AfterOneMore(cfg, [], first);
    assert [] + [first] == [first];
    assert Now([first]) == first;
    assert first.roles == second.roles;
    ValidOneMore([first], second);
    AfterOneMore(cfg, [first], second);
    assert [first] + [second] == [first, second];
  }

  /**
   The cache may keep a grant that direct evaluation no longer gives: when the only binding of a user
   is deleted, no request mentions it any more and the old review stays.
   */
  lemma WithdrawnGrantStays(cfg: Config, n: string, s: Subject, user: User)
    requires cfg.principal(s) == UserName(user.name)
    requires !AccessOf(cfg, FixedSubjects(cfg)).Admits(user)
    ensures var run := [OneCluster(cfg, n, false, {GrantTo(s)}), OneCluster(cfg, n, false, {})];
            && ValidRun(run)
            && n in ListNames(StateAfter(cfg, run), user)
            && !MayGet(cfg, Now(run), n, user)
  {
    var granted, withdrawn := OneCluster(cfg, n, false, {GrantTo(s)}), OneCluster(cfg, n, false, {});
    var run := [granted, withdrawn];
    GrantedRound(cfg, n, s, user);
    WithdrawnRound(cfg, n, Synchronized(cfg, granted, EMPTY));
    TwoRounds(cfg, n, s);
    NobodyElse(cfg, n, user);
    assert Now(run) == withdrawn;
  }

  lemma NobodyElse(cfg: Config, n: string, user: User)
    requires !AccessOf(cfg, FixedSubjects(cfg)).Admits(user)
    ensures !MayGet(cfg, OneCluster(cfg, n, false, {}), n, user)
  {
    var snap := OneCluster(cfg, n, false, {});
    assert AllowedSet(cfg, snap, GetRequest(cfg, n)) == FixedSubjects(cfg);
    DirectIsEvaluation(cfg, snap, n, user);
  }

  /**
   Exactly when a record is fresh, on every run: if and only if nothing that the last snapshot with a
   reason to review the name allowed has been withdrawn since.
   */
  lemma FreshIff(cfg: Config, run: seq<Snapshot>, n: string)
    requires ValidRun(run) && run != [] && n in Now(run).Listed()
    ensures n in StateAfter(cfg, run).records && 0 <= LastReviewed(cfg, run, n) < |run|
    ensures StateAfter(cfg, run).records[n].access == Direct(cfg, Now(run), n)
            <==> Direct(cfg, Now(run), n).Includes(Direct(cfg, run[LastReviewed(cfg, run, n)], n))
  {
    hide Direct, StateAfter, ValidRun, LastReviewed;
    NoLostGrants(cfg, run, n);
    BoundedStaleness(cfg, run, n);
  }

  /******* A failing listing *******/

  /** The listing fails, but the lister can Get `n`, and the one binding lets its subject do so. */
  function HalfBroken(cfg: Config, n: string, s: Subject): Snapshot {
    OneCluster(cfg, n, true, {GrantTo(s)})
  }

  /** Nothing is there any more, and the listing says so. */
  const NOTHING := Snapshot(map[], false, map[], {})

  lemma HalfBrokenLeaks(cfg: Config, n: string, s: Subject, user: User)
    requires cfg.principal(s) == UserName(user.name)
    ensures HalfBroken(cfg, n, s).Valid() && Leaks(cfg, HalfBroken(cfg, n, s), {}, user, n)
  {
    var snap, rules := HalfBroken(cfg, n, s), Viewer(cfg, n).rules;
    OneClusterIsValid(cfg, n, true, {GrantTo(s)});
    ViewerGrants(cfg, n, true, s);
    assert user.name in AccessOf(cfg, {s}).users;
    assert rules[0].resourceNames == [n];
    assert !AllIn(rules, cfg.apiGroup, cfg.resource);
    assert n in NamesIn(rules, cfg.apiGroup, cfg.resource);
    assert Covering(cfg, snap, {}, GrantTo(s), n);
    assert VisitOf(GrantTo(s), Viewer(cfg, n)) in VisitsTo(cfg, snap, {}, n);
  }

  /** Its one request, for the one binding. */
  function HalfBrokenRequest(cfg: Config, n: string, s: Subject): ReviewRequest {
    BindingRequest(VisitOf(GrantTo(s), Viewer(cfg, n)), n)
  }

  lemma HalfBrokenSchedule(cfg: Config, n: string, s: Subject)
    ensures IsSchedule(cfg, HalfBroken(cfg, n, s), {}, [HalfBrokenRequest(cfg, n, s)])
  {
    var snap, rules, v := HalfBroken(cfg, n, s), Viewer(cfg, n).rules, VisitOf(GrantTo(s), Viewer(cfg, n));
    HalfBrokenTargets(cfg, n);
    forall m
      ensures VisitsTo(cfg, snap, {}, m) == if m == n then {v} else {}
    {
      assert Covering(cfg, snap, {}, GrantTo(s), m) <==> m == n;
      assert m == n ==> v in VisitsTo(cfg, snap, {}, m);
    }
  }

  /** The role of the binding is about the one name. */
  lemma HalfBrokenTargets(cfg: Config, n: string)
    ensures Targets(cfg, Viewer(cfg, n).rules, {}) == {n}
  {
    var rules := Viewer(cfg, n).rules;
    var rule := rules[0];
    assert cfg.apiGroup in rule.apiGroups && cfg.resource in rule.resources && rule.resourceNames == [n];
    assert OneResourceMatches(cfg.resource, cfg.resource, "");
    assert Covers(rule, cfg.apiGroup, cfg.resource);
    assert rule in rules && n in rule.resourceNames;
    assert n in NamesIn(rules, cfg.apiGroup, cfg.resource);
    assert !AllIn(rules, cfg.apiGroup, cfg.resource);
  }

  /** An empty snapshot asks for nothing. */
  lemma NothingIsAsked(cfg: Config, n: string)
    ensures NOTHING.Valid() && VisitsTo(cfg, NOTHING, {}, n) == {} && IsSchedule(cfg, NOTHING, {}, [])
  {
    forall r: ReviewRequest
      ensures !IsAskedFor(r, r.name, ListedVersion(NOTHING, r.name), VisitsTo(cfg, NOTHING, {}, r.name))
    {
      assert VisitsTo(cfg, NOTHING, {}, r.name) == {};
    }
  }

  /** After a failing listing a new watcher's view may hold a name that the cache does not list. */
  lemma FailedListingLeaks(cfg: Config, n: string, s: Subject, user: User, requests: seq<ReviewRequest>)
    requires cfg.principal(s) == UserName(user.name)
    requires IsSchedule(cfg, HalfBroken(cfg, n, s), {}, requests)
    ensures var feed, rounds := Feed(user, {n}, map[], []), [Round(HalfBroken(cfg, n, s), requests, [])];
            && ValidRounds(cfg, EMPTY, rounds) && Agrees(feed, EMPTY)
            && !AgreesAt(FeedThrough(cfg, EMPTY, feed, rounds), StateThrough(cfg, EMPTY, rounds), n)
  {
    hide HalfBroken, Leaks, FeedThrough, Synchronized, IsSchedule;
    var feed, rounds := Feed(user, {n}, map[], []), [Round(HalfBroken(cfg, n, s), requests, [])];
    HalfBrokenLeaks(cfg, n, s, user);
    FirstRound(cfg, rounds[0]);
    assert ReadyAt(cfg, rounds[0].snap, EMPTY, feed, n);
    assert Front(Snapshots(rounds)) == [];
    DriftIff(cfg, EMPTY, feed, rounds, n);
  }

  lemma FirstRound(cfg: Config, r: Round)
    requires ValidRound(cfg, EMPTY, r)
    ensures ValidRounds(cfg, EMPTY, [r])
  {
    assert [r][..0] == [];
  }

  /** ... and a later listing that succeeds does not make up for it. */
  lemma DriftLasts(cfg: Config, n: string, s: Subject, user: User, requests: seq<ReviewRequest>)
    requires cfg.principal(s) == UserName(user.name)
    requires IsSchedule(cfg, HalfBroken(cfg, n, s), {}, requests)
    ensures var feed := Feed(user, {n}, map[], []);
            var rounds := [Round(HalfBroken(cfg, n, s), requests, []), Round(NOTHING, [], [])];
            && ValidRounds(cfg, EMPTY, rounds)
            && n in FeedThrough(cfg, EMPTY, feed, rounds).known
            && n !in ListNames(StateThrough(cfg, EMPTY, rounds), user)
  {
    hide Leaks, FeedThrough, Synchronized, IsSchedule, VisitsTo, Run;
    var feed := Feed(user, {n}, map[], []);
    var first, second := Round(HalfBroken(cfg, n, s), requests, []), Round(NOTHING, [], []);
    var rounds := [first, second];
    HalfBrokenLeaks(cfg, n, s, user);
    NothingIsAsked(cfg, n);
    FirstRound(cfg, first);
    assert rounds[..1] == [first];
    assert StateThrough(cfg, EMPTY, [first]).known == {};
    assert ValidRound(cfg, StateThrough(cfg, EMPTY, [first]), second);
    assert Snapshots([first]) == [first.snap] && Front([first.snap]) == [];
    assert Snapshots(rounds) == [first.snap, second.snap] && Front(Snapshots(rounds)) == [first.snap];
    assert Drifted(cfg, {}, Snapshots([first]), user, n);
    assert Drifted(cfg, {}, Snapshots(rounds), user, n);
    assert ReadyAt(cfg, rounds[0].snap, EMPTY, feed, n);
    DriftIff(cfg, EMPTY, feed, rounds, n);
  }

  /** Both inputs, in full. */
  lemma DriftHappens(cfg: Config, n: string, s: Subject, user: User)
    requires cfg.principal(s) == UserName(user.name)
    ensures var feed := Feed(user, {n}, map[], []);
            var first := Round(HalfBroken(cfg, n, s), [HalfBrokenRequest(cfg, n, s)], []);
            var second := Round(NOTHING, [], []);
            && ValidRounds(cfg, EMPTY, [first]) && ValidRounds(cfg, EMPTY, [first, second]) && Agrees(feed, EMPTY)
            && !AgreesAt(FeedThrough(cfg, EMPTY, feed, [first]), StateThrough(cfg, EMPTY, [first]), n)
            && !AgreesAt(FeedThrough(cfg, EMPTY, feed, [first, second]),
                         StateThrough(cfg, EMPTY, [first, second]), n)
  {
    hide FeedThrough, StateThrough, ValidRounds, IsSchedule, HalfBroken;
    var feed := Feed(user, {n}, map[], []);
    HalfBrokenSchedule(cfg, n, s);
    FailedListingLeaks(cfg, n, s, user, [HalfBrokenRequest(cfg, n, s)]);
    DriftLasts(cfg, n, s, user, [HalfBrokenRequest(cfg, n, s)]);
    FeedThroughFrame(cfg, EMPTY, feed,
                     [Round(HalfBroken(cfg, n, s), [HalfBrokenRequest(cfg, n, s)], []), Round(NOTHING, [], [])]);
  }
}
