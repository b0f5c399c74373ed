/**
 From role bindings to the client of a watch: the runs of the cache, the rounds of notifications and
 the delivery of events, put together.
 */
module EndToEnd {
  import opened Reviews
  import opened Rounds
  import opened Runs
  import opened Watch
  import opened Delivery

  /******* The notifications of the rounds *******/

  function AsTold(clusters: Clusters, notes: seq<Note>): seq<Told> {
    seq(|notes|, i requires 0 <= i < |notes| => Told(clusters, notes[i]))
  }

  /** What the rounds tell every watcher, in order. */
  function ToldBy(cfg: Config, st: State, rounds: seq<Round>): seq<Told> {
    if rounds == [] then []
    else
      var front, last := rounds[..|rounds| - 1], rounds[|rounds| - 1];
      ToldBy(cfg, st, front)
      + AsTold(last.snap.clusters,
               RoundNotes(cfg, last.snap, StateThrough(cfg, st, front), last.requests, last.gone))
  }

  lemma {:induction false} HearTold(feed: Feed, history: seq<Told>, clusters: Clusters, notes: seq<Note>)
    ensures HearHistory(feed, history + AsTold(clusters, notes))
            == HearAll(HearHistory(feed, history), clusters, notes)
  {
    var all := history + AsTold(clusters, notes);
    if notes == [] {
      assert all == history;
    } else {
      assert all[..|all| - 1] == history + AsTold(clusters, notes[..|notes| - 1]);
      HearTold(feed, history, clusters, notes[..|notes| - 1]);
    }
  }

  lemma {:induction false} ToldIsFeed(cfg: Config, st: State, feed: Feed, rounds: seq<Round>)
    ensures HearHistory(feed, ToldBy(cfg, st, rounds)) == FeedThrough(cfg, st, feed, rounds)
  {
    hide RoundNotes, Hear;
    if rounds != [] {
      var front, last := rounds[..|rounds| - 1], rounds[|rounds| - 1];
      ToldIsFeed(cfg, st, feed, front);
      HearTold(feed, ToldBy(cfg, st, front), last.snap.clusters,
               RoundNotes(cfg, last.snap, StateThrough(cfg, st, front), last.requests, last.gone));
    }
  }

  /** A watcher that has been told what the rounds tell, and has not overflowed, has the rounds' view. */
  lemma BehaviorFollowsRounds(cfg: Config, st: State, rounds: seq<Round>, states: seq<System>, steps: seq<Step>)
    requires Behaves(states, steps) && !states[|states| - 1].overflowed
    requires Notified(steps) == ToldBy(cfg, st, rounds)
    ensures states[|states| - 1].feed == FeedThrough(cfg, st, states[0].feed, rounds)
  {
    FeedIsHistory(states, steps);
    ToldIsFeed(cfg, st, states[0].feed, rounds);
  }

  /******* What the client sees *******/

  /**
   After any rounds, however the notifications, the Watch goroutine and the client interleave, a
   caught-up client is right about a visible name, by the list, if and only if the name has not drifted.
   It replays over `start`: nothing, or the list that it had when it began to watch.
   */
  lemma ClientSeesList(cfg: Config, st: State, start: map<string, string>, rounds: seq<Round>, states: seq<System>,
                       steps: seq<Step>, n: string)
    requires rounds != [] && Consistent(st) && ValidRounds(cfg, st, rounds)
    requires Behaves(states, steps) && Notified(steps) == ToldBy(cfg, st, rounds)
    requires StartsFrom(start, states[0]) && states[0].feed.Sees(n)
    requires ReadyAt(cfg, rounds[0].snap, st, states[0].feed, n)
    requires CaughtUp(states[|states| - 1])
    ensures (n in Replay(start, states[|states| - 1].received)
             <==> n in ListNames(StateThrough(cfg, st, rounds), states[0].feed.user))
            <==> !Drifted(cfg, st.known, Snapshots(rounds), states[0].feed.user, n)
  {
    hide Drifted, ValidRounds, StateThrough, FeedThrough, ToldBy, ReadyAt, Consistent, Notified;
    var s := states[|states| - 1];
    ClientCatchesUp(start, states, steps);
    assert InFlight(s) + s.incoming == [];
    BehaviorFollowsRounds(cfg, st, rounds, states, steps);
    DriftIff(cfg, st, states[0].feed, rounds, n);
    FeedThroughFrame(cfg, st, states[0].feed, rounds);
  }

  lemma {:induction false} DeliveryNotifiesNobody(steps: seq<Step>, more: seq<Step>)
    requires forall step :: step in more ==> Delivers(step)
    ensures Notified(steps + more) == Notified(steps)
  {
    if more == [] {
      assert steps + more == steps;
    } else {
      assert (steps + more)[..|steps + more| - 1] == steps + more[..|more| - 1];
      assert more[|more| - 1] in more;
      DeliveryNotifiesNobody(steps, more[..|more| - 1]);
    }
  }

  /**
   And a client can catch up: from every state of every such run, until Stop and overflow, the goroutine
   and the client alone can go on to where the client is right if and only if the name has not drifted.
   */
  lemma ClientCanSeeList(cfg: Config, st: State, start: map<string, string>, rounds: seq<Round>, states: seq<System>,
                         steps: seq<Step>, n: string)
    returns (longer: seq<System>, more: seq<Step>)
    requires rounds != [] && Consistent(st) && ValidRounds(cfg, st, rounds)
    requires Behaves(states, steps) && Notified(steps) == ToldBy(cfg, st, rounds)
    requires StartsFrom(start, states[0]) && states[0].feed.Sees(n)
    requires ReadyAt(cfg, rounds[0].snap, st, states[0].feed, n)
    requires !states[|states| - 1].stopped && !states[|states| - 1].overflowed
    ensures longer != [] && GoesOn(states, steps, longer, more, Delivers)
    ensures (n in Replay(start, longer[|longer| - 1].received)
             <==> n in ListNames(StateThrough(cfg, st, rounds), states[0].feed.user))
            <==> !Drifted(cfg, st.known, Snapshots(rounds), states[0].feed.user, n)
  {
    hide Drifted, ValidRounds, StateThrough, ToldBy, ReadyAt, Consistent, Notified, Delivers, Behaves;
    BehaviorLength(states, steps);
    longer, more := ClientCanCatchUp(states, steps);
    DeliveryNotifiesNobody(steps, more);
    assert longer[0] == states[0];
    ClientSeesList(cfg, st, start, rounds, longer, steps + more, n);
  }

  /** On a grow-only run, the list after these rounds is what direct evaluation of the last snapshot gives. */
  lemma RoundsListExactly(cfg: Config, past: seq<Snapshot>, rounds: seq<Round>, user: User, n: string)
    requires rounds != [] && ValidRounds(cfg, StateAfter(cfg, past), rounds)
    requires ValidRun(past + Snapshots(rounds)) && GrowOnly(cfg, past + Snapshots(rounds))
    ensures var snap := rounds[|rounds| - 1].snap;
            n in ListNames(StateThrough(cfg, StateAfter(cfg, past), rounds), user) <==>
            n in snap.Listed() && MayGet(cfg, snap, n, user)
  {
    hide ValidRounds, StateThrough, StateAfter, MayGet, GrowOnly, ValidRun;
    var run := past + Snapshots(rounds);
    RoundsReachRun(cfg, past, rounds);
    ExactOnGrowOnly(cfg, run, user);
    assert Now(run) == rounds[|rounds| - 1].snap;
  }

  /**
   On a grow-only run, a caught-up client that began to watch after any `past` is right about a visible
   name, by direct evaluation of the current snapshot, if and only if the name has not drifted since.
   */
  lemma ClientSeesDirectEvaluation(cfg: Config, past: seq<Snapshot>, start: map<string, string>, rounds: seq<Round>,
                                   states: seq<System>, steps: seq<Step>, n: string)
    requires rounds != [] && ValidRounds(cfg, StateAfter(cfg, past), rounds)
    requires ValidRun(past + Snapshots(rounds)) && GrowOnly(cfg, past + Snapshots(rounds))
    requires Behaves(states, steps) && Notified(steps) == ToldBy(cfg, StateAfter(cfg, past), rounds)
    requires StartsFrom(start, states[0]) && states[0].feed.Sees(n)
    requires ReadyAt(cfg, rounds[0].snap, StateAfter(cfg, past), states[0].feed, n)
    requires CaughtUp(states[|states| - 1])
    ensures var snap := rounds[|rounds| - 1].snap;
            (n in Replay(start, states[|states| - 1].received)
             <==> n in snap.Listed() && MayGet(cfg, snap, n, states[0].feed.user))
            <==> !Drifted(cfg, KnownAfter({}, past), Snapshots(rounds), states[0].feed.user, n)
  {
    hide *;
    BehaviorLength(states, steps);
    KnownAfterRun(cfg, past);
    ClientSeesList(cfg, StateAfter(cfg, past), start, rounds, states, steps, n);
    RoundsListExactly(cfg, past, rounds, states[0].feed.user, n);
  }

  lemma BehaviorLength(states: seq<System>, steps: seq<Step>)
    requires Behaves(states, steps)
    ensures |states| == |steps| + 1
  {
  }

  lemma KnownAfterRun(cfg: Config, past: seq<Snapshot>)
    ensures Consistent(StateAfter(cfg, past)) && StateAfter(cfg, past).known == KnownAfter({}, past)
  {
    KnownNames(cfg, past);
  }

  /**
   So for the clients of a running server: registered between two rounds, with or without the existing
   objects, and replaying over nothing or over the list they registered with.
   */
  lemma NewClientSeesDirectEvaluation(cfg: Config, past: seq<Snapshot>, clusters: Clusters, user: User,
                                      visible: set<string>, includeExisting: bool, rounds: seq<Round>,
                                      states: seq<System>, steps: seq<Step>, n: string)
    requires rounds != [] && ValidRounds(cfg, StateAfter(cfg, past), rounds)
    requires ValidRun(past + Snapshots(rounds)) && GrowOnly(cfg, past + Snapshots(rounds))
    requires CanRegister(StateAfter(cfg, past), clusters, rounds[0].snap)
    requires Behaves(states, steps) && Notified(steps) == ToldBy(cfg, StateAfter(cfg, past), rounds)
    requires states[0].feed == Registered(StateAfter(cfg, past), clusters, user, visible)
    requires if includeExisting then Replay(map[], states[0].initial) == states[0].feed.known
             else states[0].initial == []
    requires CaughtUp(states[|states| - 1]) && states[0].feed.Sees(n)
    ensures var snap, start := rounds[|rounds| - 1].snap, if includeExisting then map[] else states[0].feed.known;
            (n in Replay(start, states[|states| - 1].received) <==> n in snap.Listed() && MayGet(cfg, snap, n, user))
            <==> !Drifted(cfg, KnownAfter({}, past), Snapshots(rounds), user, n)
  {
    hide *;
    BehaviorLength(states, steps);
    KnownAfterRun(cfg, past);
    RegisteredIsReadyAt(cfg, rounds[0].snap, StateAfter(cfg, past), clusters, user, visible, n);
    var start := if includeExisting then map[] else states[0].feed.known;
    StartOfStream(start, states[0], includeExisting);
    ClientSeesDirectEvaluation(cfg, past, start, rounds, states, steps, n);
  }

  lemma StartOfStream(start: map<string, string>, s: System, includeExisting: bool)
    requires if includeExisting then Replay(map[], s.initial) == s.feed.known else s.initial == []
    requires start == if includeExisting then map[] else s.feed.known
    ensures StartsFrom(start, s)
  {
  }

  lemma RegisteredIsReadyAt(cfg: Config, snap: Snapshot, st: State, clusters: Clusters, user: User,
                            visible: set<string>, n: string)
    requires Consistent(st) && CanRegister(st, clusters, snap) && Registered(st, clusters, user, visible).Sees(n)
    ensures ReadyAt(cfg, snap, st, Registered(st, clusters, user, visible), n)
    ensures Registered(st, clusters, user, visible).user == user
  {
    RegisteredIsReady(cfg, snap, st, clusters, user, visible);
  }
}
