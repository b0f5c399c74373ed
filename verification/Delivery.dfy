/**
 From the cache to the client (pkg/cache/watcher.go: emit, Watch, Stop, and the queue that
 GroupMembershipChanged fills).  The notifications, the Watch goroutine, the client and Stop are
 atomic steps that interleave in any way.
 */
module Delivery {
  import opened Options
  import opened Watch

  /** Where the Watch goroutine is. */
  datatype Pc =
    | Checking(next: nat)      // about to look for an error before initial object `next`
    | EmitInitial(next: nat)   // blocked in emit with that object
    | Selecting                // in the select of the main loop
    | Emit(event: Event)       // blocked in emit with a queued event
    | EmitError                // blocked in emit with the error event
    | Done                     // returned: the outgoing channel is closed

  datatype System = System(
    feed: Feed,
    initial: seq<Event>,
    incoming: seq<Event>,      // cacheIncoming
    overflowed: bool,          // a notification found the queue full: the last one for this watcher
    errorPushed: bool,
    errorQueued: bool,         // cacheError holds its one item
    stopped: bool,             // userStop is closed
    closes: nat,               // how often userStop was closed
    pc: Pc,
    received: seq<Event>)      // what the client took from the outgoing channel

  datatype Step =
    | Notify(clusters: Clusters, note: Note)
    | PushError
    | CheckPasses
    | TakeError
    | TakeEvent
    | SeeStop
    | ClientReceives
    | EmitAbandoned
    | CallStop

  const TIMEOUT := Error("notification timeout")

  /** What the goroutine offers on the outgoing channel, if it is blocked in emit. */
  function Offered(s: System): Option<Event>
    requires s.pc.EmitInitial? ==> s.pc.next < |s.initial|
  {
    match s.pc
    case EmitInitial(i) => Some(s.initial[i])
    case Emit(event) => Some(event)
    case EmitError => Some(TIMEOUT)
    case _ => None
  }

  /** Where it goes on when emit returns. */
  function AfterEmit(pc: Pc): Pc {
    match pc
    case EmitInitial(i) => Checking(i + 1)
    case Emit(_) => Selecting
    case _ => Done
  }

  ghost predicate Enabled(s: System, step: Step) {
    match step
    case Notify(_, _) => !s.overflowed
    case PushError => s.overflowed && !s.errorPushed
    case CheckPasses => s.pc.Checking? && (s.pc.next < |s.initial| ==> !s.errorQueued)
    case TakeError => s.errorQueued && (s.pc.Selecting? || (s.pc.Checking? && s.pc.next < |s.initial|))
    case TakeEvent => s.pc.Selecting? && s.incoming != []
    case SeeStop => s.pc.Selecting? && s.stopped
    case ClientReceives => s.pc.EmitInitial? || s.pc.Emit? || s.pc.EmitError?
    case EmitAbandoned => s.stopped && (s.pc.EmitInitial? || s.pc.Emit? || s.pc.EmitError?)
    case CallStop => true
  }

  /** A notification reaches the watcher's view and its queue, and nothing else. */
  function AfterNotify(s: System, clusters: Clusters, note: Note): System {
    var box := Offer(Inbox(s.feed, s.incoming, s.overflowed), clusters, note);
    s.(feed := box.feed, incoming := box.incoming, overflowed := box.overflowed)
  }

  ghost function After(s: System, step: Step): System
    requires Enabled(s, step) && (s.pc.EmitInitial? ==> s.pc.next < |s.initial|)
  {
    match step
    case Notify(clusters, note) => AfterNotify(s, clusters, note)
    case PushError => s.(errorPushed := true, errorQueued := true)
    case CheckPasses => s.(pc := if s.pc.next < |s.initial| then EmitInitial(s.pc.next) else Selecting)
    case TakeError => s.(errorQueued := false, pc := EmitError)
    case TakeEvent => s.(incoming := s.incoming[1..], pc := Emit(s.incoming[0]))
    case SeeStop => s.(pc := Done)
    case ClientReceives => s.(received := s.received + [Offered(s).value], pc := AfterEmit(s.pc))
    case EmitAbandoned => s.(pc := AfterEmit(s.pc))
    case CallStop => if s.stopped then s else s.(stopped := true, closes := s.closes + 1)
  }

  /** A new watcher: nothing queued or received, and the initial objects, if asked for, to be added. */
  ghost predicate Init(s: System) {
    && s.feed.sent == [] && s.incoming == [] && s.received == [] && s.pc == Checking(0)
    && !s.overflowed && !s.errorPushed && !s.errorQueued && !s.stopped && s.closes == 0
    && forall e :: e in s.initial ==> e.Added?
  }

  ghost predicate Follows(s: System, step: Step, next: System) {
    && Enabled(s, step)
    && (s.pc.EmitInitial? ==> s.pc.next < |s.initial|)
    && next == After(s, step)
  }

  /** A run: it starts in a new watcher, and every state follows by the next step, whoever takes it. */
  ghost predicate Behaves(states: seq<System>, steps: seq<Step>) {
    && |states| == |steps| + 1
    && if steps == [] then Init(states[0])
       else
         && Behaves(states[..|steps|], steps[..|steps| - 1])
         && Follows(states[|steps| - 1], steps[|steps| - 1], states[|steps|])
  }

  /** The notifications among the steps. */
  function Notified(steps: seq<Step>): seq<Told> {
    if steps == [] then []
    else
      var rest, last := Notified(steps[..|steps| - 1]), steps[|steps| - 1];
      match last
      case Notify(clusters, note) => rest + [Told(clusters, note)]
      case _ => rest
  }

  /******* The invariant *******/

  /** All events that ever became due for the client, in order. */
  function Due(s: System): seq<Event> {
    s.initial + s.feed.sent
  }

  /** Taken from the queue or the initial objects, but not yet handed to the client. */
  function InFlight(s: System): seq<Event> {
    match s.pc
    case Checking(i) => if i <= |s.initial| then s.initial[i..] else []
    case EmitInitial(i) => if i <= |s.initial| then s.initial[i..] else []
    case Emit(event) => [event]
    case _ => []
  }

  ghost predicate NoErrors(events: seq<Event>) {
    forall e :: e in events ==> !e.Error?
  }

  /** The goroutine is at a place that there is, and the flags say what happened. */
  ghost predicate Placed(s: System) {
    && (s.pc.Checking? ==> s.pc.next <= |s.initial|)
    && (s.pc.EmitInitial? ==> s.pc.next < |s.initial|)
    && |s.incoming| <= CAPACITY
    && s.closes == (if s.stopped then 1 else 0)
    && (s.errorPushed ==> s.overflowed) && (s.errorQueued || s.pc.EmitError? ==> s.errorPushed)
    && (s.pc.Done? ==> s.stopped || s.errorPushed)
  }

  /** Only the last event of a closed channel is an Error. */
  ghost predicate Clean(s: System) {
    && NoErrors(Due(s)) && NoErrors(s.incoming) && NoErrors(InFlight(s))
    && (if s.pc.Done? then true else NoErrors(s.received))
    && (s.received != [] ==> NoErrors(s.received[..|s.received| - 1]))
  }

  /** What holds in every state. */
  ghost predicate Inv(s: System) {
    Placed(s) && Clean(s)
  }

  /** Conservation: until Stop, nothing due is lost, repeated or reordered. */
  ghost predicate Conserved(s: System) {
    match s.pc
    case EmitError => s.received <= Due(s)
    case Done => s.received != [] && s.received[|s.received| - 1] == TIMEOUT
                 && s.received[..|s.received| - 1] <= Due(s)
    case _ => s.received + InFlight(s) + s.incoming == Due(s)
  }

  lemma InitialSplits(initial: seq<Event>, i: nat)
    requires i < |initial|
    ensures initial[i..] == [initial[i]] + initial[i + 1..]
  {
  }

  lemma NotifyKeepsInv(s: System, clusters: Clusters, note: Note)
    requires Inv(s)
    ensures Inv(AfterNotify(s, clusters, note))
  {
    var event, next := Reaction(s.feed, clusters, note), AfterNotify(s, clusters, note);
    if event.Some? && !next.overflowed {
      assert Due(next) == Due(s) + [event.value];
    }
  }

  lemma NoErrorsBut(events: seq<Event>, event: Event)
    requires NoErrors(events)
    ensures NoErrors((events + [event])[..|events|]) && (!event.Error? ==> NoErrors(events + [event]))
  {
    assert (events + [event])[..|events|] == events;
  }

  lemma ReceiveInitial(s: System, next: System)
    requires Inv(s) && Follows(s, ClientReceives, next) && s.pc.EmitInitial?
    ensures Clean(next)
  {
    assert InFlight(s)[0] == s.initial[s.pc.next] && InFlight(next) == InFlight(s)[1..];
    NoErrorsBut(s.received, InFlight(s)[0]);
  }

  lemma ReceiveQueued(s: System, next: System)
    requires Inv(s) && Follows(s, ClientReceives, next) && s.pc.Emit?
    ensures Clean(next)
  {
    assert InFlight(s)[0] == s.pc.event;
    NoErrorsBut(s.received, s.pc.event);
  }

  lemma ReceiveError(s: System, next: System)
    requires Inv(s) && Follows(s, ClientReceives, next) && s.pc.EmitError?
    ensures Clean(next)
  {
    NoErrorsBut(s.received, TIMEOUT);
  }

  lemma ReceiveKeepsClean(s: System, next: System)
    requires Inv(s) && Follows(s, ClientReceives, next)
    ensures Clean(next)
  {
    hide Inv, Clean, After;
    if s.pc.EmitInitial? {
      ReceiveInitial(s, next);
    } else if s.pc.Emit? {
      ReceiveQueued(s, next);
    } else {
      ReceiveError(s, next);
    }
  }

  lemma StepKeepsPlaced(s: System, step: Step, next: System)
    requires Inv(s) && Follows(s, step, next)
    ensures Placed(next)
  {
    hide Clean, Reaction, Remembered;
  }

  lemma StepKeepsInv(s: System, step: Step, next: System)
    requires Inv(s) && Follows(s, step, next)
    ensures Inv(next)
  {
    StepKeepsPlaced(s, step, next);
    match step {
      case Notify(clusters, note) => NotifyKeepsInv(s, clusters, note);
      case ClientReceives => ReceiveKeepsClean(s, next);
      case _ => MoveKeepsClean(s, step, next);
    }
  }

  lemma MoveKeepsClean(s: System, step: Step, next: System)
    requires Inv(s) && Follows(s, step, next) && !step.Notify? && !step.ClientReceives?
    ensures Clean(next)
  {
    assert Due(next) == Due(s);
    if step.TakeEvent? {
      assert s.incoming[0] in s.incoming;
    } else if step.EmitAbandoned? && s.pc.EmitInitial? {
      InitialSplits(s.initial, s.pc.next);
    }
  }

  lemma NotifyConserves(s: System, clusters: Clusters, note: Note)
    requires Conserved(s)
    ensures Conserved(AfterNotify(s, clusters, note))
  {
    var event, next := Reaction(s.feed, clusters, note), AfterNotify(s, clusters, note);
    if event.Some? && !next.overflowed {
      assert Due(next) == Due(s) + [event.value];
      assert s.received + InFlight(s) + next.incoming == (s.received + InFlight(s) + s.incoming) + [event.value];
    }
  }

  lemma ReceiveConserves(s: System, next: System)
    requires Inv(s) && Conserved(s) && Follows(s, ClientReceives, next)
    ensures Conserved(next)
  {
    if s.pc.EmitError? {
      assert next.received[..|s.received|] == s.received;
    } else {
      HandOver(s, next);
      assert s.received + InFlight(s) + s.incoming == next.received + InFlight(next) + next.incoming;
    }
  }

  /** An event that the client takes was the first one in flight. */
  lemma HandOver(s: System, next: System)
    requires Inv(s) && Follows(s, ClientReceives, next) && !s.pc.EmitError?
    ensures s.received + InFlight(s) == next.received + InFlight(next)
  {
    if s.pc.EmitInitial? {
      InitialSplits(s.initial, s.pc.next);
    } else {
      assert InFlight(next) == [];
    }
  }

  lemma TakeConserves(s: System, step: Step, next: System)
    requires Inv(s) && Conserved(s) && Follows(s, step, next) && (step.TakeEvent? || step.TakeError?)
    ensures Conserved(next)
  {
    if step.TakeEvent? {
      assert s.incoming == [s.incoming[0]] + next.incoming;
    } else {
      ErrorConserves(s);
    }
  }

  lemma ErrorConserves(s: System)
    requires Inv(s) && Conserved(s) && (s.pc.Checking? || s.pc.Selecting?)
    ensures s.received <= Due(s)
  {
    assert s.received + (InFlight(s) + s.incoming) == Due(s);
  }

  /** One atomic step of anybody keeps conservation, until Stop. */
  lemma StepConserves(s: System, step: Step, next: System)
    requires Inv(s) && Conserved(s) && !s.stopped && Follows(s, step, next)
    ensures Conserved(next)
  {
    match step {
      case Notify(clusters, note) => NotifyConserves(s, clusters, note);
      case TakeEvent => TakeConserves(s, step, next);
      case TakeError => TakeConserves(s, step, next);
      case ClientReceives => ReceiveConserves(s, next);
      case _ =>
    }
  }

  lemma {:induction false} BehaviorKeeps(states: seq<System>, steps: seq<Step>)
    requires Behaves(states, steps)
    ensures Inv(states[|states| - 1])
    ensures !states[|states| - 1].stopped ==> Conserved(states[|states| - 1])
  {
    if steps != [] {
      var front, s, next := states[..|steps|], states[|steps| - 1], states[|steps|];
      var step := steps[|steps| - 1];
      BehaviorKeeps(front, steps[..|steps| - 1]);
      assert front[|front| - 1] == s;
      StepKeepsInv(s, step, next);
      if !s.stopped {
        StepConserves(s, step, next);
      }
    }
  }

  /******* Theorems *******/

  /**
   Delivery, over all interleavings: until Stop, what the client has received is a prefix of the
   initial events followed by the enqueued ones, in order; once the channel is closed it is such a
   prefix and then one Error event.
   */
  lemma DeliveredInOrder(states: seq<System>, steps: seq<Step>)
    requires Behaves(states, steps) && !states[|states| - 1].stopped
    ensures var s := states[|states| - 1];
            if s.pc.Done?
            then s.received != [] && s.received[..|s.received| - 1] <= Due(s) && s.received[|s.received| - 1] == TIMEOUT
            else s.received <= Due(s)
  {
    BehaviorKeeps(states, steps);
    ConservedIsOrdered(states[|states| - 1]);
  }

  lemma ConservedIsOrdered(s: System)
    requires Conserved(s)
    ensures !s.pc.Done? ==> s.received <= Due(s)
  {
    if !s.pc.Done? && !s.pc.EmitError? {
      assert s.received + (InFlight(s) + s.incoming) == Due(s);
    }
  }

  /** An Error event is the last thing a client receives, and the channel is then closed; Stop or not. */
  lemma ErrorIsLast(states: seq<System>, steps: seq<Step>, i: nat)
    requires Behaves(states, steps) && i < |states[|states| - 1].received| && states[|states| - 1].received[i].Error?
    ensures i == |states[|states| - 1].received| - 1 && states[|states| - 1].pc.Done?
  {
    BehaviorKeeps(states, steps);
    var received := states[|states| - 1].received;
    assert forall j :: 0 <= j < |received| - 1 ==> received[j] in received[..|received| - 1];
  }

  /** Nothing is received after close. */
  lemma ClosedIsFinal(s: System, step: Step, next: System)
    requires s.pc.Done? && Follows(s, step, next)
    ensures next.pc.Done? && next.received == s.received
  {
  }

  /** However often Stop is called, userStop is closed at most once, and is closed if it was called. */
  lemma StopClosesOnce(states: seq<System>, steps: seq<Step>)
    requires Behaves(states, steps)
    ensures states[|states| - 1].closes == if states[|states| - 1].stopped then 1 else 0
  {
    BehaviorKeeps(states, steps);
  }

  /******* Once Stop has been called *******/

  /** `part` is a subsequence of `whole`: `at` says where each of its events is. */
  ghost predicate Embeds(part: seq<Event>, whole: seq<Event>, at: seq<nat>) {
    && |at| == |part|
    && (forall i :: 0 <= i < |at| ==> at[i] < |whole| && whole[at[i]] == part[i])
    && forall i, j :: 0 <= i < j < |at| ==> at[i] < at[j]
  }

  ghost predicate Within(part: seq<Event>, whole: seq<Event>) {
    exists at :: Embeds(part, whole, at)
  }

  lemma WithinItself(events: seq<Event>)
    ensures Within(events, events)
  {
    assert Embeds(events, events, seq(|events|, i requires 0 <= i < |events| => i));
  }

  lemma WithinMore(part: seq<Event>, whole: seq<Event>, event: Event)
    requires Within(part, whole)
    ensures Within(part, whole + [event]) && Within(part + [event], whole + [event])
  {
    var at: seq<nat> :| Embeds(part, whole, at);
    assert Embeds(part, whole + [event], at);
    assert Embeds(part + [event], whole + [event], at + [|whole|]);
  }

  /** Leaving out one event, or all from some event on. */
  lemma WithinLess(part: seq<Event>, whole: seq<Event>, i: nat)
    requires Within(part, whole) && i <= |part|
    ensures Within(part[..i], whole) && (i < |part| ==> Within(part[..i] + part[i + 1..], whole))
  {
    var at: seq<nat> :| Embeds(part, whole, at);
    assert Embeds(part[..i], whole, at[..i]);
    if i < |part| {
      assert Embeds(part[..i] + part[i + 1..], whole, at[..i] + at[i + 1..]);
    }
  }

  lemma WithinPrefix(part: seq<Event>, more: seq<Event>, whole: seq<Event>)
    requires Within(part + more, whole)
    ensures Within(part, whole)
  {
    hide Within;
    WithinLess(part + more, whole, |part|);
    assert (part + more)[..|part|] == part;
  }

  lemma WithinSkip(part: seq<Event>, flight: seq<Event>, more: seq<Event>, whole: seq<Event>)
    requires flight != [] && Within(part + (flight + more), whole)
    ensures Within(part + (flight[1..] + more), whole)
  {
    hide Within;
    var all := part + (flight + more);
    WithinLess(all, whole, |part|);
    assert all[..|part|] + all[|part| + 1..] == part + (flight[1..] + more);
  }

  lemma WithinShift(part: seq<Event>, flight: seq<Event>, more: seq<Event>, whole: seq<Event>)
    requires flight != [] && Within(part + (flight + more), whole)
    ensures Within(part + [flight[0]] + (flight[1..] + more), whole)
  {
    assert part + [flight[0]] + (flight[1..] + more) == part + (flight + more);
  }

  /** What the client received, without a last Error event. */
  function Delivered(s: System): seq<Event> {
    if s.received != [] && s.received[|s.received| - 1].Error? then s.received[..|s.received| - 1] else s.received
  }

  /** What may still reach the client. */
  function ToCome(s: System): seq<Event> {
    if s.pc.EmitError? || s.pc.Done? then [] else InFlight(s) + s.incoming
  }

  /** Events may get lost, but they are neither repeated nor reordered. */
  ghost predicate InOrder(s: System) {
    Within(Delivered(s) + ToCome(s), Due(s))
  }

  lemma NotifyKeepsOrder(s: System, clusters: Clusters, note: Note)
    requires InOrder(s)
    ensures InOrder(AfterNotify(s, clusters, note))
  {
    hide Reaction, Remembered, Within;
    var event, next := Reaction(s.feed, clusters, note), AfterNotify(s, clusters, note);
    if event.Some? && !next.overflowed {
      assert Due(next) == Due(s) + [event.value];
      WithinMore(Delivered(s) + ToCome(s), Due(s), event.value);
      assert s.pc.EmitError? || s.pc.Done?
             || Delivered(next) + ToCome(next) == Delivered(s) + ToCome(s) + [event.value];
    }
  }

  /** When an emit of an event returns, the first event in flight is gone, whether received or given up. */
  lemma FirstOut(s: System, step: Step, next: System)
    requires Inv(s) && Follows(s, step, next) && (step.ClientReceives? || step.EmitAbandoned?) && !s.pc.EmitError?
    ensures InFlight(s) != [] && Offered(s) == Some(InFlight(s)[0]) && InFlight(next) == InFlight(s)[1..]
    ensures ToCome(s) == InFlight(s) + s.incoming && ToCome(next) == InFlight(next) + s.incoming
    ensures Delivered(s) == s.received && !InFlight(s)[0].Error? && Due(next) == Due(s)
  {
    assert Offered(s).value in InFlight(s);
  }

  /** The client takes what comes first ... */
  lemma ReceiveKeepsOrder(s: System, next: System)
    requires Inv(s) && InOrder(s) && Follows(s, ClientReceives, next) && !s.pc.EmitError?
    ensures InOrder(next)
  {
    hide Within, InFlight, Due, ToCome, Inv, Offered;
    FirstOut(s, ClientReceives, next);
    WithinShift(s.received, InFlight(s), s.incoming, Due(s));
  }

  /** ... or an Error event, which does not count. */
  lemma ErrorKeepsOrder(s: System, next: System)
    requires Inv(s) && InOrder(s) && Follows(s, ClientReceives, next) && s.pc.EmitError?
    ensures InOrder(next)
  {
    hide Within;
    assert next.received[..|s.received|] == s.received;
    assert Delivered(s) == s.received;
  }

  lemma AbandonedErrorKeepsOrder(s: System, next: System)
    requires InOrder(s) && Follows(s, EmitAbandoned, next) && s.pc.EmitError?
    ensures InOrder(next)
  {
  }

  /** An emit that is given up loses the event that came first. */
  lemma AbandonKeepsOrder(s: System, next: System)
    requires Inv(s) && InOrder(s) && Follows(s, EmitAbandoned, next) && !s.pc.EmitError?
    ensures InOrder(next)
  {
    hide Within, InFlight, Due, ToCome, Inv, Offered;
    FirstOut(s, EmitAbandoned, next);
    WithinSkip(s.received, InFlight(s), s.incoming, Due(s));
  }

  /** The goroutine moves on, with what is to come as it was or given up as a whole. */
  lemma MoveKeepsOrder(s: System, step: Step, next: System)
    requires Inv(s) && InOrder(s) && Follows(s, step, next)
    requires !step.Notify? && !step.ClientReceives? && !step.EmitAbandoned?
    ensures InOrder(next)
  {
    hide Within;
    if step.TakeError? || step.SeeStop? {
      WithinPrefix(Delivered(s), ToCome(s), Due(s));
      assert Delivered(next) + ToCome(next) == Delivered(s);
    } else if step.TakeEvent? {
      assert s.incoming == [s.incoming[0]] + next.incoming;
      assert ToCome(next) == ToCome(s);
    } else {
      assert ToCome(next) == ToCome(s);
    }
  }

  lemma StepKeepsOrder(s: System, step: Step, next: System)
    requires Inv(s) && InOrder(s) && Follows(s, step, next)
    ensures InOrder(next)
  {
    hide InOrder, Inv;
    match step {
      case Notify(clusters, note) => NotifyKeepsOrder(s, clusters, note);
      case ClientReceives =>
        if s.pc.EmitError? {
          ErrorKeepsOrder(s, next);
        } else {
          ReceiveKeepsOrder(s, next);
        }
      case EmitAbandoned =>
        if s.pc.EmitError? {
          AbandonedErrorKeepsOrder(s, next);
        } else {
          AbandonKeepsOrder(s, next);
        }
      case _ => MoveKeepsOrder(s, step, next);
    }
  }

  lemma {:induction false} AlwaysInOrder(states: seq<System>, steps: seq<Step>)
    requires Behaves(states, steps)
    ensures InOrder(states[|states| - 1])
  {
    hide Within, Inv, Follows;
    var next := states[|states| - 1];
    if steps == [] {
      WithinItself(Due(next));
      assert Delivered(next) + ToCome(next) == Due(next);
    } else {
      var front, s := states[..|steps|], states[|steps| - 1];
      assert front[|front| - 1] == s;
      AlwaysInOrder(front, steps[..|steps| - 1]);
      BehaviorKeeps(front, steps[..|steps| - 1]);
      StepKeepsOrder(s, steps[|steps| - 1], next);
    }
  }

  /**
   Stop or not, what the client has received, but for a last Error event, is a subsequence of the
   initial events followed by the enqueued ones: nothing is made up, repeated or reordered.
   */
  lemma DeliveredWithin(states: seq<System>, steps: seq<Step>)
    requires Behaves(states, steps)
    ensures Within(Delivered(states[|states| - 1]), Due(states[|states| - 1]))
  {
    hide Within;
    var s := states[|states| - 1];
    AlwaysInOrder(states, steps);
    WithinPrefix(Delivered(s), ToCome(s), Due(s));
  }

  lemma StopByStep(s: System, step: Step, next: System)
    requires Follows(s, step, next)
    ensures next.stopped <==> s.stopped || step == CallStop
  {
    hide Reaction, Remembered;
  }

  /** Once Stop has been called, it stays called. */
  lemma {:induction false} StopStays(states: seq<System>, steps: seq<Step>)
    requires Behaves(states, steps)
    ensures CallStop in steps <==> states[|states| - 1].stopped
  {
    hide Follows;
    if steps != [] {
      var front, s := states[..|steps|], states[|steps| - 1];
      assert front[|front| - 1] == s;
      StopStays(front, steps[..|steps| - 1]);
      StopByStep(s, steps[|steps| - 1], states[|steps|]);
      assert steps == steps[..|steps| - 1] + [steps[|steps| - 1]];
    }
  }

  /******* Progress *******/

  /** One more step of a run. */
  lemma OneMoreStep(states: seq<System>, steps: seq<Step>, step: Step, next: System) returns (longer: seq<System>)
    requires Behaves(states, steps) && Follows(states[|steps|], step, next)
    ensures longer == states + [next] && Behaves(longer, steps + [step])
  {
    hide Follows;
    longer := states + [next];
    assert (steps + [step])[..|steps|] == steps && longer[..|steps| + 1] == states;
  }

  /** `longer` goes on from `states`, by steps of this kind only. */
  ghost predicate GoesOn(states: seq<System>, steps: seq<Step>, longer: seq<System>, more: seq<Step>,
                         kind: Step -> bool)
  {
    && Behaves(longer, steps + more)
    && states <= longer
    && forall step :: step in more ==> kind(step)
  }

  lemma GoOnFrom(states: seq<System>, steps: seq<Step>, step: Step, next: seq<System>, longer: seq<System>,
                 more: seq<Step>, kind: Step -> bool)
    requires states <= next && kind(step) && GoesOn(next, steps + [step], longer, more, kind)
    ensures GoesOn(states, steps, longer, [step] + more, kind)
  {
    assert steps + ([step] + more) == steps + [step] + more;
  }

  /** The client has everything that is due, and can still get more. */
  ghost predicate CaughtUp(s: System) {
    && !s.overflowed && !s.stopped
    && InFlight(s) == [] && s.incoming == []
    && !s.pc.Done? && !s.pc.EmitError?
  }

  /** Two steps for each event that is due, and those to get to the next one. */
  function Work(s: System): int {
    2 * |s.incoming| +
    match s.pc
    case Checking(i) => 2 * (|s.initial| - i) + 1
    case EmitInitial(i) => 2 * (|s.initial| - i)
    case Emit(_) => 1
    case _ => 0
  }

  predicate Delivers(step: Step) {
    step.CheckPasses? || step.TakeEvent? || step.ClientReceives?
  }

  lemma CanDeliver(s: System) returns (step: Step, next: System)
    requires Inv(s) && !s.stopped && !s.overflowed && !CaughtUp(s)
    ensures Delivers(step) && Follows(s, step, next)
    ensures && !next.stopped && !next.overflowed && 0 <= Work(next) < Work(s)
            && next.feed == s.feed && next.initial == s.initial
  {
    step := match s.pc
      case Checking(_) => CheckPasses
      case Selecting => TakeEvent
      case _ => ClientReceives;
    next := After(s, step);
  }

  /**
   Progress: from every state of every run, until Stop and overflow, the goroutine and the client alone
   can go on until the client has received everything that is due.
   */
  lemma {:induction false} ClientCanCatchUp(states: seq<System>, steps: seq<Step>)
    returns (longer: seq<System>, more: seq<Step>)
    requires Behaves(states, steps) && !states[|states| - 1].stopped && !states[|states| - 1].overflowed
    ensures GoesOn(states, steps, longer, more, Delivers)
    ensures longer != [] && CaughtUp(longer[|longer| - 1]) && longer[|longer| - 1].feed == states[|states| - 1].feed
    ensures longer[|longer| - 1].received == Due(states[|states| - 1])
    decreases Work(states[|states| - 1])
  {
    hide Inv, Follows, Conserved, Behaves, After, Work;
    var s := Last(states, steps);
    BehaviorKeeps(states, steps);
    if CaughtUp(s) {
      longer, more := states, [];
      assert steps + more == steps;
      CaughtUpIsDue(s);
    } else {
      var step, t := CanDeliver(s);
      var next := OneMoreStep(states, steps, step, t);
      longer, more := ClientCanCatchUp(next, steps + [step]);
      GoOnFrom(states, steps, step, next, longer, more, Delivers);
      more := [step] + more;
    }
  }

  lemma Last(states: seq<System>, steps: seq<Step>) returns (s: System)
    requires Behaves(states, steps)
    ensures |states| == |steps| + 1 && s == states[|states| - 1]
  {
    s := states[|states| - 1];
  }

  lemma CaughtUpIsDue(s: System)
    requires Conserved(s) && CaughtUp(s)
    ensures s.received == Due(s)
  {
  }

  /** The channel is closed, and the last that the client received is an Error event. */
  ghost predicate EndsInError(s: System) {
    s.pc.Done? && s.received != [] && s.received[|s.received| - 1].Error?
  }

  predicate Reports(step: Step) {
    step.CheckPasses? || step.TakeError? || step.ClientReceives?
  }

  /** How far the goroutine is from reporting the error. */
  function ToReport(pc: Pc): nat {
    match pc
    case Checking(_) => 3
    case EmitInitial(_) => 4
    case Selecting => 2
    case Emit(_) => 3
    case EmitError => 1
    case Done => 0
  }

  lemma CanReport(s: System) returns (step: Step, next: System)
    requires Inv(s) && !s.stopped && !s.pc.Done? && (s.errorQueued || s.pc.EmitError?)
    ensures Reports(step) && Follows(s, step, next)
    ensures && !next.stopped && ToReport(next.pc) < ToReport(s.pc)
            && (next.pc.Done? ==> next.received == s.received + [TIMEOUT])
            && (next.pc.Done? || next.errorQueued || next.pc.EmitError?)
  {
    step := match s.pc
      case Checking(i) => if i < |s.initial| then TakeError else CheckPasses
      case Selecting => TakeError
      case _ => ClientReceives;
    next := After(s, step);
  }

  /** Once the error of an overflow is queued, the client can get it, and the channel closes. */
  lemma {:induction false} ErrorCanBeReported(states: seq<System>, steps: seq<Step>)
    returns (longer: seq<System>, more: seq<Step>)
    requires Behaves(states, steps) && !states[|states| - 1].stopped && !states[|states| - 1].pc.Done?
    requires states[|states| - 1].errorQueued || states[|states| - 1].pc.EmitError?
    ensures GoesOn(states, steps, longer, more, Reports)
    ensures longer != [] && EndsInError(longer[|longer| - 1])
    decreases ToReport(states[|states| - 1].pc)
  {
    hide Inv, Follows, Behaves, After, ToReport;
    var s := Last(states, steps);
    BehaviorKeeps(states, steps);
    var step, t := CanReport(s);
    longer := OneMoreStep(states, steps, step, t);
    more := [step];
    if !longer[|longer| - 1].pc.Done? {
      var next := longer;
      longer, more := ErrorCanBeReported(next, steps + [step]);
      GoOnFrom(states, steps, step, next, longer, more, Reports);
      more := [step] + more;
    }
  }

  /** An error that is queued is reported before any further initial object. */
  lemma ErrorStopsInitial(s: System, step: Step, next: System)
    requires s.errorQueued && s.pc.Checking? && s.pc.next < |s.initial| && Follows(s, step, next)
    ensures next.pc == s.pc || next.pc == EmitError
  {
  }

  predicate ReportsOverflow(step: Step) {
    step == PushError || Reports(step)
  }

  /** So whoever overflows can be told, if the notifier gets to push the error. */
  lemma OverflowCanBeReported(states: seq<System>, steps: seq<Step>)
    returns (longer: seq<System>, more: seq<Step>)
    requires Behaves(states, steps)
    requires var s := states[|states| - 1]; s.overflowed && !s.errorPushed && !s.stopped
    ensures GoesOn(states, steps, longer, more, ReportsOverflow)
    ensures longer != [] && EndsInError(longer[|longer| - 1])
  {
    var s := Last(states, steps);
    BehaviorKeeps(states, steps);
    var next := OneMoreStep(states, steps, PushError, After(s, PushError));
    longer, more := ErrorCanBeReported(next, steps + [PushError]);
    assert GoesOn(next, steps + [PushError], longer, more, ReportsOverflow);
    GoOnFrom(states, steps, PushError, next, longer, more, ReportsOverflow);
    more := [PushError] + more;
  }

  predicate Ends(step: Step) {
    step.CheckPasses? || step.TakeError? || step.EmitAbandoned? || step.SeeStop?
  }

  function ToEnd(s: System): int {
    match s.pc
    case Checking(i) => 2 * (|s.initial| - i) + 2
    case EmitInitial(i) => 2 * (|s.initial| - i) + 1
    case Selecting => 1
    case Emit(_) => 2
    case EmitError => 1
    case Done => 0
  }

  lemma CanEnd(s: System) returns (step: Step, next: System)
    requires Inv(s) && s.stopped && !s.pc.Done?
    ensures Ends(step) && Follows(s, step, next)
    ensures next.stopped && 0 <= ToEnd(next) < ToEnd(s) && next.received == s.received
  {
    step := match s.pc
      case Checking(i) => if i < |s.initial| && s.errorQueued then TakeError else CheckPasses
      case Selecting => SeeStop
      case _ => EmitAbandoned;
    next := After(s, step);
  }

  /** After Stop the goroutine can return, without the client. */
  lemma {:induction false} StoppedCanEnd(states: seq<System>, steps: seq<Step>)
    returns (longer: seq<System>, more: seq<Step>)
    requires Behaves(states, steps) && states[|states| - 1].stopped
    ensures GoesOn(states, steps, longer, more, Ends)
    ensures longer != [] && longer[|longer| - 1].pc.Done?
    ensures longer[|longer| - 1].received == states[|states| - 1].received
    decreases ToEnd(states[|states| - 1])
  {
    hide Inv, Follows, Behaves, After, ToEnd;
    var s := Last(states, steps);
    BehaviorKeeps(states, steps);
    if s.pc.Done? {
      longer, more := states, [];
      assert steps + more == steps;
    } else {
      var step, t := CanEnd(s);
      var next := OneMoreStep(states, steps, step, t);
      longer, more := StoppedCanEnd(next, steps + [step]);
      GoOnFrom(states, steps, step, next, longer, more, Ends);
      more := [step] + more;
    }
  }

  /******* What the client can reconstruct *******/

  lemma {:induction false} ReplayConcat(start: map<string, string>, a: seq<Event>, b: seq<Event>)
    ensures Replay(start, a + b) == Replay(Replay(start, a), b)
  {
    if b == [] {
      assert a + b == a;
    } else {
      assert (a + b)[..|a + b| - 1] == a + b[..|b| - 1];
      ReplayConcat(start, a, b[..|b| - 1]);
    }
  }

  /**
   What the client held before the stream, and the initial events, add up to the watcher's first view:
   `start` is nothing if the client asked for the existing objects, and its own list if it did not.
   */
  ghost predicate StartsFrom(start: map<string, string>, s: System) {
    Replay(start, s.initial) == s.feed.known
  }

  /** Everything due replays to the watcher's view, until the queue overflows. */
  ghost predicate Mirrors(start: map<string, string>, s: System) {
    s.overflowed || Replay(start, Due(s)) == s.feed.known
  }

  lemma NotifyMirrors(start: map<string, string>, s: System, clusters: Clusters, note: Note)
    requires !s.overflowed && Mirrors(start, s)
    ensures Mirrors(start, AfterNotify(s, clusters, note))
  {
    hide Replay, Apply, Reaction, Remembered, Fits;
    var event, next := Reaction(s.feed, clusters, note), AfterNotify(s, clusters, note);
    if event.Some? && !next.overflowed {
      assert Due(next) == Due(s) + [event.value];
      ReplayOneMore(start, Due(s), event.value);
      ReactionFits(s.feed, clusters, note);
    }
  }

  lemma StepMirrors(start: map<string, string>, s: System, step: Step, next: System)
    requires Mirrors(start, s) && Follows(s, step, next)
    ensures Mirrors(start, next)
  {
    if step.Notify? {
      NotifyMirrors(start, s, step.clusters, step.note);
    }
  }

  lemma {:induction false} AlwaysMirrors(start: map<string, string>, states: seq<System>, steps: seq<Step>)
    requires Behaves(states, steps) && StartsFrom(start, states[0])
    ensures Mirrors(start, states[|states| - 1])
  {
    var next := states[|states| - 1];
    if steps == [] {
      assert Due(next) == next.initial;
    } else {
      var front, s := states[..|steps|], states[|steps| - 1];
      assert front[|front| - 1] == s && front[0] == states[0];
      AlwaysMirrors(start, front, steps[..|steps| - 1]);
      StepMirrors(start, s, steps[|steps| - 1], next);
    }
  }

  /** Until the queue overflows, the watcher's view is what the notifications so far make of it. */
  lemma {:induction false} FeedIsHistory(states: seq<System>, steps: seq<Step>)
    requires Behaves(states, steps) && !states[|states| - 1].overflowed
    ensures states[|states| - 1].feed == HearHistory(states[0].feed, Notified(steps))
  {
    hide Reaction, Remembered;
    if steps != [] {
      var front, s, next := states[..|steps|], states[|steps| - 1], states[|steps|];
      var step := steps[|steps| - 1];
      assert front[|front| - 1] == s && front[0] == states[0];
      OverflowIsFinal(s, step, next);
      FeedIsHistory(front, steps[..|steps| - 1]);
      if step.Notify? {
        assert Notified(steps)[..|Notified(steps)| - 1] == Notified(steps[..|steps| - 1]);
      }
    }
  }

  lemma OverflowIsFinal(s: System, step: Step, next: System)
    requires Follows(s, step, next)
    ensures s.overflowed ==> next.overflowed
    ensures !next.overflowed ==> next.feed == if step.Notify? then Hear(s.feed, step.clusters, step.note) else s.feed
  {
  }

  /**
   The client catches up: whatever it has received so far, the events in flight and in the queue take
   it to exactly the view the cache has of it.
   */
  lemma ClientCatchesUp(start: map<string, string>, states: seq<System>, steps: seq<Step>)
    requires Behaves(states, steps) && StartsFrom(start, states[0])
    requires !states[|states| - 1].overflowed && !states[|states| - 1].stopped
    ensures var s := states[|states| - 1];
            Replay(Replay(start, s.received), InFlight(s) + s.incoming) == s.feed.known
  {
    BehaviorKeeps(states, steps);
    AlwaysMirrors(start, states, steps);
    RestReplays(start, states[|states| - 1]);
  }

  lemma RestReplays(start: map<string, string>, s: System)
    requires Conserved(s) && Mirrors(start, s) && !s.overflowed && !s.pc.Done? && !s.pc.EmitError?
    ensures Replay(Replay(start, s.received), InFlight(s) + s.incoming) == s.feed.known
  {
    var rest := InFlight(s) + s.incoming;
    assert s.received + rest == Due(s);
    ReplayConcat(start, s.received, rest);
  }
}
