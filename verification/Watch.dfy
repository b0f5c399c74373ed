/**
 The watcher's view (pkg/cache/watcher.go: NewCacheWatcher, GroupMembershipChanged) and how it stays
 in step with the cache's list view (pkg/cache/common.go: notifyWatchers).
 */
module Watch {
  import opened Options
  import opened Reviews
  import opened Requests
  import opened Rounds
  import opened Runs

  datatype Event =
    | Added(name: string, version: string)
    | Modified(name: string, version: string)
    | Deleted(name: string, version: string)
    | Error(message: string)

  /** One call of GroupMembershipChanged: a name and who can access it now. */
  datatype Note = Note(name: string, access: Access)

  /**
   A watcher before its queue overflows: what it believes the client has (name -> version), and the
   events it has enqueued so far.
   */
  datatype Feed = Feed(user: User, visible: set<string>, known: map<string, string>, sent: seq<Event>) {
    predicate Sees(name: string) {
      "*" in visible || name in visible
    }
  }

  type Clusters = map<string, Cluster>

  /** The event a notification gives rise to, if any. */
  function Reaction(feed: Feed, clusters: Clusters, note: Note): Option<Event> {
    if !feed.Sees(note.name) then None
    else if !note.access.Admits(feed.user) then
      if note.name in feed.known
      then Some(Deleted(note.name, if note.name in clusters then clusters[note.name].version else ""))
      else None
    else if note.name !in clusters then None
    else
      var version := clusters[note.name].version;
      if note.name !in feed.known then Some(Added(note.name, version))
      else if feed.known[note.name] == version then None
      else Some(Modified(note.name, version))
  }

  /** What a client that holds `view` holds after the event. */
  function Apply(view: map<string, string>, event: Event): map<string, string> {
    match event
    case Added(n, v) => view[n := v]
    case Modified(n, v) => view[n := v]
    case Deleted(n, _) => view - {n}
    case Error(_) => view
  }

  function Replay(start: map<string, string>, events: seq<Event>): map<string, string> {
    if events == [] then start
    else Apply(Replay(start, events[..|events| - 1]), events[|events| - 1])
  }

  /** The source's three updates of knownResources, case by case. */
  function Remembered(feed: Feed, clusters: Clusters, note: Note): map<string, string> {
    if !feed.Sees(note.name) then feed.known
    else if !note.access.Admits(feed.user) then feed.known - {note.name}
    else if note.name !in clusters then feed.known
    else feed.known[note.name := clusters[note.name].version]
  }

  function Hear(feed: Feed, clusters: Clusters, note: Note): Feed {
    match Reaction(feed, clusters, note)
    case None => feed
    case Some(event) => feed.(known := Remembered(feed, clusters, note), sent := feed.sent + [event])
  }

  function HearAll(feed: Feed, clusters: Clusters, notes: seq<Note>): Feed {
    if notes == [] then feed
    else Hear(HearAll(feed, clusters, notes[..|notes| - 1]), clusters, notes[|notes| - 1])
  }

  /** A name that the watcher's scopes do not show it has no effect on it. */
  lemma HiddenIsIgnored(feed: Feed, clusters: Clusters, note: Note)
    requires "*" !in feed.visible && note.name !in feed.visible
    ensures Hear(feed, clusters, note) == feed
  {
  }

  /** A visible name whose access is lost is forgotten, and its deletion sent with what the lister still has. */
  lemma LostIsDeleted(feed: Feed, clusters: Clusters, note: Note)
    requires "*" in feed.visible || note.name in feed.visible
    requires feed.user.name !in note.access.users && forall g :: g in feed.user.groups ==> g !in note.access.groups
    ensures Hear(feed, clusters, note) ==
            if note.name !in feed.known then feed
            else feed.(known := feed.known - {note.name},
                       sent := feed.sent + [Deleted(note.name, if note.name in clusters
                                                               then clusters[note.name].version else "")])
  {
  }

  /**
   A visible name that is accessible is added, or modified if its version is another one than the
   watcher had; it is left alone if nothing changed, or if the lister does not have it.
   */
  lemma AccessibleIsSent(feed: Feed, clusters: Clusters, note: Note)
    requires "*" in feed.visible || note.name in feed.visible
    requires feed.user.name in note.access.users || exists g | g in feed.user.groups :: g in note.access.groups
    ensures note.name !in clusters ==> Hear(feed, clusters, note) == feed
    ensures note.name in clusters ==>
              var version := clusters[note.name].version;
              Hear(feed, clusters, note) ==
              if note.name in feed.known && feed.known[note.name] == version then feed
              else feed.(known := feed.known[note.name := version],
                         sent := feed.sent + [if note.name in feed.known then Modified(note.name, version)
                                              else Added(note.name, version)])
  {
  }

  ghost predicate Names(event: Event, n: string) {
    !event.Error? && event.name == n
  }

  /** `more` has events beyond those of `sent`, and none of them names `n`. */
  ghost predicate SilentAbout(sent: seq<Event>, more: seq<Event>, n: string) {
    sent <= more && forall i :: |sent| <= i < |more| ==> !Names(more[i], n)
  }

  /** However many notifications come, a hidden name is neither learnt nor forgotten nor sent. */
  lemma {:induction false} HiddenStays(feed: Feed, clusters: Clusters, notes: seq<Note>, n: string)
    requires "*" !in feed.visible && n !in feed.visible
    ensures Look(HearAll(feed, clusters, notes).known, n) == Look(feed.known, n)
    ensures SilentAbout(feed.sent, HearAll(feed, clusters, notes).sent, n)
    ensures HearAll(feed, clusters, notes).visible == feed.visible
  {
    if notes != [] {
      var front, last := HearAll(feed, clusters, notes[..|notes| - 1]), notes[|notes| - 1];
      HiddenStays(feed, clusters, notes[..|notes| - 1], n);
      if last.name == n {
        HiddenIsIgnored(front, clusters, last);
      }
    }
  }

  /******* The queue *******/

  const CAPACITY := 1000

  /** A watcher with its queue; `overflowed` once a notification has found the queue full. */
  datatype Inbox = Inbox(feed: Feed, incoming: seq<Event>, overflowed: bool)

  /** A notification: the view changes, and the event is queued if there is room for it. */
  function Offer(box: Inbox, clusters: Clusters, note: Note): Inbox {
    if box.overflowed then box
    else
      match Reaction(box.feed, clusters, note)
      case None => box
      case Some(event) =>
        if |box.incoming| < CAPACITY then Inbox(Hear(box.feed, clusters, note), box.incoming + [event], false)
        else box.(feed := box.feed.(known := Remembered(box.feed, clusters, note)), overflowed := true)
  }

  function OfferAll(box: Inbox, clusters: Clusters, notes: seq<Note>): Inbox {
    if notes == [] then box
    else Offer(OfferAll(box, clusters, notes[..|notes| - 1]), clusters, notes[|notes| - 1])
  }

  /** The view changes even if the event finds no room. */
  lemma RemembersAnyway(box: Inbox, clusters: Clusters, note: Note)
    requires !box.overflowed
    ensures Offer(box, clusters, note).feed.known == Hear(box.feed, clusters, note).known
  {
  }

  /** As long as a thousand places are enough, there is no overflow. */
  lemma {:induction false} RoomForAThousand(box: Inbox, clusters: Clusters, notes: seq<Note>)
    requires !box.overflowed && |box.incoming| + |notes| <= 1000
    ensures !OfferAll(box, clusters, notes).overflowed
    ensures |OfferAll(box, clusters, notes).incoming| <= |box.incoming| + |notes|
  {
    hide Reaction, Remembered;
    if notes != [] {
      RoomForAThousand(box, clusters, notes[..|notes| - 1]);
    }
  }

  /** And an overflow means that a thousand events are waiting. */
  lemma {:induction false} OverflowIsFull(box: Inbox, clusters: Clusters, notes: seq<Note>)
    requires !box.overflowed && |box.incoming| <= 1000
    ensures |OfferAll(box, clusters, notes).incoming| <= 1000
    ensures OfferAll(box, clusters, notes).overflowed ==> |OfferAll(box, clusters, notes).incoming| == 1000
  {
    hide Reaction, Remembered;
    if notes != [] {
      OverflowIsFull(box, clusters, notes[..|notes| - 1]);
    }
  }

  /** The Watch goroutine takes the first event. */
  function Taken(box: Inbox): Inbox {
    if box.incoming == [] then box else box.(incoming := box.incoming[1..])
  }

  /** A watcher that hears the same again, as one that is registered twice does, does not react again. */
  lemma OfferTwice(box: Inbox, clusters: Clusters, note: Note)
    ensures Offer(Offer(box, clusters, note), clusters, note) == Offer(box, clusters, note)
  {
  }

  /** As long as there is room, the queue does not change what the watcher believes. */
  lemma {:induction false} OfferedIsHeard(box: Inbox, clusters: Clusters, notes: seq<Note>)
    requires !OfferAll(box, clusters, notes).overflowed
    ensures OfferAll(box, clusters, notes).feed == HearAll(box.feed, clusters, notes)
  {
    if notes != [] {
      OfferedIsHeard(box, clusters, notes[..|notes| - 1]);
    }
  }

  /******* Watch-stream replay *******/

  /** An event fits a view: Added is new, Modified changes a version, Deleted was there. */
  predicate Fits(view: map<string, string>, event: Event) {
    match event
    case Added(n, _) => n !in view
    case Modified(n, v) => n in view && view[n] != v
    case Deleted(n, _) => n in view
    case Error(_) => false
  }

  ghost predicate AllFit(start: map<string, string>, events: seq<Event>) {
    events != [] ==>
      && AllFit(start, events[..|events| - 1])
      && Fits(Replay(start, events[..|events| - 1]), events[|events| - 1])
  }

  /** Replaying what was enqueued over the initial objects gives exactly what the watcher believes. */
  ghost predicate Faithful(start: map<string, string>, feed: Feed) {
    Replay(start, feed.sent) == feed.known && AllFit(start, feed.sent)
  }

  lemma ReplayOneMore(start: map<string, string>, events: seq<Event>, event: Event)
    ensures Replay(start, events + [event]) == Apply(Replay(start, events), event)
  {
    assert (events + [event])[..|events|] == events;
  }

  /** The event tells a client exactly what the watcher now remembers, and fits what it had. */
  lemma ReactionFits(feed: Feed, clusters: Clusters, note: Note)
    requires Reaction(feed, clusters, note).Some?
    ensures Apply(feed.known, Reaction(feed, clusters, note).value) == Remembered(feed, clusters, note)
    ensures Fits(feed.known, Reaction(feed, clusters, note).value)
  {
  }

  lemma HearIsFaithful(start: map<string, string>, feed: Feed, clusters: Clusters, note: Note)
    requires Faithful(start, feed)
    ensures Faithful(start, Hear(feed, clusters, note))
  {
    hide Replay, Apply, Reaction, Remembered, Fits;
    var event := Reaction(feed, clusters, note);
    if event.Some? {
      ReplayOneMore(start, feed.sent, event.value);
      ReactionFits(feed, clusters, note);
      assert (feed.sent + [event.value])[..|feed.sent|] == feed.sent;
    }
  }

  /** A notification with what the cluster lister shows at that moment. */
  datatype Told = Told(clusters: Clusters, note: Note)

  function HearHistory(feed: Feed, history: seq<Told>): Feed {
    if history == [] then feed
    else
      var last := history[|history| - 1];
      Hear(HearHistory(feed, history[..|history| - 1]), last.clusters, last.note)
  }

  /** Over any sequence of notifications, the enqueued events replay to the watcher's view. */
  lemma {:induction false} ReplayIsKnown(feed: Feed, history: seq<Told>)
    requires feed.sent == []
    ensures Replay(feed.known, HearHistory(feed, history).sent) == HearHistory(feed, history).known
    ensures AllFit(feed.known, HearHistory(feed, history).sent)
  {
    if history != [] {
      var front, last := history[..|history| - 1], history[|history| - 1];
      ReplayIsKnown(feed, front);
      HearIsFaithful(feed.known, HearHistory(feed, front), last.clusters, last.note);
    }
  }

  /******* One name *******/

  function Look(view: map<string, string>, n: string): Option<string> {
    if n in view then Some(view[n]) else None
  }

  /** What a visible name becomes when the watcher hears about it. */
  function Heard(user: User, clusters: Clusters, n: string, access: Access, before: Option<string>): Option<string> {
    if !access.Admits(user) then None
    else if n in clusters then Some(clusters[n].version)
    else before
  }

  lemma HearAt(feed: Feed, clusters: Clusters, note: Note, n: string)
    ensures Look(Hear(feed, clusters, note).known, n) ==
            if note.name == n && feed.Sees(n) then Heard(feed.user, clusters, n, note.access, Look(feed.known, n))
            else Look(feed.known, n)
    ensures Hear(feed, clusters, note).user == feed.user && Hear(feed, clusters, note).visible == feed.visible
  {
  }

  ghost predicate Mentions(notes: seq<Note>, n: string) {
    exists note | note in notes :: note.name == n
  }

  /** When every notification about a name says the same, hearing it often is hearing it once. */
  lemma {:induction false} HearAllAt(feed: Feed, clusters: Clusters, notes: seq<Note>, n: string, access: Access)
    requires forall note :: note in notes && note.name == n ==> note.access == access
    ensures HearAll(feed, clusters, notes).user == feed.user && HearAll(feed, clusters, notes).visible == feed.visible
    ensures Look(HearAll(feed, clusters, notes).known, n) ==
            if Mentions(notes, n) && feed.Sees(n) then Heard(feed.user, clusters, n, access, Look(feed.known, n))
            else Look(feed.known, n)
  {
    if notes != [] {
      var front, last := notes[..|notes| - 1], notes[|notes| - 1];
      assert notes == front + [last];
      HearAllAt(feed, clusters, front, n, access);
      HearAt(HearAll(feed, clusters, front), clusters, last, n);
      assert last in notes;
      assert Mentions(notes, n) <==> Mentions(front, n) || last.name == n;
    }
  }

  lemma {:induction false} HearAllConcat(feed: Feed, clusters: Clusters, a: seq<Note>, b: seq<Note>)
    ensures HearAll(feed, clusters, a + b) == HearAll(HearAll(feed, clusters, a), clusters, b)
  {
    if b == [] {
      assert a + b == a;
    } else {
      assert (a + b)[..|a + b| - 1] == a + b[..|b| - 1];
      HearAllConcat(feed, clusters, a, b[..|b| - 1]);
    }
  }

  /******* The notifications of a round *******/

  /** Every review notifies; skipped requests do not. */
  function SyncNotes(cfg: Config, snap: Snapshot, request: ReviewRequest, records: Records): seq<Note> {
    if SkipReview(request, Last(records, request.name)) then []
    else [Note(request.name, Direct(cfg, snap, request.name))]
  }

  function RunNotes(cfg: Config, snap: Snapshot, requests: seq<ReviewRequest>, records: Records): seq<Note> {
    if requests == [] then []
    else
      var front, r := requests[..|requests| - 1], requests[|requests| - 1];
      RunNotes(cfg, snap, front, records) + SyncNotes(cfg, snap, r, Run(cfg, snap, front, records))
  }

  function PurgeNotes(gone: seq<string>): seq<Note> {
    seq(|gone|, i requires 0 <= i < |gone| => Note(gone[i], NOBODY))
  }

  /** The known names that the listing no longer has, in any order. */
  ghost predicate IsGone(snap: Snapshot, st: State, gone: seq<string>) {
    forall n :: n in gone <==> n in st.known && n !in snap.Listed()
  }

  lemma {:induction false} RunNotesAt(cfg: Config, snap: Snapshot, requests: seq<ReviewRequest>, records: Records,
                                      n: string)
    requires WellNamed(records)
    ensures Mentions(RunNotes(cfg, snap, requests, records), n) <==> Unsatisfied(requests, records, n)
    ensures forall note :: note in RunNotes(cfg, snap, requests, records) && note.name == n ==>
                             note.access == Direct(cfg, snap, n)
  {
    hide Direct, SkipReview, Observed;
    if requests != [] {
      var front, r := requests[..|requests| - 1], requests[|requests| - 1];
      assert requests == front + [r];
      RunNotesAt(cfg, snap, front, records, n);
      RunOneName(cfg, snap, front, records, n);
      var before, notes := RunNotes(cfg, snap, front, records), RunNotes(cfg, snap, requests, records);
      if Unsatisfied(front, records, n) {
        UnsatisfiedGrows(front, r, records, n);
        var note :| note in before && note.name == n;
        assert note in notes;
      } else if r.name == n {
        assert Last(Run(cfg, snap, front, records), n) == Last(records, n);
        assert SkipReview(r, Last(records, n)) ==> notes == before;
        assert !SkipReview(r, Last(records, n)) ==> notes[|notes| - 1].name == n;
      }
    }
  }

  function RoundNotes(cfg: Config, snap: Snapshot, st: State, requests: seq<ReviewRequest>, gone: seq<string>)
    : seq<Note>
  {
    RunNotes(cfg, snap, requests, st.records) + PurgeNotes(gone)
  }

  /** What a round makes a watcher believe about one visible name. */
  lemma RoundAt(cfg: Config, snap: Snapshot, st: State, requests: seq<ReviewRequest>, gone: seq<string>, feed: Feed,
                n: string)
    requires Consistent(st) && IsGone(snap, st, gone) && feed.Sees(n)
    ensures Look(HearAll(feed, snap.clusters, RoundNotes(cfg, snap, st, requests, gone)).known, n) ==
            if n in st.known && n !in snap.Listed() then None
            else if Unsatisfied(requests, st.records, n)
            then Heard(feed.user, snap.clusters, n, Direct(cfg, snap, n), Look(feed.known, n))
            else Look(feed.known, n)
    ensures HearAll(feed, snap.clusters, RoundNotes(cfg, snap, st, requests, gone)).user == feed.user
    ensures HearAll(feed, snap.clusters, RoundNotes(cfg, snap, st, requests, gone)).visible == feed.visible
  {
    var run, purge := RunNotes(cfg, snap, requests, st.records), PurgeNotes(gone);
    HearAllConcat(feed, snap.clusters, run, purge);
    RunNotesAt(cfg, snap, requests, st.records, n);
    HearAllAt(feed, snap.clusters, run, n, Direct(cfg, snap, n));
    HearAllAt(HearAll(feed, snap.clusters, run), snap.clusters, purge, n, NOBODY);
    PurgeMentions(gone, n);
  }

  lemma PurgeMentions(gone: seq<string>, n: string)
    ensures Mentions(PurgeNotes(gone), n) <==> n in gone
    ensures forall note :: note in PurgeNotes(gone) ==> note.access == NOBODY
  {
    if n in gone {
      var i :| 0 <= i < |gone| && gone[i] == n;
      assert PurgeNotes(gone)[i].name == n;
    }
  }

  /******* The watcher view agrees with the list view *******/

  /** The name is in the watcher's view exactly when the cache lists it for the watcher's user. */
  ghost predicate AgreesAt(feed: Feed, st: State, n: string) {
    n in feed.known <==> n in ListNames(st, feed.user)
  }

  ghost predicate Agrees(feed: Feed, st: State) {
    forall n :: feed.Sees(n) ==> AgreesAt(feed, st, n)
  }

  /** The watcher has nothing too much, and misses the name only if the round will review it. */
  ghost predicate ReadyAt(cfg: Config, snap: Snapshot, st: State, feed: Feed, n: string) {
    && (n in feed.known ==> n in ListNames(st, feed.user))
    && (n in snap.Listed() && !NeedsReview(cfg, snap, st, n) && n in ListNames(st, feed.user) ==> n in feed.known)
  }

  ghost predicate Ready(cfg: Config, snap: Snapshot, st: State, feed: Feed) {
    forall n :: feed.Sees(n) ==> ReadyAt(cfg, snap, st, feed, n)
  }

  /** Of a name that the round will not review, the watcher has the recorded version. */
  ghost predicate CurrentAt(cfg: Config, snap: Snapshot, st: State, feed: Feed, n: string) {
    n in snap.Listed() && !NeedsReview(cfg, snap, st, n) && n in ListNames(st, feed.user) ==>
      Look(feed.known, n) == Some(st.records[n].seen.version)
  }

  /**
   How a round ends in disagreement about a visible name, whatever the watcher believed before: the
   round leaves a listed name alone that the watcher was wrong about; or the name is neither listed nor
   known, so that its record is purged without a word to the watchers, and the watcher has it, from
   before and not told otherwise by the binding pass, or because the binding pass just told it so.
   */
  ghost predicate Strays(cfg: Config, snap: Snapshot, st: State, feed: Feed, n: string) {
    if n in snap.Listed() then !NeedsReview(cfg, snap, st, n) && !AgreesAt(feed, st, n)
    else
      && n !in st.known
      && if VisitsTo(cfg, snap, st.known, n) == {} then n in feed.known
         else Direct(cfg, snap, n).Admits(feed.user) && (n in snap.clusters || n in feed.known)
  }

  /**
   The one way for disagreement to begin: the listing of the clusters failed, and the binding pass
   reviewed a name outside the known ones, which the lister can still Get and the user may access.
   */
  ghost predicate Leaks(cfg: Config, snap: Snapshot, known: set<string>, user: User, n: string) {
    && snap.listFails
    && n !in known
    && n in snap.clusters
    && VisitsTo(cfg, snap, known, n) != {}
    && Direct(cfg, snap, n).Admits(user)
  }

  lemma AgreementIsReady(cfg: Config, snap: Snapshot, st: State, feed: Feed, n: string)
    requires AgreesAt(feed, st, n)
    ensures ReadyAt(cfg, snap, st, feed, n)
  {
  }

  /** For a watcher that was ready, straying is leaking. */
  lemma ReadyStrays(cfg: Config, snap: Snapshot, st: State, feed: Feed, n: string)
    requires Consistent(st) && ReadyAt(cfg, snap, st, feed, n)
    ensures Strays(cfg, snap, st, feed, n) <==> Leaks(cfg, snap, st.known, feed.user, n)
  {
  }

  /** A name outside the listing is asked for exactly when the binding pass visits it. */
  lemma UnlistedIsVisited(cfg: Config, snap: Snapshot, st: State, requests: seq<ReviewRequest>, n: string)
    requires IsSchedule(cfg, snap, st.known, requests) && n !in snap.Listed() && n !in st.records
    ensures Unsatisfied(requests, st.records, n) <==> VisitsTo(cfg, snap, st.known, n) != {}
  {
    var visits := VisitsTo(cfg, snap, st.known, n);
    ScheduleAsks(cfg, snap, st.known, requests, n);
    if v :| v in visits {
      assert IsAskedFor(BindingRequest(v, n), n, None, visits);
    }
    if Unsatisfied(requests, st.records, n) {
      var r :| r in requests && r.name == n;
      assert IsAskedFor(r, n, None, visits);
    }
  }

  /** What the round does to a listed name, for the watcher and for the record. */
  lemma ListedAgrees(cfg: Config, snap: Snapshot, st: State, requests: seq<ReviewRequest>, gone: seq<string>,
                     feed: Feed, n: string)
    requires snap.Valid() && Consistent(st) && IsSchedule(cfg, snap, st.known, requests) && IsGone(snap, st, gone)
    requires feed.Sees(n) && n in snap.Listed()
    ensures AgreesAt(HearAll(feed, snap.clusters, RoundNotes(cfg, snap, st, requests, gone)),
                     Synchronized(cfg, snap, st), n)
            <==> !Strays(cfg, snap, st, feed, n)
  {
    hide RoundNotes, HearAll, IsSchedule, IsGone, Unsatisfied, VisitsTo, Direct;
    RoundAt(cfg, snap, st, requests, gone, feed, n);
    SynchronizedAt(cfg, snap, st, n);
    StepOfName(cfg, snap, st, n);
    ListedIsReviewed(cfg, snap, st, requests, n);
  }

  lemma UnlistedAgrees(cfg: Config, snap: Snapshot, st: State, requests: seq<ReviewRequest>, gone: seq<string>,
                       feed: Feed, n: string)
    requires snap.Valid() && Consistent(st) && IsSchedule(cfg, snap, st.known, requests) && IsGone(snap, st, gone)
    requires feed.Sees(n) && n !in snap.Listed()
    ensures n in HearAll(feed, snap.clusters, RoundNotes(cfg, snap, st, requests, gone)).known
            <==> Strays(cfg, snap, st, feed, n)
  {
    RoundAt(cfg, snap, st, requests, gone, feed, n);
    if n !in st.known {
      UnlistedIsVisited(cfg, snap, st, requests, n);
    }
  }

  /** Agreement after a round, name by name and for any watcher. */
  lemma NameAgrees(cfg: Config, snap: Snapshot, st: State, requests: seq<ReviewRequest>, gone: seq<string>, feed: Feed,
                   n: string)
    requires snap.Valid() && Consistent(st) && IsSchedule(cfg, snap, st.known, requests) && IsGone(snap, st, gone)
    requires feed.Sees(n)
    ensures AgreesAt(HearAll(feed, snap.clusters, RoundNotes(cfg, snap, st, requests, gone)),
                     Synchronized(cfg, snap, st), n)
            <==> !Strays(cfg, snap, st, feed, n)
  {
    if n in snap.Listed() {
      ListedAgrees(cfg, snap, st, requests, gone, feed, n);
    } else {
      UnlistedAgrees(cfg, snap, st, requests, gone, feed, n);
      assert n !in Synchronized(cfg, snap, st).records;
    }
  }

  lemma ListedIsReviewed(cfg: Config, snap: Snapshot, st: State, requests: seq<ReviewRequest>, n: string)
    requires snap.Valid() && Consistent(st) && IsSchedule(cfg, snap, st.known, requests) && n in snap.Listed()
    ensures Unsatisfied(requests, st.records, n) <==> NeedsReview(cfg, snap, st, n)
  {
    VisitsAreFunctional(cfg, snap, st.known, n);
    ScheduleAsks(cfg, snap, st.known, requests, n);
    StaleIsUnsatisfied(requests, st.records, n, snap.clusters[n].version, VisitsTo(cfg, snap, st.known, n));
  }

  ghost predicate NoneStrays(cfg: Config, snap: Snapshot, st: State, feed: Feed) {
    forall n :: feed.Sees(n) ==> !Strays(cfg, snap, st, feed, n)
  }

  /**
   After a round, any watcher's view agrees with the list view if and only if no visible name strays:
   purged names and temporary records for clusters that do not exist do no harm by themselves.
   */
  lemma RoundAgreesIff(cfg: Config, snap: Snapshot, st: State, requests: seq<ReviewRequest>, gone: seq<string>,
                       feed: Feed)
    requires snap.Valid() && Consistent(st) && IsSchedule(cfg, snap, st.known, requests) && IsGone(snap, st, gone)
    ensures Agrees(HearAll(feed, snap.clusters, RoundNotes(cfg, snap, st, requests, gone)),
                   Synchronized(cfg, snap, st))
            <==> NoneStrays(cfg, snap, st, feed)
  {
    hide AgreesAt, Strays, RoundNotes, HearAll, Synchronized, IsSchedule, IsGone, Consistent;
    var notes := RoundNotes(cfg, snap, st, requests, gone);
    var after, next := HearAll(feed, snap.clusters, notes), Synchronized(cfg, snap, st);
    HearAllFrame(feed, snap.clusters, notes);
    forall n | feed.Sees(n)
      ensures AgreesAt(after, next, n) <==> !Strays(cfg, snap, st, feed, n)
    {
      NameAgrees(cfg, snap, st, requests, gone, feed, n);
    }
  }

  lemma {:induction false} OverflowStays(box: Inbox, clusters: Clusters, notes: seq<Note>)
    requires box.overflowed
    ensures OfferAll(box, clusters, notes) == box
  {
    if notes != [] {
      OverflowStays(box, clusters, notes[..|notes| - 1]);
    }
  }

  /** The same of a watcher with its queue, as long as that does not overflow. */
  lemma BoxAgreesIff(cfg: Config, snap: Snapshot, st: State, requests: seq<ReviewRequest>, gone: seq<string>,
                     box: Inbox)
    requires snap.Valid() && Consistent(st) && IsSchedule(cfg, snap, st.known, requests) && IsGone(snap, st, gone)
    requires !OfferAll(box, snap.clusters, RoundNotes(cfg, snap, st, requests, gone)).overflowed
    ensures Agrees(OfferAll(box, snap.clusters, RoundNotes(cfg, snap, st, requests, gone)).feed,
                   Synchronized(cfg, snap, st))
            <==> NoneStrays(cfg, snap, st, box.feed)
  {
    OfferedIsHeard(box, snap.clusters, RoundNotes(cfg, snap, st, requests, gone));
    RoundAgreesIff(cfg, snap, st, requests, gone, box.feed);
  }

  lemma {:induction false} HearAllFrame(feed: Feed, clusters: Clusters, notes: seq<Note>)
    ensures HearAll(feed, clusters, notes).user == feed.user && HearAll(feed, clusters, notes).visible == feed.visible
  {
    if notes != [] {
      HearAllFrame(feed, clusters, notes[..|notes| - 1]);
    }
  }

  /** With a non-empty version, the version of a listed name is right as well. */
  lemma RoundVersions(cfg: Config, snap: Snapshot, st: State, requests: seq<ReviewRequest>, gone: seq<string>,
                      feed: Feed, n: string)
    requires snap.Valid() && Consistent(st) && IsSchedule(cfg, snap, st.known, requests) && IsGone(snap, st, gone)
    requires feed.Sees(n) && CurrentAt(cfg, snap, st, feed, n)
    requires n in ListNames(Synchronized(cfg, snap, st), feed.user) && snap.clusters[n].version != ""
    ensures Look(HearAll(feed, snap.clusters, RoundNotes(cfg, snap, st, requests, gone)).known, n)
            == Some(snap.clusters[n].version)
    ensures Synchronized(cfg, snap, st).records[n].seen.version == snap.clusters[n].version
  {
    hide RoundNotes, HearAll, IsSchedule, IsGone, Unsatisfied, VisitsTo, Direct;
    RoundAt(cfg, snap, st, requests, gone, feed, n);
    SynchronizedIsConsistent(cfg, snap, st);
    SynchronizedAt(cfg, snap, st, n);
    StepOfName(cfg, snap, st, n);
    ListedIsReviewed(cfg, snap, st, requests, n);
  }

  /******* Runs of rounds *******/

  /** A round: the snapshot, the order its requests came in, and the order of its purge. */
  datatype Round = Round(snap: Snapshot, requests: seq<ReviewRequest>, gone: seq<string>)

  ghost predicate ValidRound(cfg: Config, st: State, r: Round) {
    r.snap.Valid() && IsSchedule(cfg, r.snap, st.known, r.requests) && IsGone(r.snap, st, r.gone)
  }

  function RoundState(cfg: Config, st: State, r: Round): State {
    State(r.snap.Listed(), Purge(Run(cfg, r.snap, r.requests, st.records), r.snap.Listed()))
  }

  function StateThrough(cfg: Config, st: State, rounds: seq<Round>): State {
    if rounds == [] then st
    else RoundState(cfg, StateThrough(cfg, st, rounds[..|rounds| - 1]), rounds[|rounds| - 1])
  }

  function FeedThrough(cfg: Config, st: State, feed: Feed, rounds: seq<Round>): Feed {
    if rounds == [] then feed
    else
      var front, last := rounds[..|rounds| - 1], rounds[|rounds| - 1];
      HearAll(FeedThrough(cfg, st, feed, front), last.snap.clusters,
              RoundNotes(cfg, last.snap, StateThrough(cfg, st, front), last.requests, last.gone))
  }

  function Snapshots(rounds: seq<Round>): seq<Snapshot> {
    seq(|rounds|, i requires 0 <= i < |rounds| => rounds[i].snap)
  }

  /** Every round follows its snapshot. */
  ghost predicate ValidRounds(cfg: Config, st: State, rounds: seq<Round>) {
    rounds != [] ==>
      && ValidRounds(cfg, st, rounds[..|rounds| - 1])
      && ValidRound(cfg, StateThrough(cfg, st, rounds[..|rounds| - 1]), rounds[|rounds| - 1])
  }

  lemma {:induction false} StaysConsistent(cfg: Config, st: State, rounds: seq<Round>)
    requires Consistent(st) && ValidRounds(cfg, st, rounds)
    ensures Consistent(StateThrough(cfg, st, rounds))
    ensures StateThrough(cfg, st, rounds).known == KnownAfter(st.known, Snapshots(rounds))
  {
    if rounds != [] {
      var front, last := rounds[..|rounds| - 1], rounds[|rounds| - 1];
      StaysConsistent(cfg, st, front);
      RoundIsSynchronized(cfg, last.snap, StateThrough(cfg, st, front), last.requests);
      SynchronizedIsConsistent(cfg, last.snap, StateThrough(cfg, st, front));
    }
  }

  /** Rounds in two parts. */
  lemma {:induction false} ThroughConcat(cfg: Config, st: State, a: seq<Round>, b: seq<Round>)
    ensures StateThrough(cfg, st, a + b) == StateThrough(cfg, StateThrough(cfg, st, a), b)
    ensures ValidRounds(cfg, st, a + b) <==> ValidRounds(cfg, st, a) && ValidRounds(cfg, StateThrough(cfg, st, a), b)
  {
    hide RoundState, ValidRound;
    if b == [] {
      assert a + b == a;
    } else {
      assert (a + b)[..|a + b| - 1] == a + b[..|b| - 1];
      ThroughConcat(cfg, st, a, b[..|b| - 1]);
    }
  }

  /** From wherever a run has led, the passes in any order reach the state that the longer run determines. */
  lemma {:induction false} RoundsReachRun(cfg: Config, past: seq<Snapshot>, rounds: seq<Round>)
    requires ValidRounds(cfg, StateAfter(cfg, past), rounds)
    ensures StateThrough(cfg, StateAfter(cfg, past), rounds) == StateAfter(cfg, past + Snapshots(rounds))
  {
    hide Synchronized, Purge, Run, Consistent, IsSchedule, IsGone;
    var st := StateAfter(cfg, past);
    if rounds == [] {
      assert past + Snapshots(rounds) == past;
    } else {
      var front, last := rounds[..|rounds| - 1], rounds[|rounds| - 1];
      RoundsReachRun(cfg, past, front);
      KnownNames(cfg, past);
      StaysConsistent(cfg, st, front);
      RoundIsSynchronized(cfg, last.snap, StateThrough(cfg, st, front), last.requests);
      assert past + Snapshots(rounds) == past + Snapshots(front) + [last.snap];
      AfterOneMore(cfg, past + Snapshots(front), last.snap);
    }
  }

  /**
   The watcher is wrong about the name after these rounds, as the snapshots alone tell: the last round
   leaked it, or it had drifted before and still is not listed, and the binding pass does not visit it
   or finds that the user may access it.
   */
  ghost predicate Drifted(cfg: Config, start: set<string>, run: seq<Snapshot>, user: User, n: string) {
    run != [] &&
    var known, snap := KnownAfter(start, Front(run)), Now(run);
    || Leaks(cfg, snap, known, user, n)
    || (&& Drifted(cfg, start, Front(run), user, n)
        && n !in snap.Listed()
        && (VisitsTo(cfg, snap, known, n) != {} ==> Direct(cfg, snap, n).Admits(user)))
  }

  /** One more round, from agreement or from drift. */
  lemma DriftStep(cfg: Config, snap: Snapshot, st: State, requests: seq<ReviewRequest>, gone: seq<string>, feed: Feed,
                  n: string, drifted: bool)
    requires snap.Valid() && Consistent(st) && IsSchedule(cfg, snap, st.known, requests) && IsGone(snap, st, gone)
    requires feed.Sees(n)
    requires if drifted then n in feed.known && n !in st.known else ReadyAt(cfg, snap, st, feed, n)
    ensures var after := HearAll(feed, snap.clusters, RoundNotes(cfg, snap, st, requests, gone));
            var next := Synchronized(cfg, snap, st);
            if Leaks(cfg, snap, st.known, feed.user, n)
               || (drifted && n !in snap.Listed()
                   && (VisitsTo(cfg, snap, st.known, n) != {} ==> Direct(cfg, snap, n).Admits(feed.user)))
            then n in after.known && n !in next.known
            else AgreesAt(after, next, n)
  {
    hide RoundNotes, HearAll, IsSchedule, IsGone, VisitsTo, Direct;
    HearAllFrame(feed, snap.clusters, RoundNotes(cfg, snap, st, requests, gone));
    NameAgrees(cfg, snap, st, requests, gone, feed, n);
    SynchronizedIsConsistent(cfg, snap, st);
    if !drifted {
      ReadyStrays(cfg, snap, st, feed, n);
    }
  }

  /**
   The watcher view agrees with the list view about a name after every round of every run, whatever
   the order of the requests, if and only if the name has not drifted; a drifted name is one that the
   watcher has and the cache does not even know.
   */
  lemma {:induction false} DriftIff(cfg: Config, st: State, feed: Feed, rounds: seq<Round>, n: string)
    requires rounds != [] && Consistent(st) && ValidRounds(cfg, st, rounds)
    requires feed.Sees(n) && ReadyAt(cfg, rounds[0].snap, st, feed, n)
    ensures AgreesAt(FeedThrough(cfg, st, feed, rounds), StateThrough(cfg, st, rounds), n)
            <==> !Drifted(cfg, st.known, Snapshots(rounds), feed.user, n)
    ensures Drifted(cfg, st.known, Snapshots(rounds), feed.user, n) ==>
              n in FeedThrough(cfg, st, feed, rounds).known && n !in StateThrough(cfg, st, rounds).known
  {
    hide Leaks, VisitsTo, Direct, HearAll, RoundNotes, IsSchedule, IsGone, NeedsReview, Run, Purge, Synchronized;
    var front, last := rounds[..|rounds| - 1], rounds[|rounds| - 1];
    var before, heard := StateThrough(cfg, st, front), FeedThrough(cfg, st, feed, front);
    assert Front(Snapshots(rounds)) == Snapshots(front);
    StaysConsistent(cfg, st, front);
    StaysConsistent(cfg, st, rounds);
    FeedThroughFrame(cfg, st, feed, front);
    FeedThroughFrame(cfg, st, feed, rounds);
    RoundIsSynchronized(cfg, last.snap, before, last.requests);
    var drifted := Drifted(cfg, st.known, Snapshots(front), feed.user, n);
    if front != [] {
      assert front[0] == rounds[0];
      DriftIff(cfg, st, feed, front, n);
      if !drifted {
        AgreementIsReady(cfg, last.snap, before, heard, n);
      }
    }
    DriftStep(cfg, last.snap, before, last.requests, last.gone, heard, n, drifted);
    UnknownIsUnlisted(StateThrough(cfg, st, rounds), feed.user, n);
  }

  lemma UnknownIsUnlisted(st: State, user: User, n: string)
    requires Consistent(st)
    ensures n !in st.known ==> n !in ListNames(st, user)
  {
  }

  /** So the views agree if and only if no visible name has drifted. */
  lemma WatcherAgrees(cfg: Config, st: State, feed: Feed, rounds: seq<Round>)
    requires rounds != [] && Consistent(st) && ValidRounds(cfg, st, rounds) && Ready(cfg, rounds[0].snap, st, feed)
    ensures Agrees(FeedThrough(cfg, st, feed, rounds), StateThrough(cfg, st, rounds))
            <==> forall n :: feed.Sees(n) ==> !Drifted(cfg, st.known, Snapshots(rounds), feed.user, n)
  {
    hide AgreesAt, Drifted, FeedThrough, StateThrough, ReadyAt, ValidRounds, Consistent;
    FeedThroughFrame(cfg, st, feed, rounds);
    forall n | feed.Sees(n)
      ensures AgreesAt(FeedThrough(cfg, st, feed, rounds), StateThrough(cfg, st, rounds), n)
              <==> !Drifted(cfg, st.known, Snapshots(rounds), feed.user, n)
    {
      DriftIff(cfg, st, feed, rounds, n);
    }
  }

  /** Drift begins with a failing listing: without one, there is none. */
  lemma {:induction false} NoFailureNoDrift(cfg: Config, start: set<string>, run: seq<Snapshot>, user: User, n: string)
    requires forall snap :: snap in run ==> !snap.listFails
    ensures !Drifted(cfg, start, run, user, n)
  {
    if run != [] {
      assert Now(run) in run;
      NoFailureNoDrift(cfg, start, Front(run), user, n);
    }
  }

  ghost predicate NonEmptyVersions(snap: Snapshot) {
    forall n :: n in snap.clusters ==> snap.clusters[n].version != ""
  }

  /**
   No missed update: with non-empty versions, after every round of every run the watcher and the record
   hold the lister's current version of each visible accessible name, even when the last review of the
   name came from a binding request, which carries no version.
   */
  lemma {:induction false} NoMissedUpdate(cfg: Config, st: State, feed: Feed, rounds: seq<Round>, n: string)
    requires rounds != [] && Consistent(st) && ValidRounds(cfg, st, rounds)
    requires feed.Sees(n) && CurrentAt(cfg, rounds[0].snap, st, feed, n)
    requires forall r :: r in rounds ==> NonEmptyVersions(r.snap)
    requires n in ListNames(StateThrough(cfg, st, rounds), feed.user)
    ensures var snap := rounds[|rounds| - 1].snap;
            && n in snap.clusters
            && StateThrough(cfg, st, rounds).records[n].seen.version == snap.clusters[n].version
            && Look(FeedThrough(cfg, st, feed, rounds).known, n) == Some(snap.clusters[n].version)
  {
    hide VisitsTo, Direct, HearAll, RoundNotes, IsSchedule, IsGone, NeedsReview, Run, Purge;
    var front, last := rounds[..|rounds| - 1], rounds[|rounds| - 1];
    var before, heard := StateThrough(cfg, st, front), FeedThrough(cfg, st, feed, front);
    StaysConsistent(cfg, st, front);
    FeedThroughFrame(cfg, st, feed, front);
    RoundIsSynchronized(cfg, last.snap, before, last.requests);
    assert last in rounds;
    if front != [] && n in ListNames(before, feed.user) {
      assert front[0] == rounds[0];
      NoMissedUpdate(cfg, st, feed, front, n);
    }
    RoundVersions(cfg, last.snap, before, last.requests, last.gone, heard, n);
  }

  lemma {:induction false} FeedThroughFrame(cfg: Config, st: State, feed: Feed, rounds: seq<Round>)
    ensures FeedThrough(cfg, st, feed, rounds).user == feed.user
    ensures FeedThrough(cfg, st, feed, rounds).visible == feed.visible
  {
    if rounds != [] {
      var front, last := rounds[..|rounds| - 1], rounds[|rounds| - 1];
      FeedThroughFrame(cfg, st, feed, front);
      HearAllFrame(FeedThrough(cfg, st, feed, front), last.snap.clusters,
                   RoundNotes(cfg, last.snap, StateThrough(cfg, st, front), last.requests, last.gone));
    }
  }

  /** Over any rounds, a watcher is told nothing about a name that its scopes do not show it. */
  lemma {:induction false} HiddenFromRounds(cfg: Config, st: State, feed: Feed, rounds: seq<Round>, n: string)
    requires "*" !in feed.visible && n !in feed.visible
    ensures Look(FeedThrough(cfg, st, feed, rounds).known, n) == Look(feed.known, n)
    ensures SilentAbout(feed.sent, FeedThrough(cfg, st, feed, rounds).sent, n)
  {
    hide HearAll, RoundNotes;
    if rounds != [] {
      var front, last := rounds[..|rounds| - 1], rounds[|rounds| - 1];
      HiddenFromRounds(cfg, st, feed, front, n);
      FeedThroughFrame(cfg, st, feed, front);
      HiddenStays(FeedThrough(cfg, st, feed, front), last.snap.clusters,
                  RoundNotes(cfg, last.snap, StateThrough(cfg, st, front), last.requests, last.gone), n);
    }
  }

  /******* Registration *******/

  /** A new watcher starts from the objects the cache lists for its user at that moment. */
  function Registered(st: State, clusters: Clusters, user: User, visible: set<string>): Feed {
    Feed(user, visible, map n | n in ListNames(st, user) && n in clusters :: clusters[n].version, [])
  }

  /**
   The lister showed these clusters when a watcher was registered before the round of `snap`: versions
   are not empty, and a cluster does not return to a version that it has left.
   */
  ghost predicate CanRegister(st: State, clusters: Clusters, snap: Snapshot) {
    && NonEmptyVersions(snap)
    && forall n :: n in st.records && n in snap.clusters && snap.clusters[n].version == st.records[n].seen.version ==>
                     n in clusters && clusters[n].version == snap.clusters[n].version
  }

  /**
   Registering between rounds is safe even when the lister has moved on since the last round, as long
   as a cluster never returns to a version it has left: the watcher is ready for the next round.
   */
  lemma RegisteredIsReady(cfg: Config, snap: Snapshot, st: State, clusters: Clusters, user: User, visible: set<string>)
    requires Consistent(st) && CanRegister(st, clusters, snap)
    ensures Ready(cfg, snap, st, Registered(st, clusters, user, visible))
    ensures forall n :: CurrentAt(cfg, snap, st, Registered(st, clusters, user, visible), n)
  {
  }

  /**
   So a watcher that was registered between two rounds agrees about a visible name after all later
   rounds if and only if the name has not drifted since.
   */
  lemma RegisteredDriftIff(cfg: Config, st: State, clusters: Clusters, user: User, visible: set<string>,
                           rounds: seq<Round>, n: string)
    requires rounds != [] && Consistent(st) && ValidRounds(cfg, st, rounds)
    requires CanRegister(st, clusters, rounds[0].snap)
    requires Registered(st, clusters, user, visible).Sees(n)
    ensures AgreesAt(FeedThrough(cfg, st, Registered(st, clusters, user, visible), rounds),
                     StateThrough(cfg, st, rounds), n)
            <==> !Drifted(cfg, st.known, Snapshots(rounds), user, n)
  {
    RegisteredIsReady(cfg, rounds[0].snap, st, clusters, user, visible);
    DriftIff(cfg, st, Registered(st, clusters, user, visible), rounds, n);
  }

  /******* Watchers that join on the way *******/

  /** When a watcher joined, counted in rounds, and what it believed then. */
  datatype Joining = Joining(round: nat, feed: Feed)

  /** What it believes after all these rounds, having heard those since it joined. */
  function Follow(cfg: Config, rounds: seq<Round>, j: Joining): Feed
    requires j.round <= |rounds|
  {
    FeedThrough(cfg, StateThrough(cfg, EMPTY, rounds[..j.round]), j.feed, rounds[j.round..])
  }

  lemma FollowOneMore(cfg: Config, rounds: seq<Round>, r: Round, j: Joining)
    requires j.round <= |rounds|
    ensures Follow(cfg, rounds + [r], j)
            == HearAll(Follow(cfg, rounds, j), r.snap.clusters,
                       RoundNotes(cfg, r.snap, StateThrough(cfg, EMPTY, rounds), r.requests, r.gone))
  {
    hide RoundState, HearAll, RoundNotes;
    var all := rounds + [r];
    assert all[..j.round] == rounds[..j.round] && all[j.round..] == rounds[j.round..] + [r];
    assert all[j.round..][..|all[j.round..]| - 1] == rounds[j.round..];
    assert rounds == rounds[..j.round] + rounds[j.round..];
    ThroughConcat(cfg, EMPTY, rounds[..j.round], rounds[j.round..]);
  }

  /**
   A watcher that joined ready, in any round, agrees about a visible name now if and only if the name
   has not drifted since.
   */
  lemma FollowedDriftIff(cfg: Config, rounds: seq<Round>, j: Joining, n: string)
    requires ValidRounds(cfg, EMPTY, rounds) && j.round < |rounds| && j.feed.Sees(n)
    requires ReadyAt(cfg, rounds[j.round].snap, StateThrough(cfg, EMPTY, rounds[..j.round]), j.feed, n)
    ensures AgreesAt(Follow(cfg, rounds, j), StateThrough(cfg, EMPTY, rounds), n)
            <==> !Drifted(cfg, KnownAfter({}, Snapshots(rounds[..j.round])), Snapshots(rounds[j.round..]),
                          j.feed.user, n)
  {
    hide StateThrough, ValidRounds, FeedThrough, ReadyAt, Drifted, AgreesAt;
    var before, since := rounds[..j.round], rounds[j.round..];
    assert rounds == before + since && since[0] == rounds[j.round];
    ThroughConcat(cfg, EMPTY, before, since);
    StaysConsistent(cfg, EMPTY, before);
    DriftIff(cfg, StateThrough(cfg, EMPTY, before), j.feed, since, n);
  }

  lemma {:induction false} RoomStays(box: Inbox, clusters: Clusters, notes: seq<Note>)
    ensures !OfferAll(box, clusters, notes).overflowed ==> !box.overflowed
  {
    if box.overflowed {
      OverflowStays(box, clusters, notes);
    }
  }

  /** Registering while the lister still shows what the last round listed gives agreement at once. */
  lemma RegisteredAgrees(st: State, clusters: Clusters, user: User, visible: set<string>)
    requires Consistent(st) && st.known <= clusters.Keys
    ensures Agrees(Registered(st, clusters, user, visible), st)
  {
  }
}
