/**
 The authorization cache as the source runs it (pkg/cache/common.go): three stores kept in step, a
 list of watchers, and the passes that update them in place.  `ReviewStores.Valid` is the
 inverted-index invariant, kept by every method; the effect of a synchronization is the closed form
 of module Rounds.
 */
module AuthCaches {
  import opened Options
  import opened Listers
  import opened Reviews
  import opened Requests
  import opened SubjectIndex
  import opened Rounds
  import opened Runs
  import opened Watch
  import opened CacheWatchers

  /** A record with the lists its review returned. */
  datatype ReviewRecord = ReviewRecord(seen: ReviewRequest, users: seq<string>, groups: seq<string>) {
    function Abstract(): Record {
      Record(seen, AsAccess(users, groups))
    }
  }

  ghost function Abstracts(records: map<string, ReviewRecord>): Records {
    map n | n in records :: records[n].Abstract()
  }

  lemma AbstractsOneMore(records: map<string, ReviewRecord>, name: string, record: ReviewRecord)
    ensures Abstracts(records[name := record]) == Abstracts(records)[name := record.Abstract()]
  {
  }

  lemma AbstractsOneLess(records: map<string, ReviewRecord>, name: string)
    ensures Abstracts(records - {name}) == Abstracts(records) - {name}
  {
  }

  /** The indexes after a name's record is replaced. */
  lemma Replaced(records: Records, name: string, record: Record, users: seq<string>, groups: seq<string>,
                 lostUsers: seq<string>, lostGroups: seq<string>)
    requires record.access == AsAccess(users, groups)
    requires AreLost(lostUsers, UsersOf(records), name, users) && AreLost(lostGroups, GroupsOf(records), name, groups)
    ensures var next := records[name := record];
            && AddAll(RemoveAll(UserIndex(records), lostUsers, name), users, name) == UserIndex(next)
            && AddAll(RemoveAll(GroupIndex(records), lostGroups, name), groups, name) == GroupIndex(next)
            && SubjectsOf(UsersOf(next), name) == (set u | u in users)
            && SubjectsOf(GroupsOf(next), name) == (set g | g in groups)
  {
    hide InverseOf, AddAll, RemoveAll, AreLost;
    var next := records[name := record];
    ReplaceInverts(UsersOf(records), name, users, lostUsers);
    ReplaceInverts(GroupsOf(records), name, groups, lostGroups);
    assert UsersOf(next) == UsersOf(records)[name := set u | u in users];
    assert GroupsOf(next) == GroupsOf(records)[name := set g | g in groups];
  }

  /** ... and after it is dropped. */
  lemma Dropped(records: Records, name: string, users: seq<string>, groups: seq<string>)
    requires name in records && records[name].access == AsAccess(users, groups)
    ensures var next := records - {name};
            && RemoveAll(UserIndex(records), users, name) == UserIndex(next)
            && RemoveAll(GroupIndex(records), groups, name) == GroupIndex(next)
            && SubjectsOf(UsersOf(next), name) == {} && SubjectsOf(GroupsOf(next), name) == {}
            && AreLost(users, UsersOf(records), name, []) && AreLost(groups, GroupsOf(records), name, [])
  {
    hide InverseOf, RemoveAll;
    var next := records - {name};
    RemoveInverts(UsersOf(records), name, users);
    RemoveInverts(GroupsOf(records), name, groups);
    assert UsersOf(records) - {name} == UsersOf(next);
    assert GroupsOf(records) - {name} == GroupsOf(next);
  }

  /** Both indexes are calm while the subjects of a name are replaced. */
  lemma CalmReplacement(before: Records, after: Records, name: string, users: seq<string>, groups: seq<string>,
                        lostUsers: seq<string>, lostGroups: seq<string>,
                        userHistory: seq<Index>, groupHistory: seq<Index>)
    requires AreLost(lostUsers, UsersOf(before), name, users) && AreLost(lostGroups, GroupsOf(before), name, groups)
    requires SubjectsOf(UsersOf(after), name) == (set u | u in users)
    requires SubjectsOf(GroupsOf(after), name) == (set g | g in groups)
    ensures Calm(userHistory + Trail(UserIndex(before), lostUsers, users, name), userHistory,
                 UsersOf(before), UsersOf(after), name)
    ensures Calm(groupHistory + Trail(GroupIndex(before), lostGroups, groups, name), groupHistory,
                 GroupsOf(before), GroupsOf(after), name)
  {
    hide UsersOf, GroupsOf, Trail, AreLost, Calm, SubjectsOf, InverseOf;
    TrailIsCalm(userHistory, UsersOf(before), UsersOf(after), name, users, lostUsers);
    TrailIsCalm(groupHistory, GroupsOf(before), GroupsOf(after), name, groups, lostGroups);
  }

  lemma RecordNames(records: map<string, ReviewRecord>)
    ensures Abstracts(records).Keys == records.Keys
  {
  }

  ghost function Elements(names: seq<string>): set<string> {
    set n | n in names
  }

  lemma PurgeNothing(before: Records, newNames: set<string>, names: set<string>)
    requires before.Keys <= names
    ensures Purge(before, newNames + names) == before
  {
  }

  /** Visiting one more name of the store: it is kept only if it is listed. */
  lemma PurgeOneMore(before: Records, newNames: set<string>, names: seq<string>, i: nat)
    requires i < |names| && forall j, k :: 0 <= j < k < |names| ==> names[j] != names[k]
    requires forall n :: n in names <==> n in before
    ensures names[i] in Purge(before, newNames + Elements(names[i..]))
    ensures Purge(before, newNames + Elements(names[i + 1..]))
            == if names[i] in newNames then Purge(before, newNames + Elements(names[i..]))
               else Purge(before, newNames + Elements(names[i..])) - {names[i]}
  {
    assert names[i..] == [names[i]] + names[i + 1..];
    assert names[i] !in names[i + 1..];
  }

  /** The review records and their two inverted indexes. */
  class ReviewStores {
    ghost var Records: Rounds.Records
    ghost var Repr: set<object>
    const users: SubjectStore
    const groups: SubjectStore
    var records: map<string, ReviewRecord>

    /** The indexes share nothing, and each is the inverse of the records. */
    ghost predicate Valid()
      reads this, Repr
    {
      && this in Repr && users in Repr && groups in Repr
      && users.Repr <= Repr && groups.Repr <= Repr
      && this !in users.Repr && this !in groups.Repr && Apart(users, groups)
      && users.Contents == UserIndex(Records) && groups.Contents == GroupIndex(Records)
      && Records == Abstracts(records) && WellNamed(Records)
    }

    constructor ()
      ensures Valid() && Records == map[] && fresh(Repr)
    {
      users := new SubjectStore();
      groups := new SubjectStore();
      records, Records := map[], map[];
      new;
      Repr := {this} + users.Repr + groups.Repr;
    }

    /** What a new review no longer has, in any order. */
    method ToRemove(name: string, newUsers: seq<string>, newGroups: seq<string>)
      returns (lostUsers: seq<string>, lostGroups: seq<string>)
      requires Valid()
      ensures AreLost(lostUsers, UsersOf(Records), name, newUsers)
      ensures AreLost(lostGroups, GroupsOf(Records), name, newGroups)
    {
      lostUsers, lostGroups := [], [];
      if name in records {
        lostUsers := Enumerate((set u | u in records[name].users) - (set u | u in newUsers));
        lostGroups := Enumerate((set g | g in records[name].groups) - (set g | g in newGroups));
      }
    }

    /**
     A review: the indexes lose what it no longer has, then gain what it has; the record follows.  No
     content that an index had on the way flickers.
     */
    method Replace(record: ReviewRecord)
      requires Valid()
      modifies Repr
      ensures Valid() && fresh(Repr - old(Repr))
      ensures Records == old(Records)[record.seen.name := record.Abstract()]
      ensures Calm(users.History, old(users.History), UsersOf(old(Records)), UsersOf(Records), record.seen.name)
      ensures Calm(groups.History, old(groups.History), GroupsOf(old(Records)), GroupsOf(Records), record.seen.name)
    {
      hide UserIndex, GroupIndex, UsersOf, GroupsOf, Abstracts, RemoveAll, AddAll, Trail, AreLost, Calm, SubjectsOf;
      ghost var before, name := Records, record.seen.name;
      var lostUsers, lostGroups := ToRemove(record.seen.name, record.users, record.groups);
      Replaced(Records, name, record.Abstract(), record.users, record.groups, lostUsers, lostGroups);
      AbstractsOneMore(records, name, record);
      ReplaceInBoth(users, groups, record.seen.name, lostUsers, lostGroups, record.users, record.groups);
      records, Records := records[record.seen.name := record], Records[name := record.Abstract()];
      Repr := {this} + users.Repr + groups.Repr;
      CalmReplacement(before, Records, name, record.users, record.groups, lostUsers, lostGroups,
                      old(users.History), old(groups.History));
    }

    /** The purge of one name. */
    method Delete(name: string)
      requires Valid() && name in records
      modifies Repr
      ensures Valid() && Repr <= old(Repr)
      ensures Records == old(Records) - {name}
      ensures Calm(users.History, old(users.History), UsersOf(old(Records)), UsersOf(Records), name)
      ensures Calm(groups.History, old(groups.History), GroupsOf(old(Records)), GroupsOf(Records), name)
    {
      var record := records[name];
      assert Records[name] == record.Abstract();
      hide UserIndex, GroupIndex, UsersOf, GroupsOf, Abstracts, RemoveAll, RemovalTrail, Trail, AreLost,
        Calm, SubjectsOf;
      ghost var before := Records;
      Dropped(Records, name, record.users, record.groups);
      AbstractsOneLess(records, name);
      NoAdditions(users.Contents, record.users, name);
      NoAdditions(groups.Contents, record.groups, name);
      DeleteFromBoth(users, groups, record.users, record.groups, name);
      records, Records := records - {name}, Records - {name};
      Repr := {this} + users.Repr + groups.Repr;
      CalmReplacement(before, Records, name, [], [], record.users, record.groups,
                      old(users.History), old(groups.History));
    }

    /** Drops every record whose name is not among `names`, in any order. */
    method PurgeRecords(newNames: set<string>)
      requires Valid()
      modifies Repr
      ensures Valid() && Repr <= old(Repr)
      ensures Records == Purge(old(Records), newNames)
    {
      hide Purge, UserIndex, GroupIndex, UsersOf, GroupsOf, Abstracts, WellNamed, Calm, Apart;
      var names := Enumerate(records.Keys);
      ghost var before := Records;
      RecordNames(records);
      PurgeNothing(before, newNames, Elements(names));
      assert names[0..] == names;
      for i := 0 to |names|
        invariant Valid() && Repr <= old(Repr)
        invariant Records == Purge(before, newNames + Elements(names[i..]))
      {
        PurgeOneMore(before, newNames, names, i);
        RecordNames(records);
        if names[i] !in newNames {
          Delete(names[i]);
        }
      }
      assert newNames + Elements(names[|names|..]) == newNames;
    }

    /** The names listed for a user, read from the indexes alone. */
    method ListNames(user: User) returns (names: set<string>)
      requires Valid()
      ensures forall n :: n in names <==> n in Records && Records[n].access.Admits(user)
    {
      names := users.Names(user.name);
      ghost var own := names;
      for i := 0 to |user.groups|
        invariant forall n :: n in names <==>
                                n in own || exists g | g in user.groups[..i] :: Holds(groups.Contents, g, n)
      {
        var more := groups.Names(user.groups[i]);
        assert user.groups[..i + 1] == user.groups[..i] + [user.groups[i]];
        names := names + more;
      }
      assert user.groups[..|user.groups|] == user.groups;
      forall n
        ensures n in names <==> n in Records && Records[n].access.Admits(user)
      {
        ListedByIndexes(Records, user, n);
      }
    }
  }

  lemma LastOf(records: map<string, ReviewRecord>, name: string)
    ensures Last(Abstracts(records), name) == if name in records then Some(records[name].seen) else None
  {
  }

  lemma ObservedName(request: ReviewRequest, last: Option<ReviewRequest>)
    ensures Observed(request, last).name == request.name
  {
  }

  /******* Watchers *******/

  /** Every watcher is offered the notifications. */
  ghost function OfferEach(boxes: seq<Inbox>, clusters: Clusters, notes: seq<Note>): seq<Inbox> {
    seq(|boxes|, i requires 0 <= i < |boxes| => OfferAll(boxes[i], clusters, notes))
  }

  lemma OfferEachOne(boxes: seq<Inbox>, clusters: Clusters, note: Note)
    ensures |OfferEach(boxes, clusters, [note])| == |boxes|
    ensures forall i :: 0 <= i < |boxes| ==> OfferEach(boxes, clusters, [note])[i] == Offer(boxes[i], clusters, note)
  {
    var notes := [note];
    assert notes[..|notes| - 1] == [];
    forall i | 0 <= i < |boxes|
      ensures OfferAll(boxes[i], clusters, notes) == Offer(boxes[i], clusters, note)
    {
      assert OfferAll(boxes[i], clusters, []) == boxes[i];
    }
  }

  lemma OfferEachNone(boxes: seq<Inbox>, clusters: Clusters)
    ensures OfferEach(boxes, clusters, []) == boxes
  {
  }

  lemma OfferMore(boxes: seq<Inbox>, clusters: Clusters, a: seq<Note>, b: seq<Note>)
    ensures OfferEach(boxes, clusters, a + b) == OfferEach(OfferEach(boxes, clusters, a), clusters, b)
  {
    forall i | 0 <= i < |boxes|
      ensures OfferAll(boxes[i], clusters, a + b) == OfferAll(OfferAll(boxes[i], clusters, a), clusters, b)
    {
      OfferAllConcat(boxes[i], clusters, a, b);
    }
  }

  lemma {:induction false} OfferAllConcat(box: Inbox, clusters: Clusters, a: seq<Note>, b: seq<Note>)
    ensures OfferAll(box, clusters, a + b) == OfferAll(OfferAll(box, clusters, a), clusters, b)
  {
    if b == [] {
      assert a + b == a;
    } else {
      assert (a + b)[..|a + b| - 1] == a + b[..|b| - 1];
      OfferAllConcat(box, clusters, a, b[..|b| - 1]);
    }
  }

  /** Of the watchers that have not overflowed, exactly those agree with the list for which no name strayed. */
  ghost predicate AllAgreeIff(cfg: Config, snap: Snapshot, st: State, boxes: seq<Inbox>, after: seq<Inbox>, next: State)
  {
    && |after| == |boxes|
    && forall i :: 0 <= i < |boxes| && !after[i].overflowed ==>
                     (Agrees(after[i].feed, next) <==> NoneStrays(cfg, snap, st, boxes[i].feed))
  }

  lemma RoundAllAgreeIff(cfg: Config, snap: Snapshot, st: State, requests: seq<ReviewRequest>, gone: seq<string>,
                         boxes: seq<Inbox>)
    requires snap.Valid() && Consistent(st) && IsSchedule(cfg, snap, st.known, requests) && IsGone(snap, st, gone)
    ensures AllAgreeIff(cfg, snap, st, boxes,
                        OfferEach(boxes, snap.clusters, RoundNotes(cfg, snap, st, requests, gone)),
                        Synchronized(cfg, snap, st))
  {
    hide Agrees, NoneStrays, RoundNotes, Synchronized, Consistent, IsSchedule, IsGone, OfferAll;
    var after := OfferEach(boxes, snap.clusters, RoundNotes(cfg, snap, st, requests, gone));
    forall i | 0 <= i < |boxes| && !after[i].overflowed
      ensures Agrees(after[i].feed, Synchronized(cfg, snap, st)) <==> NoneStrays(cfg, snap, st, boxes[i].feed)
    {
      BoxAgreesIff(cfg, snap, st, requests, gone, boxes[i]);
    }
  }

  type Joinings = map<CacheWatcher, Joining>

  /** Every watcher that has not overflowed believes what the rounds since it joined make it believe. */
  ghost predicate AllFollow(cfg: Config, rounds: seq<Round>, joined: Joinings, list: seq<CacheWatcher>,
                            boxes: seq<Inbox>)
  {
    && |list| == |boxes|
    && forall i :: 0 <= i < |list| ==> Follows(cfg, rounds, joined, list[i], boxes[i])
  }

  ghost predicate Follows(cfg: Config, rounds: seq<Round>, joined: Joinings, w: CacheWatcher, box: Inbox) {
    && w in joined && joined[w].round <= |rounds|
    && (!box.overflowed ==> box.feed == Follow(cfg, rounds, joined[w]))
  }

  /** All watchers hear one more round. */
  lemma AllFollowOneMore(cfg: Config, rounds: seq<Round>, r: Round, joined: Joinings, list: seq<CacheWatcher>,
                         boxes: seq<Inbox>, st: State)
    requires AllFollow(cfg, rounds, joined, list, boxes) && st == StateThrough(cfg, EMPTY, rounds)
    ensures AllFollow(cfg, rounds + [r], joined, list,
                      OfferEach(boxes, r.snap.clusters, RoundNotes(cfg, r.snap, st, r.requests, r.gone)))
  {
    hide Follow, RoundNotes, OfferAll, HearAll, StateThrough;
    var notes := RoundNotes(cfg, r.snap, st, r.requests, r.gone);
    forall i | 0 <= i < |list|
      ensures Follows(cfg, rounds + [r], joined, list[i], OfferAll(boxes[i], r.snap.clusters, notes))
    {
      assert Follows(cfg, rounds, joined, list[i], boxes[i]);
      RoomStays(boxes[i], r.snap.clusters, notes);
      FollowOneMore(cfg, rounds, r, joined[list[i]]);
      if !OfferAll(boxes[i], r.snap.clusters, notes).overflowed {
        OfferedIsHeard(boxes[i], r.snap.clusters, notes);
      }
    }
  }

  /** A watcher joins with the view it has; if it is there already, it has joined before. */
  function WithJoining(joined: Joinings, list: seq<CacheWatcher>, w: CacheWatcher, j: Joining): Joinings {
    if w in list then joined else joined[w := j]
  }

  lemma AllFollowJoin(cfg: Config, rounds: seq<Round>, joined: Joinings, list: seq<CacheWatcher>, boxes: seq<Inbox>,
                      w: CacheWatcher, box: Inbox)
    requires AllFollow(cfg, rounds, joined, list, boxes)
    requires forall i :: 0 <= i < |list| && list[i] == w ==> boxes[i] == box
    ensures AllFollow(cfg, rounds, WithJoining(joined, list, w, Joining(|rounds|, box.feed)), list + [w], boxes + [box])
  {
    hide StateThrough;
    var next := WithJoining(joined, list, w, Joining(|rounds|, box.feed));
    assert rounds[|rounds|..] == [];
    forall i | 0 <= i < |list|
      ensures Follows(cfg, rounds, next, list[i], boxes[i])
    {
      assert Follows(cfg, rounds, joined, list[i], boxes[i]);
    }
    if w in list {
      var i :| 0 <= i < |list| && list[i] == w;
      assert Follows(cfg, rounds, joined, list[i], boxes[i]);
    }
    assert Follows(cfg, rounds, next, w, box);
  }

  /** At `j` there is this watcher, and it believes what `box` does. */
  ghost predicate IsAt(list: seq<CacheWatcher>, boxes: seq<Inbox>, j: nat, w: CacheWatcher, box: Inbox) {
    && j < |list| && j < |boxes| && list[j] == w
    && boxes[j].feed == box.feed && boxes[j].overflowed == box.overflowed
  }

  ghost predicate IsAmong(list: seq<CacheWatcher>, boxes: seq<Inbox>, w: CacheWatcher, box: Inbox) {
    exists j :: IsAt(list, boxes, j, w, box)
  }

  /** These watchers are among those, and believe the same. */
  ghost predicate IsPart(part: seq<CacheWatcher>, partBoxes: seq<Inbox>, list: seq<CacheWatcher>, boxes: seq<Inbox>) {
    && |part| == |partBoxes|
    && forall i :: 0 <= i < |part| ==> IsAmong(list, boxes, part[i], partBoxes[i])
  }

  lemma AllArePart(list: seq<CacheWatcher>, boxes: seq<Inbox>, after: seq<Inbox>)
    requires |list| == |boxes| == |after|
    requires forall i :: 0 <= i < |boxes| ==>
                           after[i].feed == boxes[i].feed && after[i].overflowed == boxes[i].overflowed
    ensures IsPart(list, after, list, boxes)
  {
    forall i | 0 <= i < |list|
      ensures IsAmong(list, boxes, list[i], after[i])
    {
      assert IsAt(list, boxes, i, list[i], after[i]);
    }
  }

  lemma CutIsPart(list: seq<CacheWatcher>, boxes: seq<Inbox>, i: nat)
    requires i < |list| == |boxes|
    ensures IsPart(list[..i] + list[i + 1..], boxes[..i] + boxes[i + 1..], list, boxes)
  {
    var part, partBoxes := list[..i] + list[i + 1..], boxes[..i] + boxes[i + 1..];
    forall k | 0 <= k < |part|
      ensures IsAmong(list, boxes, part[k], partBoxes[k])
    {
      assert IsAt(list, boxes, if k < i then k else k + 1, part[k], partBoxes[k]);
    }
  }

  /** Removing a watcher, or taking from a queue, changes nothing for the watchers that are there. */
  lemma AllFollowPart(cfg: Config, rounds: seq<Round>, joined: Joinings, list: seq<CacheWatcher>, boxes: seq<Inbox>,
                      part: seq<CacheWatcher>, partBoxes: seq<Inbox>)
    requires AllFollow(cfg, rounds, joined, list, boxes) && IsPart(part, partBoxes, list, boxes)
    ensures AllFollow(cfg, rounds, joined, part, partBoxes)
  {
    hide Follow;
    forall i | 0 <= i < |part|
      ensures Follows(cfg, rounds, joined, part[i], partBoxes[i])
    {
      assert IsAmong(list, boxes, part[i], partBoxes[i]);
      var j: nat :| IsAt(list, boxes, j, part[i], partBoxes[i]);
      assert Follows(cfg, rounds, joined, list[j], boxes[j]);
    }
  }

  /** `after` is `before` with the first `w` cut out, and the others in their order. */
  ghost predicate IsWithout(before: seq<CacheWatcher>, w: CacheWatcher, after: seq<CacheWatcher>) {
    && (w !in before ==> after == before)
    && forall i :: 0 <= i < |before| && before[i] == w && w !in before[..i] ==> after == before[..i] + before[i + 1..]
  }

  /** The registered watchers; the same one may be there more than once. */
  class WatcherList {
    ghost var Boxes: seq<Inbox>
    ghost var Repr: set<object>
    var watchers: seq<CacheWatcher>

    ghost predicate Valid()
      reads this, Repr
    {
      && this in Repr && (forall w :: w in watchers ==> w in Repr && w.Valid())
      && |Boxes| == |watchers|
      && forall i :: 0 <= i < |watchers| ==> watchers[i].Contents() == Boxes[i]
    }

    constructor ()
      ensures Valid() && watchers == [] && fresh(Repr)
    {
      watchers, Boxes := [], [];
      new;
      Repr := {this};
    }

    method Notify(clusters: Clusters, name: string, userNames: set<string>, groupNames: set<string>)
      requires Valid()
      modifies Repr
      ensures Valid() && Repr == old(Repr) && watchers == old(watchers)
      ensures Boxes == OfferEach(old(Boxes), clusters, [Note(name, Access(userNames, groupNames))])
    {
      hide Offer, OfferAll, OfferEach;
      ghost var note, list, boxes := Note(name, Access(userNames, groupNames)), watchers, Boxes;
      for i := 0 to |watchers|
        invariant watchers == list && Boxes == boxes && Repr == old(Repr)
        invariant forall j :: 0 <= j < |list| ==> list[j].Valid()
        invariant forall j :: 0 <= j < |list| ==>
                                list[j].Contents() ==
                                if list[j] in list[..i] then Offer(boxes[j], clusters, note) else boxes[j]
      {
        assert list[..i + 1] == list[..i] + [list[i]];
        OfferTwice(boxes[i], clusters, note);
        watchers[i].GroupMembershipChanged(clusters, name, userNames, groupNames);
      }
      assert list[..|list|] == list;
      OfferEachOne(boxes, clusters, note);
      Boxes := OfferEach(boxes, clusters, [note]);
    }

    method Add(w: CacheWatcher)
      requires Valid() && w.Valid()
      modifies this
      ensures Valid() && watchers == old(watchers) + [w] && Repr == old(Repr) + {w}
      ensures Boxes == old(Boxes) + [w.Contents()]
    {
      watchers, Boxes, Repr := watchers + [w], Boxes + [w.Contents()], Repr + {w};
    }

    /** Shifts the later watchers down over the first occurrence; without one, nothing changes. */
    method Remove(w: CacheWatcher)
      requires Valid()
      modifies this
      ensures Valid() && Repr == old(Repr) && IsWithout(old(watchers), w, watchers)
      ensures IsPart(watchers, Boxes, old(watchers), old(Boxes))
    {
      hide IsPart;
      for i := 0 to |watchers|
        invariant watchers == old(watchers) && Boxes == old(Boxes) && Repr == old(Repr)
        invariant w !in watchers[..i]
      {
        if watchers[i] == w {
          CutIsPart(watchers, Boxes, i);
          watchers := watchers[..i] + watchers[i + 1..];
          Boxes := Boxes[..i] + Boxes[i + 1..];
          return;
        }
      }
      assert watchers[..|watchers|] == watchers;
      AllArePart(watchers, Boxes, Boxes);
    }

    /** The Watch goroutine of a watcher takes an event from its queue. */
    method Take(w: CacheWatcher) returns (event: Option<Event>)
      requires Valid() && w in watchers
      modifies Repr
      ensures Valid() && Repr == old(Repr) && watchers == old(watchers)
      ensures event.None? <==> old(w.incoming) == []
      ensures old(w.incoming) == (if event.Some? then [event.value] else []) + w.incoming
      ensures Boxes == TakenBy(watchers, old(Boxes), w)
    {
      event := w.Take();
      Boxes := TakenBy(watchers, Boxes, w);
    }
  }

  ghost function TakenBy(list: seq<CacheWatcher>, boxes: seq<Inbox>, w: CacheWatcher): seq<Inbox>
    requires |list| == |boxes|
  {
    seq(|boxes|, i requires 0 <= i < |boxes| => if list[i] == w then Taken(boxes[i]) else boxes[i])
  }

  /******* Passes *******/

  /** One more request, for the records and for every watcher. */
  lemma RunOneMore(cfg: Config, snap: Snapshot, done: seq<ReviewRequest>, request: ReviewRequest, start: Records,
                   boxes: seq<Inbox>)
    ensures Run(cfg, snap, done + [request], start) == SyncOne(cfg, snap, request, Run(cfg, snap, done, start))
    ensures OfferEach(boxes, snap.clusters, RunNotes(cfg, snap, done + [request], start))
            == OfferEach(OfferEach(boxes, snap.clusters, RunNotes(cfg, snap, done, start)), snap.clusters,
                         SyncNotes(cfg, snap, request, Run(cfg, snap, done, start)))
  {
    assert (done + [request])[..|done|] == done;
    OfferMore(boxes, snap.clusters, RunNotes(cfg, snap, done, start),
              SyncNotes(cfg, snap, request, Run(cfg, snap, done, start)));
  }

  /** The request comes from this binding. */
  ghost predicate AskedBy(cfg: Config, snap: Snapshot, known: set<string>, b: Binding, r: ReviewRequest) {
    Covering(cfg, snap, known, b, r.name) && r == BindingRequest(VisitOf(b, snap.roles[b.roleRef]), r.name)
  }

  ghost predicate IsListed(snap: Snapshot, r: ReviewRequest) {
    r.name in snap.Listed() && r == ClusterRequest(r.name, snap.clusters[r.name].version)
  }

  /** The requests of the two passes are a schedule. */
  lemma PassesAreSchedule(cfg: Config, snap: Snapshot, known: set<string>, requests: seq<ReviewRequest>)
    requires forall r :: r in requests <==>
                           IsListed(snap, r) || exists b | b in snap.bindings :: AskedBy(cfg, snap, known, b, r)
    ensures IsSchedule(cfg, snap, known, requests)
  {
    forall r
      ensures r in requests <==> IsAskedFor(r, r.name, ListedVersion(snap, r.name), VisitsTo(cfg, snap, known, r.name))
    {
      AskedIsVisit(cfg, snap, known, r);
    }
  }

  lemma AskedIsVisit(cfg: Config, snap: Snapshot, known: set<string>, r: ReviewRequest)
    ensures (exists b | b in snap.bindings :: AskedBy(cfg, snap, known, b, r)) <==>
            exists v | v in VisitsTo(cfg, snap, known, r.name) :: r == BindingRequest(v, r.name)
  {
    forall b | b in snap.bindings && AskedBy(cfg, snap, known, b, r)
      ensures exists v | v in VisitsTo(cfg, snap, known, r.name) :: r == BindingRequest(v, r.name)
    {
      assert VisitOf(b, snap.roles[b.roleRef]) in VisitsTo(cfg, snap, known, r.name);
    }
    forall v | v in VisitsTo(cfg, snap, known, r.name) && r == BindingRequest(v, r.name)
      ensures exists b | b in snap.bindings :: AskedBy(cfg, snap, known, b, r)
    {
      var b :| b in snap.bindings && Covering(cfg, snap, known, b, r.name) && v == VisitOf(b, snap.roles[b.roleRef]);
      assert AskedBy(cfg, snap, known, b, r);
    }
  }

  lemma NamesListed(snap: Snapshot, requests: seq<ReviewRequest>, names: set<string>)
    requires !snap.listFails && forall q :: q in requests <==> IsListed(snap, q)
    requires names == set r | r in requests :: r.name
    ensures names == snap.Listed()
  {
    forall n | n in snap.Listed()
      ensures n in names
    {
      assert IsListed(snap, ClusterRequest(n, snap.clusters[n].version));
    }
  }

  /** The cluster cache's requests (pkg/cache/managedcluster.go), or nothing if the lister fails. */
  method ListResources(snap: Snapshot) returns (r: Option<seq<ReviewRequest>>)
    ensures r.None? <==> snap.listFails
    ensures r.Some? ==> forall q :: q in r.value <==> IsListed(snap, q)
    ensures r.Some? ==> forall i, j :: 0 <= i < j < |r.value| ==> r.value[i].name != r.value[j].name
  {
    if snap.listFails {
      return None;
    }
    var names := Enumerate(snap.clusters.Keys);
    var requests: seq<ReviewRequest> := [];
    for i := 0 to |names|
      invariant forall q :: q in requests <==> IsListed(snap, q) && q.name in names[..i]
      invariant |requests| == i && forall j :: 0 <= j < i ==> requests[j].name == names[j]
    {
      assert names[..i + 1] == names[..i] + [names[i]];
      requests := requests + [ClusterRequest(names[i], snap.clusters[names[i]].version)];
    }
    assert names[..|names|] == names;
    r := Some(requests);
  }

  /** The binding pass's requests for one binding, in any order of the names. */
  method RequestsFor(v: Visit, names: set<string>) returns (requests: seq<ReviewRequest>)
    ensures forall r :: r in requests <==> r.name in names && r == BindingRequest(v, r.name)
    ensures forall i, j :: 0 <= i < j < |requests| ==> requests[i].name != requests[j].name
  {
    var order := Enumerate(names);
    requests := [];
    for i := 0 to |order|
      invariant forall r :: r in requests <==> r.name in order[..i] && r == BindingRequest(v, r.name)
      invariant |requests| == i && forall j :: 0 <= j < i ==> requests[j].name == order[j]
    {
      assert order[..i + 1] == order[..i] + [order[i]];
      requests := requests + [BindingRequest(v, order[i])];
    }
    assert order[..|order|] == order;
  }

  /******* The cache *******/

  class AuthCache {
    ghost var Repr: set<object>
    ghost var Past: seq<Round>         // one round per synchronization so far
    ghost var Joined: Joinings
    const cfg: Config
    const stores: ReviewStores
    const watchers: WatcherList
    var allKnownNames: set<string>

    ghost predicate Valid()
      reads this, Repr
    {
      && this in Repr && stores in Repr && watchers in Repr
      && stores.Repr <= Repr && watchers.Repr <= Repr
      && this !in stores.Repr && this !in watchers.Repr && stores.Repr !! watchers.Repr
      && stores.Valid() && watchers.Valid()
    }

    ghost function View(): State
      reads this, stores
    {
      State(allKnownNames, stores.Records)
    }

    /** Between synchronizations the cache, and every watcher, is where the past has taken it. */
    ghost predicate AtRest()
      reads this, stores, watchers
    {
      && ValidRounds(cfg, EMPTY, Past) && View() == StateThrough(cfg, EMPTY, Past)
      && AllFollow(cfg, Past, Joined, watchers.watchers, watchers.Boxes)
    }

    /** So the cache is in the state that the snapshots determine ... */
    lemma RestIsRun()
      requires AtRest()
      ensures View() == StateAfter(cfg, Snapshots(Past))
    {
      RoundsReachRun(cfg, [], Past);
      assert [] + Snapshots(Past) == Snapshots(Past);
    }

    /**
     ... and a watcher that has not overflowed, and was ready when it joined, agrees with the list about
     a visible name if and only if the name has not drifted since.
     */
    lemma WatcherDriftIff(i: nat, n: string)
      requires Valid() && AtRest() && i < |watchers.watchers| && !watchers.watchers[i].overflowed
      requires var j := Joined[watchers.watchers[i]];
               && j.round < |Past| && j.feed.Sees(n)
               && ReadyAt(cfg, Past[j.round].snap, StateThrough(cfg, EMPTY, Past[..j.round]), j.feed, n)
      ensures var j := Joined[watchers.watchers[i]];
              AgreesAt(watchers.watchers[i].Contents().feed, View(), n)
              <==> !Drifted(cfg, KnownAfter({}, Snapshots(Past[..j.round])), Snapshots(Past[j.round..]), j.feed.user, n)
    {
      hide StateThrough, ValidRounds, ReadyAt, Drifted, AgreesAt, Follow;
      var w := watchers.watchers[i];
      assert Follows(cfg, Past, Joined, w, watchers.Boxes[i]);
      assert w.Contents() == watchers.Boxes[i];
      FollowedDriftIff(cfg, Past, Joined[w], n);
    }

    constructor (cfg: Config)
      ensures Valid() && AtRest() && fresh(Repr) && this.cfg == cfg && Past == [] && watchers.watchers == []
    {
      this.cfg := cfg;
      Past, Joined := [], map[];
      stores := new ReviewStores();
      watchers := new WatcherList();
      allKnownNames := {};
      new;
      Repr := {this} + stores.Repr + watchers.Repr;
    }

    method AddWatcher(w: CacheWatcher)
      requires Valid() && w.Valid() && w !in stores.Repr
      modifies this`Repr, this`Joined, watchers
      ensures Valid() && Repr == old(Repr) + {w}
      ensures watchers.watchers == old(watchers.watchers) + [w]
      ensures watchers.Boxes == old(watchers.Boxes) + [w.Contents()]
      ensures Joined == WithJoining(old(Joined), old(watchers.watchers), w, Joining(|Past|, w.Contents().feed))
      ensures old(AtRest()) ==> AtRest()
    {
      hide Follow, StateThrough, ValidRounds, AllFollow;
      ghost var list, boxes, j := watchers.watchers, watchers.Boxes, Joining(|Past|, w.Contents().feed);
      if AtRest() {
        AllFollowJoin(cfg, Past, Joined, list, boxes, w, w.Contents());
      }
      watchers.Add(w);
      Repr, Joined := Repr + {w}, WithJoining(Joined, list, w, j);
    }

    method RemoveWatcher(w: CacheWatcher)
      requires Valid()
      modifies watchers
      ensures Valid() && IsWithout(old(watchers.watchers), w, watchers.watchers)
      ensures old(AtRest()) ==> AtRest()
    {
      hide Follow, StateThrough, ValidRounds, AllFollow, IsWithout, IsPart;
      watchers.Remove(w);
      if old(AtRest()) {
        AllFollowPart(cfg, Past, Joined, old(watchers.watchers), old(watchers.Boxes),
                      watchers.watchers, watchers.Boxes);
      }
    }

    method Take(w: CacheWatcher) returns (event: Option<Event>)
      requires Valid() && w in watchers.watchers
      modifies watchers.Repr
      ensures Valid() && Repr == old(Repr) && watchers.watchers == old(watchers.watchers)
      ensures event.None? <==> old(w.incoming) == []
      ensures old(w.incoming) == (if event.Some? then [event.value] else []) + w.incoming
      ensures watchers.Boxes == TakenBy(watchers.watchers, old(watchers.Boxes), w)
      ensures old(AtRest()) ==> AtRest()
    {
      hide Follow, StateThrough, ValidRounds, AllFollow, IsPart;
      event := watchers.Take(w);
      if old(AtRest()) {
        AllArePart(watchers.watchers, old(watchers.Boxes), watchers.Boxes);
        AllFollowPart(cfg, Past, Joined, old(watchers.watchers), old(watchers.Boxes),
                      watchers.watchers, watchers.Boxes);
      }
    }

    /** Only the end of a synchronization changes the known names and the past; none changes who watches. */
    ghost predicate Kept(names: set<string>, past: seq<Round>, joined: Joinings, list: seq<CacheWatcher>)
      reads this, watchers
    {
      allKnownNames == names && Past == past && Joined == joined && watchers.watchers == list
    }

    /** A request: skipped, or a fresh review that replaces the name's record and tells the watchers. */
    method SyncRequest(snap: Snapshot, request: ReviewRequest)
      requires Valid()
      modifies Repr
      ensures Valid() && fresh(Repr - old(Repr))
      ensures Kept(old(allKnownNames), old(Past), old(Joined), old(watchers.watchers))
      ensures stores.Records == SyncOne(cfg, snap, request, old(stores.Records))
      ensures watchers.Boxes == OfferEach(old(watchers.Boxes), snap.clusters,
                                          SyncNotes(cfg, snap, request, old(stores.Records)))
      ensures Calm(stores.users.History, old(stores.users.History), UsersOf(old(stores.Records)),
                   UsersOf(stores.Records), request.name)
      ensures Calm(stores.groups.History, old(stores.groups.History), GroupsOf(old(stores.Records)),
                   GroupsOf(stores.Records), request.name)
    {
      hide SkipReview, Observed, Direct, OfferEach, UserIndex, GroupIndex, UsersOf, GroupsOf, Abstracts, WellNamed,
        Steady;
      OfferEachNone(watchers.Boxes, snap.clusters);
      var last := if request.name in stores.records then Some(stores.records[request.name].seen) else None;
      LastOf(stores.records, request.name);
      ObservedName(request, last);
      if SkipReview(request, last) {
        return;
      }
      var review := MakeReview(cfg, snap, request.name);
      stores.Replace(ReviewRecord(Observed(request, last), review.users, review.groups));
      watchers.Notify(snap.clusters, request.name, set u | u in review.users, set g | g in review.groups);
      Repr := Repr + stores.Repr;
    }

    /** The round that started from these records and boxes has made these requests. */
    ghost predicate Reached(snap: Snapshot, done: seq<ReviewRequest>, start: Records, boxes: seq<Inbox>)
      reads this, stores, watchers
    {
      && stores.Records == Run(cfg, snap, done, start)
      && watchers.Boxes == OfferEach(boxes, snap.clusters, RunNotes(cfg, snap, done, start))
    }

    method Advance(snap: Snapshot, request: ReviewRequest, ghost done: seq<ReviewRequest>, ghost start: Records,
                   ghost boxes: seq<Inbox>)
      requires Valid() && Reached(snap, done, start, boxes)
      modifies Repr
      ensures Valid() && fresh(Repr - old(Repr))
      ensures Kept(old(allKnownNames), old(Past), old(Joined), old(watchers.watchers))
      ensures Reached(snap, done + [request], start, boxes)
    {
      hide Run, RunNotes, OfferEach, SyncOne, SyncNotes;
      RunOneMore(cfg, snap, done, request, start, boxes);
      SyncRequest(snap, request);
    }

    /** Requests in the order given. */
    method SyncAll(snap: Snapshot, requests: seq<ReviewRequest>, ghost done: seq<ReviewRequest>,
                   ghost start: Records, ghost boxes: seq<Inbox>)
      requires Valid() && Reached(snap, done, start, boxes)
      modifies Repr
      ensures Valid() && fresh(Repr - old(Repr))
      ensures Kept(old(allKnownNames), old(Past), old(Joined), old(watchers.watchers))
      ensures Reached(snap, done + requests, start, boxes)
    {
      hide Run, RunNotes, OfferEach;
      assert done + requests[..0] == done;
      for i := 0 to |requests|
        invariant Valid() && fresh(Repr - old(Repr))
        invariant Kept(old(allKnownNames), old(Past), old(Joined), old(watchers.watchers))
        invariant Reached(snap, done + requests[..i], start, boxes)
      {
        hide Reached;
        assert done + requests[..i + 1] == done + requests[..i] + [requests[i]];
        Advance(snap, requests[i], done + requests[..i], start, boxes);
      }
      assert requests[..|requests|] == requests;
    }

    /** The resource pass: the names just listed, none if the listing failed. */
    method SyncResources(snap: Snapshot) returns (names: set<string>, ghost done: seq<ReviewRequest>)
      requires Valid()
      modifies Repr
      ensures Valid() && fresh(Repr - old(Repr))
      ensures Kept(old(allKnownNames), old(Past), old(Joined), old(watchers.watchers))
      ensures names == snap.Listed() && forall r :: r in done <==> IsListed(snap, r)
      ensures Reached(snap, done, old(stores.Records), old(watchers.Boxes))
    {
      OfferEachNone(watchers.Boxes, snap.clusters);
      names, done := {}, [];
      assert Reached(snap, done, stores.Records, watchers.Boxes);
      hide Reached;
      var listed := ListResources(snap);
      if listed.Some? {
        names := set r | r in listed.value :: r.name;
        NamesListed(snap, listed.value, names);
        SyncAll(snap, listed.value, done, stores.Records, watchers.Boxes);
        done := listed.value;
        assert [] + listed.value == listed.value;
      }
    }

    /** One binding: nothing if its role is missing, and otherwise a request per name of the role. */
    method SyncBinding(snap: Snapshot, b: Binding, ghost done: seq<ReviewRequest>, ghost start: Records,
                       ghost boxes: seq<Inbox>)
      returns (ghost more: seq<ReviewRequest>)
      requires Valid() && Reached(snap, done, start, boxes)
      modifies Repr
      ensures Valid() && fresh(Repr - old(Repr))
      ensures Kept(old(allKnownNames), old(Past), old(Joined), old(watchers.watchers))
      ensures Reached(snap, done + more, start, boxes)
      ensures forall r :: r in more <==> AskedBy(cfg, snap, allKnownNames, b, r)
    {
      hide Reached;
      more := [];
      assert done + more == done;
      if b.roleRef !in snap.roles {
        return;
      }
      var role := snap.roles[b.roleRef];
      var resources, all := GetResourceNames(role.rules, cfg.apiGroup, cfg.resource);
      if all {
        resources := allKnownNames;
      }
      var requests := RequestsFor(VisitOf(b, role), resources);
      SyncAll(snap, requests, done, start, boxes);
      more := requests;
    }

    /** The binding pass, in any order of the bindings. */
    method SynchronizeClusterRoleBindings(snap: Snapshot, ghost first: seq<ReviewRequest>, ghost start: Records,
                                          ghost boxes: seq<Inbox>)
      returns (ghost done: seq<ReviewRequest>)
      requires Valid() && Reached(snap, first, start, boxes)
      modifies Repr
      ensures Valid() && fresh(Repr - old(Repr))
      ensures Kept(old(allKnownNames), old(Past), old(Joined), old(watchers.watchers))
      ensures Reached(snap, done, start, boxes)
      ensures forall r :: r in done <==>
                            r in first || exists b | b in snap.bindings :: AskedBy(cfg, snap, allKnownNames, b, r)
    {
      hide Reached, AskedBy;
      done := first;
      var bindings := Enumerate(snap.bindings);
      for i := 0 to |bindings|
        invariant Valid() && fresh(Repr - old(Repr))
        invariant Kept(old(allKnownNames), old(Past), old(Joined), old(watchers.watchers))
        invariant Reached(snap, done, start, boxes)
        invariant forall r :: r in done <==>
                                r in first || exists b | b in bindings[..i] :: AskedBy(cfg, snap, allKnownNames, b, r)
      {
        assert bindings[..i + 1] == bindings[..i] + [bindings[i]];
        ghost var more := SyncBinding(snap, bindings[i], done, start, boxes);
        done := done + more;
      }
      assert bindings[..|bindings|] == bindings;
    }

    /** Tells the watchers that nobody can access the names that are gone, in any order. */
    method NotifyGone(clusters: Clusters, names: set<string>) returns (ghost gone: seq<string>)
      requires Valid()
      modifies Repr
      ensures Valid() && fresh(Repr - old(Repr))
      ensures Kept(old(allKnownNames), old(Past), old(Joined), old(watchers.watchers))
      ensures forall n :: n in gone <==> n in names
      ensures stores.Records == old(stores.Records)
      ensures watchers.Boxes == OfferEach(old(watchers.Boxes), clusters, PurgeNotes(gone))
    {
      hide OfferEach;
      var order := Enumerate(names);
      gone := order;
      ghost var boxes := watchers.Boxes;
      OfferEachNone(boxes, clusters);
      assert PurgeNotes(order[..0]) == [];
      for i := 0 to |order|
        invariant Valid() && fresh(Repr - old(Repr))
        invariant Kept(old(allKnownNames), old(Past), old(Joined), old(watchers.watchers))
        invariant stores.Records == old(stores.Records)
        invariant watchers.Boxes == OfferEach(boxes, clusters, PurgeNotes(order[..i]))
      {
        assert PurgeNotes(order[..i + 1]) == PurgeNotes(order[..i]) + [Note(order[i], NOBODY)];
        OfferMore(boxes, clusters, PurgeNotes(order[..i]), [Note(order[i], NOBODY)]);
        watchers.Notify(clusters, order[i], {}, {});
      }
      assert order[..|order|] == order;
    }

    /** The two passes of a synchronization: in whatever order, their requests are a schedule. */
    method SyncPasses(snap: Snapshot) returns (names: set<string>, ghost requests: seq<ReviewRequest>)
      requires Valid()
      modifies Repr
      ensures Valid() && fresh(Repr - old(Repr))
      ensures Kept(old(allKnownNames), old(Past), old(Joined), old(watchers.watchers))
      ensures names == snap.Listed() && IsSchedule(cfg, snap, allKnownNames, requests)
      ensures Reached(snap, requests, old(stores.Records), old(watchers.Boxes))
    {
      hide Reached, IsSchedule, AskedBy, IsListed;
      ghost var first;
      names, first := SyncResources(snap);
      requests := SynchronizeClusterRoleBindings(snap, first, old(stores.Records), old(watchers.Boxes));
      PassesAreSchedule(cfg, snap, allKnownNames, requests);
    }

    /** The purge: of the records, and of what the watchers believe about the names that are gone. */
    method PurgeDeletedResources(snap: Snapshot, names: set<string>) returns (ghost gone: seq<string>)
      requires Valid() && names == snap.Listed()
      modifies Repr
      ensures Valid() && fresh(Repr - old(Repr))
      ensures Kept(old(allKnownNames), old(Past), old(Joined), old(watchers.watchers))
      ensures stores.Records == Purge(old(stores.Records), names)
      ensures IsGone(snap, old(View()), gone)
      ensures watchers.Boxes == OfferEach(old(watchers.Boxes), snap.clusters, PurgeNotes(gone))
    {
      hide Purge, PurgeNotes, OfferEach;
      stores.PurgeRecords(names);
      gone := NotifyGone(snap.clusters, allKnownNames - names);
    }

    /**
     A whole synchronization: whatever the orders, the closed form of the run so far, and for every
     watcher the notifications of one more round.
     */
    method Synchronize(snap: Snapshot) returns (ghost round: Round)
      requires Valid() && AtRest() && snap.Valid()
      modifies Repr
      ensures Valid() && AtRest() && fresh(Repr - old(Repr))
      ensures Past == old(Past) + [round] && round.snap == snap && ValidRound(cfg, old(View()), round)
      ensures Joined == old(Joined) && View() == Synchronized(cfg, snap, old(View()))
      ensures watchers.watchers == old(watchers.watchers)
      ensures watchers.Boxes == OfferEach(old(watchers.Boxes), snap.clusters,
                                          RoundNotes(cfg, snap, old(View()), round.requests, round.gone))
      ensures AllAgreeIff(cfg, snap, old(View()), old(watchers.Boxes), watchers.Boxes, View())
    {
      hide Run, RunNotes, OfferEach, Purge, PurgeNotes, Synchronized, IsSchedule, Consistent, StateThrough,
        ValidRounds, AllAgreeIff, AllFollow;
      ghost var before, boxes, past := View(), watchers.Boxes, Past;
      var newKnownNames;
      ghost var requests;
      newKnownNames, requests := SyncPasses(snap);
      ghost var gone := PurgeDeletedResources(snap, newKnownNames);
      round := Round(snap, requests, gone);
      OfferMore(boxes, snap.clusters, RunNotes(cfg, snap, requests, before.records), PurgeNotes(gone));
      allKnownNames, Past := newKnownNames, Past + [round];
      OneMoreRound(cfg, past, round, before, Joined, watchers.watchers, boxes);
    }
  }

  /** What one more round makes of a cache at rest. */
  lemma OneMoreRound(cfg: Config, past: seq<Round>, r: Round, st: State, joined: Joinings, list: seq<CacheWatcher>,
                     boxes: seq<Inbox>)
    requires ValidRounds(cfg, EMPTY, past) && st == StateThrough(cfg, EMPTY, past) && ValidRound(cfg, st, r)
    requires AllFollow(cfg, past, joined, list, boxes)
    ensures ValidRounds(cfg, EMPTY, past + [r])
    ensures StateThrough(cfg, EMPTY, past + [r]) == Synchronized(cfg, r.snap, st)
    ensures State(r.snap.Listed(), Purge(Run(cfg, r.snap, r.requests, st.records), r.snap.Listed()))
            == Synchronized(cfg, r.snap, st)
    ensures var after := OfferEach(boxes, r.snap.clusters, RoundNotes(cfg, r.snap, st, r.requests, r.gone));
            && AllFollow(cfg, past + [r], joined, list, after)
            && AllAgreeIff(cfg, r.snap, st, boxes, after, Synchronized(cfg, r.snap, st))
  {
    hide AllFollow, AllAgreeIff, Run, Purge, Synchronized, OfferEach, RoundNotes, IsSchedule, IsGone;
    assert (past + [r])[..|past|] == past;
    StaysConsistent(cfg, EMPTY, past);
    RoundIsSynchronized(cfg, r.snap, st, r.requests);
    AllFollowOneMore(cfg, past, r, joined, list, boxes, st);
    RoundAllAgreeIff(cfg, r.snap, st, r.requests, r.gone, boxes);
  }
}
