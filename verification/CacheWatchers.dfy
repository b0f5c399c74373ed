/**
 The watcher object (pkg/cache/watcher.go).  Its methods run one at a time; how they interleave with
 the Watch goroutine and the client is the subject of module Delivery.
 */
module CacheWatchers {
  import Delivery
  import opened Options
  import opened Reviews
  import opened Watch

  class CacheWatcher {
    const user: User
    const visible: set<string>
    const initial: seq<Event>          // the objects to emit first, as Added events
    var known: map<string, string>     // knownResources
    var incoming: seq<Event>           // cacheIncoming
    var overflowed: bool
    var stopped: bool                  // userStop is closed
    ghost var closes: nat
    ghost var sent: seq<Event>

    ghost predicate Valid()
      reads this
    {
      |incoming| <= CAPACITY && closes == if stopped then 1 else 0
    }

    ghost function Contents(): Inbox
      reads this
    {
      Inbox(Feed(user, visible, known, sent), incoming, overflowed)
    }

    /** Where the delivery to the client begins, when the Watch goroutine is started. */
    ghost function Starting(): Delivery.System
      reads this
    {
      Delivery.System(Contents().feed, initial, incoming, overflowed, false, false, stopped, closes,
                      Delivery.Checking(0), [])
    }

    /** `objects` are what the cache lists for the user. */
    constructor (user: User, visible: set<string>, objects: seq<Cluster>, includeExisting: bool)
      requires forall i, j :: 0 <= i < j < |objects| ==> objects[i].name != objects[j].name
      ensures Valid() && !stopped
      ensures Contents() == Inbox(Feed(user, visible, Replay(map[], AsAdded(objects)), []), [], false)
      ensures initial == if includeExisting then AsAdded(objects) else []
      ensures (forall e :: e in initial ==> e.Added?) && Delivery.Init(Starting())
      ensures Delivery.StartsFrom(if includeExisting then map[] else known, Starting())
    {
      var resources: map<string, string> := map[];
      for i := 0 to |objects|
        invariant resources == Replay(map[], AsAdded(objects[..i]))
      {
        hide Replay, AsAdded;
        AddedOneMore(objects, i);
        resources := resources[objects[i].name := objects[i].version];
      }
      assert objects[..|objects|] == objects;
      this.user := user;
      this.visible := visible;
      this.initial := if includeExisting then AsAdded(objects) else [];
      known := resources;
      incoming, overflowed, stopped := [], false, false;
      closes, sent := 0, [];
    }

    method GroupMembershipChanged(clusters: Clusters, name: string, users: set<string>, groups: set<string>)
      requires Valid()
      modifies this
      ensures Valid() && stopped == old(stopped)
      ensures Contents() == Offer(old(Contents()), clusters, Note(name, Access(users, groups)))
    {
      if overflowed || ("*" !in visible && name !in visible) {
        return;
      }
      var hasAccess := user.name in users || exists g | g in user.groups :: g in groups;
      if !hasAccess && name in known {
        known := known - {name};
        Enqueue(Deleted(name, if name in clusters then clusters[name].version else ""));
      } else if hasAccess {
        if name !in clusters {
          return;
        }
        var event := Added(name, clusters[name].version);
        if name in known {
          event := Modified(name, clusters[name].version);
          if known[name] == clusters[name].version {
            return;
          }
        }
        known := known[name := clusters[name].version];
        Enqueue(event);
      }
    }

    /** The non-blocking send to the buffered channel. */
    method Enqueue(event: Event)
      requires Valid() && !overflowed
      modifies `incoming, `overflowed, `sent
      ensures Valid()
      ensures if |old(incoming)| < CAPACITY
              then incoming == old(incoming) + [event] && sent == old(sent) + [event] && !overflowed
              else incoming == old(incoming) && sent == old(sent) && overflowed
    {
      if |incoming| < CAPACITY {
        incoming := incoming + [event];
        sent := sent + [event];
      } else {
        overflowed := true;
      }
    }

    /** The receive of the Watch loop: the first event, if there is one. */
    method Take() returns (event: Option<Event>)
      requires Valid()
      modifies `incoming
      ensures Valid() && Contents() == Taken(old(Contents()))
      ensures event.None? <==> old(incoming) == []
      ensures old(incoming) == (if event.Some? then [event.value] else []) + incoming
    {
      if incoming == [] {
        return None;
      }
      event := Some(incoming[0]);
      incoming := incoming[1..];
    }

    /** A second close would panic: the check keeps `closes` at one. */
    method Stop()
      requires Valid()
      modifies `stopped, `closes
      ensures Valid() && stopped && closes == 1
    {
      if stopped {
        return;
      }
      stopped := true;
      closes := closes + 1;
    }
  }

  function AsAdded(objects: seq<Cluster>): seq<Event> {
    seq(|objects|, i requires 0 <= i < |objects| => Added(objects[i].name, objects[i].version))
  }

  lemma AddedOneMore(objects: seq<Cluster>, i: nat)
    requires i < |objects|
    ensures Replay(map[], AsAdded(objects[..i + 1]))
            == Replay(map[], AsAdded(objects[..i]))[objects[i].name := objects[i].version]
  {
    hide Replay;
    var event := Added(objects[i].name, objects[i].version);
    assert AsAdded(objects[..i + 1]) == AsAdded(objects[..i]) + [event];
    ReplayOneMore(map[], AsAdded(objects[..i]), event);
  }

  /** The first view holds each listed object at its version, and nothing else. */
  lemma {:induction false} FirstView(objects: seq<Cluster>)
    requires forall i, j :: 0 <= i < j < |objects| ==> objects[i].name != objects[j].name
    ensures forall c :: c in objects ==> Look(Replay(map[], AsAdded(objects)), c.name) == Some(c.version)
    ensures forall n :: n in Replay(map[], AsAdded(objects)) ==> exists c | c in objects :: c.name == n
  {
    if objects != [] {
      var front, last := objects[..|objects| - 1], objects[|objects| - 1];
      FirstView(front);
      assert AsAdded(objects)[..|objects| - 1] == AsAdded(front);
      assert objects == front + [last];
    }
  }
}
