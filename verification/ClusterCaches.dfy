/**
 The cluster cache in front of the authorization cache (pkg/cache/managedcluster.go), and the
 registration of watchers (pkg/registry/managedcluster/storage.go: Watch).
 */
module ClusterCaches {
  import Delivery
  import opened Options
  import opened Listers
  import opened Reviews
  import opened Rounds
  import opened Runs
  import opened Watch
  import opened CacheWatchers
  import opened AuthCaches

  /** The clusters of these names that the lister still has and the selector accepts. */
  ghost predicate Selected(snap: Snapshot, names: set<string>, selector: Cluster -> bool, c: Cluster) {
    c.name in names && c.name in snap.clusters && snap.clusters[c.name] == c && selector(c)
  }

  /** The cluster is in the snapshot, the selector accepts it, and direct evaluation lets the user get it. */
  ghost predicate Deserved(cfg: Config, snap: Snapshot, user: User, selector: Cluster -> bool, c: Cluster) {
    c.name in snap.Listed() && snap.clusters[c.name] == c && selector(c) && MayGet(cfg, snap, c.name, user)
  }

  /** The answer has all that direct evaluation gives, and on a grow-only run it has nothing else. */
  ghost predicate Serves(cfg: Config, run: seq<Snapshot>, user: User, selector: Cluster -> bool, items: seq<Cluster>)
    requires run != []
  {
    && (forall c :: Deserved(cfg, Now(run), user, selector, c) ==> c in items)
    && (GrowOnly(cfg, run) ==> forall c :: c in items ==> Deserved(cfg, Now(run), user, selector, c))
  }

  lemma SelectedServes(cfg: Config, run: seq<Snapshot>, user: User, selector: Cluster -> bool, items: seq<Cluster>)
    requires run != [] && ValidRun(run)
    requires forall c :: c in items <==> Selected(Now(run), ListNames(StateAfter(cfg, run), user), selector, c)
    ensures Serves(cfg, run, user, selector, items)
  {
    hide MayGet, ListNames, StateAfter, ValidRun, GrowOnly;
    forall c | Deserved(cfg, Now(run), user, selector, c)
      ensures c in items
    {
      EveryGrantIsListed(cfg, run, c.name, user);
    }
    if GrowOnly(cfg, run) {
      ExactOnGrowOnly(cfg, run, user);
    }
  }

  lemma NamesAreListed(st: State, user: User, names: set<string>)
    requires forall n :: n in names <==> n in st.records && st.records[n].access.Admits(user)
    ensures names == ListNames(st, user)
  {
  }

  class ClusterCache {
    const cache: AuthCache

    ghost predicate Valid()
      reads cache, cache.Repr
    {
      cache.Valid()
    }

    constructor (cache: AuthCache)
      ensures this.cache == cache
    {
      this.cache := cache;
    }

    /** The final, filtered answer; names the lister no longer has are left out. */
    method List(snap: Snapshot, user: User, selector: Cluster -> bool) returns (items: seq<Cluster>)
      requires Valid() && snap.Valid()
      ensures forall c :: c in items <==> Selected(snap, ListNames(cache.View(), user), selector, c)
      ensures forall i, j :: 0 <= i < j < |items| ==> items[i].name != items[j].name
      ensures var run := Snapshots(cache.Past);
              cache.AtRest() && run != [] && ValidRun(run) && snap == Now(run)
              ==> Serves(cache.cfg, run, user, selector, items)
    {
      hide ListNames, StateAfter, StateThrough, ValidRounds, AllFollow, ValidRun, Serves;
      var names := cache.stores.ListNames(user);
      NamesAreListed(cache.View(), user, names);
      var order := Enumerate(names);
      items := [];
      for i := 0 to |order|
        invariant forall c :: c in items <==> c.name in order[..i] && Selected(snap, names, selector, c)
        invariant forall k, j :: 0 <= k < j < |items| ==> items[k].name != items[j].name
      {
        var name := order[i];
        assert order[..i + 1] == order[..i] + [name];
        if name !in snap.clusters {
          continue;
        }
        if !selector(snap.clusters[name]) {
          continue;
        }
        items := items + [snap.clusters[name]];
      }
      assert order[..|order|] == order;
      ghost var run := Snapshots(cache.Past);
      if cache.AtRest() && run != [] && ValidRun(run) && snap == Now(run) {
        cache.RestIsRun();
        SelectedServes(cache.cfg, run, user, selector, items);
      }
    }

    /** A new watcher starts from what the cache lists for its user, and joins the cache's watchers. */
    method NewWatcher(snap: Snapshot, user: User, visible: set<string>, includeExisting: bool)
      returns (w: CacheWatcher)
      requires Valid() && snap.Valid()
      modifies cache, cache.watchers
      ensures Valid() && fresh(w) && cache.Repr == old(cache.Repr) + {w}
      ensures cache.View() == old(cache.View()) && cache.Past == old(cache.Past)
      ensures old(cache.AtRest()) ==> cache.AtRest()
      ensures cache.watchers.watchers == old(cache.watchers.watchers) + [w]
      ensures cache.watchers.Boxes == old(cache.watchers.Boxes) + [w.Contents()]
      ensures w.Contents() == Inbox(Registered(cache.View(), snap.clusters, user, visible), [], false)
      ensures w in cache.Joined && cache.Joined[w] == Joining(|cache.Past|, w.Contents().feed)
      ensures if includeExisting then Replay(map[], w.initial) == w.known else w.initial == []
      ensures Delivery.Init(w.Starting())
      ensures Delivery.StartsFrom(if includeExisting then map[] else w.known, w.Starting())
    {
      hide ListNames, Selected, Serves, StateAfter, StateThrough, ValidRounds, AllFollow, ValidRun, Registered;
      var items := List(snap, user, c => true);
      w := new CacheWatcher(user, visible, items, includeExisting);
      FirstViewIsRegistered(snap, cache.View(), user, visible, items);
      cache.AddWatcher(w);
    }

    method RemoveWatcher(w: CacheWatcher)
      requires Valid()
      modifies cache.watchers
      ensures Valid() && cache.View() == old(cache.View()) && (old(cache.AtRest()) ==> cache.AtRest())
      ensures IsWithout(old(cache.watchers.watchers), w, cache.watchers.watchers)
    {
      cache.RemoveWatcher(w);
    }
  }

  lemma FirstViewIsRegistered(snap: Snapshot, st: State, user: User, visible: set<string>, items: seq<Cluster>)
    requires snap.Valid() && forall c :: c in items <==> Selected(snap, ListNames(st, user), c => true, c)
    requires forall i, j :: 0 <= i < j < |items| ==> items[i].name != items[j].name
    ensures Feed(user, visible, Replay(map[], AsAdded(items)), []) == Registered(st, snap.clusters, user, visible)
  {
    FirstView(items);
    var view, known := Replay(map[], AsAdded(items)), Registered(st, snap.clusters, user, visible).known;
    forall n | n in known
      ensures n in view && view[n] == known[n]
    {
      assert Selected(snap, ListNames(st, user), c => true, snap.clusters[n]);
      assert snap.clusters[n] in items;
      assert Look(view, snap.clusters[n].name) == Some(snap.clusters[n].version);
    }
    forall n | n in view
      ensures n in known
    {
      var c :| c in items && c.name == n;
    }
  }
}
