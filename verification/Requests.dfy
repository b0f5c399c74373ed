/**
 Review requests, the records they leave, and which requests a round makes
 (pkg/cache/common.go: reviewRequest, skipReview, cacheReviewRecord, getResoureNamesFromClusterRole,
 synchronizeClusterRoleBindings; pkg/cache/managedcluster.go: ListResources).
 */
module Requests {
  import opened Options
  import opened Rbac
  import opened Reviews

  /** The name to review and the versions that were observed to make the request. */
  datatype ReviewRequest = ReviewRequest(
    name: string,
    version: string,
    roleVersions: map<string, string>,
    bindingVersions: map<string, string>)
  {
    function Versions(kind: Kind): map<string, string> {
      match kind case OfRole => roleVersions case OfBinding => bindingVersions
    }
  }

  datatype Kind = OfRole | OfBinding

  /** `request` asks about the versions in `known` at most. */
  predicate AllKnown(request: map<string, string>, known: map<string, string>) {
    forall uid | uid in request :: uid in known && known[uid] == request[uid]
  }

  /** Is the request satisfied by what the last record of its name had observed? */
  predicate SkipReview(request: ReviewRequest, last: Option<ReviewRequest>) {
    match last
    case None => false
    case Some(seen) =>
      && request.name == seen.name
      && !(request.version != "" && request.version != seen.version)
      && AllKnown(request.bindingVersions, seen.bindingVersions)
      && AllKnown(request.roleVersions, seen.roleVersions)
  }

  const NOTHING_SEEN := ReviewRequest("", "", map[], map[])

  /** What a record written for the request has observed: what was known, overridden by the request. */
  function Observed(request: ReviewRequest, last: Option<ReviewRequest>): ReviewRequest {
    var base := match last case None => NOTHING_SEEN case Some(seen) => seen;
    ReviewRequest(
      request.name,
      if request.version != "" then request.version else base.version,
      base.roleVersions + request.roleVersions,
      base.bindingVersions + request.bindingVersions)
  }

  /** A record just written for a request satisfies that request. */
  lemma WrittenIsSkipped(request: ReviewRequest, last: Option<ReviewRequest>)
    ensures SkipReview(request, Some(Observed(request, last)))
  {
  }

  /******* The names a role speaks about *******/

  predicate Covers(rule: PolicyRule, group: string, resource: string) {
    APIGroupMatches(rule, group) && ResourceMatches(rule, resource, "")
  }

  ghost function NamesIn(rules: seq<PolicyRule>, group: string, resource: string): set<string> {
    set rule, n | rule in rules && Covers(rule, group, resource) && n in rule.resourceNames :: n
  }

  ghost predicate AllIn(rules: seq<PolicyRule>, group: string, resource: string) {
    exists rule | rule in rules :: Covers(rule, group, resource) && rule.resourceNames == []
  }

  method GetResourceNames(rules: seq<PolicyRule>, group: string, resource: string)
    returns (names: set<string>, all: bool)
    ensures names == NamesIn(rules, group, resource)
    ensures all <==> AllIn(rules, group, resource)
  {
    names, all := {}, false;
    for i := 0 to |rules|
      invariant names == NamesIn(rules[..i], group, resource)
      invariant all <==> AllIn(rules[..i], group, resource)
    {
      var rule := rules[i];
      assert rules[..i + 1] == rules[..i] + [rule];
      if !APIGroupMatches(rule, group) {
        continue;
      }
      if !ResourceMatches(rule, resource, "") {
        continue;
      }
      if |rule.resourceNames| == 0 {
        all := true;
      }
      names := names + set n | n in rule.resourceNames;
    }
    assert rules[..|rules|] == rules;
  }

  /** The extractor misses no name the role allows get on. */
  lemma ExtractorCovers(cfg: Config, rules: seq<PolicyRule>, name: string)
    requires RulesAllow(GetRequest(cfg, name), rules)
    ensures AllIn(rules, cfg.apiGroup, cfg.resource) || name in NamesIn(rules, cfg.apiGroup, cfg.resource)
  {
    var request := GetRequest(cfg, name);
    var rule :| rule in rules && RuleAllows(request, rule);
    assert Covers(rule, cfg.apiGroup, cfg.resource);
  }

  /** The rule with verb get, whatever its own verbs are. */
  function ForGet(rule: PolicyRule): PolicyRule {
    rule.(verbs := ["get"])
  }

  /** ... and nothing else: exactly what the evaluator would allow get on, were it not for the verbs. */
  lemma ExtractedExactly(cfg: Config, rules: seq<PolicyRule>, name: string)
    ensures AllIn(rules, cfg.apiGroup, cfg.resource) <==>
            exists rule | rule in rules :: rule.resourceNames == [] && RuleAllows(GetRequest(cfg, name), ForGet(rule))
    ensures name in NamesIn(rules, cfg.apiGroup, cfg.resource) <==>
            exists rule | rule in rules :: name in rule.resourceNames && RuleAllows(GetRequest(cfg, name), ForGet(rule))
  {
    forall rule | rule in rules && (rule.resourceNames == [] || name in rule.resourceNames)
      ensures Covers(rule, cfg.apiGroup, cfg.resource) <==> RuleAllows(GetRequest(cfg, name), ForGet(rule))
    {
      assert "get" in ForGet(rule).verbs;
    }
  }

  /** The names the binding pass visits for a role: the known ones when the role is about all names. */
  ghost function Targets(cfg: Config, rules: seq<PolicyRule>, known: set<string>): set<string> {
    if AllIn(rules, cfg.apiGroup, cfg.resource) then known else NamesIn(rules, cfg.apiGroup, cfg.resource)
  }

  /******* The requests of a round *******/

  /** A (uid, version) pair, which identifies the content of an object. */
  datatype Versioned = Versioned(uid: string, version: string)

  /** A binding with the role it resolves to, as a request mentions them. */
  datatype Visit = Visit(binding: Versioned, role: Versioned) {
    function Object(kind: Kind): Versioned {
      match kind case OfRole => role case OfBinding => binding
    }
  }

  function VisitOf(b: Binding, role: ClusterRole): Visit {
    Visit(Versioned(b.uid, b.version), Versioned(role.uid, role.version))
  }

  function ClusterRequest(name: string, version: string): ReviewRequest {
    ReviewRequest(name, version, map[], map[])
  }

  function BindingRequest(v: Visit, name: string): ReviewRequest {
    ReviewRequest(name, "", map[v.role.uid := v.role.version], map[v.binding.uid := v.binding.version])
  }

  /** The binding pass visits `name` because of `b`. */
  ghost predicate Covering(cfg: Config, snap: Snapshot, known: set<string>, b: Binding, name: string) {
    && b.roleRef in snap.roles
    && name in Targets(cfg, snap.roles[b.roleRef].rules, known)
  }

  /**
   Exactly when that is, in plain terms: the role is there, and has a rule for the cache's resource that
   names no names, and then the name is a known one; or if it has none, one that names the name.
   */
  lemma CoveringIff(cfg: Config, snap: Snapshot, known: set<string>, b: Binding, name: string)
    ensures Covering(cfg, snap, known, b, name) <==>
            && b.roleRef in snap.roles
            && var rules := snap.roles[b.roleRef].rules;
               if exists rule | rule in rules ::
                    && rule.resourceNames == []
                    && ("*" in rule.apiGroups || cfg.apiGroup in rule.apiGroups)
                    && ("*" in rule.resources || cfg.resource in rule.resources)
               then name in known
               else exists rule | rule in rules ::
                      && name in rule.resourceNames
                      && ("*" in rule.apiGroups || cfg.apiGroup in rule.apiGroups)
                      && ("*" in rule.resources || cfg.resource in rule.resources)
  {
    if b.roleRef in snap.roles {
      var rules := snap.roles[b.roleRef].rules;
      ExtractedExactly(cfg, rules, name);
      forall rule | rule in rules && (rule.resourceNames == [] || name in rule.resourceNames)
        ensures RuleAllows(GetRequest(cfg, name), ForGet(rule)) <==>
                && ("*" in rule.apiGroups || cfg.apiGroup in rule.apiGroups)
                && ("*" in rule.resources || cfg.resource in rule.resources)
      {
        GetAllowed(cfg, name, ForGet(rule));
        assert "get" in ForGet(rule).verbs;
      }
    }
  }

  /** All visits of the binding pass to a name. */
  ghost function VisitsTo(cfg: Config, snap: Snapshot, known: set<string>, name: string): set<Visit> {
    set b | b in snap.bindings && Covering(cfg, snap, known, b, name) :: VisitOf(b, snap.roles[b.roleRef])
  }

  /** The version the listing shows for a name, if it lists the name. */
  function ListedVersion(snap: Snapshot, name: string): Option<string> {
    if name in snap.Listed() then Some(snap.clusters[name].version) else None
  }

  /** The requests made about one name: the listing's own if it is listed, and one per visit. */
  ghost predicate IsAskedFor(r: ReviewRequest, name: string, listed: Option<string>, visits: set<Visit>) {
    || (listed.Some? && r == ClusterRequest(name, listed.value))
    || exists v | v in visits :: r == BindingRequest(v, name)
  }

  /** A round's requests, in any order: the listed clusters and every visit of the binding pass. */
  ghost predicate IsSchedule(cfg: Config, snap: Snapshot, known: set<string>, requests: seq<ReviewRequest>) {
    forall r :: r in requests <==>
                  IsAskedFor(r, r.name, ListedVersion(snap, r.name), VisitsTo(cfg, snap, known, r.name))
  }

  ghost predicate AskAbout(requests: seq<ReviewRequest>, name: string, listed: Option<string>, visits: set<Visit>) {
    forall r :: r in requests && r.name == name <==> IsAskedFor(r, name, listed, visits)
  }

  lemma ScheduleAsks(cfg: Config, snap: Snapshot, known: set<string>, requests: seq<ReviewRequest>, name: string)
    requires IsSchedule(cfg, snap, known, requests)
    ensures AskAbout(requests, name, ListedVersion(snap, name), VisitsTo(cfg, snap, known, name))
  {
    forall r | IsAskedFor(r, name, ListedVersion(snap, name), VisitsTo(cfg, snap, known, name))
      ensures r.name == name && r in requests
    {
    }
  }

  /******* Versions as maps *******/

  /** Every object has one version. */
  ghost predicate OneVersion(objects: set<Versioned>) {
    forall a, b :: a in objects && b in objects && a.uid == b.uid ==> a == b
  }

  ghost function Objects(visits: set<Visit>, kind: Kind): set<Versioned> {
    set v | v in visits :: v.Object(kind)
  }

  ghost predicate Functional(visits: set<Visit>) {
    forall kind :: OneVersion(Objects(visits, kind))
  }

  ghost function Find(objects: set<Versioned>, uid: string): (x: Versioned)
    requires exists x | x in objects :: x.uid == uid
    ensures x in objects && x.uid == uid
  {
    var x :| x in objects && x.uid == uid;
    x
  }

  ghost function VersionMap(objects: set<Versioned>): map<string, string> {
    map uid | uid in (set x | x in objects :: x.uid) :: Find(objects, uid).version
  }

  lemma VersionMapAt(objects: set<Versioned>)
    requires OneVersion(objects)
    ensures forall x :: x in objects ==> x.uid in VersionMap(objects) && VersionMap(objects)[x.uid] == x.version
  {
    forall x | x in objects
      ensures x.uid in VersionMap(objects) && VersionMap(objects)[x.uid] == x.version
    {
      assert Find(objects, x.uid) == x;
    }
  }

  lemma AllVersionsKnown(objects: set<Versioned>, known: map<string, string>)
    requires OneVersion(objects)
    ensures AllKnown(VersionMap(objects), known) <==>
            forall x :: x in objects ==> x.uid in known && known[x.uid] == x.version
  {
    VersionMapAt(objects);
    if AllKnown(VersionMap(objects), known) {
      forall x | x in objects
        ensures x.uid in known && known[x.uid] == x.version
      {
        assert x.uid in VersionMap(objects);
      }
    }
  }

  lemma VisitsAreFunctional(cfg: Config, snap: Snapshot, known: set<string>, name: string)
    requires snap.Valid()
    ensures Functional(VisitsTo(cfg, snap, known, name))
  {
    hide Targets;
    var visits := VisitsTo(cfg, snap, known, name);
    forall kind, x, y | x in Objects(visits, kind) && y in Objects(visits, kind) && x.uid == y.uid
      ensures x == y
    {
      var v, w :| v in visits && w in visits && x == v.Object(kind) && y == w.Object(kind);
      var b, d :| b in snap.bindings && d in snap.bindings
                  && Covering(cfg, snap, known, b, name) && Covering(cfg, snap, known, d, name)
                  && v == VisitOf(b, snap.roles[b.roleRef]) && w == VisitOf(d, snap.roles[d.roleRef]);
    }
  }
}
