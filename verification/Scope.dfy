/**
 Scope rule cleaning (pkg/apis/helpers/scope.go): the rules of a role, reduced to what a
 "role:" scope may use.  `Remove` compacts a slice in place, so slices are arrays here; the
 theorems are about the rule values the slices hold.
 */
module Scope {
  import opened Rbac

  datatype GroupResource = GroupResource(group: string, resource: string)

  /** Resources that are considered escalating for scope evaluation. */
  const ESCALATING: seq<GroupResource> := [
    GroupResource("", "secrets"),
    GroupResource("image.openshift.io", "imagestreams/secrets"),
    GroupResource("oauth.openshift.io", "oauthauthorizetokens"),
    GroupResource("oauth.openshift.io", "oauthaccesstokens"),
    GroupResource("authorization.openshift.io", "roles"),
    GroupResource("authorization.openshift.io", "rolebindings"),
    GroupResource("authorization.openshift.io", "clusterroles"),
    GroupResource("authorization.openshift.io", "clusterrolebindings"),
    GroupResource("network.openshift.io", "service/externalips"),
    GroupResource("", "imagestreams/secrets"),
    GroupResource("", "oauthauthorizetokens"),
    GroupResource("", "oauthaccesstokens"),
    GroupResource("", "roles"),
    GroupResource("", "rolebindings"),
    GroupResource("", "clusterroles"),
    GroupResource("", "clusterrolebindings")
  ]

  /******* Specification *******/

  /** `s` without the elements of `drop`, in the same order. */
  function Without(s: seq<string>, drop: set<string>): seq<string> {
    if s == [] then []
    else
      var rest := Without(s[..|s| - 1], drop);
      if s[|s| - 1] in drop then rest else rest + [s[|s| - 1]]
  }

  /** The resources of `rule` that some entry of `list` matches in both group and resource. */
  function Matched(rule: PolicyRule, list: seq<GroupResource>): set<string> {
    set e | e in list && e.group in rule.apiGroups && e.resource in rule.resources :: e.resource
  }

  function Cleaned(rule: PolicyRule, list: seq<GroupResource>): PolicyRule {
    rule.(resources := Without(rule.resources, Matched(rule, list)))
  }

  predicate Unbounded(rule: PolicyRule) {
    ALL in rule.verbs || ALL in rule.resources || ALL in rule.apiGroups
  }

  function Resolved(rules: seq<PolicyRule>, escalating: bool, list: seq<GroupResource>): seq<PolicyRule> {
    if rules == [] then []
    else
      var rest := Resolved(rules[..|rules| - 1], escalating, list);
      var rule := rules[|rules| - 1];
      if escalating then rest + [rule]
      else if Unbounded(rule) then rest
      else rest + [Cleaned(rule, list)]
  }

  lemma {:induction false} WithoutElements(s: seq<string>, drop: set<string>)
    ensures forall x :: x in Without(s, drop) <==> x in s && x !in drop
    ensures |Without(s, drop)| <= |s|
  {
    if s != [] {
      WithoutElements(s[..|s| - 1], drop);
      assert s == s[..|s| - 1] + [s[|s| - 1]];
    }
  }

  lemma {:induction false} WithoutTwice(s: seq<string>, first: set<string>, second: set<string>)
    ensures Without(Without(s, first), second) == Without(s, first + second)
  {
    if s != [] {
      var front, last := s[..|s| - 1], s[|s| - 1];
      WithoutTwice(front, first, second);
      if last !in first {
        var kept := Without(front, first);
        assert (kept + [last])[..|kept|] == kept;
      }
    }
  }

  lemma {:induction false} WithoutNothing(s: seq<string>)
    ensures Without(s, {}) == s
  {
    if s != [] {
      WithoutNothing(s[..|s| - 1]);
    }
  }

  /******* Theorems *******/

  /** What membership in the resolved rules means, rule by rule. */
  lemma {:induction false} ResolvedElements(rules: seq<PolicyRule>, escalating: bool, list: seq<GroupResource>)
    ensures escalating ==> Resolved(rules, escalating, list) == rules
    ensures !escalating ==> forall r :: r in Resolved(rules, escalating, list) <==>
                                        exists rule | rule in rules :: !Unbounded(rule) && r == Cleaned(rule, list)
  {
    if rules != [] {
      var front, last := rules[..|rules| - 1], rules[|rules| - 1];
      ResolvedElements(front, escalating, list);
      assert rules == front + [last];
      if !escalating {
        var res, rest := Resolved(rules, escalating, list), Resolved(front, escalating, list);
        assert Unbounded(last) ==> res == rest;
        assert !Unbounded(last) ==> res == rest + [Cleaned(last, list)];
        forall r
          ensures r in res <==> exists rule | rule in rules :: !Unbounded(rule) && r == Cleaned(rule, list)
        {
          if r in rest {
            var rule :| rule in front && !Unbounded(rule) && r == Cleaned(rule, list);
            assert rule in rules;
          }
        }
      }
    }
  }

  /** A resource the rule keeps: not named, for one of the rule's own groups, as escalating. */
  predicate Keeps(rule: PolicyRule, resource: string, list: seq<GroupResource>) {
    forall e | e in list :: e.resource == resource ==> e.group !in rule.apiGroups
  }

  /** A cleaned rule allows a resource request exactly when the rule does through a resource it keeps. */
  lemma CleanedAllows(request: Attributes, rule: PolicyRule, list: seq<GroupResource>)
    requires request.isResourceRequest
    ensures RuleAllows(request, Cleaned(rule, list)) <==>
            && VerbMatches(rule, request.verb)
            && APIGroupMatches(rule, request.apiGroup)
            && ResourceNameMatches(rule, request.name)
            && exists r | r in rule.resources ::
                 Keeps(rule, r, list) && OneResourceMatches(r, request.CombinedResource(), request.subresource)
  {
    var dropped := Matched(rule, list);
    WithoutElements(rule.resources, dropped);
    forall r | r in rule.resources
      ensures r !in dropped <==> Keeps(rule, r, list)
    {
    }
  }

  /** The resolved rules allow nothing that the role's own rules did not. */
  lemma ResolvedIsSound(request: Attributes, rules: seq<PolicyRule>, escalating: bool, list: seq<GroupResource>)
    requires RulesAllow(request, Resolved(rules, escalating, list))
    ensures RulesAllow(request, rules)
  {
    ResolvedElements(rules, escalating, list);
    if !escalating {
      var r :| r in Resolved(rules, escalating, list) && RuleAllows(request, r);
      var rule :| rule in rules && !Unbounded(rule) && r == Cleaned(rule, list);
      if request.isResourceRequest {
        CleanedAllows(request, rule, list);
      }
      assert RuleAllows(request, rule);
    }
  }

  /** Cleaning takes exactly the resources that the list has for one of the rule's own groups, and nothing else. */
  lemma CleanedKeeps(rule: PolicyRule, list: seq<GroupResource>, resource: string)
    ensures resource in Cleaned(rule, list).resources <==>
            resource in rule.resources && !exists e | e in list :: e.resource == resource && e.group in rule.apiGroups
    ensures var c := Cleaned(rule, list);
            && c.verbs == rule.verbs && c.apiGroups == rule.apiGroups
            && c.resourceNames == rule.resourceNames && c.nonResourceURLs == rule.nonResourceURLs
  {
    WithoutElements(rule.resources, Matched(rule, list));
  }

  /** A non-escalating scope leaves no wildcard in any rule. */
  lemma ResolvedIsBounded(rules: seq<PolicyRule>, list: seq<GroupResource>, r: PolicyRule)
    requires r in Resolved(rules, false, list)
    ensures "*" !in r.verbs && "*" !in r.apiGroups && "*" !in r.resources
  {
    ResolvedElements(rules, false, list);
    var rule :| rule in rules && !Unbounded(rule) && r == Cleaned(rule, list);
    WithoutElements(rule.resources, Matched(rule, list));
  }

  /** And every rule without a wildcard contributes its cleaned form. */
  lemma BoundedIsKept(rules: seq<PolicyRule>, list: seq<GroupResource>, rule: PolicyRule)
    requires rule in rules && "*" !in rule.verbs && "*" !in rule.apiGroups && "*" !in rule.resources
    ensures Cleaned(rule, list) in Resolved(rules, false, list)
  {
    ResolvedElements(rules, false, list);
  }

  /** What a cleaned rule without wildcards allows, in plain terms. */
  lemma BoundedAllows(request: Attributes, rule: PolicyRule, list: seq<GroupResource>)
    requires request.isResourceRequest
    requires "*" !in rule.verbs && "*" !in rule.apiGroups && "*" !in rule.resources
    ensures RuleAllows(request, Cleaned(rule, list)) <==>
            && request.verb in rule.verbs && request.apiGroup in rule.apiGroups
            && (rule.resourceNames == [] || request.name in rule.resourceNames)
            && exists r | r in rule.resources ::
                 && Keeps(rule, r, list)
                 && (|| r == request.CombinedResource()
                     || (request.subresource != "" && r == "*/" + request.subresource))
  {
    CleanedAllows(request, rule, list);
    forall r | r in rule.resources
      ensures OneResourceMatches(r, request.CombinedResource(), request.subresource) <==>
              r == request.CombinedResource() || (request.subresource != "" && r == "*/" + request.subresource)
    {
      if request.subresource != "" {
        SubresourceForm(r, request.resource, request.subresource);
      }
    }
  }

  /**
   Exactly what a non-escalating scope leaves: a resource request is allowed if and only if some rule
   of the role without wildcards allows it through a resource that is not escalating for that rule.
   */
  lemma ResolvedExactly(request: Attributes, rules: seq<PolicyRule>, list: seq<GroupResource>)
    requires request.isResourceRequest
    ensures RulesAllow(request, Resolved(rules, false, list)) <==>
            exists rule, r | rule in rules && r in rule.resources ::
              && "*" !in rule.verbs && "*" !in rule.apiGroups && "*" !in rule.resources
              && request.verb in rule.verbs && request.apiGroup in rule.apiGroups
              && (rule.resourceNames == [] || request.name in rule.resourceNames)
              && Keeps(rule, r, list)
              && (r == request.CombinedResource() || (request.subresource != "" && r == "*/" + request.subresource))
  {
    hide Resolved, RuleAllows, Cleaned, Keeps;
    if RulesAllow(request, Resolved(rules, false, list)) {
      var c :| c in Resolved(rules, false, list) && RuleAllows(request, c);
      ResolvedElements(rules, false, list);
      var rule :| rule in rules && !Unbounded(rule) && c == Cleaned(rule, list);
      BoundedAllows(request, rule, list);
    }
    forall rule, r | rule in rules && r in rule.resources
                     && "*" !in rule.verbs && "*" !in rule.apiGroups && "*" !in rule.resources
                     && request.verb in rule.verbs && request.apiGroup in rule.apiGroups
                     && (rule.resourceNames == [] || request.name in rule.resourceNames)
                     && Keeps(rule, r, list)
                     && (|| r == request.CombinedResource()
                         || (request.subresource != "" && r == "*/" + request.subresource))
      ensures RulesAllow(request, Resolved(rules, false, list))
    {
      BoundedIsKept(rules, list, rule);
      BoundedAllows(request, rule, list);
    }
  }

  /** Requests for paths are not touched: a rule without wildcards allows what it always did. */
  lemma ResolvedPaths(request: Attributes, rules: seq<PolicyRule>, list: seq<GroupResource>)
    requires !request.isResourceRequest
    ensures RulesAllow(request, Resolved(rules, false, list)) <==>
            exists rule | rule in rules ::
              && "*" !in rule.verbs && "*" !in rule.apiGroups && "*" !in rule.resources && RuleAllows(request, rule)
  {
    ResolvedElements(rules, false, list);
    forall rule | rule in rules && !Unbounded(rule) && RuleAllows(request, rule)
      ensures RulesAllow(request, Resolved(rules, false, list))
    {
      assert RuleAllows(request, Cleaned(rule, list));
    }
  }

  /** A rule without wildcards grants the request through every resource's subresource of that name. */
  predicate GrantsStarred(request: Attributes, rule: PolicyRule, list: seq<GroupResource>) {
    && "*" !in rule.verbs && "*" !in rule.apiGroups && "*" !in rule.resources
    && request.verb in rule.verbs && request.apiGroup in rule.apiGroups
    && (rule.resourceNames == [] || request.name in rule.resourceNames)
    && "*/" + request.subresource in rule.resources
    && Keeps(rule, "*/" + request.subresource, list)
  }

  /**
   When the resolved rules still allow a listed (group, resource) pair, whichever other groups and
   resources share the rule: exactly for a subresource that some rule grants in its starred form,
   which the cleaning leaves in place.
   */
  lemma EscalatesIff(request: Attributes, rules: seq<PolicyRule>, list: seq<GroupResource>)
    requires request.isResourceRequest
    requires GroupResource(request.apiGroup, request.CombinedResource()) in list
    ensures RulesAllow(request, Resolved(rules, false, list)) <==>
            request.subresource != "" && exists rule | rule in rules :: GrantsStarred(request, rule, list)
  {
    ResolvedExactly(request, rules, list);
    var e := GroupResource(request.apiGroup, request.CombinedResource());
    assert e.group == request.apiGroup && e.resource == request.CombinedResource();
  }

  /** So without a subresource the resolved rules never allow a listed pair. */
  lemma ResolvedNeverEscalates(request: Attributes, rules: seq<PolicyRule>, list: seq<GroupResource>)
    requires request.isResourceRequest && request.subresource == ""
    requires GroupResource(request.apiGroup, request.resource) in list
    ensures !RulesAllow(request, Resolved(rules, false, list))
  {
    EscalatesIff(request, rules, list);
  }

  /** Secrets, tokens and the four kinds of policy objects are never left to a non-escalating scope. */
  lemma NeverPolicyNorSecrets(request: Attributes, rules: seq<PolicyRule>)
    requires request.isResourceRequest && request.subresource == ""
    requires (request.apiGroup, request.resource) in {
               ("", "secrets"),
               ("", "oauthauthorizetokens"), ("oauth.openshift.io", "oauthauthorizetokens"),
               ("", "oauthaccesstokens"), ("oauth.openshift.io", "oauthaccesstokens"),
               ("", "roles"), ("authorization.openshift.io", "roles"),
               ("", "rolebindings"), ("authorization.openshift.io", "rolebindings"),
               ("", "clusterroles"), ("authorization.openshift.io", "clusterroles"),
               ("", "clusterrolebindings"), ("authorization.openshift.io", "clusterrolebindings")}
    ensures !RulesAllow(request, Resolved(rules, false, ESCALATING))
  {
    hide RulesAllow, Resolved;
    var pairs: seq<GroupResource> := ESCALATING;
    assert {pairs[0], pairs[2], pairs[3], pairs[4], pairs[5], pairs[6], pairs[7], pairs[10], pairs[11], pairs[12],
            pairs[13], pairs[14], pairs[15]} <= set e | e in pairs;
    assert GroupResource(request.apiGroup, request.resource) in ESCALATING;
    ResolvedNeverEscalates(request, rules, ESCALATING);
  }

  lemma SecretsAreListed()
    ensures GroupResource("image.openshift.io", "imagestreams" + "/" + "secrets") in ESCALATING
    ensures GroupResource("", "imagestreams" + "/" + "secrets") in ESCALATING
  {
    assert "imagestreams" + "/" + "secrets" == "imagestreams/secrets";
    assert ESCALATING[1] == GroupResource("image.openshift.io", "imagestreams/secrets");
    assert ESCALATING[9] == GroupResource("", "imagestreams/secrets");
  }

  lemma ExternalIPsAreListed()
    ensures GroupResource("network.openshift.io", "service" + "/" + "externalips") in ESCALATING
  {
    assert "service" + "/" + "externalips" == "service/externalips";
    assert ESCALATING[8] == GroupResource("network.openshift.io", "service/externalips");
  }

  /** The listed pairs that name a subresource are left only to rules that grant it in its starred form. */
  lemma OnlyStarred(request: Attributes, rules: seq<PolicyRule>)
    requires request.isResourceRequest
    requires || (request.apiGroup in {"image.openshift.io", ""}
                 && request.resource == "imagestreams" && request.subresource == "secrets")
             || (request.apiGroup == "network.openshift.io"
                 && request.resource == "service" && request.subresource == "externalips")
    ensures RulesAllow(request, Resolved(rules, false, ESCALATING)) <==>
            exists rule | rule in rules :: GrantsStarred(request, rule, ESCALATING)
  {
    hide RulesAllow, Resolved, GrantsStarred;
    if request.resource == "service" {
      ExternalIPsAreListed();
    } else {
      SecretsAreListed();
    }
    EscalatesIff(request, rules, ESCALATING);
  }

  /** A rule for one subresource of every resource of a group. */
  function StarredRule(group: string, subresource: string): PolicyRule {
    PolicyRule(["get"], [group], ["*/" + subresource], [], [])
  }

  function GetSubresource(group: string, resource: string, subresource: string): Attributes {
    Attributes("get", group, resource, subresource, "", "", true)
  }

  /** With one they may: every listed pair that names a subresource has such a rule. */
  lemma StarredEscalates(group: string, resource: string, subresource: string, list: seq<GroupResource>)
    requires group != ALL && subresource != "" && GroupResource(group, resource + "/" + subresource) in list
    requires forall e :: e in list ==> e.resource != "*/" + subresource
    ensures RulesAllow(GetSubresource(group, resource, subresource),
                       Resolved([StarredRule(group, subresource)], false, list))
  {
    var rule, request := StarredRule(group, subresource), GetSubresource(group, resource, subresource);
    assert "get" in rule.verbs && group in rule.apiGroups;
    assert |rule.resources[0]| > 1;
    assert GrantsStarred(request, rule, list);
    assert rule in [rule];
    EscalatesIff(request, [rule], list);
  }

  lemma NoneStarred()
    ensures forall e :: e in ESCALATING ==> e.resource != "*/secrets"
  {
    forall e | e in ESCALATING
      ensures e.resource != "*/secrets"
    {
      assert e.resource[0] != '*';
    }
  }

  /** A non-escalating scope over "* /secrets" reads the secrets of image streams, which are on the list. */
  lemma SecretsEscalate()
    ensures GroupResource("image.openshift.io", "imagestreams/secrets") in ESCALATING
    ensures RulesAllow(GetSubresource("image.openshift.io", "imagestreams", "secrets"),
                       Resolved([StarredRule("image.openshift.io", "secrets")], false, ESCALATING))
  {
    hide Resolved, RulesAllow, StarredRule, GetSubresource;
    assert ESCALATING[1] == GroupResource("image.openshift.io", "imagestreams/secrets");
    assert "imagestreams" + "/" + "secrets" == "imagestreams/secrets";
    assert "*/" + "secrets" == "*/secrets";
    NoneStarred();
    StarredEscalates("image.openshift.io", "imagestreams", "secrets", ESCALATING);
  }

  /******* Implementation *******/

  /** A Go slice of strings: the first `len` cells of a backing array. */
  datatype Slice = Slice(data: array<string>, len: nat) {
    ghost predicate Valid() {
      len <= data.Length
    }

    ghost function Contents(): seq<string>
      requires Valid()
      reads data
    {
      data[..len]
    }
  }

  /** A policy rule as the lister holds it: the resources are a slice that others may share. */
  datatype HeapRule = HeapRule(
    verbs: seq<string>,
    apiGroups: seq<string>,
    resources: Slice,
    resourceNames: seq<string>,
    nonResourceURLs: seq<string>)
  {
    ghost function Value(): PolicyRule
      requires resources.Valid()
      reads resources.data
    {
      PolicyRule(verbs, apiGroups, resources.Contents(), resourceNames, nonResourceURLs)
    }
  }

  method Has(s: Slice, value: string) returns (found: bool)
    requires s.Valid()
    ensures found <==> value in s.Contents()
  {
    for i := 0 to s.len
      invariant value !in s.data[..i]
    {
      if s.data[i] == value {
        return true;
      }
    }
    return false;
  }

  /** Compacts the slice in place; the cells after the result keep what they held. */
  method Remove(s: Slice, item: string) returns (r: Slice)
    requires s.Valid()
    modifies s.data
    ensures r.Valid() && r.data == s.data && r.len <= s.len
    ensures r.Contents() == Without(old(s.Contents()), {item})
    ensures forall i :: r.len <= i < s.data.Length ==> s.data[i] == old(s.data[i])
  {
    var kept := 0;
    for i := 0 to s.len
      invariant kept <= i
      invariant s.data[..kept] == Without(old(s.data[..i]), {item})
      invariant forall j :: kept <= j < s.data.Length ==> s.data[j] == old(s.data[j])
    {
      ghost var was := old(s.data[..i + 1]);
      assert was[..i] == old(s.data[..i]);
      var element := s.data[i];
      if element != item {
        s.data[kept] := element;
        kept := kept + 1;
      }
    }
    r := Slice(s.data, kept);
  }

  method CopySlice(s: Slice) returns (r: Slice)
    requires s.Valid()
    ensures r.Valid() && fresh(r.data) && r.Contents() == s.Contents()
  {
    var data := new string[s.len];
    for i := 0 to s.len
      invariant data[..i] == s.data[..i]
    {
      data[i] := s.data[i];
    }
    r := Slice(data, s.len);
  }

  /**
   Removes every escalating resource on `list` from a copy of the rule.  Nothing that was allocated
   before is written: the rule held by the lister is unchanged, and is returned itself when nothing
   matches.
   */
  method RemoveEscalatingResources(rule: HeapRule, list: seq<GroupResource>) returns (r: HeapRule)
    requires rule.resources.Valid()
    ensures r.resources.Valid() && r.Value() == Cleaned(rule.Value(), list)
    ensures if Matched(rule.Value(), list) == {} then r == rule else fresh(r.resources.data)
  {
    ghost var value, done := rule.Value(), {};
    var copied, resources := false, rule.resources;
    WithoutNothing(value.resources);
    for i := 0 to |list|
      invariant done == Matched(value, list[..i])
      invariant copied <==> done != {}
      invariant resources.Valid()
      invariant if copied then fresh(resources.data) else resources == rule.resources
      invariant resources.Contents() == Without(value.resources, done)
    {
      MatchedOneMore(value, list, i);
      var item := list[i].resource;
      var hasResource := Has(rule.resources, item);
      if !(list[i].group in rule.apiGroups && hasResource) {
        continue;
      }
      if !copied {
        resources := CopySlice(rule.resources);
        copied := true;
      }
      WithoutTwice(value.resources, done, {item});
      resources := Remove(resources, item);
      done := done + {item};
    }
    assert list[..|list|] == list;
    r := rule.(resources := resources);
  }

  lemma MatchedOneMore(rule: PolicyRule, list: seq<GroupResource>, i: nat)
    requires i < |list|
    ensures Matched(rule, list[..i + 1]) ==
            if list[i].group in rule.apiGroups && list[i].resource in rule.resources
            then Matched(rule, list[..i]) + {list[i].resource} else Matched(rule, list[..i])
  {
    assert list[..i + 1] == list[..i] + [list[i]];
  }

  datatype ScopeError = BadScope | RoleLookupFailed

  /** A parsed "role:" scope. */
  datatype ScopeRef = BadRef | ScopeRef(roleName: string, escalating: bool)

  datatype RoleLookup = RoleNotFound | LookupFailed | RoleFound(rules: seq<HeapRule>)

  datatype ResolveResult = Rules(rules: seq<HeapRule>) | Failed(error: ScopeError)

  /** The rules the lister holds have these values. */
  ghost predicate Represents(rules: seq<HeapRule>, values: seq<PolicyRule>)
    reads set rule | rule in rules :: rule.resources.data
  {
    && |rules| == |values|
    && forall i :: 0 <= i < |rules| ==> rules[i].resources.Valid() && rules[i].Value() == values[i]
  }

  lemma RepresentsConcat(a: seq<HeapRule>, va: seq<PolicyRule>, b: seq<HeapRule>, vb: seq<PolicyRule>)
    requires Represents(a, va) && Represents(b, vb)
    ensures Represents(a + b, va + vb)
  {
  }

  lemma ResolvedStep(rules: seq<PolicyRule>, rule: PolicyRule, escalating: bool, list: seq<GroupResource>)
    ensures Resolved(rules + [rule], escalating, list) == Resolved(rules, escalating, list) +
            if escalating then [rule] else if Unbounded(rule) then [] else [Cleaned(rule, list)]
  {
    assert (rules + [rule])[..|rules|] == rules;
  }

  /** What one rule of the role contributes: the rule itself, nothing, or a cleaned copy. */
  method ResolveRule(rule: HeapRule, escalating: bool, list: seq<GroupResource>) returns (r: seq<HeapRule>)
    requires rule.resources.Valid()
    ensures Represents(r, if escalating then [rule.Value()]
                          else if Unbounded(rule.Value()) then [] else [Cleaned(rule.Value(), list)])
  {
    if escalating {
      return [rule];
    }
    var wildResource := Has(rule.resources, ALL);
    if ALL in rule.verbs || wildResource || ALL in rule.apiGroups {
      return [];
    }
    var safe := RemoveEscalatingResources(rule, list);
    return [safe];
  }

  method ResolveAll(rules: seq<HeapRule>, ghost values: seq<PolicyRule>, escalating: bool, list: seq<GroupResource>)
    returns (r: seq<HeapRule>)
    requires Represents(rules, values)
    ensures Represents(r, Resolved(values, escalating, list))
  {
    r := [];
    for i := 0 to |rules|
      invariant Represents(r, Resolved(values[..i], escalating, list))
    {
      assert values[..i + 1] == values[..i] + [values[i]];
      ResolvedStep(values[..i], values[i], escalating, list);
      var more := ResolveRule(rules[i], escalating, list);
      ghost var added := if escalating then [values[i]]
                         else if Unbounded(values[i]) then [] else [Cleaned(values[i], list)];
      RepresentsConcat(r, Resolved(values[..i], escalating, list), more, added);
      r := r + more;
    }
    assert values[..|rules|] == values;
  }

  /**
   The rules a scope stands for.  `values` are the values of the role's rules when the role exists.
   The lister's own rules are not written, since nothing allocated before may be.
   */
  method ResolveRules(scope: ScopeRef, roles: string -> RoleLookup, ghost values: seq<PolicyRule>)
    returns (r: ResolveResult)
    requires scope.ScopeRef? && roles(scope.roleName).RoleFound? ==> Represents(roles(scope.roleName).rules, values)
    ensures scope.BadRef? ==> r == Failed(BadScope)
    ensures scope.ScopeRef? ==>
              match roles(scope.roleName)
              case RoleNotFound => r == Rules([])
              case LookupFailed => r == Failed(RoleLookupFailed)
              case RoleFound(rules) =>
                r.Rules? && Represents(r.rules, Resolved(values, scope.escalating, ESCALATING))
  {
    if scope.BadRef? {
      return Failed(BadScope);
    }
    match roles(scope.roleName) {
      case RoleNotFound => r := Rules([]);
      case LookupFailed => r := Failed(RoleLookupFailed);
      case RoleFound(rules) =>
        var resolved := ResolveAll(rules, values, scope.escalating, ESCALATING);
        r := Rules(resolved);
    }
  }
}
