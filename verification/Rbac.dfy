/**
 The rule evaluator (pkg/cache/rbac/allow.go): which requests a list of policy rules allows.
 Every matcher is an early-return scan in the source, so each is a predicate here.
 */
module Rbac {
  const ALL := "*"

  datatype PolicyRule = PolicyRule(
    verbs: seq<string>,
    apiGroups: seq<string>,
    resources: seq<string>,
    resourceNames: seq<string>,
    nonResourceURLs: seq<string>)

  datatype Attributes = Attributes(
    verb: string,
    apiGroup: string,
    resource: string,
    subresource: string,
    name: string,
    path: string,
    isResourceRequest: bool)
  {
    /** What the rule's resources are compared with: "resource" or "resource/subresource". */
    function CombinedResource(): string {
      if subresource != "" then resource + "/" + subresource else resource
    }
  }

  predicate HasPrefix(s: string, prefix: string) {
    prefix <= s
  }

  predicate HasSuffix(s: string, suffix: string) {
    |suffix| <= |s| && s[|s| - |suffix|..] == suffix
  }

  function TrimRight(s: string, c: char): string {
    if s != [] && s[|s| - 1] == c then TrimRight(s[..|s| - 1], c) else s
  }

  predicate VerbMatches(rule: PolicyRule, verb: string) {
    exists v | v in rule.verbs :: v == ALL || v == verb
  }

  predicate APIGroupMatches(rule: PolicyRule, group: string) {
    exists g | g in rule.apiGroups :: g == ALL || g == group
  }

  /** One rule resource against the request; the last test is the "* /subresource" form. */
  predicate OneResourceMatches(ruleResource: string, combined: string, subresource: string) {
    || ruleResource == ALL
    || ruleResource == combined
    || (&& subresource != ""
        && |ruleResource| == |subresource| + 2
        && HasPrefix(ruleResource, "*/")
        && HasSuffix(ruleResource, subresource))
  }

  predicate ResourceMatches(rule: PolicyRule, combined: string, subresource: string) {
    exists r | r in rule.resources :: OneResourceMatches(r, combined, subresource)
  }

  predicate ResourceNameMatches(rule: PolicyRule, name: string) {
    rule.resourceNames == [] || name in rule.resourceNames
  }

  predicate NonResourceURLMatches(rule: PolicyRule, path: string) {
    exists u | u in rule.nonResourceURLs ::
      u == ALL || u == path || (HasSuffix(u, "*") && HasPrefix(path, TrimRight(u, '*')))
  }

  predicate RuleAllows(request: Attributes, rule: PolicyRule) {
    if request.isResourceRequest then
      && VerbMatches(rule, request.verb)
      && APIGroupMatches(rule, request.apiGroup)
      && ResourceMatches(rule, request.CombinedResource(), request.subresource)
      && ResourceNameMatches(rule, request.name)
    else
      VerbMatches(rule, request.verb) && NonResourceURLMatches(rule, request.path)
  }

  predicate RulesAllow(request: Attributes, rules: seq<PolicyRule>) {
    exists rule | rule in rules :: RuleAllows(request, rule)
  }

  /** The pattern is a stem of `i` characters, the last of them no star, and then stars. */
  predicate StarsFrom(pattern: string, i: nat) {
    && i < |pattern|
    && (forall k :: i <= k < |pattern| ==> pattern[k] == '*')
    && (i > 0 ==> pattern[i - 1] != '*')
  }

  lemma {:induction false} TrimmedForm(s: string)
    requires s != [] && s[|s| - 1] == '*'
    ensures TrimRight(s, '*') <= s && StarsFrom(s, |TrimRight(s, '*')|)
  {
    var front := s[..|s| - 1];
    if front != [] && front[|front| - 1] == '*' {
      TrimmedForm(front);
    }
  }

  lemma StemIsUnique(pattern: string, i: nat, j: nat)
    requires StarsFrom(pattern, i) && StarsFrom(pattern, j)
    ensures i == j
  {
  }

  /** A path pattern ends in stars, and stands for the extensions of the stem before them. */
  lemma URLForm(rule: PolicyRule, path: string)
    ensures NonResourceURLMatches(rule, path) <==>
            exists u | u in rule.nonResourceURLs ::
              u == path || exists i | 0 <= i < |u| :: StarsFrom(u, i) && u[..i] <= path
  {
    forall u | u in rule.nonResourceURLs
      ensures (u == ALL || (HasSuffix(u, "*") && HasPrefix(path, TrimRight(u, '*')))) <==>
              exists i | 0 <= i < |u| :: StarsFrom(u, i) && u[..i] <= path
    {
      StemForm(u, path);
    }
  }

  lemma StemForm(u: string, path: string)
    ensures (u == ALL || (HasSuffix(u, "*") && HasPrefix(path, TrimRight(u, '*')))) <==>
            exists i | 0 <= i < |u| :: StarsFrom(u, i) && u[..i] <= path
  {
    if u != [] && u[|u| - 1] == '*' {
      assert u[|u| - 1..] == "*";
      TrimmedForm(u);
      var stem := TrimRight(u, '*');
      assert u[..|stem|] == stem;
      if u == ALL {
        assert StarsFrom(u, 0) && u[..0] <= path;
      }
      if i :| 0 <= i < |u| && StarsFrom(u, i) && u[..i] <= path {
        StemIsUnique(u, i, |stem|);
      }
    }
  }

  /** The length, prefix and suffix conditions together pick out exactly the text "* /subresource". */
  lemma SubresourceForm(ruleResource: string, resource: string, subresource: string)
    requires subresource != ""
    ensures OneResourceMatches(ruleResource, resource + "/" + subresource, subresource)
            <==> ruleResource in {ALL, resource + "/" + subresource, "*/" + subresource}
  {
    var form := "*/" + subresource;
    assert form[|form| - |subresource|..] == subresource;
    assert HasPrefix(form, "*/");
    if |ruleResource| == |subresource| + 2 && HasPrefix(ruleResource, "*/") && HasSuffix(ruleResource, subresource) {
      assert ruleResource == ruleResource[..2] + ruleResource[2..];
      assert ruleResource[..2] == "*/";
      assert ruleResource[2..] == subresource;
      assert ruleResource == form;
    }
  }

  /** What a rule allows of a resource request, in plain terms. */
  lemma RuleAllowsResource(request: Attributes, rule: PolicyRule)
    requires request.isResourceRequest
    ensures RuleAllows(request, rule) <==>
            && ("*" in rule.verbs || request.verb in rule.verbs)
            && ("*" in rule.apiGroups || request.apiGroup in rule.apiGroups)
            && (|| "*" in rule.resources
                || (if request.subresource == "" then request.resource in rule.resources
                    else request.resource + "/" + request.subresource in rule.resources
                         || "*/" + request.subresource in rule.resources))
            && (rule.resourceNames == [] || request.name in rule.resourceNames)
  {
    if request.subresource != "" {
      forall r | r in rule.resources
        ensures OneResourceMatches(r, request.CombinedResource(), request.subresource) <==>
                r in {"*", request.resource + "/" + request.subresource, "*/" + request.subresource}
      {
        SubresourceForm(r, request.resource, request.subresource);
      }
    }
  }

  /** ... and of a path request. */
  lemma RuleAllowsPath(request: Attributes, rule: PolicyRule)
    requires !request.isResourceRequest
    ensures RuleAllows(request, rule) <==>
            && ("*" in rule.verbs || request.verb in rule.verbs)
            && exists u | u in rule.nonResourceURLs ::
                 u == request.path || exists i | 0 <= i < |u| :: StarsFrom(u, i) && u[..i] <= request.path
  {
    URLForm(rule, request.path);
  }
}
