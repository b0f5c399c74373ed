/**
 What the listers show during one synchronization, and the direct evaluation of access over it
 (pkg/cache/rbac/subject_locator.go, pkg/cache/rbac/reviewer.go).
 */
module Reviews {
  import opened Rbac
  import opened Listers

  datatype Cluster = Cluster(name: string, version: string, labels: map<string, string>)

  datatype ClusterRole = ClusterRole(name: string, uid: string, version: string, rules: seq<PolicyRule>)

  datatype Subject = Subject(kind: string, apiGroup: string, namespace: string, name: string)

  datatype Binding = Binding(uid: string, version: string, roleRef: string, subjects: seq<Subject>)

  /**
   The listers' content.  Sets and maps: listers promise no order.  `listFails` is a failing List of
   the clusters, which leaves Get working.
   */
  datatype Snapshot = Snapshot(
    clusters: map<string, Cluster>,
    listFails: bool,
    roles: map<string, ClusterRole>,
    bindings: set<Binding>)
  {
    /** Objects are keyed by name, and live objects of one kind do not share a uid. */
    ghost predicate Valid() {
      && (forall n :: n in clusters ==> clusters[n].name == n)
      && (forall n :: n in roles ==> roles[n].name == n)
      && (forall n, m :: n in roles && m in roles && roles[n].uid == roles[m].uid ==> n == m)
      && (forall a, b :: a in bindings && b in bindings && a.uid == b.uid ==> a == b)
    }

    /** The cluster names this round's listing returns. */
    function Listed(): set<string> {
      if listFails then {} else clusters.Keys
    }
  }

  /** What the library makes of a subject. */
  datatype Principal = UserName(name: string) | GroupName(name: string) | Unmapped

  datatype Config = Config(
    apiGroup: string,
    resource: string,
    superUser: string,
    principal: Subject -> Principal)

  datatype User = User(name: string, groups: seq<string>)

  /** The users and groups a review finds, or a record remembers. */
  datatype Access = Access(users: set<string>, groups: set<string>) {
    predicate Includes(other: Access) {
      other.users <= users && other.groups <= groups
    }

    predicate Admits(user: User) {
      user.name in users || exists g | g in user.groups :: g in groups
    }
  }

  const NOBODY := Access({}, {})

  const RBAC_GROUP := "rbac.authorization.k8s.io"
  const MASTERS := Subject("Group", RBAC_GROUP, "", "system:masters")

  function SuperUser(cfg: Config): Subject {
    Subject("User", RBAC_GROUP, "", cfg.superUser)
  }

  function GetRequest(cfg: Config, name: string): Attributes {
    Attributes("get", cfg.apiGroup, cfg.resource, "", name, "", true)
  }

  /** Does the role of this binding, if there is one, allow the request? */
  predicate Grants(snap: Snapshot, b: Binding, request: Attributes) {
    b.roleRef in snap.roles && RulesAllow(request, snap.roles[b.roleRef].rules)
  }

  /** The subjects direct evaluation allows: the fixed ones and those of every granting binding. */
  ghost predicate Allowed(cfg: Config, snap: Snapshot, request: Attributes, s: Subject) {
    || s == MASTERS
    || (cfg.superUser != "" && s == SuperUser(cfg))
    || exists b | b in snap.bindings :: Grants(snap, b, request) && s in b.subjects
  }

  function AllowedSet(cfg: Config, snap: Snapshot, request: Attributes): (r: set<Subject>)
    ensures forall s :: s in r <==> Allowed(cfg, snap, request, s)
  {
    {MASTERS}
    + (if cfg.superUser != "" then {SuperUser(cfg)} else {})
    + set b, s | b in snap.bindings && Grants(snap, b, request) && s in b.subjects :: s
  }

  /** A rule allows get on one name of the cache's resource, in plain terms. */
  lemma GetAllowed(cfg: Config, name: string, rule: PolicyRule)
    ensures RuleAllows(GetRequest(cfg, name), rule) <==>
            && ("*" in rule.verbs || "get" in rule.verbs)
            && ("*" in rule.apiGroups || cfg.apiGroup in rule.apiGroups)
            && ("*" in rule.resources || cfg.resource in rule.resources)
            && (rule.resourceNames == [] || name in rule.resourceNames)
  {
    RuleAllowsResource(GetRequest(cfg, name), rule);
  }

  /**
   Whom direct evaluation allows, in plain terms: the masters, the super user if there is one, and the
   subjects of each binding whose role is there and has a rule for it.
   */
  lemma AllowedIff(cfg: Config, snap: Snapshot, name: string, s: Subject)
    ensures Allowed(cfg, snap, GetRequest(cfg, name), s) <==>
            || s == Subject("Group", "rbac.authorization.k8s.io", "", "system:masters")
            || (cfg.superUser != "" && s == Subject("User", "rbac.authorization.k8s.io", "", cfg.superUser))
            || exists b | b in snap.bindings ::
                 && s in b.subjects && b.roleRef in snap.roles
                 && exists rule | rule in snap.roles[b.roleRef].rules ::
                      && ("*" in rule.verbs || "get" in rule.verbs)
                      && ("*" in rule.apiGroups || cfg.apiGroup in rule.apiGroups)
                      && ("*" in rule.resources || cfg.resource in rule.resources)
                      && (rule.resourceNames == [] || name in rule.resourceNames)
  {
    hide RuleAllows, GetRequest;
    forall b | b in snap.bindings && b.roleRef in snap.roles
      ensures Grants(snap, b, GetRequest(cfg, name)) <==>
              exists rule | rule in snap.roles[b.roleRef].rules ::
                && ("*" in rule.verbs || "get" in rule.verbs)
                && ("*" in rule.apiGroups || cfg.apiGroup in rule.apiGroups)
                && ("*" in rule.resources || cfg.resource in rule.resources)
                && (rule.resourceNames == [] || name in rule.resourceNames)
    {
      GrantsIff(cfg, snap, b, name);
    }
  }

  lemma GrantsIff(cfg: Config, snap: Snapshot, b: Binding, name: string)
    requires b.roleRef in snap.roles
    ensures Grants(snap, b, GetRequest(cfg, name)) <==>
            exists rule | rule in snap.roles[b.roleRef].rules ::
              && ("*" in rule.verbs || "get" in rule.verbs)
              && ("*" in rule.apiGroups || cfg.apiGroup in rule.apiGroups)
              && ("*" in rule.resources || cfg.resource in rule.resources)
              && (rule.resourceNames == [] || name in rule.resourceNames)
  {
    hide RuleAllows, GetRequest;
    forall rule
      ensures RuleAllows(GetRequest(cfg, name), rule) <==>
              && ("*" in rule.verbs || "get" in rule.verbs)
              && ("*" in rule.apiGroups || cfg.apiGroup in rule.apiGroups)
              && ("*" in rule.resources || cfg.resource in rule.resources)
              && (rule.resourceNames == [] || name in rule.resourceNames)
    {
      GetAllowed(cfg, name, rule);
    }
  }

  function AccessOf(cfg: Config, subjects: set<Subject>): Access {
    Access(set s | s in subjects && cfg.principal(s).UserName? :: cfg.principal(s).name,
           set s | s in subjects && cfg.principal(s).GroupName? :: cfg.principal(s).name)
  }

  /** The direct review of a name: what the cache must agree with. */
  function Direct(cfg: Config, snap: Snapshot, name: string): Access {
    AccessOf(cfg, AllowedSet(cfg, snap, GetRequest(cfg, name)))
  }

  /** Direct evaluation, from the user's side: some allowed subject is this user or one of their groups. */
  ghost predicate MayGet(cfg: Config, snap: Snapshot, name: string, user: User) {
    exists s | Allowed(cfg, snap, GetRequest(cfg, name), s) ::
      match cfg.principal(s)
      case UserName(n) => n == user.name
      case GroupName(g) => g in user.groups
      case Unmapped => false
  }

  lemma DirectIsEvaluation(cfg: Config, snap: Snapshot, name: string, user: User)
    ensures Direct(cfg, snap, name).Admits(user) <==> MayGet(cfg, snap, name, user)
  {
    var request := GetRequest(cfg, name);
    var access := Direct(cfg, snap, name);
    if user.name in access.users {
      var s :| s in AllowedSet(cfg, snap, request) && cfg.principal(s) == UserName(user.name);
      assert Allowed(cfg, snap, request, s);
    }
    forall g | g in user.groups && g in access.groups
      ensures MayGet(cfg, snap, name, user)
    {
      var s :| s in AllowedSet(cfg, snap, request) && cfg.principal(s) == GroupName(g);
      assert Allowed(cfg, snap, request, s);
    }
  }

  /** A granting binding's subjects are all in the direct review. */
  lemma DirectIncludesBinding(cfg: Config, snap: Snapshot, b: Binding, name: string)
    requires b in snap.bindings && Grants(snap, b, GetRequest(cfg, name))
    ensures Direct(cfg, snap, name).Includes(AccessOf(cfg, set s | s in b.subjects))
  {
    assert (set s | s in b.subjects) <= AllowedSet(cfg, snap, GetRequest(cfg, name));
  }

  /**
   The subjects are collected binding by binding, in whatever order the lister returns; a binding
   whose role is missing adds an error and nothing else.
   */
  method AllowedSubjects(cfg: Config, snap: Snapshot, request: Attributes)
    returns (subjects: seq<Subject>, errors: seq<string>)
    ensures forall s :: s in subjects <==> Allowed(cfg, snap, request, s)
    ensures forall e :: e in errors <==> exists b | b in snap.bindings :: b.roleRef == e && e !in snap.roles
  {
    subjects, errors := [MASTERS], [];
    if cfg.superUser != "" {
      subjects := subjects + [SuperUser(cfg)];
    }
    ghost var fixed := subjects;
    var bindings := Enumerate(snap.bindings);
    for i := 0 to |bindings|
      invariant forall s :: s in subjects <==>
                  s in fixed || exists b | b in bindings[..i] :: Grants(snap, b, request) && s in b.subjects
      invariant forall e :: e in errors <==> exists b | b in bindings[..i] :: b.roleRef == e && e !in snap.roles
    {
      var b := bindings[i];
      assert bindings[..i + 1] == bindings[..i] + [b];
      if b.roleRef !in snap.roles {
        errors := errors + [b.roleRef];
        continue;
      }
      if RulesAllow(request, snap.roles[b.roleRef].rules) {
        subjects := subjects + b.subjects;
      }
    }
    assert bindings[..|bindings|] == bindings;
  }

  datatype Review = Review(users: seq<string>, groups: seq<string>, errors: seq<string>)

  function AsAccess(users: seq<string>, groups: seq<string>): Access {
    Access(set u | u in users, set g | g in groups)
  }

  method UsersAndGroups(cfg: Config, subjects: seq<Subject>) returns (users: seq<string>, groups: seq<string>)
    ensures AsAccess(users, groups) == AccessOf(cfg, set s | s in subjects)
  {
    users, groups := [], [];
    for i := 0 to |subjects|
      invariant AsAccess(users, groups) == AccessOf(cfg, set s | s in subjects[..i])
    {
      var s := subjects[i];
      ghost var before := set t | t in subjects[..i];
      ghost var done := subjects[..i + 1];
      ghost var after := set t | t in done;
      assert after == before + {s};
      match cfg.principal(s) {
        case UserName(n) => users := users + [n];
        case GroupName(g) => groups := groups + [g];
        case Unmapped =>
      }
      AccessOfOneMore(cfg, before, s);
    }
    assert subjects[..|subjects|] == subjects;
  }

  lemma AccessOfOneMore(cfg: Config, subjects: set<Subject>, s: Subject)
    ensures AccessOf(cfg, subjects + {s}) ==
            match cfg.principal(s)
            case UserName(n) => AccessOf(cfg, subjects).(users := AccessOf(cfg, subjects).users + {n})
            case GroupName(g) => AccessOf(cfg, subjects).(groups := AccessOf(cfg, subjects).groups + {g})
            case Unmapped => AccessOf(cfg, subjects)
  {
    var a, b := AccessOf(cfg, subjects), AccessOf(cfg, subjects + {s});
    forall n | n in b.users
      ensures n in a.users || cfg.principal(s) == UserName(n)
    {
      var t :| t in subjects + {s} && cfg.principal(t) == UserName(n);
    }
    forall n | n in b.groups
      ensures n in a.groups || cfg.principal(s) == GroupName(n)
    {
      var t :| t in subjects + {s} && cfg.principal(t) == GroupName(n);
    }
  }

  /** A review asks for verb "get"; evaluation errors become part of it, and it never fails. */
  method MakeReview(cfg: Config, snap: Snapshot, name: string) returns (r: Review)
    ensures AsAccess(r.users, r.groups) == Direct(cfg, snap, name)
    ensures r.errors == [] <==> forall b :: b in snap.bindings ==> b.roleRef in snap.roles
  {
    var subjects, errors := AllowedSubjects(cfg, snap, GetRequest(cfg, name));
    var users, groups := UsersAndGroups(cfg, subjects);
    assert (set s | s in subjects) == AllowedSet(cfg, snap, GetRequest(cfg, name));
    r := Review(users, groups, errors);
    if errors != [] {
      assert errors[0] in errors;
    }
  }
}
