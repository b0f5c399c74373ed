/**
 The inverted indexes: subject -> the names it can access (pkg/cache/common.go, subjectRecord,
 deleteResourceFromSubjects, addSubjectsToNamespace).  The source runs these one subject at a time
 over shared, mutable name sets; the functions below are those single steps, and `SubjectStore` is
 the store that takes them in place.
 */
module SubjectIndex {
  type Index = map<string, set<string>>

  /** name -> the subjects that can access it: what the index inverts. */
  type Relation = map<string, set<string>>

  predicate Holds(ix: Index, subject: string, name: string) {
    subject in ix && name in ix[subject]
  }

  /** The index says n is under s exactly when s can access n, and no subject is kept for nothing. */
  ghost predicate Inverts(ix: Index, access: Relation) {
    && (forall s, n :: Holds(ix, s, n) <==> n in access && s in access[n])
    && (forall s :: s in ix ==> ix[s] != {})
  }

  function RemoveOne(ix: Index, subject: string, name: string): Index {
    if subject !in ix then ix
    else if ix[subject] - {name} == {} then ix - {subject}
    else ix[subject := ix[subject] - {name}]
  }

  function AddOne(ix: Index, subject: string, name: string): Index {
    ix[subject := (if subject in ix then ix[subject] else {}) + {name}]
  }

  function RemoveAll(ix: Index, subjects: seq<string>, name: string): Index {
    if subjects == [] then ix
    else RemoveOne(RemoveAll(ix, subjects[..|subjects| - 1], name), subjects[|subjects| - 1], name)
  }

  function AddAll(ix: Index, subjects: seq<string>, name: string): Index {
    if subjects == [] then ix
    else AddOne(AddAll(ix, subjects[..|subjects| - 1], name), subjects[|subjects| - 1], name)
  }

  ghost predicate NoneEmpty(ix: Index) {
    forall s :: s in ix ==> ix[s] != {}
  }

  lemma {:induction false} RemoveAllHolds(ix: Index, subjects: seq<string>, name: string)
    requires NoneEmpty(ix)
    ensures NoneEmpty(RemoveAll(ix, subjects, name))
    ensures forall s, n :: Holds(RemoveAll(ix, subjects, name), s, n) <==>
                             Holds(ix, s, n) && !(n == name && s in subjects)
  {
    if subjects != [] {
      var front, last := subjects[..|subjects| - 1], subjects[|subjects| - 1];
      RemoveAllHolds(ix, front, name);
      assert subjects == front + [last];
      var middle, after := RemoveAll(ix, front, name), RemoveAll(ix, subjects, name);
      forall s, n
        ensures Holds(after, s, n) <==> Holds(ix, s, n) && !(n == name && s in subjects)
      {
        if Holds(middle, s, n) && n != name {
          assert n in middle[s] - {name};
        }
        assert Holds(after, s, n) <==> Holds(middle, s, n) && !(n == name && s == last);
      }
    }
  }

  lemma {:induction false} AddAllHolds(ix: Index, subjects: seq<string>, name: string)
    requires NoneEmpty(ix)
    ensures NoneEmpty(AddAll(ix, subjects, name))
    ensures forall s, n :: Holds(AddAll(ix, subjects, name), s, n) <==>
                             Holds(ix, s, n) || (n == name && s in subjects)
  {
    if subjects != [] {
      var front, last := subjects[..|subjects| - 1], subjects[|subjects| - 1];
      AddAllHolds(ix, front, name);
      assert subjects == front + [last];
      var middle, after := AddAll(ix, front, name), AddAll(ix, subjects, name);
      forall s, n
        ensures Holds(after, s, n) <==> Holds(ix, s, n) || (n == name && s in subjects)
      {
        assert Holds(after, s, n) <==> Holds(middle, s, n) || (n == name && s == last);
      }
    }
  }

  /** An access relation has only one inverse: two indexes built in different orders are the same. */
  lemma InverseIsUnique(a: Index, b: Index, access: Relation)
    requires Inverts(a, access) && Inverts(b, access)
    ensures a == b
  {
    forall s | s in a
      ensures s in b && a[s] == b[s]
    {
      var n :| n in a[s];
      assert Holds(a, s, n);
      assert Holds(b, s, n);
      forall m
        ensures m in a[s] <==> m in b[s]
      {
        assert Holds(a, s, m) <==> Holds(b, s, m);
      }
    }
    forall s | s in b
      ensures s in a
    {
      var n :| n in b[s];
      assert Holds(b, s, n);
      assert Holds(a, s, n);
    }
  }

  /** That inverse, explicitly. */
  ghost function InverseOf(access: Relation): Index {
    var subjects := set n, s | n in access && s in access[n] :: s;
    map s | s in subjects :: set n | n in access && s in access[n]
  }

  lemma InverseInverts(ix: Index, access: Relation)
    ensures Inverts(InverseOf(access), access)
    ensures Inverts(ix, access) <==> ix == InverseOf(access)
  {
    var inverse := InverseOf(access);
    forall s, n
      ensures Holds(inverse, s, n) <==> n in access && s in access[n]
    {
    }
    forall s | s in inverse
      ensures inverse[s] != {}
    {
      var n :| n in access && s in access[n];
      assert n in inverse[s];
    }
    if Inverts(ix, access) {
      InverseIsUnique(ix, inverse, access);
    }
  }

  /******* Replacing the subjects of one name *******/

  /**
   The state after `step` of the single-subject steps that replace a name's subjects: first every
   removal, then every addition.
   */
  function Midway(ix: Index, removals: seq<string>, additions: seq<string>, name: string, step: nat): Index
    requires step <= |removals| + |additions|
  {
    if step <= |removals| then RemoveAll(ix, removals[..step], name)
    else AddAll(RemoveAll(ix, removals, name), additions[..step - |removals|], name)
  }

  /**
   What any step of a replacement may show: a subject in both the old and the new review keeps the
   name, a subject in neither does not have it, and entries for other names are as they were.
   */
  ghost predicate Steady(ix: Index, before: Index, name: string, old': set<string>, new': set<string>) {
    && NoneEmpty(ix)
    && (forall s :: s in old' && s in new' ==> Holds(ix, s, name))
    && (forall s :: s !in old' && s !in new' ==> !Holds(ix, s, name))
    && (forall s, n :: n != name ==> (Holds(ix, s, n) <==> Holds(before, s, n)))
  }

  ghost function SubjectsOf(access: Relation, name: string): set<string> {
    if name in access then access[name] else {}
  }

  /** What a new review no longer has, in any order. */
  ghost predicate AreLost(removals: seq<string>, access: Relation, name: string, new': seq<string>) {
    forall s :: s in removals <==> s in SubjectsOf(access, name) && s !in new'
  }

  /** No flicker, at every step. */
  lemma NoFlicker(access: Relation, name: string, new': seq<string>, removals: seq<string>, step: nat)
    requires AreLost(removals, access, name, new')
    requires step <= |removals| + |new'|
    ensures Steady(Midway(InverseOf(access), removals, new', name, step), InverseOf(access), name,
                   SubjectsOf(access, name), set s | s in new')
  {
    var ix := InverseOf(access);
    InverseInverts(ix, access);
    if step <= |removals| {
      RemoveAllHolds(ix, removals[..step], name);
    } else {
      RemoveAllHolds(ix, removals, name);
      AddAllHolds(RemoveAll(ix, removals, name), new'[..step - |removals|], name);
    }
  }

  /** The contents after each of the removals. */
  function RemovalTrail(before: Index, subjects: seq<string>, name: string): seq<Index> {
    seq(|subjects|, i requires 0 <= i < |subjects| => RemoveAll(before, subjects[..i + 1], name))
  }

  /** The contents after each of the additions. */
  function AdditionTrail(before: Index, subjects: seq<string>, name: string): seq<Index> {
    seq(|subjects|, i requires 0 <= i < |subjects| => AddAll(before, subjects[..i + 1], name))
  }

  /** The contents after each single step of a replacement. */
  function Trail(before: Index, removals: seq<string>, additions: seq<string>, name: string): seq<Index> {
    RemovalTrail(before, removals, name) + AdditionTrail(RemoveAll(before, removals, name), additions, name)
  }

  lemma RemovalOneMore(before: Index, subjects: seq<string>, i: nat, name: string)
    requires i < |subjects|
    ensures RemoveAll(before, subjects[..i + 1], name)
            == RemoveOne(RemoveAll(before, subjects[..i], name), subjects[i], name)
    ensures RemovalTrail(before, subjects[..i + 1], name)
            == RemovalTrail(before, subjects[..i], name) + [RemoveAll(before, subjects[..i + 1], name)]
  {
    assert subjects[..i + 1][..i] == subjects[..i];
    var trail, shorter := RemovalTrail(before, subjects[..i + 1], name), RemovalTrail(before, subjects[..i], name);
    forall j | 0 <= j < i
      ensures trail[j] == shorter[j]
    {
      assert subjects[..i + 1][..j + 1] == subjects[..i][..j + 1];
    }
    assert subjects[..i + 1][..i + 1] == subjects[..i + 1];
  }

  lemma AdditionOneMore(before: Index, subjects: seq<string>, i: nat, name: string)
    requires i < |subjects|
    ensures AddAll(before, subjects[..i + 1], name)
            == AddOne(AddAll(before, subjects[..i], name), subjects[i], name)
    ensures AdditionTrail(before, subjects[..i + 1], name)
            == AdditionTrail(before, subjects[..i], name) + [AddAll(before, subjects[..i + 1], name)]
  {
    assert subjects[..i + 1][..i] == subjects[..i];
    var trail, shorter := AdditionTrail(before, subjects[..i + 1], name), AdditionTrail(before, subjects[..i], name);
    forall j | 0 <= j < i
      ensures trail[j] == shorter[j]
    {
      assert subjects[..i + 1][..j + 1] == subjects[..i][..j + 1];
    }
    assert subjects[..i + 1][..i + 1] == subjects[..i + 1];
  }

  lemma TrailIsMidway(before: Index, removals: seq<string>, additions: seq<string>, name: string)
    ensures var trail := Trail(before, removals, additions, name);
            && |trail| == |removals| + |additions|
            && forall i :: 0 <= i < |trail| ==> trail[i] == Midway(before, removals, additions, name, i + 1)
  {
  }

  /** So no step of a replacement flickers. */
  lemma TrailIsSteady(access: Relation, name: string, new': seq<string>, removals: seq<string>)
    requires AreLost(removals, access, name, new')
    ensures forall ix :: ix in Trail(InverseOf(access), removals, new', name) ==>
                           Steady(ix, InverseOf(access), name, SubjectsOf(access, name), set s | s in new')
  {
    hide Steady, Midway, InverseOf, Trail;
    var trail := Trail(InverseOf(access), removals, new', name);
    TrailIsMidway(InverseOf(access), removals, new', name);
    forall i | 0 <= i < |trail|
      ensures Steady(trail[i], InverseOf(access), name, SubjectsOf(access, name), set s | s in new')
    {
      NoFlicker(access, name, new', removals, i + 1);
    }
  }

  /** All contents since `before` have been steady, while the subjects of `name` went from old to new. */
  ghost predicate Calm(history: seq<Index>, before: seq<Index>, access: Relation, next: Relation, name: string) {
    && before <= history
    && forall i :: |before| <= i < |history| ==>
                     Steady(history[i], InverseOf(access), name, SubjectsOf(access, name), SubjectsOf(next, name))
  }

  lemma TrailIsCalm(before: seq<Index>, access: Relation, next: Relation, name: string, new': seq<string>,
                    removals: seq<string>)
    requires AreLost(removals, access, name, new') && SubjectsOf(next, name) == set s | s in new'
    ensures Calm(before + Trail(InverseOf(access), removals, new', name), before, access, next, name)
  {
    hide Steady, InverseOf, Trail, SubjectsOf, AreLost;
    var trail := Trail(InverseOf(access), removals, new', name);
    TrailIsSteady(access, name, new', removals);
    forall i | |before| <= i < |before + trail|
      ensures Steady((before + trail)[i], InverseOf(access), name, SubjectsOf(access, name), SubjectsOf(next, name))
    {
      assert (before + trail)[i] == trail[i - |before|];
      assert trail[i - |before|] in trail;
    }
  }

  lemma NoAdditions(before: Index, removals: seq<string>, name: string)
    ensures Trail(before, removals, [], name) == RemovalTrail(before, removals, name)
  {
  }

  /** After the last step the index inverts the new review. */
  lemma ReplaceInverts(access: Relation, name: string, new': seq<string>, removals: seq<string>)
    requires AreLost(removals, access, name, new')
    ensures AddAll(RemoveAll(InverseOf(access), removals, name), new', name)
            == InverseOf(access[name := set s | s in new'])
  {
    var ix, next := InverseOf(access), access[name := set s | s in new'];
    InverseInverts(ix, access);
    RemoveAllHolds(ix, removals, name);
    AddAllHolds(RemoveAll(ix, removals, name), new', name);
    InverseInverts(AddAll(RemoveAll(ix, removals, name), new', name), next);
  }

  /** Removing a name from all its subjects leaves the inverse of what remains. */
  lemma RemoveInverts(access: Relation, name: string, subjects: seq<string>)
    requires name in access && forall s :: s in subjects <==> s in access[name]
    ensures RemoveAll(InverseOf(access), subjects, name) == InverseOf(access - {name})
  {
    var ix := InverseOf(access);
    InverseInverts(ix, access);
    RemoveAllHolds(ix, subjects, name);
    InverseInverts(RemoveAll(ix, subjects, name), access - {name});
  }

  /******* The store *******/

  /** A subject and the mutable set of the names it can access. */
  class SubjectRecord {
    const subject: string
    var names: set<string>

    constructor (subject: string)
      ensures this.subject == subject && names == {}
    {
      this.subject := subject;
      names := {};
    }
  }

  class SubjectStore {
    ghost var Contents: Index
    ghost var History: seq<Index>      // every content so far, the current one last
    ghost var Repr: set<object>
    var items: map<string, SubjectRecord>

    /** Records are stored under their subject, so distinct keys never share a record or its set. */
    ghost predicate Valid()
      reads this, Repr
    {
      && this in Repr
      && (forall s :: s in items ==> items[s] in Repr && items[s].subject == s)
      && Contents == (map s | s in items :: items[s].names)
      && History != [] && History[|History| - 1] == Contents
    }

    constructor ()
      ensures Valid() && Contents == map[] && fresh(Repr)
    {
      items, Contents, History := map[], map[], [map[]];
      new;
      Repr := {this};
    }

    /** The names under a subject, if there are any. */
    method Names(subject: string) returns (names: set<string>)
      requires Valid()
      ensures forall n :: n in names <==> Holds(Contents, subject, n)
    {
      if subject in items {
        names := items[subject].names;
      } else {
        names := {};
      }
    }

    method DeleteOne(subject: string, name: string)
      requires Valid()
      modifies Repr
      ensures Valid() && Repr <= old(Repr)
      ensures Contents == RemoveOne(old(Contents), subject, name)
      ensures History == old(History) + [Contents]
    {
      if subject in items {
        var record := items[subject];
        record.names := record.names - {name};
        if record.names == {} {
          items := items - {subject};
        }
        Contents := RemoveOne(Contents, subject, name);
      }
      History := History + [Contents];
    }

    method AddOneName(subject: string, name: string)
      requires Valid()
      modifies Repr
      ensures Valid() && fresh(Repr - old(Repr))
      ensures Contents == AddOne(old(Contents), subject, name)
      ensures History == old(History) + [Contents]
    {
      var record;
      if subject in items {
        record := items[subject];
      } else {
        record := new SubjectRecord(subject);
        items, Repr := items[subject := record], Repr + {record};
      }
      record.names := record.names + {name};
      Contents := Contents[subject := record.names];
      History := History + [Contents];
    }

    method DeleteName(subjects: seq<string>, name: string)
      requires Valid()
      modifies Repr
      ensures Valid() && Repr <= old(Repr)
      ensures Contents == RemoveAll(old(Contents), subjects, name)
      ensures History == old(History) + RemovalTrail(old(Contents), subjects, name)
    {
      for i := 0 to |subjects|
        invariant Valid() && Repr <= old(Repr)
        invariant Contents == RemoveAll(old(Contents), subjects[..i], name)
        invariant History == old(History) + RemovalTrail(old(Contents), subjects[..i], name)
      {
        hide RemoveAll, RemoveOne, RemovalTrail;
        RemovalOneMore(old(Contents), subjects, i, name);
        DeleteOne(subjects[i], name);
      }
      assert subjects[..|subjects|] == subjects;
    }

    method AddName(subjects: seq<string>, name: string)
      requires Valid()
      modifies Repr
      ensures Valid() && fresh(Repr - old(Repr))
      ensures Contents == AddAll(old(Contents), subjects, name)
      ensures History == old(History) + AdditionTrail(old(Contents), subjects, name)
    {
      for i := 0 to |subjects|
        invariant Valid() && fresh(Repr - old(Repr))
        invariant Contents == AddAll(old(Contents), subjects[..i], name)
        invariant History == old(History) + AdditionTrail(old(Contents), subjects[..i], name)
      {
        hide AddAll, AddOne, AdditionTrail;
        AdditionOneMore(old(Contents), subjects, i, name);
        AddOneName(subjects[i], name);
      }
      assert subjects[..|subjects|] == subjects;
    }
  }

  /******* The user store and the group store *******/

  /** The two stores share no object, and so no mutable set. */
  ghost predicate Apart(users: SubjectStore, groups: SubjectStore)
    reads users, users.Repr, groups, groups.Repr
  {
    users.Valid() && groups.Valid() && users.Repr !! groups.Repr
  }

  method DeleteFromBoth(users: SubjectStore, groups: SubjectStore, userNames: seq<string>, groupNames: seq<string>,
                        name: string)
    requires Apart(users, groups)
    modifies users.Repr, groups.Repr
    ensures Apart(users, groups) && users.Repr <= old(users.Repr) && groups.Repr <= old(groups.Repr)
    ensures users.Contents == RemoveAll(old(users.Contents), userNames, name)
    ensures groups.Contents == RemoveAll(old(groups.Contents), groupNames, name)
    ensures users.History == old(users.History) + RemovalTrail(old(users.Contents), userNames, name)
    ensures groups.History == old(groups.History) + RemovalTrail(old(groups.Contents), groupNames, name)
  {
    hide RemoveAll, RemovalTrail;
    users.DeleteName(userNames, name);
    groups.DeleteName(groupNames, name);
  }

  method AddToBoth(users: SubjectStore, groups: SubjectStore, userNames: seq<string>, groupNames: seq<string>,
                   name: string)
    requires Apart(users, groups)
    modifies users.Repr, groups.Repr
    ensures Apart(users, groups) && fresh(users.Repr - old(users.Repr)) && fresh(groups.Repr - old(groups.Repr))
    ensures users.Contents == AddAll(old(users.Contents), userNames, name)
    ensures groups.Contents == AddAll(old(groups.Contents), groupNames, name)
    ensures users.History == old(users.History) + AdditionTrail(old(users.Contents), userNames, name)
    ensures groups.History == old(groups.History) + AdditionTrail(old(groups.Contents), groupNames, name)
  {
    hide AddAll, AdditionTrail;
    users.AddName(userNames, name);
    groups.AddName(groupNames, name);
  }

  /** syncRequest's four passes: what the review lost is removed, then what it has is added. */
  method ReplaceInBoth(users: SubjectStore, groups: SubjectStore, name: string,
                       lostUsers: seq<string>, lostGroups: seq<string>, newUsers: seq<string>, newGroups: seq<string>)
    requires Apart(users, groups)
    modifies users.Repr, groups.Repr
    ensures Apart(users, groups) && fresh(users.Repr - old(users.Repr)) && fresh(groups.Repr - old(groups.Repr))
    ensures users.Contents == AddAll(RemoveAll(old(users.Contents), lostUsers, name), newUsers, name)
    ensures groups.Contents == AddAll(RemoveAll(old(groups.Contents), lostGroups, name), newGroups, name)
    ensures users.History == old(users.History) + Trail(old(users.Contents), lostUsers, newUsers, name)
    ensures groups.History == old(groups.History) + Trail(old(groups.Contents), lostGroups, newGroups, name)
  {
    hide RemoveAll, AddAll, RemovalTrail, AdditionTrail;
    DeleteFromBoth(users, groups, lostUsers, lostGroups, name);
    AddToBoth(users, groups, newUsers, newGroups, name);
  }
}
