/**
 * The office's shadow merge (office/src/shadow-merge.ts) on JavaScript objects. An object has own members and a
 * prototype. Assigning to the name `__proto__` makes an own member only where there is one already; otherwise it sets
 * the prototype, and later reads of a missing member go through it.
 */
module ShadowMerge {
  import opened Common
  import opened Json

  const PROTO := OtherKey("__proto__")

  type LeafJson = j: Json | !j.JObj? witness JNull

  /** A JavaScript value: one that is not a record, or a record with its own members and its prototype. */
  datatype Value = Leaf(j: LeafJson) | Record(own: map<Key, Value>, proto: Prototype)

  /** The prototype of a new object, whose inherited members are functions, or a value that was assigned. */
  datatype Prototype = Plain | Assigned(value: Value)

  const UNDEFINED := Leaf(JNull)

  /** A parsed update: its members in the order in which they are listed. */
  datatype Update = Single(j: LeafJson) | Members(entries: seq<(Key, Update)>)

  /** No name twice, at any level. */
  ghost predicate Parsed(u: Update) {
    u.Members? ==>
      && (forall i, k :: 0 <= i < k < |u.entries| ==> u.entries[i].0 != u.entries[k].0)
      && (forall i :: 0 <= i < |u.entries| ==> Parsed(u.entries[i].1))
  }

  /** The document an update stands for. */
  function TreeOf(u: Update): Json
    decreases u, 1
  {
    match u
    case Single(j) => j
    case Members(entries) => JObj(TreeFields(u, |entries|))
  }

  function TreeFields(u: Update, n: nat): Fields
    requires u.Members? && n <= |u.entries|
    decreases u, 0, n
  {
    if n == 0 then map[]
    else
      var (key, value) := u.entries[n - 1];
      TreeFields(u, n - 1)[key := TreeOf(value)]
  }

  /** The document of a value's own members, which is what printing it as JSON shows. */
  function OwnOf(v: Value): Json {
    match v
    case Leaf(j) => j
    case Record(own, _) => JObj(map k | k in own :: OwnOf(own[k]))
  }

  // ---------------------------------------------------------------- the merge

  /**
   * Reading a member: an own one, or one found along the prototypes. On a new object `__proto__` reads as the prototype
   * of all objects, a record without members of its own. An array as a prototype offers its elements, but the names of
   * elements are listed before every other name, so none is read once it is in place.
   */
  function Read(v: Value, key: Key): Value
    requires v.Record?
    decreases v
  {
    if key in v.own then v.own[key]
    else
      match v.proto
      case Plain => if key == PROTO then Record(map[], Plain) else UNDEFINED
      case Assigned(p) => if p.Record? then Read(p, key) else UNDEFINED
  }

  predicate IsObject(v: Value) { v.Record? || v.j.JArr? }

  /** Assigning a member. */
  function Assign(v: Value, key: Key, value: Value): Value
    requires v.Record?
  {
    if key != PROTO || key in v.own then v.(own := v.own[key := value])
    else if IsObject(value) then v.(proto := Assigned(value))
    else v
  }

  function Delete(v: Value, key: Key): Value
    requires v.Record?
  {
    v.(own := v.own - {key})
  }

  /** A copy of the own members, under a prototype of its own. */
  function Copied(current: Value): (r: Value)
    ensures r.Record?
  {
    if current.Record? then Record(current.own, Plain) else Record(map[], Plain)
  }

  function Merged(current: Value, u: Update): Value
    decreases u, 1
  {
    match u
    case Single(j) => Leaf(j)
    case Members(entries) => MergedUpTo(current, u, |entries|)
  }

  /** The object under construction after n members of the update. */
  function MergedUpTo(current: Value, u: Update, n: nat): (r: Value)
    requires u.Members? && n <= |u.entries|
    ensures r.Record?
    decreases u, 0, n
  {
    if n == 0 then Copied(current)
    else
      var next, (key, value) := MergedUpTo(current, u, n - 1), u.entries[n - 1];
      if value == Single(JNull) then Delete(next, key) else Assign(next, key, Merged(Read(next, key), value))
  }

  /** The source's loop. */
  method MergeShadowUpdate(current: Value, u: Update) returns (r: Value)
    ensures r == Merged(current, u)
    decreases u
  {
    if u.Single? { return Leaf(u.j); }
    var next := Copied(current);
    for n := 0 to |u.entries|
      invariant next == MergedUpTo(current, u, n)
    {
      var (key, value) := u.entries[n];
      if value == Single(JNull) {
        next := Delete(next, key);
        continue;
      }
      var currentValue := Read(next, key);
      if currentValue.Record? && value.Members? {
        var merged := MergeShadowUpdate(currentValue, value);
        next := Assign(next, key, merged);
        continue;
      }
      if value.Members? {
        var merged := MergeShadowUpdate(UNDEFINED, value);
        OnlyRecordsMatter(currentValue, value, |value.entries|);
        next := Assign(next, key, merged);
        continue;
      }
      next := Assign(next, key, Leaf(value.j));
    }
    return next;
  }

  /** A current value that is no record counts as an empty one. */
  lemma {:induction false} OnlyRecordsMatter(current: Value, u: Update, n: nat)
    requires u.Members? && n <= |u.entries| && !current.Record?
    ensures MergedUpTo(current, u, n) == MergedUpTo(UNDEFINED, u, n)
  {
    if n > 0 { OnlyRecordsMatter(current, u, n - 1); }
  }

  // ---------------------------------------------------------------- when it is the merge of RFC 7396

  /** The level sets no prototype: a `__proto__` that is not null finds an own member of that name. */
  predicate LevelKept(target: Json, patch: Json)
    requires patch.JObj?
  {
    PROTO in patch.fields && patch.fields[PROTO] != JNull ==> PROTO in FieldsOf(target)
  }

  /** No level of the update sets a prototype. */
  predicate Kept(target: Json, patch: Json)
    decreases patch
  {
    patch.JObj? ==>
      && LevelKept(target, patch)
      && forall k :: k in patch.fields ==> Kept(Member(FieldsOf(target), k), patch.fields[k])
  }

  function OwnMember(v: Value, key: Key): Value { if v.Record? && key in v.own then v.own[key] else UNDEFINED }

  lemma OwnMemberTree(v: Value, key: Key)
    ensures OwnOf(OwnMember(v, key)) == Member(FieldsOf(OwnOf(v)), key)
    ensures v.Record? ==> (key in v.own <==> key in FieldsOf(OwnOf(v)))
  {
  }

  /** The listed member of a name among the first n. */
  function Find(u: Update, n: nat, key: Key): (r: Option<Update>)
    requires u.Members? && n <= |u.entries|
    ensures r.Some? ==> exists i :: 0 <= i < n && u.entries[i] == (key, r.value)
    ensures r.None? ==> forall i :: 0 <= i < n ==> u.entries[i].0 != key
  {
    if n == 0 then None
    else if u.entries[n - 1].0 == key then Some(u.entries[n - 1].1)
    else Find(u, n - 1, key)
  }

  /** The members of the document of an update are the listed ones. */
  lemma {:induction false} TreeMember(u: Update, n: nat, key: Key)
    requires u.Members? && n <= |u.entries|
    ensures var found := Find(u, n, key);
            && (key in TreeFields(u, n) <==> found.Some?)
            && (found.Some? ==> TreeFields(u, n)[key] == TreeOf(found.value))
  {
    if n > 0 { TreeMember(u, n - 1, key); }
  }

  /** Among the first n members none sets a prototype. */
  predicate SetsNoPrototype(current: Value, u: Update, n: nat)
    requires u.Members? && n <= |u.entries|
  {
    var found := Find(u, n, PROTO);
    found.Some? && found.value != Single(JNull) ==> PROTO in Copied(current).own
  }

  /** What the object under construction holds under a name while no prototype is set. */
  predicate Holds(next: Value, current: Value, key: Key, found: Option<Update>)
    requires next.Record?
  {
    match found
    case None => OwnMember(next, key) == OwnMember(current, key) && (key in next.own <==> key in Copied(current).own)
    case Some(value) =>
      if value == Single(JNull) then key !in next.own
      else key in next.own && next.own[key] == Merged(OwnMember(current, key), value)
  }

  lemma {:induction false} LevelMerges(current: Value, u: Update, n: nat, key: Key)
    requires u.Members? && n <= |u.entries| && Parsed(u) && SetsNoPrototype(current, u, n)
    ensures var next := MergedUpTo(current, u, n);
            next.proto == Plain && Holds(next, current, key, Find(u, n, key))
  {
    hide MergedUpTo, Stepped, Parsed, Merged, Holds, Find;
    if n == 0 {
      NothingMerged(current, u, key);
    } else {
      var (name, value) := u.entries[n - 1];
      var next := MergedUpTo(current, u, n - 1);
      LastIsNew(u, n);
      FindLast(u, n, PROTO);
      FindLast(u, n, key);
      LevelMerges(current, u, n - 1, key);
      LevelMerges(current, u, n - 1, name);
      LastMerged(current, u, n);
      EntryMerges(next, current, name, value);
      HoldsOn(next, MergedUpTo(current, u, n), current, name, value, key, Find(u, n - 1, key));
    }
  }

  lemma NothingMerged(current: Value, u: Update, key: Key)
    requires u.Members?
    ensures MergedUpTo(current, u, 0).proto == Plain && Holds(MergedUpTo(current, u, 0), current, key, Find(u, 0, key))
  {
    hide Merged;
  }

  lemma LastMerged(current: Value, u: Update, n: nat)
    requires u.Members? && 0 < n <= |u.entries|
    ensures MergedUpTo(current, u, n)
            == Stepped(MergedUpTo(current, u, n - 1), u.entries[n - 1].0, u.entries[n - 1].1)
  {
    hide Read, Assign, Delete;
  }

  lemma FindLast(u: Update, n: nat, key: Key)
    requires u.Members? && 0 < n <= |u.entries|
    ensures Find(u, n, key) == if key == u.entries[n - 1].0 then Some(u.entries[n - 1].1) else Find(u, n - 1, key)
  {
  }

  lemma LastIsNew(u: Update, n: nat)
    requires u.Members? && 0 < n <= |u.entries| && Parsed(u)
    ensures Find(u, n - 1, u.entries[n - 1].0) == None
  {
  }

  /** One member of the update. */
  function Stepped(next: Value, name: Key, value: Update): (r: Value)
    requires next.Record?
    ensures r.Record?
  {
    if value == Single(JNull) then Delete(next, name) else Assign(next, name, Merged(Read(next, name), value))
  }

  /** On an object without a set prototype, a member that sets none changes its own name alone. */
  lemma EntryMerges(next: Value, current: Value, name: Key, value: Update)
    requires next.Record? && next.proto == Plain && Holds(next, current, name, None)
    requires name == PROTO && value != Single(JNull) ==> PROTO in Copied(current).own
    ensures Stepped(next, name, value)
            == if value == Single(JNull) then Record(next.own - {name}, Plain)
               else Record(next.own[name := Merged(OwnMember(current, name), value)], Plain)
  {
    ReadsOwn(next, current, name, value);
    hide Merged, Read, OwnMember;
  }

  lemma HoldsOn(next: Value, after: Value, current: Value, name: Key, value: Update, key: Key, found: Option<Update>)
    requires next.Record? && Holds(next, current, key, found)
    requires after == if value == Single(JNull) then Record(next.own - {name}, Plain)
                      else Record(next.own[name := Merged(OwnMember(current, name), value)], Plain)
    ensures Holds(after, current, key, if key == name then Some(value) else found)
  {
    hide Merged;
  }

  /** On a new object a read finds the own member, or something that merges like a missing one. */
  lemma ReadsOwn(next: Value, current: Value, key: Key, value: Update)
    requires next.Record? && next.proto == Plain && OwnMember(next, key) == OwnMember(current, key)
    ensures Merged(Read(next, key), value) == Merged(OwnMember(current, key), value)
  {
    if value.Members? && key !in next.own { EmptyMatters(value, |value.entries|); }
  }

  lemma {:induction false} EmptyMatters(u: Update, n: nat)
    requires u.Members? && n <= |u.entries|
    ensures MergedUpTo(Record(map[], Plain), u, n) == MergedUpTo(UNDEFINED, u, n)
  {
    if n > 0 { EmptyMatters(u, n - 1); }
  }

  /** Without an own member of that name to begin with, the merge never makes one. */
  lemma {:induction false} NeverOwnsProto(current: Value, u: Update, n: nat)
    requires u.Members? && n <= |u.entries| && PROTO !in Copied(current).own
    ensures PROTO !in MergedUpTo(current, u, n).own
  {
    if n > 0 { NeverOwnsProto(current, u, n - 1); }
  }

  lemma OwnFields(v: Value, key: Key)
    requires v.Record?
    ensures var m := FieldsOf(OwnOf(v)); (key in m <==> key in v.own) && (key in v.own ==> m[key] == OwnOf(v.own[key]))
  {
  }

  /** A member of a document that took an update: the old one, none, or the merged one. */
  predicate Took(m: Fields, base: Fields, key: Key, found: Option<Update>, merged: Json) {
    match found
    case None => (key in m <==> key in base) && (key in m ==> m[key] == base[key])
    case Some(value) => if value == Single(JNull) then key !in m else key in m && m[key] == merged
  }

  function OurMember(current: Value, key: Key, found: Option<Update>): Json {
    if found.None? then JNull else OwnOf(Merged(OwnMember(current, key), found.value))
  }

  function RfcMember(base: Fields, key: Key, found: Option<Update>): Json {
    if found.None? then JNull else MergePatch(Member(base, key), TreeOf(found.value))
  }

  lemma OursTook(current: Value, u: Update, key: Key)
    requires u.Members? && Parsed(u) && SetsNoPrototype(current, u, |u.entries|)
    ensures var found := Find(u, |u.entries|, key);
            Took(FieldsOf(OwnOf(Merged(current, u))), FieldsOf(OwnOf(current)), key, found,
                 OurMember(current, key, found))
  {
    LevelMerges(current, u, |u.entries|, key);
    OwnFields(Merged(current, u), key);
    OwnMemberTree(current, key);
    if current.Record? { OwnFields(current, key); }
    hide MergedUpTo, OwnOf, Find, Parsed;
  }

  lemma RfcTook(base: Json, u: Update, key: Key)
    requires u.Members?
    ensures var found := Find(u, |u.entries|, key);
            Took(FieldsOf(MergePatch(base, TreeOf(u))), FieldsOf(base), key, found,
                 RfcMember(FieldsOf(base), key, found))
  {
    TreeMember(u, |u.entries|, key);
    MergedMember(base, TreeOf(u).fields, key);
    hide MergePatch, Find, TreeFields;
  }

  /** The two merges agree under a name. */
  predicate AgreesAt(current: Value, u: Update, key: Key)
    requires u.Members?
  {
    var ours, rfc := FieldsOf(OwnOf(Merged(current, u))), FieldsOf(MergePatch(OwnOf(current), TreeOf(u)));
    (key in ours <==> key in rfc) && (key in ours ==> ours[key] == rfc[key])
  }

  lemma AgreesBelow(current: Value, u: Update, key: Key)
    requires u.Members? && Parsed(u) && SetsNoPrototype(current, u, |u.entries|)
    requires forall i :: 0 <= i < |u.entries| ==> Exactly(OwnMember(current, u.entries[i].0), u.entries[i].1)
    ensures var patch := TreeOf(u).fields;
            AgreesAt(current, u, key) <==> (key in patch ==> Kept(Member(FieldsOf(OwnOf(current)), key), patch[key]))
  {
    var found := Find(u, |u.entries|, key);
    OursTook(current, u, key);
    RfcTook(OwnOf(current), u, key);
    TreeMember(u, |u.entries|, key);
    OwnMemberTree(current, key);
    assert found.Some? ==> Exactly(OwnMember(current, key), found.value);
    assert found == Some(Single(JNull)) ==> Kept(Member(FieldsOf(OwnOf(current)), key), JNull);
    hide Merged, MergePatch, OwnOf, TreeOf, TreeFields, Kept, Parsed, Find, OwnMember, SetsNoPrototype;
  }

  /** The merge of the source is the merge of RFC 7396 exactly when no level of the update sets a prototype. */
  ghost predicate Exactly(current: Value, u: Update) {
    OwnOf(Merged(current, u)) == MergePatch(OwnOf(current), TreeOf(u)) <==> Kept(OwnOf(current), TreeOf(u))
  }

  lemma {:induction false} MergesExactly(current: Value, u: Update)
    requires Parsed(u)
    ensures Exactly(current, u)
    decreases u
  {
    if u.Members? {
      TreeMember(u, |u.entries|, PROTO);
      OwnMemberTree(current, PROTO);
      if SetsNoPrototype(current, u, |u.entries|) {
        forall i | 0 <= i < |u.entries| ensures Exactly(OwnMember(current, u.entries[i].0), u.entries[i].1) {
          MergesExactly(OwnMember(current, u.entries[i].0), u.entries[i].1);
        }
        forall key ensures var patch := TreeOf(u).fields;
                           AgreesAt(current, u, key) <==>
                           (key in patch ==> Kept(Member(FieldsOf(OwnOf(current)), key), patch[key]))
        {
          AgreesBelow(current, u, key);
        }
        AllAgree(current, u);
      } else {
        NeverOwnsProto(current, u, |u.entries|);
        MergedMember(OwnOf(current), TreeOf(u).fields, PROTO);
        OwnFields(Merged(current, u), PROTO);
      }
    }
  }

  lemma AllAgree(current: Value, u: Update)
    requires u.Members?
    ensures (forall key :: AgreesAt(current, u, key)) <==>
            OwnOf(Merged(current, u)) == MergePatch(OwnOf(current), TreeOf(u))
  {
    var ours, rfc := FieldsOf(OwnOf(Merged(current, u))), FieldsOf(MergePatch(OwnOf(current), TreeOf(u)));
    assert OwnOf(Merged(current, u)) == JObj(ours) && MergePatch(OwnOf(current), TreeOf(u)) == JObj(rfc);
    if forall key :: AgreesAt(current, u, key) {
      assert forall key :: AgreesAt(current, u, key) ==>
                             (key in ours <==> key in rfc) && (key in ours ==> ours[key] == rfc[key]);
      assert ours == rfc;
    }
  }

  /** A plain value under `__proto__` is lost. */
  lemma PlainProtoIsLost()
    ensures var u := Members([(PROTO, Single(JInt(1)))]);
            && OwnOf(Merged(Record(map[], Plain), u)) == JObj(map[])
            && MergePatch(JObj(map[]), TreeOf(u)) == JObj(map[PROTO := JInt(1)])
  {
    var u := Members([(PROTO, Single(JInt(1)))]);
    assert MergedUpTo(Record(map[], Plain), u, 0) == Record(map[], Plain);
    assert TreeFields(u, 1) == TreeFields(u, 0)[PROTO := JInt(1)] == map[PROTO := JInt(1)];
    assert MergePatch(JNull, JInt(1)) == JInt(1);
  }

  /** A record under `__proto__` becomes the prototype: no member shows, yet its members are read through it. */
  lemma RecordProtoIsRead()
    ensures var redcon := OtherKey("redcon");
            var r := Merged(Record(map[], Plain), Members([(PROTO, Members([(redcon, Single(JInt(1)))]))]));
            OwnOf(r) == JObj(map[]) && r.Record? && Read(r, redcon) == Leaf(JInt(1))
  {
    var redcon := OtherKey("redcon");
    var inner := Members([(redcon, Single(JInt(1)))]);
    var u := Members([(PROTO, inner)]);
    var empty := Record(map[], Plain);
    assert MergedUpTo(empty, inner, 0) == empty;
    assert MergedUpTo(empty, inner, 1) == Record(map[redcon := Leaf(JInt(1))], Plain);
    assert MergedUpTo(empty, u, 0) == empty;
    assert MergedUpTo(empty, u, 1) == Record(map[], Assigned(Record(map[redcon := Leaf(JInt(1))], Plain)));
  }

  const A := OtherKey("a")
  const X := OtherKey("x")
  const Y := OtherKey("y")
  const LEAK := Members([(PROTO, Members([(A, Members([(X, Single(JInt(1)))]))])),
                         (A, Members([(Y, Single(JInt(2)))]))])

  lemma LeakedPrototype()
    ensures MergedUpTo(UNDEFINED, LEAK, 1)
            == Record(map[], Assigned(Record(map[A := Record(map[X := Leaf(JInt(1))], Plain)], Plain)))
  {
    var empty := Record(map[], Plain);
    OneMember(UNDEFINED, X, Single(JInt(1)));
    OneMember(empty, A, Members([(X, Single(JInt(1)))]));
    LastMerged(UNDEFINED, LEAK, 1);
    assert MergedUpTo(UNDEFINED, LEAK, 0) == empty;
    hide MergedUpTo, Merged;
  }

  lemma LeakedMember()
    ensures var r := Merged(UNDEFINED, LEAK);
            r.Record? && A in r.own && r.own[A] == Record(map[X := Leaf(JInt(1)), Y := Leaf(JInt(2))], Plain)
  {
    var recX, inY := Record(map[X := Leaf(JInt(1))], Plain), Members([(Y, Single(JInt(2)))]);
    var before := Record(map[], Assigned(Record(map[A := recX], Plain)));
    LeakedPrototype();
    LastMerged(UNDEFINED, LEAK, 2);
    assert Merged(UNDEFINED, LEAK) == MergedUpTo(UNDEFINED, LEAK, 2);
    assert Read(before, A) == recX;
    OneMember(recX, Y, Single(JInt(2)));
    hide MergedUpTo, Merged, Read;
    assert Stepped(before, A, inY) == Assign(before, A, Merged(recX, inY));
  }

  lemma LeakInRfc()
    ensures Member(MergePatch(JNull, TreeOf(LEAK)).fields, A) == JObj(map[Y := JInt(2)])
  {
    var inner := Members([(Y, Single(JInt(2)))]);
    TreeMember(LEAK, 2, A);
    FindLast(LEAK, 2, A);
    MergedMember(JNull, TreeOf(LEAK).fields, A);
    assert TreeFields(inner, 1) == TreeFields(inner, 0)[Y := JInt(2)];
    assert MergePatch(JNull, JObj(map[Y := JInt(2)])).fields == map[Y := JInt(2)] by {
      assert MergePatch(JNull, JInt(2)) == JInt(2);
    }
    hide TreeFields, Find;
  }

  /**
   * Members of other names change too: listed behind a `__proto__` whose record has a member of the same name, a record
   * is merged into that one.
   */
  lemma ProtoReachesOtherNames()
    ensures var r := Merged(UNDEFINED, LEAK);
            r.Record? && A in r.own && r.own[A] == Record(map[X := Leaf(JInt(1)), Y := Leaf(JInt(2))], Plain)
    ensures Member(MergePatch(JNull, TreeOf(LEAK)).fields, A) == JObj(map[Y := JInt(2)])
  {
    hide Merged, MergePatch, TreeOf;
    LeakedMember();
    LeakInRfc();
  }

  /** An update of one member other than `__proto__`. */
  lemma OneMember(current: Value, key: Key, value: Update)
    requires key != PROTO && value != Single(JNull) && (current.Record? ==> current.proto == Plain)
    ensures Merged(current, Members([(key, value)]))
            == Record(Copied(current).own[key := Merged(OwnMember(current, key), value)], Plain)
  {
    var u := Members([(key, value)]);
    assert MergedUpTo(current, u, 0) == Copied(current);
  }
}
