/**
 * Documents on their way into a Lua handler and back (src/lua/epsilon_lua.c). A JSON object is a
 * map from names to values; a Lua table is two maps, from integer keys and from string keys, to
 * values other than nil.
 */
module Lua {
  import opened Strings

  const MAX_DEPTH := 32
  const MAX_INDEX := 16777216

  datatype Json = Null | Bool(b: bool) | Number(r: real) | Text(s: string) | Arr(items: seq<Json>) | Obj(members: map<string, Json>)

  /** Sentinel is the light userdata that stands for JSON null. */
  datatype Value = Nil | Boolean(b: bool) | Integer(i: int) | Float(r: real) | Str(s: string) | Sentinel
                 | Table(list: map<int, Value>, fields: map<string, Value>)

  // -------------------------------------------------------------------------
  // push_json

  function PushNumber(r: real): Value {
    if -9007199254740992.0 <= r <= 9007199254740991.0 && r == r.Floor as real then Integer(r.Floor) else Float(r)
  }

  /** A handler sees an integer exactly for an integral number from -2^53 to 2^53 - 1, and else a float of that value. */
  lemma IntegerExactly(r: real, n: int)
    ensures PushNumber(r) == Integer(n) <==> r == n as real && -9007199254740992 <= n <= 9007199254740991
    ensures !PushNumber(r).Integer? ==> PushNumber(r) == Float(r)
  {
  }

  /** The items of an array, counted from 1 as Lua does. */
  function Ith(items: seq<Json>, i: int): Json
    requires 1 <= i <= |items|
  {
    items[i - 1]
  }

  function Push(v: Json, depth: nat): Value {
    if depth > MAX_DEPTH then Nil
    else
      match v
      case Null => Sentinel
      case Bool(b) => Boolean(b)
      case Number(r) => PushNumber(r)
      case Text(s) => Str(s)
      case Arr(items) =>
        Table(map i | 1 <= i <= |items| && Push(Ith(items, i), depth + 1) != Nil :: Push(Ith(items, i), depth + 1), map[])
      case Obj(members) =>
        Table(map[], map n | n in members && Push(members[n], depth + 1) != Nil :: Push(members[n], depth + 1))
  }

  // -------------------------------------------------------------------------
  // lua_to_json

  /** The first pass: only positive integer keys, none above the limit. */
  predicate IsArray(x: Value)
    requires x.Table?
  {
    x.fields == map[] && forall i :: i in x.list ==> 1 <= i <= MAX_INDEX
  }

  ghost predicate IsLength(list: map<int, Value>, n: nat) {
    (forall i :: i in list ==> i <= n) && (n == 0 || n in list)
  }

  lemma {:induction false} LengthExists(keys: set<int>) returns (n: nat)
    ensures (forall i :: i in keys ==> i <= n) && (n == 0 || n in keys)
    decreases |keys|
  {
    if k :| k in keys {
      n := LengthExists(keys - {k});
      assert forall i :: i in keys ==> i == k || i in keys - {k};
      if k > n { n := k; }
    } else {
      n := 0;
    }
  }

  /** The greatest positive integer key, which is where the array ends. */
  ghost function Length(list: map<int, Value>): (n: nat)
    ensures IsLength(list, n)
  {
    assert exists n: nat :: IsLength(list, n) by {
      var n := LengthExists(list.Keys);
      assert IsLength(list, n);
    }
    var n: nat :| IsLength(list, n);
    n
  }

  lemma LengthIs(list: map<int, Value>, n: nat)
    requires IsLength(list, n)
    ensures Length(list) == n
  {
  }

  /** The items 1 to n; a hole reads as nil, and so as null. */
  function PullItems(list: map<int, Json>, n: nat): (items: seq<Json>)
    ensures |items| == n
  {
    seq(n, i requires 0 <= i < n => if i + 1 in list then list[i + 1] else Null)
  }

  /** None for a value that cannot be written as JSON. */
  ghost function Pull(x: Value, depth: nat): Option<Json>
    decreases x
  {
    if depth > MAX_DEPTH then None
    else
      match x
      case Nil => Some(Null)
      case Boolean(b) => Some(Bool(b))
      case Integer(i) => Some(Number(i as real))
      case Float(r) => Some(Number(r))
      case Str(s) => Some(Text(s))
      case Sentinel => Some(Null)
      case Table(list, fields) =>
        if IsArray(x) then
          if exists i :: i in list && Pull(list[i], depth + 1).None? then None
          else Some(Arr(PullItems(map i | i in list :: Pull(list[i], depth + 1).value, Length(list))))
        else if list != map[] || exists n :: n in fields && Pull(fields[n], depth + 1).None? then None
        else Some(Obj(map n | n in fields :: Pull(fields[n], depth + 1).value))
  }

  // -------------------------------------------------------------------------
  // There and back

  /** What a value becomes: an empty object turns into an empty array. */
  function Normal(v: Json): Json {
    match v
    case Arr(items) => Arr(seq(|items|, i requires 0 <= i < |items| => Normal(items[i])))
    case Obj(members) => if members == map[] then Arr([]) else Obj(map n | n in members :: Normal(members[n]))
    case _ => v
  }

  /** Nested at most 31 deep counting from `depth`, and no array too long. */
  predicate Fits(v: Json, depth: nat) {
    depth < 32
    && match v
       case Arr(items) => |items| <= 16777216 && forall i :: 0 <= i < |items| ==> Fits(items[i], depth + 1)
       case Obj(members) => forall n :: n in members ==> Fits(members[n], depth + 1)
       case _ => true
  }

  predicate NoEmptyObject(v: Json) {
    match v
    case Arr(items) => forall i :: 0 <= i < |items| ==> NoEmptyObject(items[i])
    case Obj(members) => members != map[] && forall n :: n in members ==> NoEmptyObject(members[n])
    case _ => true
  }

  /** A value comes back the same exactly when it holds no empty object. */
  lemma {:induction false} NormalIsSameExactly(v: Json)
    ensures Normal(v) == v <==> NoEmptyObject(v)
  {
    match v
    case Arr(items) =>
      forall i | 0 <= i < |items| ensures Normal(items[i]) == items[i] <==> NoEmptyObject(items[i]) { NormalIsSameExactly(items[i]); }
      if Normal(v) == v {
        forall i | 0 <= i < |items| ensures Normal(items[i]) == items[i] { assert Normal(v).items[i] == items[i]; }
      }
    case Obj(members) =>
      forall n | n in members ensures Normal(members[n]) == members[n] <==> NoEmptyObject(members[n]) { NormalIsSameExactly(members[n]); }
      if members != map[] && Normal(v) == v {
        forall n | n in members ensures Normal(members[n]) == members[n] { assert Normal(v).members[n] == members[n]; }
      }
    case _ =>
  }

  lemma PushedIsNotNil(v: Json, depth: nat)
    ensures Push(v, depth) == Nil <==> depth > MAX_DEPTH
  {
  }

  /** The result that conversion there and back should have. */
  function Expected(v: Json, depth: nat): Option<Json> {
    if Fits(v, depth) then Some(Normal(v)) else None
  }

  lemma ScalarComesBack(v: Json, depth: nat)
    requires depth <= MAX_DEPTH && !v.Arr? && !v.Obj?
    ensures Pull(Push(v, depth), depth + 1) == Expected(v, depth)
  {
  }

  lemma DeepIsRefused(v: Json, depth: nat)
    requires depth == MAX_DEPTH
    ensures Pull(Push(v, depth), depth + 1) == Expected(v, depth)
  {
  }

  /** Pushed at one depth and pulled one deeper, as an entity's fields are. */
  lemma {:induction false} ComesBack(v: Json, depth: nat)
    requires depth <= MAX_DEPTH
    ensures Pull(Push(v, depth), depth + 1) == Expected(v, depth)
  {
    hide Push, Pull, Expected;
    if depth == MAX_DEPTH {
      DeepIsRefused(v, depth);
    } else {
      match v
      case Arr(items) =>
        forall i | 0 <= i < |items| ensures Pull(Push(items[i], depth + 1), depth + 2) == Expected(items[i], depth + 1) {
          ComesBack(items[i], depth + 1);
        }
        ArrayComesBack(items, depth);
      case Obj(members) =>
        forall n | n in members ensures Pull(Push(members[n], depth + 1), depth + 2) == Expected(members[n], depth + 1) {
          ComesBack(members[n], depth + 1);
        }
        ObjectComesBack(members, depth);
      case _ => ScalarComesBack(v, depth);
    }
  }

  lemma PushedArray(items: seq<Json>, depth: nat)
    requires depth < MAX_DEPTH
    ensures var x := Push(Arr(items), depth);
            && x.Table? && x.fields == map[] && (forall i :: i in x.list <==> 1 <= i <= |items|)
            && (forall i :: i in x.list ==> x.list[i] == Push(items[i - 1], depth + 1))
            && IsLength(x.list, |items|)
  {
    var list := Push(Arr(items), depth).list;
    forall i | 1 <= i <= |items| ensures i in list && list[i] == Push(items[i - 1], depth + 1) {
      PushedIsNotNil(items[i - 1], depth + 1);
      assert Ith(items, i) == items[i - 1];
    }
  }

  lemma ArrayComesBack(items: seq<Json>, depth: nat)
    requires depth < MAX_DEPTH
    requires forall i :: 0 <= i < |items| ==> Pull(Push(items[i], depth + 1), depth + 2) == Expected(items[i], depth + 1)
    ensures Pull(Push(Arr(items), depth), depth + 1) == Expected(Arr(items), depth)
  {
    hide Push, Length, Fits, Normal, IsLength;
    var x := Push(Arr(items), depth);
    PushedArray(items, depth);
    LengthIs(x.list, |items|);
    ArrayFits(items, depth);
    if |items| > MAX_INDEX {
      assert MAX_INDEX + 1 in x.list;
    } else if Fits(Arr(items), depth) {
      forall i | i in x.list ensures Pull(x.list[i], depth + 2) == Some(Normal(items[i - 1])) {}
      ArrayNormal(items);
      var pulled := map i | i in x.list :: Pull(x.list[i], depth + 2).value;
      assert PullItems(pulled, |items|) == Normal(Arr(items)).items;
    } else {
      var i :| 0 <= i < |items| && !Fits(items[i], depth + 1);
      assert i + 1 in x.list && Pull(x.list[i + 1], depth + 2).None?;
    }
  }

  lemma ArrayFits(items: seq<Json>, depth: nat)
    requires depth < MAX_DEPTH
    ensures Fits(Arr(items), depth) <==> |items| <= MAX_INDEX && forall i :: 0 <= i < |items| ==> Fits(items[i], depth + 1)
  {
  }

  lemma ArrayNormal(items: seq<Json>)
    ensures Normal(Arr(items)) == Arr(seq(|items|, i requires 0 <= i < |items| => Normal(items[i])))
  {
  }

  lemma PushedObject(members: map<string, Json>, depth: nat)
    requires depth < MAX_DEPTH
    ensures var x := Push(Obj(members), depth);
            && x.Table? && x.list == map[] && x.fields.Keys == members.Keys
            && (forall n :: n in members ==> x.fields[n] == Push(members[n], depth + 1))
  {
    var x := Push(Obj(members), depth);
    forall n | n in members ensures n in x.fields && x.fields[n] == Push(members[n], depth + 1) {
      PushedIsNotNil(members[n], depth + 1);
    }
  }

  /** A table of fields that each convert as expected. */
  lemma FieldsPull(members: map<string, Json>, fields: map<string, Value>, depth: nat)
    requires depth <= MAX_DEPTH && fields.Keys == members.Keys
    requires forall n :: n in members ==> Pull(fields[n], depth + 1) == Expected(members[n], depth)
    ensures Pull(Table(map[], fields), depth) ==
            if forall n :: n in members ==> Fits(members[n], depth) then Some(Normal(Obj(members))) else None
  {
    hide Push, Length, Fits;
    var x := Table(map[], fields);
    if members == map[] {
      assert fields == map[];
      LengthIs(x.list, 0);
    } else {
      var n :| n in members;
      assert n in fields;
      if forall m :: m in members ==> Fits(members[m], depth) {
        forall m | m in fields ensures Pull(fields[m], depth + 1) == Some(Normal(members[m])) {}
        var pulled := map m | m in fields :: Pull(fields[m], depth + 1).value;
        assert pulled == map m | m in members :: Normal(members[m]);
      } else {
        var m :| m in members && !Fits(members[m], depth);
        assert m in fields && Pull(fields[m], depth + 1).None?;
      }
    }
  }

  lemma ObjectComesBack(members: map<string, Json>, depth: nat)
    requires depth < MAX_DEPTH
    requires forall n :: n in members ==> Pull(Push(members[n], depth + 1), depth + 2) == Expected(members[n], depth + 1)
    ensures Pull(Push(Obj(members), depth), depth + 1) == Expected(Obj(members), depth)
  {
    hide Push, Pull, Normal;
    PushedObject(members, depth);
    FieldsPull(members, Push(Obj(members), depth).fields, depth + 1);
  }

  // -------------------------------------------------------------------------
  // The entity that a handler gets and returns

  /** The entity table: one field for each member of the document. */
  function PushEntity(doc: map<string, Json>): Value {
    Table(map[], map n | n in doc && Push(doc[n], 0) != Nil :: Push(doc[n], 0))
  }

  function Present(list: map<int, Value>): (r: map<int, Value>)
    ensures r.Keys <= list.Keys
  {
    map i | i in list && list[i] != Nil :: list[i]
  }

  /** returned_entity_to_doc: a copy without "id", converted; None when it is no table, or when
      converting it raises a Lua error. */
  ghost function EntityToDoc(x: Value): Option<Json> {
    if !x.Table? then None
    else Pull(Table(Present(x.list),
                    map n | n in x.fields && n != "id" && x.fields[n] != Nil :: x.fields[n]), 0)
  }

  function WithoutId(doc: map<string, Json>): map<string, Json> {
    map n | n in doc && n != "id" :: doc[n]
  }

  predicate DocFits(doc: map<string, Json>) {
    forall n :: n in doc && n != "id" ==> Fits(doc[n], 0)
  }

  /**
   * A handler that returns its entity as it got it gives back the document without its id, empty
   * objects turned into empty arrays, exactly when no field is nested more than 31 deep or holds
   * an array of more than 2^24 items. Any other makes the conversion raise a Lua error, which the
   * caller does not catch: None stands for no document, not for a refusal.
   */
  lemma UnchangedEntityComesBack(doc: map<string, Json>)
    ensures EntityToDoc(PushEntity(doc)) == if DocFits(doc) then Some(Normal(Obj(WithoutId(doc)))) else None
  {
    hide Push, Pull, Normal, Fits;
    var kept := WithoutId(doc);
    forall n | n in doc ensures Push(doc[n], 0) != Nil && Pull(Push(doc[n], 0), 1) == Expected(doc[n], 0) {
      PushedIsNotNil(doc[n], 0);
      ComesBack(doc[n], 0);
    }
    var fields := map n | n in kept :: Push(kept[n], 0);
    CopyDropsId(doc, fields);
    FieldsPull(kept, fields, 0);
    assert forall n :: n in doc && n != "id" ==> n in kept && kept[n] == doc[n];
    if forall n :: n in kept ==> Fits(kept[n], 0) {
      forall n | n in doc && n != "id" ensures Fits(doc[n], 0) { assert n in kept; }
    }
  }

  lemma CopyDropsId(doc: map<string, Json>, fields: map<string, Value>)
    requires fields == map n | n in WithoutId(doc) :: Push(WithoutId(doc)[n], 0)
    ensures EntityToDoc(PushEntity(doc)) == Pull(Table(map[], fields), 0)
  {
    hide Push, Pull;
    forall n | n in doc ensures Push(doc[n], 0) != Nil { PushedIsNotNil(doc[n], 0); }
    var x := PushEntity(doc);
    assert (map n | n in x.fields && n != "id" && x.fields[n] != Nil :: x.fields[n]) == fields;
    assert Present(map[]).Keys == {} && Present(map[]) == map[];
  }
}
