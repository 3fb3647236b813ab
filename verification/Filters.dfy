/** Structured filters compiled to positional SQL (prepare_live_query in src/engine/shard.c): one loop writes the
    text, a second loop makes the bindings, and the two meet only in the order of the placeholders. */
module Filters {
  import opened Strings
  import opened JsonPath

  // ---------------------------------------------------------------------------------------------
  // Documents and filters

  /** A number that cJSON prints with a point or an exponent: it has a fraction, or more than fifteen digits. */
  type Fraction = r: real | r.Floor as real != r || r >= 1000000000000000.0 || r <= -1000000000000000.0 witness 0.5

  /** A JSON value; arrays and objects carry the text they serialise to. */
  datatype Json =
    | Null | True | False
    | Integer(n: int) | Real(r: Fraction) | Str(s: string)
    | Array(text: string) | Object(text: string, members: seq<(string, Json)>)

  predicate IsNumber(j: Json) { j.Integer? || j.Real? }

  function Num(j: Json): real
    requires IsNumber(j)
  {
    if j.Integer? then j.n as real else j.r
  }

  function Member(members: seq<(string, Json)>, name: string): Option<Json> {
    if members == [] then None
    else if members[0].0 == name then Some(members[0].1)
    else Member(members[1..], name)
  }

  function Descend(j: Json, segments: seq<string>): Option<Json>
    decreases |segments|
  {
    if segments == [] then Some(j)
    else if !j.Object? then None
    else match Member(j.members, segments[0])
      case None => None
      case Some(m) => Descend(m, segments[1..])
  }

  /** Equality of JSON values as a filter sees it: same type and value, composites by their text. */
  predicate Same(v: Json, w: Json) {
    match (v, w)
    case (Array(a), Array(b)) => a == b
    case (Object(a, _), Object(b, _)) => a == b
    case _ => v == w
  }

  /** A member of an object is found under its name, and a member of a member under both. */
  lemma MembersAreFound(a: string, b: string, m: Json, t: string, u: string)
    ensures Descend(Object(t, [(a, m)]), [a]) == Some(m)
    ensures Descend(Object(t, [(a, Object(u, [(b, m)]))]), [a, b]) == Some(m)
    ensures a != b ==> Descend(Object(t, [(b, m)]), [a]) == None
  {
    assert [a, b][1..] == [b];
    DescendOne(a, m, t);
    DescendOne(b, m, u);
    DescendOne(b, m, t);
    var inner := Object(u, [(b, m)]);
    assert Member([(a, inner)], a) == Some(inner);
    assert Descend(Object(t, [(a, inner)]), [a, b]) == Descend(inner, [b]);
    if a != b { assert [(b, m)][1..] == []; assert Member([], a) == None; assert Member([(b, m)], a) == None; }
  }

  lemma DescendOne(a: string, m: Json, t: string)
    ensures Descend(Object(t, [(a, m)]), [a]) == Some(m)
  {
    assert [a][1..] == [];
    assert Descend(m, []) == Some(m);
    assert Member([(a, m)], a) == Some(m);
  }

  datatype Operator = Eq | Ne | Gt | Gte | Lt | Lte

  datatype Filter = Filter(key: string, op: Operator, value: Json)

  /** What a caller hands in, before validation: any JSON, with fields that may be missing. */
  datatype RawFilter = NotAnObject | Raw(key: Option<string>, op: Option<string>, value: Option<Json>)
  datatype RawFilters = Absent | Neither | One(RawFilter) | Many(seq<RawFilter>)

  function OperatorNamed(name: string): Option<Operator> {
    if name == "eq" then Some(Eq)
    else if name == "ne" then Some(Ne)
    else if name == "gt" then Some(Gt)
    else if name == "gte" then Some(Gte)
    else if name == "lt" then Some(Lt)
    else if name == "lte" then Some(Lte)
    else None
  }

  /** The filter a raw item denotes, if it is acceptable: ordering operators take numbers only. */
  function Parse(raw: RawFilter): Option<Filter> {
    match raw
    case Raw(Some(key), Some(name), Some(value)) =>
      var op := OperatorNamed(name);
      if KeyValid(key) && op.Some? && (op.value in {Eq, Ne} || IsNumber(value))
      then Some(Filter(key, op.value, value)) else None
    case _ => None
  }

  function Items(raw: RawFilters): seq<RawFilter> {
    match raw case Absent => [] case Neither => [] case One(f) => [f] case Many(fs) => fs
  }

  function ParseAll(items: seq<RawFilter>): (r: Option<seq<Filter>>)
    ensures r.Some? <==> forall i :: 0 <= i < |items| ==> Parse(items[i]).Some?
    ensures r.Some? ==> |r.value| == |items| && forall i :: 0 <= i < |items| ==> Some(r.value[i]) == Parse(items[i])
  {
    if items == [] then Some([])
    else match (Parse(items[0]), ParseAll(items[1..]))
      case (Some(f), Some(fs)) => Some([f] + fs)
      case _ => None
  }

  // ---------------------------------------------------------------------------------------------
  // The direct meaning of filters

  predicate Ordered(op: Operator, x: real, y: real) {
    match op
    case Gt => x > y case Gte => x >= y case Lt => x < y case Lte => x <= y
    case Eq => x == y case Ne => x != y
  }

  predicate Holds(f: Filter, doc: Json) {
    var v := Descend(doc, Split(f.key));
    && v.Some?
    && match f.op
       case Eq => Same(v.value, f.value)
       case Ne => !Same(v.value, f.value)
       case _ => IsNumber(v.value) && IsNumber(f.value) && Ordered(f.op, Num(v.value), Num(f.value))
  }

  datatype Row = Row(value: Option<Json>, ttl: Option<int>)

  predicate Selected(fs: seq<Filter>, row: Row, now: int) {
    && (row.ttl.None? || row.ttl.value >= now)
    && (forall i :: 0 <= i < |fs| ==> row.value.Some? && Holds(fs[i], row.value.value))
  }

  // ---------------------------------------------------------------------------------------------
  // The SQL the code writes, as text with placeholders

  datatype Lexeme =
    | Select(text: string) | Live | AndWord | OrWord | Open | Close | RootClose
    | TypeOfValue | TypeOf | ExtractOfValue | ExtractOf
    | IsWord | IsNotWord | NotNullWord | InNumericWords | OperatorSign(op: Operator)
    | Placeholder | OrderBy

  function Sign(op: Operator): string {
    match op case Eq => "=" case Ne => "<>" case Gt => ">" case Gte => ">=" case Lt => "<" case Lte => "<="
  }

  /** The characters each lexeme stands for. */
  function Spelling(l: Lexeme): string {
    match l
    case Select(text) => text
    case Live => " (ttl IS NULL OR ttl >= "
    case AndWord => " AND " case OrWord => " OR "
    case Open => "(" case Close => ")" case RootClose => ", '$')"
    case TypeOfValue => "json_type(value, " case TypeOf => "json_type("
    case ExtractOfValue => "json_extract(value, " case ExtractOf => "json_extract("
    case IsWord => " IS " case IsNotWord => " IS NOT " case NotNullWord => " IS NOT NULL"
    case InNumericWords => " IN ('integer','real')"
    case OperatorSign(op) => " " + Sign(op) + " "
    case Placeholder => "?"
    case OrderBy => " ORDER BY timestamp ASC"
  }

  function Width(l: Lexeme): (w: nat)
    ensures w == |Spelling(l)|
  {
    match l
    case Select(text) => |text|
    case Live => 24 case AndWord => 5 case OrWord => 4
    case Open => 1 case Close => 1 case RootClose => 6
    case TypeOfValue => 17 case TypeOf => 10 case ExtractOfValue => 20 case ExtractOf => 13
    case IsWord => 4 case IsNotWord => 8 case NotNullWord => 12 case InNumericWords => 22
    case OperatorSign(op) => if op in {Eq, Gt, Lt} then 3 else 4
    case Placeholder => 1
    case OrderBy => 23
  }

  function Length(sql: seq<Lexeme>): nat {
    if sql == [] then 0 else Length(sql[..|sql| - 1]) + Width(sql[|sql| - 1])
  }

  lemma {:induction false} LengthAdds(a: seq<Lexeme>, b: seq<Lexeme>)
    ensures Length(a + b) == Length(a) + Length(b)
  {
    if b == [] {
      assert a + b == a;
    } else {
      assert (a + b)[..|a + b| - 1] == a + b[..|b| - 1];
      LengthAdds(a, b[..|b| - 1]);
    }
  }

  lemma LengthOfTwo(a: Lexeme, b: seq<Lexeme>)
    ensures Length([a] + b) == Width(a) + Length(b)
  {
    LengthAdds([a], b);
    assert [a][..0] == [];
  }

  lemma LengthOfThree(a: seq<Lexeme>, l: Lexeme, b: seq<Lexeme>)
    ensures Length(a + [l] + b) == Length(a) + Width(l) + Length(b)
  {
    LengthAdds(a + [l], b);
    LengthAdds(a, [l]);
    assert [l][..0] == [];
  }

  lemma LengthOfLast(a: seq<Lexeme>, l: Lexeme)
    ensures Length(a + [l]) == Length(a) + Width(l)
  {
    assert (a + [l])[..|a|] == a;
  }

  const LIVE := [Live, Placeholder, Close]
  const TYPE_AT := [TypeOfValue, Placeholder, Close]
  const TYPE_OF := [TypeOf, Placeholder, RootClose]
  const EXTRACT_AT := [ExtractOfValue, Placeholder, Close]
  const EXTRACT_OF := [ExtractOf, Placeholder, RootClose]

  function EqFragment(): seq<Lexeme> {
    [AndWord] + TYPE_AT + [IsWord] + TYPE_OF + [AndWord] + EXTRACT_AT + [IsWord] + EXTRACT_OF
  }

  function NeFragment(): seq<Lexeme> {
    [AndWord] + TYPE_AT + [NotNullWord]
    + [AndWord] + [Open] + TYPE_AT + [IsNotWord] + TYPE_OF + [OrWord] + EXTRACT_AT + [IsNotWord] + EXTRACT_OF + [Close]
  }

  function OrderFragment(op: Operator): seq<Lexeme> {
    [AndWord] + TYPE_AT + [InNumericWords] + [AndWord] + EXTRACT_AT + [OperatorSign(op)] + EXTRACT_OF
  }

  function Fragment(op: Operator): seq<Lexeme> {
    match op case Eq => EqFragment() case Ne => NeFragment() case _ => OrderFragment(op)
  }

  function Fragments(fs: seq<Filter>): seq<Lexeme> {
    if fs == [] then [] else Fragments(fs[..|fs| - 1]) + Fragment(fs[|fs| - 1].op)
  }

  lemma FragmentsAppend(head: seq<Lexeme>, fs: seq<Filter>, i: nat)
    requires i < |fs|
    ensures head + Fragments(fs[..i]) + Fragment(fs[i].op) == head + Fragments(fs[..i + 1])
  {
    assert fs[..i + 1][..i] == fs[..i];
  }

  const FRAGMENT_BOUND := 256
  const SPARE := 96
  const COMPARISON_BUFFER := 160
  const SIZE_MAX := 0xFFFF_FFFF_FFFF_FFFF

  // ---------------------------------------------------------------------------------------------
  // Bindings

  datatype Binding = Epoch(at: int) | Path(path: string) | Encoded(value: Json)

  function BindingsOf(f: Filter): seq<Binding> {
    var p, v := Path(PathText(Split(f.key))), Encoded(f.value);
    match f.op
    case Eq => [p, v, p, v]
    case Ne => [p, p, v, p, v]
    case _ => [p, p, v]
  }

  function Bindings(fs: seq<Filter>): seq<Binding> {
    if fs == [] then [] else BindingsOf(fs[0]) + Bindings(fs[1..])
  }

  lemma {:induction false} BindingsAppend(fs: seq<Filter>, f: Filter)
    ensures Bindings(fs + [f]) == Bindings(fs) + BindingsOf(f)
  {
    if fs == [] {
      assert fs + [f] == [f] && [f][1..] == [];
    } else {
      assert (fs + [f])[1..] == fs[1..] + [f];
      BindingsAppend(fs[1..], f);
    }
  }

  /** edb_filters_valid: nothing, or one object, or an array of acceptable objects. */
  method FiltersValid(raw: RawFilters) returns (ok: bool)
    ensures ok <==> !raw.Neither? && ParseAll(Items(raw)).Some?
  {
    if raw.Neither? {
      return false;
    }
    var items := Items(raw);
    for i := 0 to |items|
      invariant forall k :: 0 <= k < i ==> Parse(items[k]).Some?
    {
      var valid := FilterValid(items[i]);
      if !valid {
        return false;
      }
    }
    return true;
  }

  method FilterValid(raw: RawFilter) returns (ok: bool)
    ensures ok <==> Parse(raw).Some?
  {
    if raw.NotAnObject? || raw.key.None? {
      return false;
    }
    var keyOk := FilterKeyValid(raw.key.value);
    if !keyOk || raw.op.None? || OperatorNamed(raw.op.value).None? || raw.value.None? {
      return false;
    }
    return raw.op.value == "eq" || raw.op.value == "ne" || IsNumber(raw.value.value);
  }

  // ---------------------------------------------------------------------------------------------
  // What SQLite makes of such text: three-valued logic over the row, placeholders taken left to right

  datatype Value = VNull | VInt(n: int) | VReal(r: real) | VText(s: string)
  datatype Truth = Yes | No | Unknown

  function And(a: Truth, b: Truth): Truth {
    if a == No || b == No then No else if a == Unknown || b == Unknown then Unknown else Yes
  }

  function Or(a: Truth, b: Truth): Truth {
    if a == Yes || b == Yes then Yes else if a == Unknown || b == Unknown then Unknown else No
  }

  function Truly(b: bool): Truth { if b then Yes else No }

  function TypeName(j: Json): string {
    match j
    case Null => "null" case True => "true" case False => "false"
    case Integer(_) => "integer" case Real(_) => "real" case Str(_) => "text"
    case Array(_) => "array" case Object(_, _) => "object"
  }

  function Extracted(j: Json): Value {
    match j
    case Null => VNull case True => VInt(1) case False => VInt(0)
    case Integer(n) => VInt(n) case Real(r) => VReal(r) case Str(s) => VText(s)
    case Array(t) => VText(t) case Object(t, _) => VText(t)
  }

  /** IS: equality that treats NULL as a value; an integer equals the real of the same magnitude. */
  predicate Is(v: Value, w: Value) {
    match (v, w)
    case (VInt(m), VReal(r)) => m as real == r
    case (VReal(r), VInt(m)) => m as real == r
    case _ => v == w
  }

  /** <, <=, >, >=: NULL compares unknown, numbers sort before text. */
  function Compare(op: Operator, v: Value, w: Value): Truth {
    if v.VNull? || w.VNull? then Unknown
    else if v.VText? && w.VText? then Truly(Ordered(op, if Less(w.s, v.s) then 1.0 else if v == w then 0.0 else -1.0, 0.0))
    else if v.VText? then Truly(Ordered(op, 1.0, 0.0))
    else if w.VText? then Truly(Ordered(op, -1.0, 0.0))
    else Truly(Ordered(op, if v.VInt? then v.n as real else v.r, if w.VInt? then w.n as real else w.r))
  }

  datatype Fn = Type | Extract

  /** fn(value, ?) or fn(?, '$'). */
  datatype Term = At(fn: Fn) | Of(fn: Fn)

  datatype Pred =
    | TermIs(l: Term, r: Term) | TermIsNot(l: Term, r: Term) | NotNull(t: Term) | Numeric(t: Term)
    | Ordering(op: Operator, l: Term, r: Term) | Either(p: Pred, q: Pred)

  function TermText(t: Term): seq<Lexeme> {
    match t
    case At(Type) => TYPE_AT case Of(Type) => TYPE_OF
    case At(Extract) => EXTRACT_AT case Of(Extract) => EXTRACT_OF
  }

  /** How a predicate is written. */
  function PredText(p: Pred): seq<Lexeme> {
    match p
    case TermIs(l, r) => TermText(l) + [IsWord] + TermText(r)
    case TermIsNot(l, r) => TermText(l) + [IsNotWord] + TermText(r)
    case NotNull(t) => TermText(t) + [NotNullWord]
    case Numeric(t) => TermText(t) + [InNumericWords]
    case Ordering(op, l, r) => TermText(l) + [OperatorSign(op)] + TermText(r)
    case Either(a, b) => [Open] + PredText(a) + [OrWord] + PredText(b) + [Close]
  }

  /** fn(value, ?) needs a path there and fn(?, '$') a document; None is a misbound placeholder. */
  function TermValue(t: Term, row: Row, b: Binding): Option<Value> {
    match (t, b)
    case (At(fn), Path(path)) =>
      (match ReadPath(path)
       case None => None
       case Some(segments) =>
         var found := if row.value.None? then None else Descend(row.value.value, segments);
         Some(if found.None? then VNull else if fn == Type then VText(TypeName(found.value)) else Extracted(found.value)))
    case (Of(fn), Encoded(j)) => Some(if fn == Type then VText(TypeName(j)) else Extracted(j))
    case _ => None
  }

  function Holes(p: Pred): nat {
    match p
    case TermIs(_, _) => 2 case TermIsNot(_, _) => 2 case Ordering(_, _, _) => 2
    case NotNull(_) => 1 case Numeric(_) => 1
    case Either(a, b) => Holes(a) + Holes(b)
  }

  function PredValue(p: Pred, row: Row, bs: seq<Binding>): Option<Truth>
    requires |bs| == Holes(p)
  {
    match p
    case NotNull(t) =>
      (match TermValue(t, row, bs[0])
       case None => None
       case Some(v) => Some(Truly(!v.VNull?)))
    case Numeric(t) =>
      (match TermValue(t, row, bs[0])
       case None => None
       case Some(v) => Some(if v.VNull? then Unknown else Truly(v == VText("integer") || v == VText("real"))))
    case Either(a, b) =>
      var x, y := PredValue(a, row, bs[..Holes(a)]), PredValue(b, row, bs[Holes(a)..]);
      if x.None? || y.None? then None else Some(Or(x.value, y.value))
    case TermIs(l, r) =>
      (match Pair(l, r, row, bs) case None => None case Some((v, w)) => Some(Truly(Is(v, w))))
    case TermIsNot(l, r) =>
      (match Pair(l, r, row, bs) case None => None case Some((v, w)) => Some(Truly(!Is(v, w))))
    case Ordering(op, l, r) =>
      (match Pair(l, r, row, bs) case None => None case Some((v, w)) => Some(Compare(op, v, w)))
  }

  function Pair(l: Term, r: Term, row: Row, bs: seq<Binding>): Option<(Value, Value)>
    requires |bs| == 2
  {
    var v, w := TermValue(l, row, bs[0]), TermValue(r, row, bs[1]);
    if v.None? || w.None? then None else Some((v.value, w.value))
  }

  /** A conjunction; all bindings must be used up. */
  function Conjunction(ps: seq<Pred>, row: Row, bs: seq<Binding>): Option<Truth>
    decreases |ps|
  {
    if ps == [] then (if bs == [] then Some(Yes) else None)
    else if |bs| < Holes(ps[0]) then None
    else match (PredValue(ps[0], row, bs[..Holes(ps[0])]), Conjunction(ps[1..], row, bs[Holes(ps[0])..]))
      case (Some(x), Some(y)) => Some(And(x, y))
      case _ => None
  }

  /** The whole WHERE clause: liveness first, then the filters' predicates. */
  function Where(ps: seq<Pred>, row: Row, bs: seq<Binding>): Option<Truth> {
    if bs == [] || !bs[0].Epoch? then None
    else match Conjunction(ps, row, bs[1..])
      case None => None
      case Some(t) => Some(And(Truly(row.ttl.None? || row.ttl.value >= bs[0].at), t))
  }

  /** The predicates a filter stands for. */
  function Preds(op: Operator): seq<Pred> {
    match op
    case Eq => [TermIs(At(Type), Of(Type)), TermIs(At(Extract), Of(Extract))]
    case Ne => [NotNull(At(Type)), Either(TermIsNot(At(Type), Of(Type)), TermIsNot(At(Extract), Of(Extract)))]
    case _ => [Numeric(At(Type)), Ordering(op, At(Extract), Of(Extract))]
  }

  function AllPreds(fs: seq<Filter>): seq<Pred> {
    if fs == [] then [] else Preds(fs[0].op) + AllPreds(fs[1..])
  }

  /** The fragment the code appends spells exactly those predicates, each led by AND. */
  lemma FragmentSpellsPreds(op: Operator)
    ensures Fragment(op) == [AndWord] + PredText(Preds(op)[0]) + [AndWord] + PredText(Preds(op)[1])
  {
    var ps := Preds(op);
    match op
    case Eq =>
      SpelledEq();
    case Ne =>
      SpelledNe();
    case _ =>
      assert PredText(ps[0]) == TYPE_AT + [InNumericWords];
      assert PredText(ps[1]) == EXTRACT_AT + [OperatorSign(op)] + EXTRACT_OF;
  }

  lemma SpelledEq()
    ensures EqFragment() == [AndWord] + PredText(Preds(Eq)[0]) + [AndWord] + PredText(Preds(Eq)[1])
  {
    assert PredText(Preds(Eq)[0]) == TYPE_AT + [IsWord] + TYPE_OF;
    assert PredText(Preds(Eq)[1]) == EXTRACT_AT + [IsWord] + EXTRACT_OF;
  }

  lemma SpelledNe()
    ensures NeFragment() == [AndWord] + PredText(Preds(Ne)[0]) + [AndWord] + PredText(Preds(Ne)[1])
    ensures PredText(Preds(Ne)[1]) ==
            [Open] + (TYPE_AT + [IsNotWord] + TYPE_OF) + [OrWord] + (EXTRACT_AT + [IsNotWord] + EXTRACT_OF) + [Close]
  {
    assert PredText(Preds(Ne)[0]) == TYPE_AT + [NotNullWord];
    var a, b := TYPE_AT + [IsNotWord] + TYPE_OF, EXTRACT_AT + [IsNotWord] + EXTRACT_OF;
    assert PredText(Preds(Ne)[1]) == [Open] + a + [OrWord] + b + [Close];
  }

  /** A conjunction as text: every predicate led by AND. */
  function Clauses(ps: seq<Pred>): seq<Lexeme> {
    if ps == [] then [] else Clauses(ps[..|ps| - 1]) + ([AndWord] + PredText(ps[|ps| - 1]))
  }

  lemma ClausesOfTwo(ps: seq<Pred>, p: Pred, q: Pred)
    ensures Clauses(ps + [p, q]) == Clauses(ps) + ([AndWord] + PredText(p) + [AndWord] + PredText(q))
  {
    hide PredText;
    var all := ps + [p, q];
    ClausesOfLast(ps, p);
    ClausesOfLast(ps + [p], q);
    assert all == ps + [p] + [q];
    Grouped(Clauses(ps), [AndWord] + PredText(p), [AndWord] + PredText(q));
    Grouped([AndWord] + PredText(p), [AndWord], PredText(q));
  }

  lemma ClausesOfLast(ps: seq<Pred>, p: Pred)
    ensures Clauses(ps + [p]) == Clauses(ps) + ([AndWord] + PredText(p))
  {
    hide PredText;
    assert (ps + [p])[..|ps|] == ps;
  }

  lemma Grouped(a: seq<Lexeme>, b: seq<Lexeme>, c: seq<Lexeme>)
    ensures a + b + c == a + (b + c)
  {
  }

  lemma {:induction false} AllPredsAppend(fs: seq<Filter>, f: Filter)
    ensures AllPreds(fs + [f]) == AllPreds(fs) + Preds(f.op)
  {
    if fs == [] {
      assert fs + [f] == [f] && [f][1..] == [];
    } else {
      assert (fs + [f])[1..] == fs[1..] + [f];
      AllPredsAppend(fs[1..], f);
    }
  }

  /** The text the first loop writes is the text of the predicates the second loop's bindings are for. */
  lemma {:induction false} TextSpellsPreds(fs: seq<Filter>)
    ensures Fragments(fs) == Clauses(AllPreds(fs))
  {
    if fs != [] {
      var front, f := fs[..|fs| - 1], fs[|fs| - 1];
      assert fs == front + [f];
      TextSpellsPreds(front);
      AllPredsAppend(front, f);
      FragmentSpellsPreds(f.op);
      assert Preds(f.op) == [Preds(f.op)[0], Preds(f.op)[1]];
      ClausesOfTwo(AllPreds(front), Preds(f.op)[0], Preds(f.op)[1]);
    }
  }

  // ---------------------------------------------------------------------------------------------
  // The text read back: it has no other reading

  function ReadTerm(sql: seq<Lexeme>): Option<Term> {
    if |sql| < 3 then None
    else if sql[..3] == TYPE_AT then Some(At(Type))
    else if sql[..3] == TYPE_OF then Some(Of(Type))
    else if sql[..3] == EXTRACT_AT then Some(At(Extract))
    else if sql[..3] == EXTRACT_OF then Some(Of(Extract))
    else None
  }

  /** Two terms with an operator between them, or one with a test behind it; sql is what follows the first term. */
  function ReadTest(l: Term, sql: seq<Lexeme>): (r: Option<(Pred, seq<Lexeme>)>)
    ensures r.Some? ==> |r.value.1| <= |sql|
  {
    if sql == [] then None
    else if sql[0] == NotNullWord then Some((NotNull(l), sql[1..]))
    else if sql[0] == InNumericWords then Some((Numeric(l), sql[1..]))
    else
      var r := ReadTerm(sql[1..]);
      if r.None? then None
      else if sql[0] == IsWord then Some((TermIs(l, r.value), sql[4..]))
      else if sql[0] == IsNotWord then Some((TermIsNot(l, r.value), sql[4..]))
      else if sql[0].OperatorSign? then Some((Ordering(sql[0].op, l, r.value), sql[4..]))
      else None
  }

  /** The predicate in front of the text, and what follows it. */
  function ReadPred(sql: seq<Lexeme>): (r: Option<(Pred, seq<Lexeme>)>)
    ensures r.Some? ==> |r.value.1| < |sql|
    decreases |sql|
  {
    if sql == [] then None
    else if sql[0] == Open then
      match ReadPred(sql[1..])
      case None => None
      case Some((a, more)) =>
        if more == [] || more[0] != OrWord then None
        else match ReadPred(more[1..])
          case None => None
          case Some((b, rest)) => if rest == [] || rest[0] != Close then None else Some((Either(a, b), rest[1..]))
    else match ReadTerm(sql)
      case None => None
      case Some(l) => ReadTest(l, sql[3..])
  }

  /** Predicates led by AND, up to the end or the ordering. */
  function ReadClauses(sql: seq<Lexeme>): Option<seq<Pred>>
    decreases |sql|
  {
    if sql == [] || sql == [OrderBy] then Some([])
    else if sql[0] != AndWord then None
    else match ReadPred(sql[1..])
      case None => None
      case Some((p, rest)) =>
        match ReadClauses(rest)
        case None => None
        case Some(ps) => Some([p] + ps)
  }

  /** The predicates of a whole query, behind its liveness test. */
  function ReadQuery(sql: seq<Lexeme>): Option<seq<Pred>> {
    if |sql| < 4 || !sql[0].Select? || sql[1..4] != LIVE then None else ReadClauses(sql[4..])
  }

  lemma TermReadsBack(t: Term, rest: seq<Lexeme>)
    ensures ReadTerm(TermText(t) + rest) == Some(t) && (TermText(t) + rest)[3..] == rest
  {
    assert (TermText(t) + rest)[..3] == TermText(t);
    assert TermText(t)[0] == match t case At(Type) => TypeOfValue case Of(Type) => TypeOf
                                     case At(Extract) => ExtractOfValue case Of(Extract) => ExtractOf;
  }

  lemma BinaryReadsBack(l: Term, word: Lexeme, r: Term, rest: seq<Lexeme>)
    requires word in {IsWord, IsNotWord} || word.OperatorSign?
    ensures ReadPred(TermText(l) + [word] + TermText(r) + rest) ==
            Some((match word case IsWord => TermIs(l, r) case IsNotWord => TermIsNot(l, r) case _ => Ordering(word.op, l, r), rest))
  {
    hide ReadTerm, TermText;
    var behind := [word] + (TermText(r) + rest);
    var sql := TermText(l) + [word] + TermText(r) + rest;
    TermIsThree(l);
    TermIsThree(r);
    BinaryText(TermText(l), word, TermText(r), rest);
    TermReadsBack(l, behind);
    TermReadsBack(r, rest);
    assert sql[0] == TermText(l)[0];
  }

  lemma TermIsThree(t: Term)
    ensures |TermText(t)| == 3 && TermText(t)[0] != Open
  {
  }

  lemma BinaryText<T>(x: seq<T>, word: T, y: seq<T>, rest: seq<T>)
    requires |y| == 3
    ensures var behind := [word] + (y + rest);
            x + [word] + y + rest == x + behind && behind[1..] == y + rest && behind[4..] == (y + rest)[3..]
  {
  }

  lemma UnaryReadsBack(t: Term, word: Lexeme, rest: seq<Lexeme>)
    requires word in {NotNullWord, InNumericWords}
    ensures ReadPred(TermText(t) + [word] + rest) == Some((if word == NotNullWord then NotNull(t) else Numeric(t), rest))
  {
    hide ReadTerm, TermText;
    var behind := [word] + rest;
    var sql := TermText(t) + [word] + rest;
    assert sql == TermText(t) + behind && behind[1..] == rest;
    TermIsThree(t);
    TermReadsBack(t, behind);
    assert sql[0] == TermText(t)[0];
  }

  lemma {:induction false} PredReadsBack(p: Pred, rest: seq<Lexeme>)
    ensures ReadPred(PredText(p) + rest) == Some((p, rest))
  {
    hide ReadTerm, ReadTest, TermText;
    match p
    case TermIs(l, r) => BinaryReadsBack(l, IsWord, r, rest);
    case TermIsNot(l, r) => BinaryReadsBack(l, IsNotWord, r, rest);
    case Ordering(op, l, r) => BinaryReadsBack(l, OperatorSign(op), r, rest);
    case NotNull(t) => UnaryReadsBack(t, NotNullWord, rest);
    case Numeric(t) => UnaryReadsBack(t, InNumericWords, rest);
    case Either(a, b) =>
      var last := [Close] + rest;
      var more := [OrWord] + (PredText(b) + last);
      PredReadsBack(a, more);
      PredReadsBack(b, last);
      EitherReadsBack(a, b, rest, PredText(a), PredText(b));
  }

  lemma EitherReadsBack(a: Pred, b: Pred, rest: seq<Lexeme>, x: seq<Lexeme>, y: seq<Lexeme>)
    requires ReadPred(x + ([OrWord] + (y + ([Close] + rest)))) == Some((a, [OrWord] + (y + ([Close] + rest))))
    requires ReadPred(y + ([Close] + rest)) == Some((b, [Close] + rest))
    ensures ReadPred([Open] + x + [OrWord] + y + [Close] + rest) == Some((Either(a, b), rest))
  {
    hide ReadTerm, ReadTest;
    var last := [Close] + rest;
    var more := [OrWord] + (y + last);
    var sql := [Open] + x + [OrWord] + y + [Close] + rest;
    assert sql[1..] == x + more && more[1..] == y + last && last[1..] == rest;
  }

  lemma {:induction false} ClausesOfFirst(p: Pred, ps: seq<Pred>)
    ensures Clauses([p] + ps) == [AndWord] + PredText(p) + Clauses(ps)
  {
    hide PredText;
    var all := [p] + ps;
    if ps == [] {
      assert all[..0] == [];
    } else {
      var n := |ps| - 1;
      assert all[..n + 1] == [p] + ps[..n] && all[n + 1] == ps[n];
      ClausesOfFirst(p, ps[..n]);
      Grouped([AndWord] + PredText(p), Clauses(ps[..n]), [AndWord] + PredText(ps[n]));
    }
  }

  lemma {:induction false} ClausesReadBack(ps: seq<Pred>, tail: seq<Lexeme>)
    requires tail == [] || tail == [OrderBy]
    ensures ReadClauses(Clauses(ps) + tail) == Some(ps)
  {
    hide PredText, ReadPred;
    if ps != [] {
      var p, more := ps[0], ps[1..];
      assert ps == [p] + more;
      ClausesOfFirst(p, more);
      ClausesReadBack(more, tail);
      var rest := Clauses(more) + tail;
      PredReadsBack(p, rest);
      ClauseInFront(PredText(p), Clauses(more), tail);
    } else {
      assert Clauses(ps) + tail == tail;
    }
  }

  lemma ClauseInFront(x: seq<Lexeme>, y: seq<Lexeme>, tail: seq<Lexeme>)
    ensures var sql := [AndWord] + x + y + tail; sql[0] == AndWord && sql[1..] == x + (y + tail)
  {
  }

  /** Whatever the filters: the one reading of the text that is sent is the list of predicates they stand for. */
  lemma QueryReadsBack(select: string, fs: seq<Filter>, tail: seq<Lexeme>)
    requires tail == [] || tail == [OrderBy]
    ensures ReadQuery([Select(select)] + LIVE + Fragments(fs) + tail) == Some(AllPreds(fs))
  {
    hide ReadClauses, Fragments, Clauses;
    TextSpellsPreds(fs);
    ClausesReadBack(AllPreds(fs), tail);
    var sql := [Select(select)] + LIVE + Fragments(fs) + tail;
    assert sql[1..4] == LIVE && sql[4..] == Fragments(fs) + tail;
  }

  // ---------------------------------------------------------------------------------------------
  // And its characters have no other division into lexemes

  /** The characters of a text. */
  function Spell(sql: seq<Lexeme>): string {
    if sql == [] then "" else Spelling(sql[0]) + Spell(sql[1..])
  }

  /** The character at i, or NUL behind the end. */
  function CharAt(text: string, i: nat): char { if i < |text| then text[i] else '\0' }

  lemma CharOf(a: string, rest: string, i: nat)
    requires i <= |a|
    ensures CharAt(a + rest, i) == if i < |a| then a[i] else CharAt(rest, 0)
  {
  }

  /** The one lexeme that a text can begin with; where one spelling begins another, the longer. */
  function Guess(text: string): (l: Lexeme)
    ensures !l.Select?
  {
    match CharAt(text, 0)
    case '(' => Open
    case ')' => Close
    case ',' => RootClose
    case '?' => Placeholder
    case 'j' =>
      if CharAt(text, 5) == 't' then (if CharAt(text, 10) == 'v' then TypeOfValue else TypeOf)
      else (if CharAt(text, 13) == 'v' then ExtractOfValue else ExtractOf)
    case _ => GuessWord(text)
  }

  function GuessWord(text: string): (l: Lexeme)
    ensures !l.Select?
  {
    match CharAt(text, 1)
    case '(' => Live
    case 'A' => AndWord
    case 'O' => if CharAt(text, 3) == ' ' then OrWord else OrderBy
    case 'I' =>
      if CharAt(text, 2) == 'N' then InNumericWords
      else if CharAt(text, 4) != 'N' then IsWord
      else if CharAt(text, 8) == 'N' then NotNullWord else IsNotWord
    case '=' => OperatorSign(Eq)
    case '>' => OperatorSign(if CharAt(text, 2) == '=' then Gte else Gt)
    case _ => OperatorSign(if CharAt(text, 2) == '>' then Ne else if CharAt(text, 2) == '=' then Lte else Lt)
  }

  /** The lexer: it takes the guessed lexeme if it is there in full. */
  function Lex(text: string): Option<seq<Lexeme>>
    decreases |text|
  {
    if text == "" then Some([])
    else
      var l := Guess(text);
      if Width(l) == 0 || !(Spelling(l) <= text) then None
      else match Lex(text[Width(l)..])
        case None => None
        case Some(more) => Some([l] + more)
  }

  /** No lexeme but the first continues one that is the beginning of another. */
  predicate Begins(c: char) { c in {'\0', ' ', '(', ')', ',', '?', 'j'} }

  lemma SpellingBegins(l: Lexeme, rest: string)
    requires !l.Select?
    ensures Begins(CharAt(Spelling(l) + rest, 0)) && Spelling(l) != ""
  {
    CharOf(Spelling(l), rest, 0);
  }

  lemma SignIsGuessed(op: Operator, rest: string)
    ensures Guess(Spelling(OperatorSign(op)) + rest) == OperatorSign(op)
  {
    hide CharAt;
    var a := Spelling(OperatorSign(op));
    CharOf(a, rest, 0); CharOf(a, rest, 1); CharOf(a, rest, 2);
  }

  lemma IsIsGuessed(l: Lexeme, rest: string)
    requires l in {IsWord, IsNotWord, NotNullWord} && Begins(CharAt(rest, 0))
    ensures Guess(Spelling(l) + rest) == l
  {
    hide CharAt;
    var a := Spelling(l);
    CharOf(a, rest, 0); CharOf(a, rest, 1); CharOf(a, rest, 2); CharOf(a, rest, 4);
    if l != IsWord { CharOf(a, rest, 8); }
  }

  lemma CallIsGuessed(l: Lexeme, rest: string)
    requires l in {TypeOf, TypeOfValue, ExtractOf, ExtractOfValue} && Begins(CharAt(rest, 0))
    ensures Guess(Spelling(l) + rest) == l
  {
    hide CharAt;
    var a := Spelling(l);
    CharOf(a, rest, 0); CharOf(a, rest, 5);
    if l in {TypeOf, TypeOfValue} { CharOf(a, rest, 10); } else { CharOf(a, rest, 13); }
  }

  lemma WordIsGuessed(l: Lexeme, rest: string)
    requires l in {Live, AndWord, OrWord, OrderBy, InNumericWords}
    ensures Guess(Spelling(l) + rest) == l
  {
    hide CharAt;
    var a := Spelling(l);
    CharOf(a, rest, 0); CharOf(a, rest, 1); CharOf(a, rest, 2); CharOf(a, rest, 3);
  }

  lemma MarkIsGuessed(l: Lexeme, rest: string)
    requires l in {Open, Close, RootClose, Placeholder}
    ensures Guess(Spelling(l) + rest) == l
  {
    hide CharAt;
    CharOf(Spelling(l), rest, 0);
  }

  lemma SpellingIsGuessed(l: Lexeme, rest: string)
    requires !l.Select? && Begins(CharAt(rest, 0))
    ensures Guess(Spelling(l) + rest) == l
  {
    hide Guess, Spelling, CharAt, Begins;
    if l.OperatorSign? { SignIsGuessed(l.op, rest); }
    else if l in {IsWord, IsNotWord, NotNullWord} { IsIsGuessed(l, rest); }
    else if l in {TypeOf, TypeOfValue, ExtractOf, ExtractOfValue} { CallIsGuessed(l, rest); }
    else if l in {Live, AndWord, OrWord, OrderBy, InNumericWords} { WordIsGuessed(l, rest); }
    else { MarkIsGuessed(l, rest); }
  }

  /** Any lexemes are read back from their characters. */
  lemma {:induction false} LexReadsBack(sql: seq<Lexeme>)
    requires forall i :: 0 <= i < |sql| ==> !sql[i].Select?
    ensures Lex(Spell(sql)) == Some(sql) && Begins(CharAt(Spell(sql), 0))
  {
    if sql != [] {
      hide Guess, Spelling;
      var l, more := sql[0], sql[1..];
      LexReadsBack(more);
      var rest := Spell(more);
      SpellingIsGuessed(l, rest);
      SpellingBegins(l, rest);
      OneLexemeMore(l, rest, more);
      assert [l] + more == sql;
    }
  }

  lemma OneLexemeMore(l: Lexeme, rest: string, more: seq<Lexeme>)
    requires Guess(Spelling(l) + rest) == l && Spelling(l) != "" && Lex(rest) == Some(more)
    ensures Lex(Spelling(l) + rest) == Some([l] + more)
  {
    hide Guess, Spelling;
    var text := Spelling(l) + rest;
    assert text[|Spelling(l)|..] == rest;
  }

  lemma {:induction false} SpellAdds(a: seq<Lexeme>, b: seq<Lexeme>)
    ensures Spell(a + b) == Spell(a) + Spell(b)
  {
    hide Spelling;
    if a == [] {
      assert a + b == b;
    } else {
      assert (a + b)[1..] == a[1..] + b;
      SpellAdds(a[1..], b);
      assert Spelling(a[0]) + (Spell(a[1..]) + Spell(b)) == Spelling(a[0]) + Spell(a[1..]) + Spell(b);
    }
  }

  /** The length that the capacities are compared with is that of the characters. */
  lemma {:induction false} LengthIsSpelled(sql: seq<Lexeme>)
    ensures Length(sql) == |Spell(sql)|
  {
    if sql != [] {
      hide Spelling;
      var front, l := sql[..|sql| - 1], sql[|sql| - 1];
      assert sql == front + [l];
      LengthIsSpelled(front);
      SpellAdds(front, [l]);
      assert [l][1..] == [];
      assert Spell([l]) == Spelling(l) + Spell([]) == Spelling(l);
    }
  }

  /** The predicates of a query's characters, behind the SELECT that the caller gave. */
  function ReadText(select: string, text: string): Option<seq<Pred>> {
    if !(select <= text) then None
    else match Lex(text[|select|..])
      case None => None
      case Some(sql) => ReadQuery([Select(select)] + sql)
  }

  lemma NoSelectInside(fs: seq<Filter>, tail: seq<Lexeme>)
    requires tail == [] || tail == [OrderBy]
    ensures forall i :: 0 <= i < |LIVE + Fragments(fs) + tail| ==> !(LIVE + Fragments(fs) + tail)[i].Select?
  {
    hide Fragments;
    FragmentsHaveNoSelect(fs);
  }

  lemma {:induction false} FragmentsHaveNoSelect(fs: seq<Filter>)
    ensures forall i :: 0 <= i < |Fragments(fs)| ==> !Fragments(fs)[i].Select?
  {
    if fs != [] {
      hide Fragment;
      FragmentsHaveNoSelect(fs[..|fs| - 1]);
      FragmentHasNoSelect(fs[|fs| - 1].op);
    }
  }

  lemma FragmentHasNoSelect(op: Operator)
    ensures forall i :: 0 <= i < |Fragment(op)| ==> !Fragment(op)[i].Select?
  {
  }

  /** Whatever the filters: the one reading of the characters that are sent is the list of predicates they stand for. */
  lemma TextReadsBack(select: string, fs: seq<Filter>, tail: seq<Lexeme>)
    requires tail == [] || tail == [OrderBy]
    ensures ReadText(select, Spell([Select(select)] + LIVE + Fragments(fs) + tail)) == Some(AllPreds(fs))
  {
    hide ReadQuery, Lex, Spell, Fragments, LIVE;
    var sql := LIVE + Fragments(fs) + tail;
    NoSelectInside(fs, tail);
    LexReadsBack(sql);
    QueryReadsBack(select, fs, tail);
    assert [Select(select)] + LIVE + Fragments(fs) + tail == [Select(select)] + sql;
    SpellAdds([Select(select)], sql);
    SelectIsSpelled(select);
    assert (select + Spell(sql))[|select|..] == Spell(sql);
  }

  lemma SelectIsSpelled(select: string)
    ensures Spell([Select(select)]) == select
  {
    assert [Select(select)][1..] == [];
    assert Spell([Select(select)]) == Spelling(Select(select)) + Spell([]);
  }

  /** The question marks in a text. */
  function Placeholders(sql: seq<Lexeme>): nat {
    if sql == [] then 0 else Placeholders(sql[..|sql| - 1]) + (if sql[|sql| - 1].Placeholder? then 1 else 0)
  }

  lemma {:induction false} PlaceholdersAdd(a: seq<Lexeme>, b: seq<Lexeme>)
    ensures Placeholders(a + b) == Placeholders(a) + Placeholders(b)
  {
    if b == [] {
      assert a + b == a;
    } else {
      assert (a + b)[..|a + b| - 1] == a + b[..|b| - 1];
      PlaceholdersAdd(a, b[..|b| - 1]);
    }
  }

  lemma PlaceholdersOfOne(l: Lexeme)
    ensures Placeholders([l]) == if l.Placeholder? then 1 else 0
  {
    assert [l][..0] == [];
  }

  lemma PlaceholdersOfTerm(t: Term)
    ensures Placeholders(TermText(t)) == 1
  {
    var x := TermText(t);
    PlaceholdersOfOne(x[0]); PlaceholdersOfOne(x[1]); PlaceholdersOfOne(x[2]);
    PlaceholdersAdd([x[0]], [x[1]]); PlaceholdersAdd([x[0]] + [x[1]], [x[2]]);
    assert [x[0]] + [x[1]] + [x[2]] == x;
  }

  lemma PlaceholdersOfBinary(a: seq<Lexeme>, l: Lexeme, b: seq<Lexeme>)
    requires !l.Placeholder?
    ensures Placeholders(a + [l] + b) == Placeholders(a) + Placeholders(b)
  {
    PlaceholdersOfOne(l);
    PlaceholdersAdd(a, [l]);
    PlaceholdersAdd(a + [l], b);
  }

  /** A predicate's text has as many placeholders as its evaluation takes bindings. */
  lemma {:induction false} PlaceholdersAreHoles(p: Pred)
    ensures Placeholders(PredText(p)) == Holes(p)
  {
    match p
    case TermIs(l, r) =>
      PlaceholdersOfTerm(l); PlaceholdersOfTerm(r); PlaceholdersOfBinary(TermText(l), IsWord, TermText(r));
    case TermIsNot(l, r) =>
      PlaceholdersOfTerm(l); PlaceholdersOfTerm(r); PlaceholdersOfBinary(TermText(l), IsNotWord, TermText(r));
    case Ordering(op, l, r) =>
      PlaceholdersOfTerm(l); PlaceholdersOfTerm(r); PlaceholdersOfBinary(TermText(l), OperatorSign(op), TermText(r));
    case NotNull(t) =>
      PlaceholdersOfTerm(t); PlaceholdersOfOne(NotNullWord); PlaceholdersAdd(TermText(t), [NotNullWord]);
    case Numeric(t) =>
      PlaceholdersOfTerm(t); PlaceholdersOfOne(InNumericWords); PlaceholdersAdd(TermText(t), [InNumericWords]);
    case Either(a, b) =>
      PlaceholdersAreHoles(a);
      PlaceholdersAreHoles(b);
      PlaceholdersOfEither(PredText(a), PredText(b));
  }

  lemma PlaceholdersOfEither(a: seq<Lexeme>, b: seq<Lexeme>)
    ensures Placeholders([Open] + a + [OrWord] + b + [Close]) == Placeholders(a) + Placeholders(b)
  {
    PlaceholdersOfOne(Open); PlaceholdersAdd([Open], a);
    PlaceholdersOfBinary([Open] + a, OrWord, b);
    PlaceholdersOfOne(Close); PlaceholdersAdd([Open] + a + [OrWord] + b, [Close]);
  }

  /** The two loops agree on the count: one binding for every question mark of the text. */
  lemma {:induction false} OneBindingPerPlaceholder(fs: seq<Filter>)
    ensures Placeholders(Fragments(fs)) == |Bindings(fs)|
  {
    if fs != [] {
      hide Fragment, BindingsOf, Placeholders, Fragments;
      var front, f := fs[..|fs| - 1], fs[|fs| - 1];
      assert fs == front + [f];
      OneBindingPerPlaceholder(front);
      BindingsAppend(front, f);
      FragmentsOfLast(fs);
      PlaceholdersAdd(Fragments(front), Fragment(f.op));
      PlaceholdersOfFragment(f);
    }
  }

  lemma FragmentsOfLast(fs: seq<Filter>)
    requires fs != []
    ensures Fragments(fs) == Fragments(fs[..|fs| - 1]) + Fragment(fs[|fs| - 1].op)
  {
  }

  lemma PlaceholdersOfFragment(f: Filter)
    ensures Placeholders(Fragment(f.op)) == |BindingsOf(f)|
  {
    hide Fragment, PredText, Placeholders;
    var a, b := PredText(Preds(f.op)[0]), PredText(Preds(f.op)[1]);
    FragmentSpellsPreds(f.op);
    PlaceholdersAreHoles(Preds(f.op)[0]);
    PlaceholdersAreHoles(Preds(f.op)[1]);
    PlaceholdersOfOne(AndWord); PlaceholdersAdd([AndWord], a);
    PlaceholdersOfBinary([AndWord] + a, AndWord, b);
  }

  lemma TermLength(t: Term)
    ensures Length(TermText(t)) <= 22
  {
    assert Length([]) == 0;
    hide Length;
    var x := TermText(t);
    LengthOfThree([x[0]], x[1], [x[2]]);
    LengthOfTwo(x[0], []); LengthOfTwo(x[2], []);
    assert [x[0]] + [] == [x[0]] && [x[2]] + [] == [x[2]];
    assert [x[0]] + [x[1]] + [x[2]] == x;
  }

  lemma PredLength(p: Pred)
    requires !p.Either?
    ensures Length(PredText(p)) <= 52
  {
    match p
    case TermIs(l, r) => BinaryLength(l, IsWord, r);
    case TermIsNot(l, r) => BinaryLength(l, IsNotWord, r);
    case Ordering(op, l, r) => BinaryLength(l, OperatorSign(op), r);
    case NotNull(t) => TermLength(t); LengthOfLast(TermText(t), NotNullWord);
    case Numeric(t) => TermLength(t); LengthOfLast(TermText(t), InNumericWords);
  }

  lemma BinaryLength(l: Term, word: Lexeme, r: Term)
    requires Width(word) <= 8
    ensures Length(TermText(l) + [word] + TermText(r)) <= 52
  {
    TermLength(l);
    TermLength(r);
    LengthOfThree(TermText(l), word, TermText(r));
  }

  lemma EnclosedLength(a: seq<Lexeme>, b: seq<Lexeme>)
    ensures Length([Open] + a + [OrWord] + b + [Close]) == Length(a) + Length(b) + 6
  {
    LengthOfTwo(Open, a);
    LengthOfThree([Open] + a, OrWord, b);
    LengthOfLast([Open] + a + [OrWord] + b, Close);
  }

  /** No fragment reaches the 256 bytes reserved for it, nor an ordering fragment its own 160-byte buffer. */
  lemma FragmentsAreShort(op: Operator)
    ensures Length(Fragment(op)) < 256
    ensures op !in {Eq, Ne} ==> Length(Fragment(op)) < 160
  {
    hide Fragment, Length, PredText;
    FragmentSpellsPreds(op);
    var a, b := PredText(Preds(op)[0]), PredText(Preds(op)[1]);
    LengthOfThree([AndWord] + a, AndWord, b);
    LengthOfTwo(AndWord, a);
    PredLength(Preds(op)[0]);
    if op == Ne {
      SpelledNe();
      BinaryLength(At(Type), IsNotWord, Of(Type));
      BinaryLength(At(Extract), IsNotWord, Of(Extract));
      EnclosedLength(TYPE_AT + [IsNotWord] + TYPE_OF, EXTRACT_AT + [IsNotWord] + EXTRACT_OF);
    } else {
      PredLength(Preds(op)[1]);
    }
  }

  /** Type and extracted value together identify a JSON value up to Same. */
  lemma TypeAndValueIdentify(v: Json, w: Json)
    ensures Is(VText(TypeName(v)), VText(TypeName(w))) && Is(Extracted(v), Extracted(w)) <==> Same(v, w)
  {
  }

  /** The two predicates of a filter are true of a row exactly when the filter holds. */
  ghost predicate Means(f: Filter, row: Row) {
    var ps, bs := Preds(f.op), BindingsOf(f);
    && |bs| == Holes(ps[0]) + Holes(ps[1])
    && (var x, y := PredValue(ps[0], row, bs[..Holes(ps[0])]), PredValue(ps[1], row, bs[Holes(ps[0])..]);
        && x.Some? && y.Some?
        && (And(x.value, y.value) == Yes <==> row.value.Some? && Holds(f, row.value.value)))
  }

  /** The two values a filter compares, NULL when the path leads nowhere. */
  function Found(f: Filter, row: Row): Option<Json> {
    if row.value.None? then None else Descend(row.value.value, Split(f.key))
  }

  lemma TermsMean(f: Filter, row: Row, fn: Fn)
    ensures TermValue(At(fn), row, Path(PathText(Split(f.key)))) ==
            Some(match Found(f, row) case None => VNull
                 case Some(v) => if fn == Type then VText(TypeName(v)) else Extracted(v))
    ensures TermValue(Of(fn), row, Encoded(f.value)) ==
            Some(if fn == Type then VText(TypeName(f.value)) else Extracted(f.value))
  {
    PathRoundTrip(f.key);
  }

  lemma EqMeans(f: Filter, row: Row)
    requires f.op == Eq
    ensures Means(f, row)
  {
    TermsMean(f, row, Type); TermsMean(f, row, Extract);
    var bs := BindingsOf(f);
    assert bs[..2] == [bs[0], bs[1]] && bs[2..] == [bs[2], bs[3]];
    if Found(f, row).Some? { TypeAndValueIdentify(Found(f, row).value, f.value); }
  }

  lemma NeMeans(f: Filter, row: Row)
    requires f.op == Ne
    ensures Means(f, row)
  {
    TermsMean(f, row, Type); TermsMean(f, row, Extract);
    var bs := BindingsOf(f);
    assert bs[..1] == [bs[0]] && bs[1..] == [bs[1], bs[2], bs[3], bs[4]];
    assert bs[1..][..2] == [bs[1], bs[2]] && bs[1..][2..] == [bs[3], bs[4]];
    if Found(f, row).Some? { TypeAndValueIdentify(Found(f, row).value, f.value); }
  }

  lemma OrderMeans(f: Filter, row: Row)
    requires f.op !in {Eq, Ne} && IsNumber(f.value)
    ensures Means(f, row)
  {
    TermsMean(f, row, Type); TermsMean(f, row, Extract);
    var bs := BindingsOf(f);
    assert bs[..1] == [bs[0]] && bs[1..] == [bs[1], bs[2]];
    if Found(f, row).Some? {
      var v := Found(f, row).value;
      assert IsNumber(v) <==> TypeName(v) == "integer" || TypeName(v) == "real";
    }
  }

  lemma FilterMeans(f: Filter, row: Row)
    requires f.op in {Eq, Ne} || IsNumber(f.value)
    ensures Means(f, row)
  {
    match f.op
    case Eq => EqMeans(f, row);
    case Ne => NeMeans(f, row);
    case _ => OrderMeans(f, row);
  }

  lemma ConjunctionOfFilter(f: Filter, rest: seq<Filter>, row: Row)
    requires Means(f, row) && Conjunction(AllPreds(rest), row, Bindings(rest)).Some?
    ensures var t := Conjunction(Preds(f.op) + AllPreds(rest), row, BindingsOf(f) + Bindings(rest));
            t.Some? && (t.value == Yes <==>
                        row.value.Some? && Holds(f, row.value.value) && Conjunction(AllPreds(rest), row, Bindings(rest)).value == Yes)
  {
    hide BindingsOf, PredValue, Conjunction, Holds, Bindings, AllPreds, Preds;
    TwoPreds(f.op);
    var ps, bs, more, others := Preds(f.op), BindingsOf(f), AllPreds(rest), Bindings(rest);
    var h := Holes(ps[0]);
    ConjunctionOfTwo(ps[0], ps[1], more, row, bs[..h], bs[h..], others);
    Halves(bs, h, others);
    Halves(ps, 1, more);
    assert ps[..1] == [ps[0]] && ps[1..] == [ps[1]];
  }

  lemma TwoPreds(op: Operator)
    ensures |Preds(op)| == 2
  {
  }

  lemma Halves<T>(s: seq<T>, h: nat, rest: seq<T>)
    requires h <= |s|
    ensures s[..h] + (s[h..] + rest) == s + rest
  {
  }

  /** The text and the bindings line up, whatever the filters, and select exactly the rows the filters describe. */
  lemma {:induction false} ConjunctionMeans(fs: seq<Filter>, row: Row)
    requires forall i :: 0 <= i < |fs| ==> fs[i].op in {Eq, Ne} || IsNumber(fs[i].value)
    ensures Conjunction(AllPreds(fs), row, Bindings(fs)).Some?
    ensures Conjunction(AllPreds(fs), row, Bindings(fs)).value == Yes
            <==> forall i :: 0 <= i < |fs| ==> row.value.Some? && Holds(fs[i], row.value.value)
  {
    if fs != [] {
      var f, rest := fs[0], fs[1..];
      ConjunctionMeans(rest, row);
      FilterMeans(f, row);
      ConjunctionOfFilter(f, rest, row);
      assert forall i :: 0 <= i < |rest| ==> fs[i + 1] == rest[i];
      if forall i :: 0 <= i < |rest| ==> row.value.Some? && Holds(rest[i], row.value.value) {
        if row.value.Some? && Holds(f, row.value.value) {
          forall i | 0 <= i < |fs| ensures Holds(fs[i], row.value.value) {
            if i > 0 { assert fs[i] == rest[i - 1]; }
          }
        }
      }
    }
  }

  lemma ConjunctionOfTwo(p: Pred, q: Pred, more: seq<Pred>, row: Row, bs: seq<Binding>, cs: seq<Binding>, rest: seq<Binding>)
    requires |bs| == Holes(p) && |cs| == Holes(q)
    requires PredValue(p, row, bs).Some? && PredValue(q, row, cs).Some? && Conjunction(more, row, rest).Some?
    ensures Conjunction([p] + ([q] + more), row, bs + (cs + rest)) ==
            Some(And(PredValue(p, row, bs).value, And(PredValue(q, row, cs).value, Conjunction(more, row, rest).value)))
  {
    ConjunctionOfOne(q, more, row, cs, rest);
    ConjunctionOfOne(p, [q] + more, row, bs, cs + rest);
  }

  lemma ConjunctionOfOne(p: Pred, more: seq<Pred>, row: Row, bs: seq<Binding>, rest: seq<Binding>)
    requires |bs| == Holes(p) && PredValue(p, row, bs).Some? && Conjunction(more, row, rest).Some?
    ensures Conjunction([p] + more, row, bs + rest) ==
            Some(And(PredValue(p, row, bs).value, Conjunction(more, row, rest).value))
  {
    assert ([p] + more)[1..] == more && (bs + rest)[..|bs|] == bs && (bs + rest)[|bs|..] == rest;
  }

  /** What the characters of a query with its bindings say of a row. */
  function Says(select: string, text: string, row: Row, bs: seq<Binding>): Option<Truth> {
    match ReadText(select, text) case None => None case Some(ps) => Where(ps, row, bs)
  }

  /** For every acceptable filter list: the compiled text, with the bindings made for it, is true of a row exactly when
      the row is live and every filter holds. */
  lemma CompiledQuerySelects(items: seq<RawFilter>, select: string, tail: seq<Lexeme>, row: Row, now: int)
    requires ParseAll(items).Some? && (tail == [] || tail == [OrderBy])
    ensures var fs := ParseAll(items).value;
            var truth := Says(select, Spell([Select(select)] + LIVE + Fragments(fs) + tail), row, [Epoch(now)] + Bindings(fs));
            truth.Some? && (truth.value == Yes <==> Selected(fs, row, now))
  {
    hide ReadText, Fragments, Conjunction, Spell;
    var fs := ParseAll(items).value;
    forall i | 0 <= i < |fs| ensures fs[i].op in {Eq, Ne} || IsNumber(fs[i].value) {
      assert Parse(items[i]).Some?;
    }
    ConjunctionMeans(fs, row);
    TextReadsBack(select, fs, tail);
    assert ([Epoch(now)] + Bindings(fs))[1..] == Bindings(fs);
  }

  // ---------------------------------------------------------------------------------------------
  // What each operator's name stands for, in characters and in meaning

  function OneFilter(key: string, name: string, value: Json): seq<RawFilter> {
    [Raw(Some(key), Some(name), Some(value))]
  }

  /** Six names and no other are operators, the four orderings for numbers only. */
  lemma AcceptedExactly(key: string, name: string, value: Json)
    ensures ParseAll(OneFilter(key, name, value)).Some? <==>
              KeyValid(key) && (name in {"eq", "ne"} || (name in {"gt", "gte", "lt", "lte"} && IsNumber(value)))
  {
    var items := OneFilter(key, name, value);
    assert items[1..] == [] && ParseAll([]) == Some([]);
    assert ParseAll(items).Some? <==> Parse(items[0]).Some?;
  }

  /** The characters that a query is sent with for the filters of a list. */
  function Sent(select: string, fs: seq<Filter>): string {
    Spell([Select(select)] + LIVE + Fragments(fs))
  }

  /** What the query for one filter says of a row. */
  function Answer(select: string, items: seq<RawFilter>, row: Row, now: int): Option<Truth>
    requires ParseAll(items).Some?
  {
    var fs := ParseAll(items).value;
    Says(select, Sent(select, fs), row, [Epoch(now)] + Bindings(fs))
  }

  /** Live rows whose member under the key is m. */
  ghost predicate HasMember(row: Row, now: int, key: string, m: Json) {
    (row.ttl.None? || row.ttl.value >= now) && row.value.Some? && Descend(row.value.value, Split(key)) == Some(m)
  }

  lemma OneFilterSelects(select: string, key: string, name: string, value: Json, row: Row, now: int, m: Json)
    requires ParseAll(OneFilter(key, name, value)).Some? && HasMember(row, now, key, m)
    ensures var fs := ParseAll(OneFilter(key, name, value)).value;
            && |fs| == 1 && Some(fs[0]) == Parse(OneFilter(key, name, value)[0])
            && (Answer(select, OneFilter(key, name, value), row, now) == Some(Yes) <==> Holds(fs[0], row.value.value))
  {
    hide Says, Holds, Parse;
    var items := OneFilter(key, name, value);
    var fs := ParseAll(items).value;
    CompiledQuerySelects(items, select, [], row, now);
    assert [Select(select)] + LIVE + Fragments(fs) + [] == [Select(select)] + LIVE + Fragments(fs);
  }

  /** The orderings compare the member with the value as numbers, the member on the left; a member that is no number
      never answers. */
  lemma OrderingsMean(select: string, key: string, value: Json, row: Row, now: int, m: Json)
    requires KeyValid(key) && IsNumber(value) && HasMember(row, now, key, m)
    ensures forall name :: name in {"gt", "gte", "lt", "lte"} ==> ParseAll(OneFilter(key, name, value)).Some?
    ensures Answer(select, OneFilter(key, "gt", value), row, now) == Some(Yes) <==> IsNumber(m) && Num(m) > Num(value)
    ensures Answer(select, OneFilter(key, "gte", value), row, now) == Some(Yes) <==> IsNumber(m) && Num(m) >= Num(value)
    ensures Answer(select, OneFilter(key, "lt", value), row, now) == Some(Yes) <==> IsNumber(m) && Num(m) < Num(value)
    ensures Answer(select, OneFilter(key, "lte", value), row, now) == Some(Yes) <==> IsNumber(m) && Num(m) <= Num(value)
  {
    hide Answer, ParseAll, KeyValid, Descend;
    forall name | name in {"gt", "gte", "lt", "lte"} ensures ParseAll(OneFilter(key, name, value)).Some? {
      AcceptedExactly(key, name, value);
    }
    OneFilterSelects(select, key, "gt", value, row, now, m);
    OneFilterSelects(select, key, "gte", value, row, now, m);
    OneFilterSelects(select, key, "lt", value, row, now, m);
    OneFilterSelects(select, key, "lte", value, row, now, m);
  }

  predicate IsScalar(j: Json) { !j.Array? && !j.Object? }

  /** eq and ne are equality and inequality, for scalars of values with their types, and for arrays and objects of the
      kind and the text. */
  lemma EqualitiesMean(select: string, key: string, value: Json, row: Row, now: int, m: Json)
    requires KeyValid(key) && HasMember(row, now, key, m)
    ensures forall name :: name in {"eq", "ne"} ==> ParseAll(OneFilter(key, name, value)).Some?
    ensures var eq, ne := Answer(select, OneFilter(key, "eq", value), row, now), Answer(select, OneFilter(key, "ne", value), row, now);
            && (eq == Some(Yes) <==> ne != Some(Yes))
            && (IsScalar(m) || IsScalar(value) ==> (eq == Some(Yes) <==> m == value))
            && (m.Array? && value.Array? ==> (eq == Some(Yes) <==> m.text == value.text))
            && (m.Object? && value.Object? ==> (eq == Some(Yes) <==> m.text == value.text))
            && ((m.Array? && value.Object?) || (m.Object? && value.Array?) ==> eq != Some(Yes))
  {
    hide Answer, ParseAll, KeyValid, Descend;
    forall name | name in {"eq", "ne"} ensures ParseAll(OneFilter(key, name, value)).Some? {
      AcceptedExactly(key, name, value);
    }
    OneFilterSelects(select, key, "eq", value, row, now, m);
    OneFilterSelects(select, key, "ne", value, row, now, m);
  }

  /** The characters of a comparison, by the operator's name. */
  function SignOf(name: string): string {
    if name == "gt" then " > " else if name == "gte" then " >= " else if name == "lt" then " < " else " <= "
  }

  lemma SpellOne(l: Lexeme, more: seq<Lexeme>)
    ensures Spell([l] + more) == Spelling(l) + Spell(more)
  {
    hide Spelling;
    assert ([l] + more)[1..] == more;
  }

  lemma TermSpelled(t: Term)
    ensures Spell(TermText(t)) == match t case At(Type) => "json_type(value, " + "?" + ")" case At(Extract) => "json_extract(value, " + "?" + ")"
                                          case Of(Type) => "json_type(" + "?" + ", '$')" case Of(Extract) => "json_extract(" + "?" + ", '$')"
  {
    var x := TermText(t);
    assert x == [x[0]] + ([x[1]] + ([x[2]] + []));
    SpellOne(x[0], [x[1]] + ([x[2]] + []));
    SpellOne(x[1], [x[2]] + []);
    SpellOne(x[2], []);
    Append(Spelling(x[0]), Spelling(x[1]), Spelling(x[2]));
    hide Spelling, Spell;
    SpelledTerm(t);
  }

  lemma SpelledTerm(t: Term)
    ensures var x := TermText(t);
            Spelling(x[0]) + Spelling(x[1]) + Spelling(x[2]) == match t
              case At(Type) => "json_type(value, " + "?" + ")" case At(Extract) => "json_extract(value, " + "?" + ")"
              case Of(Type) => "json_type(" + "?" + ", '$')" case Of(Extract) => "json_extract(" + "?" + ", '$')"
  {
  }

  lemma Append(a: string, b: string, c: string)
    ensures a + (b + (c + "")) == a + b + c
  {
  }

  lemma BinarySpelled(a: seq<Lexeme>, word: Lexeme, b: seq<Lexeme>)
    ensures Spell(a + [word] + b) == Spell(a) + Spelling(word) + Spell(b)
  {
    hide Spelling;
    SpellAdds(a + [word], b);
    SpellAdds(a, [word]);
    SpellOne(word, []);
    assert [word] + [] == [word] && Spelling(word) + "" == Spelling(word);
  }

  /** An ordering in the characters that are sent: the type is tested first, and the comparison has the member's value on
      the left and the operator's own sign. */
  lemma OrderingIsSpelled(key: string, name: string, value: Json)
    requires KeyValid(key) && IsNumber(value) && name in {"gt", "gte", "lt", "lte"}
    ensures ParseAll(OneFilter(key, name, value)).Some?
    ensures Spell(Fragments(ParseAll(OneFilter(key, name, value)).value)) ==
              " AND " + (("json_type(value, " + "?" + ")") + " IN ('integer','real')") + " AND "
              + (("json_extract(value, " + "?" + ")") + SignOf(name) + ("json_extract(" + "?" + ", '$')"))
  {
    AcceptedExactly(key, name, value);
    var items := OneFilter(key, name, value);
    var f := ParseAll(items).value[0];
    assert Some(f) == Parse(items[0]) && ParseAll(items).value == [f];
    OperatorsSign(name);
    OrderFragmentSpelled(f.op);
    assert [f][..0] == [] && Fragments([f]) == Fragments([]) + Fragment(f.op) == Fragment(f.op);
  }

  lemma OperatorsSign(name: string)
    requires name in {"gt", "gte", "lt", "lte"}
    ensures OperatorNamed(name).Some? && OperatorNamed(name).value !in {Eq, Ne}
    ensures Spelling(OperatorSign(OperatorNamed(name).value)) == SignOf(name)
  {
  }

  lemma OrderFragmentSpelled(op: Operator)
    requires op !in {Eq, Ne}
    ensures Spell(Fragment(op)) ==
              " AND " + (("json_type(value, " + "?" + ")") + " IN ('integer','real')") + " AND "
              + (("json_extract(value, " + "?" + ")") + Spelling(OperatorSign(op)) + ("json_extract(" + "?" + ", '$')"))
  {
    hide Spell, Spelling, TermText, Fragment;
    FragmentSpellsPreds(op);
    TermSpelled(At(Type)); TermSpelled(At(Extract)); TermSpelled(Of(Extract));
    var a, b := PredText(Preds(op)[0]), PredText(Preds(op)[1]);
    BinarySpelled(TermText(At(Extract)), OperatorSign(op), TermText(Of(Extract)));
    BinarySpelled(TermText(At(Type)), InNumericWords, []);
    assert TermText(At(Type)) + [InNumericWords] + [] == a;
    BinarySpelled([AndWord] + a, AndWord, b);
    SpellOne(AndWord, a);
    WordsSpelled();
  }

  /** "eq" compares types and values, each with IS. */
  lemma EqIsSpelled()
    ensures Spell(Fragment(Eq)) ==
              " AND " + (("json_type(value, " + "?" + ")") + " IS " + ("json_type(" + "?" + ", '$')")) + " AND "
              + (("json_extract(value, " + "?" + ")") + " IS " + ("json_extract(" + "?" + ", '$')"))
  {
    hide Spell, Spelling, TermText, Fragment;
    FragmentSpellsPreds(Eq);
    TermSpelled(At(Type)); TermSpelled(At(Extract)); TermSpelled(Of(Type)); TermSpelled(Of(Extract));
    BinarySpelled(TermText(At(Type)), IsWord, TermText(Of(Type)));
    BinarySpelled(TermText(At(Extract)), IsWord, TermText(Of(Extract)));
    var a, b := PredText(Preds(Eq)[0]), PredText(Preds(Eq)[1]);
    BinarySpelled([AndWord] + a, AndWord, b);
    SpellOne(AndWord, a);
    WordsSpelled();
  }

  /** "ne" asks that there is a value, and that its type or itself differs. */
  lemma NeIsSpelled()
    ensures Spell(Fragment(Ne)) ==
              " AND " + (("json_type(value, " + "?" + ")") + " IS NOT NULL") + " AND "
              + ("(" + (("json_type(value, " + "?" + ")") + " IS NOT " + ("json_type(" + "?" + ", '$')")) + " OR "
                 + (("json_extract(value, " + "?" + ")") + " IS NOT " + ("json_extract(" + "?" + ", '$')")) + ")")
  {
    hide Spell, Spelling, TermText, Fragment;
    FragmentSpellsPreds(Ne);
    TermSpelled(At(Type)); TermSpelled(At(Extract)); TermSpelled(Of(Type)); TermSpelled(Of(Extract));
    var a, b := PredText(Preds(Ne)[0]), PredText(Preds(Ne)[1]);
    var c, d := TermText(At(Type)) + [IsNotWord] + TermText(Of(Type)), TermText(At(Extract)) + [IsNotWord] + TermText(Of(Extract));
    BinarySpelled(TermText(At(Type)), IsNotWord, TermText(Of(Type)));
    BinarySpelled(TermText(At(Extract)), IsNotWord, TermText(Of(Extract)));
    EitherSpelled(c, d);
    assert b == [Open] + c + [OrWord] + d + [Close];
    BinarySpelled(TermText(At(Type)), NotNullWord, []);
    assert TermText(At(Type)) + [NotNullWord] + [] == a;
    BinarySpelled([AndWord] + a, AndWord, b);
    SpellOne(AndWord, a);
    WordsSpelled();
  }

  lemma EitherSpelled(c: seq<Lexeme>, d: seq<Lexeme>)
    ensures Spell([Open] + c + [OrWord] + d + [Close]) == "(" + Spell(c) + " OR " + Spell(d) + ")"
  {
    hide Spell, Spelling;
    SpellOne(Open, c);
    BinarySpelled([Open] + c, OrWord, d);
    BinarySpelled([Open] + c + [OrWord] + d, Close, []);
    assert [Open] + c + [OrWord] + d + [Close] + [] == [Open] + c + [OrWord] + d + [Close];
    WordsSpelled();
  }

  /** And every query begins with the caller's SELECT and the test that the row has not expired. */
  lemma HeadIsSpelled(select: string, fs: seq<Filter>)
    ensures Sent(select, fs) == select + (" (ttl IS NULL OR ttl >= " + "?" + ")") + Spell(Fragments(fs))
  {
    hide Spell, Spelling, Fragments;
    SpellAdds([Select(select)] + LIVE, Fragments(fs));
    SpellAdds([Select(select)], LIVE);
    SelectIsSpelled(select);
    assert LIVE == [Live] + [Placeholder] + [Close];
    BinarySpelled([Live], Placeholder, [Close]);
    SpellOne(Live, []); SpellOne(Close, []);
    assert [Live] + [] == [Live] && [Close] + [] == [Close];
    LiveSpelled();
  }

  lemma LiveSpelled()
    ensures Spelling(Live) + "" == " (ttl IS NULL OR ttl >= " && Spelling(Placeholder) == "?" && Spelling(Close) + "" == ")" && Spell([]) == ""
  {
  }

  lemma WordsSpelled()
    ensures Spelling(AndWord) == " AND " && Spelling(InNumericWords) == " IN ('integer','real')" && Spell([]) == ""
    ensures Spelling(IsWord) == " IS " && Spelling(IsNotWord) == " IS NOT " && Spelling(NotNullWord) == " IS NOT NULL"
    ensures Spelling(OrWord) == " OR " && Spelling(Open) == "(" && Spelling(Close) == ")"
  {
  }

  // ---------------------------------------------------------------------------------------------
  // The two loops

  method FragmentFor(op: Operator) returns (fragment: seq<Lexeme>)
    ensures fragment == Fragment(op) && Length(fragment) < 256
  {
    FragmentsAreShort(op);
    if op == Eq {
      fragment := EqFragment();
    } else if op == Ne {
      fragment := NeFragment();
    } else {
      fragment := OrderFragment(op);
    }
  }

  method BindingsFor(filter: Filter) returns (bindings: seq<Binding>)
    ensures bindings == BindingsOf(filter)
  {
    var path := PathForKey(filter.key);
    if filter.op == Eq {
      bindings := [Path(path), Encoded(filter.value), Path(path), Encoded(filter.value)];
    } else if filter.op == Ne {
      bindings := [Path(path), Path(path), Encoded(filter.value), Path(path), Encoded(filter.value)];
    } else {
      bindings := [Path(path), Path(path), Encoded(filter.value)];
    }
  }

  /** The first loop: text. Its capacity guard is there and never fires. */
  method WriteText(select: string, fs: seq<Filter>) returns (text: Option<seq<Lexeme>>)
    ensures text == Some([Select(select)] + LIVE + Fragments(fs))
    ensures Length(text.value) < |select| + |fs| * 256 + 96 - Width(OrderBy)
  {
    hide Fragment, Length;
    var capacity := |select| + |fs| * FRAGMENT_BOUND + SPARE;
    var sql := [Select(select)] + LIVE;
    HeadLength(select);
    ghost var head := sql;
    for i := 0 to |fs|
      invariant sql == head + Fragments(fs[..i])
      invariant Length(sql) <= |select| + 26 + i * (FRAGMENT_BOUND - 1)
    {
      var fragment := FragmentFor(fs[i].op);
      var needed := Length(fragment);
      assert needed < capacity - Length(sql);
      if needed >= capacity - Length(sql) {
        return None;
      }
      LengthAdds(sql, fragment);
      FragmentsAppend(head, fs, i);
      sql := sql + fragment;
    }
    assert fs[..|fs|] == fs;
    return Some(sql);
  }

  lemma HeadLength(select: string)
    ensures Length([Select(select)] + LIVE) == |select| + 26
  {
    LengthOfTwo(Select(select), LIVE);
    LengthOfThree([Live], Placeholder, [Close]);
    LengthOfTwo(Live, []); LengthOfTwo(Close, []);
    assert [Live] + [] == [Live] && [Close] + [] == [Close] && [Live] + [Placeholder] + [Close] == LIVE;
  }

  /** The second loop: one numbered binding after the other. */
  method Bind(fs: seq<Filter>, now: int) returns (bindings: seq<Binding>)
    ensures bindings == [Epoch(now)] + Bindings(fs)
  {
    hide BindingsOf;
    bindings := [Epoch(now)];
    for i := 0 to |fs|
      invariant bindings == [Epoch(now)] + Bindings(fs[..i])
    {
      var more := BindingsFor(fs[i]);
      BindingsAppend(fs[..i], fs[i]);
      assert fs[..i + 1] == fs[..i] + [fs[i]];
      bindings := bindings + more;
    }
    assert fs[..|fs|] == fs;
  }

  /** prepare_live_query: the text with its placeholders and the values bound to them, in order. Only unacceptable
      filters (or more of them than memory) are refused, and the text with its terminator fits its allocation. */
  method PrepareLiveQuery(select: string, raw: RawFilters, orderByTimestamp: bool, now: int)
      returns (query: Option<(seq<Lexeme>, seq<Binding>)>)
    requires |select| + 96 <= 0xFFFF_FFFF_FFFF_FFFF
    ensures query.Some? <==>
              && !raw.Neither? && ParseAll(Items(raw)).Some?
              && |Items(raw)| <= (0xFFFF_FFFF_FFFF_FFFF - |select| - 96) / 256
    ensures query.Some? ==>
              var fs := ParseAll(Items(raw)).value;
              && query.value.0 == [Select(select)] + LIVE + Fragments(fs) + (if orderByTimestamp then [OrderBy] else [])
              && query.value.1 == [Epoch(now)] + Bindings(fs)
              && Length(query.value.0) < |select| + |fs| * 256 + 96
  {
    var valid := FiltersValid(raw);
    if !valid {
      return None;
    }
    var items := Items(raw);
    if |items| > (SIZE_MAX - |select| - SPARE) / FRAGMENT_BOUND {
      return None;
    }
    var fs := ParseAll(items).value;
    var text := WriteText(select, fs);
    if text.None? {
      assert false;
      return None;
    }
    var sql := text.value;
    if orderByTimestamp {
      LengthOfThree(sql, OrderBy, []);
      assert sql + [OrderBy] + [] == sql + [OrderBy];
      sql := sql + [OrderBy];
    }
    var bindings := Bind(fs, now);
    return Some((sql, bindings));
  }
}
