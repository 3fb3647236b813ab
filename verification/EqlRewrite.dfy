/** rewrite_sql (src/eql/epsilon_eql.c): dotted references become table aliases, everything else is copied. */
module EqlRewrite {
  import opened Strings
  import opened EqlScan

  const MAX_TABLES := 16
  const DOTTED_BUFFER: nat := 512

  datatype Table = Table(db: string, part: string, ks: string, dotted: string, alias: string, pw: bool)

  /** Aliases eql_t0 .. eql_t15: at most seven characters. */
  predicate AliasesFit(tables: seq<Table>) {
    forall i :: 0 <= i < |tables| ==> |tables[i].alias| <= 7
  }

  // ---------------------------------------------------------------------------------------------
  // What is rewritten: the statement cut into pieces

  datatype Piece = Copy(from: nat, to: nat) | Ref(table: nat, from: nat, to: nat)

  /** The first table whose dotted name is `name`, among all or only the partition-wide ones. */
  function FindTable(tables: seq<Table>, name: string, onlyPw: bool, i: nat): (r: Option<nat>)
    requires i <= |tables|
    ensures r.Some? ==> i <= r.value < |tables| && tables[r.value].dotted == name && (onlyPw ==> tables[r.value].pw)
    ensures forall k :: i <= k < (if r.Some? then r.value else |tables|) ==> tables[k].dotted != name || (onlyPw && !tables[k].pw)
    decreases |tables| - i
  {
    if i == |tables| then None
    else if tables[i].dotted == name && (onlyPw ==> tables[i].pw) then Some(i)
    else FindTable(tables, name, onlyPw, i + 1)
  }

  function Name2(n: seq<string>): string
    requires |n| == 2
  {
    Clip(n[0] + "." + n[1], DOTTED_BUFFER)
  }

  function Name3(n: seq<string>): string
    requires |n| == 3
  {
    Clip(n[0] + "." + n[1] + "." + n[2], DOTTED_BUFFER)
  }

  function MatchThree(s: string, p: nat, tables: seq<Table>): (r: Option<(nat, nat)>)
    ensures r.Some? ==> r.value.0 < |tables| && p + 5 <= r.value.1 <= |s|
  {
    match Dotted(s, p, 3)
    case None => None
    case Some((names, e)) =>
      match FindTable(tables, Name3(names), false, 0)
      case None => None
      case Some(i) => Some((i, e))
  }

  function MatchTwo(s: string, p: nat, tables: seq<Table>): (r: Option<(nat, nat)>)
    ensures r.Some? ==> r.value.0 < |tables| && p + 3 <= r.value.1 <= |s|
  {
    match Dotted(s, p, 2)
    case None => None
    case Some((names, e)) =>
      match FindTable(tables, Name2(names), true, 0)
      case None => None
      case Some(i) => Some((i, e))
  }

  /** Three names are tried before two. */
  function Match(s: string, p: nat, tables: seq<Table>): (r: Option<(nat, nat)>)
    ensures r.Some? ==> r.value.0 < |tables| && p + 3 <= r.value.1 <= |s|
  {
    var three := MatchThree(s, p, tables);
    if three.Some? then three else MatchTwo(s, p, tables)
  }

  function NextPiece(s: string, p: nat, tables: seq<Table>): (x: Piece)
    requires p < |s|
    ensures x.from == p && p < x.to <= |s| && (x.Ref? ==> x.table < |tables| && x.to >= p + 3)
  {
    var c := s[p];
    if c == '\'' then Copy(p, SkipQuoted(s, p))
    else if At(s, p, '-', '-') then assert LineEnd(s, p) > p; Copy(p, LineEnd(s, p))
    else if At(s, p, '/', '*') then Copy(p, CommentEnd(s, p + 2))
    else if !IsQuote(c) && !IsIdent(c) then Copy(p, p + 1)
    else match Match(s, p, tables)
      case Some((i, e)) => Ref(i, p, e)
      case None => Copy(p, if IsQuote(c) then SkipQuoted(s, p) else WordEnd(s, p))
  }

  function Pieces(s: string, p: nat, tables: seq<Table>): seq<Piece>
    requires p <= |s|
    decreases |s| - p
  {
    if p == |s| then [] else [NextPiece(s, p, tables)] + Pieces(s, NextPiece(s, p, tables).to, tables)
  }

  function PieceText(s: string, x: Piece, tables: seq<Table>): string
    requires x.from <= x.to <= |s| && (x.Ref? ==> x.table < |tables|)
  {
    if x.Copy? then s[x.from..x.to] else tables[x.table].alias
  }

  /** The rewritten text from p on. */
  function Rewritten(s: string, p: nat, tables: seq<Table>): string
    requires p <= |s|
    decreases |s| - p
  {
    if p == |s| then ""
    else PieceText(s, NextPiece(s, p, tables), tables) + Rewritten(s, NextPiece(s, p, tables).to, tables)
  }

  // ---------------------------------------------------------------------------------------------
  // The amortised bound

  /** At a piece boundary p, o characters have been written: at most 2p, or one more behind a three-character
      reference, whose last name ends at p so that no bare name can start there. */
  predicate Budget(s: string, p: nat, o: nat) {
    && p <= |s|
    && (o <= 2 * p || (o <= 2 * p + 1 && (p == |s| || !IsIdent(s[p]))))
  }

  /** Only two one-letter bare names make a reference of three characters. */
  lemma ShortReference(s: string, p: nat, tables: seq<Table>)
    requires Match(s, p, tables).Some?
    ensures var e := Match(s, p, tables).value.1;
            && (e == p + 3 ==> IsIdent(s[p]) && (e == |s| || !IsIdent(s[e])))
            && (!IsIdent(s[p]) ==> e >= p + 4)
  {
    if MatchThree(s, p, tables).None? {
      assert Dotted(s, p, 2).Some? && Dotted(s, p, 1).Some?;
      var first := Ident(s, p).value.1;
      var d := SkipSpaces(s, first);
      var q := SkipSpaces(s, d + 1);
      assert DotIdent(s, first) == Ident(s, q) && Ident(s, q).Some?;
    }
  }

  lemma BudgetKept(s: string, p: nat, o: nat, tables: seq<Table>)
    requires p < |s| && AliasesFit(tables) && Budget(s, p, o)
    ensures var x := NextPiece(s, p, tables);
            Budget(s, x.to, o + |PieceText(s, x, tables)|)
  {
    if NextPiece(s, p, tables).Ref? {
      ShortReference(s, p, tables);
    }
  }

  // ---------------------------------------------------------------------------------------------
  // The code

  /** Copies until the range or the room ends, whichever is first, and says where it stopped. */
  method CopyRange(sql: string, from: nat, to: nat, buf: array<char>, o: nat, cap: nat) returns (i: nat, o': nat)
    requires from <= to <= |sql| && o + (to - from) <= cap <= buf.Length
    modifies buf
    ensures i == to && o' == o + (to - from) && buf[..o'] == old(buf[..o]) + sql[from..to]
  {
    i, o' := from, o;
    assert sql[from..from] == "";
    while i < to && o' < cap
      invariant from <= i <= to && o' == o + (i - from)
      invariant buf[..o'] == old(buf[..o]) + sql[from..i]
    {
      buf[o'] := sql[i];
      i, o' := i + 1, o' + 1;
    }
  }

  /** The loops over line comments and bare words move the cursor only when a character was written: with a full
      buffer they would never end. */
  method CopyRun(sc: Scanner, word: bool, buf: array<char>, o: nat, cap: nat) returns (o': nat)
    requires sc.pos <= |sc.sql| && o + (|sc.sql| - sc.pos) < cap <= buf.Length
    modifies sc`pos, buf
    ensures sc.pos == if word then WordEnd(sc.sql, old(sc.pos)) else LineEnd(sc.sql, old(sc.pos))
    ensures o' == o + (sc.pos - old(sc.pos)) && buf[..o'] == old(buf[..o]) + sc.sql[old(sc.pos)..sc.pos]
  {
    o' := o;
    ghost var start := sc.pos;
    assert sc.sql[start..start] == "";
    while sc.pos < |sc.sql| && (if word then IsIdent(sc.sql[sc.pos]) else sc.sql[sc.pos] != '\n')
      invariant start <= sc.pos <= |sc.sql| && o' == o + (sc.pos - start) < cap
      invariant WordEnd(sc.sql, sc.pos) == WordEnd(sc.sql, start) || !word
      invariant LineEnd(sc.sql, sc.pos) == LineEnd(sc.sql, start) || word
      invariant buf[..o'] == old(buf[..o]) + sc.sql[start..sc.pos]
      decreases |sc.sql| - sc.pos
    {
      if o' < cap {
        buf[o'] := sc.sql[sc.pos];
        o' := o' + 1;
        sc.pos := sc.pos + 1;
      }
    }
  }

  method CopyAlias(alias: string, buf: array<char>, o: nat, cap: nat) returns (o': nat)
    requires o + |alias| <= cap <= buf.Length
    modifies buf
    ensures o' == o + |alias| && buf[..o'] == old(buf[..o]) + alias
  {
    var i;
    i, o' := CopyRange(alias, 0, |alias|, buf, o, cap);
    assert alias[0..|alias|] == alias;
  }

  method TryThree(sql: string, p: nat, tables: seq<Table>) returns (hit: Option<(nat, nat)>)
    requires p < |sql|
    ensures hit == MatchThree(sql, p, tables)
  {
    var probe := new Scanner(sql, p);
    var ok, names := probe.ReadDotted(3);
    if ok {
      for i := 0 to |tables|
        invariant FindTable(tables, Name3(names), false, 0) == FindTable(tables, Name3(names), false, i)
        invariant Dotted(sql, p, 3) == Some((names, probe.pos))
      {
        if tables[i].dotted == Name3(names) {
          return Some((i, probe.pos));
        }
      }
    }
    return None;
  }

  method TryTwo(sql: string, p: nat, tables: seq<Table>) returns (hit: Option<(nat, nat)>)
    requires p < |sql|
    ensures hit == MatchTwo(sql, p, tables)
  {
    var probe := new Scanner(sql, p);
    var ok, names := probe.ReadDotted(2);
    if ok {
      for i := 0 to |tables|
        invariant FindTable(tables, Name2(names), true, 0) == FindTable(tables, Name2(names), true, i)
        invariant Dotted(sql, p, 2) == Some((names, probe.pos))
      {
        if tables[i].pw && tables[i].dotted == Name2(names) {
          return Some((i, probe.pos));
        }
      }
    }
    return None;
  }

  /** rewrite_sql: it ends, its buffer of 2*len+16 bytes is never full (at most 2*len+1 characters and the
      terminator are written), and the text is that of the pieces. */
  method RewriteSql(sql: string, tables: seq<Table>) returns (out: string)
    requires AliasesFit(tables)
    ensures out == Rewritten(sql, 0, tables) && |out| <= 2 * |sql| + 1
  {
    hide AliasesFit, NextPiece, PieceText;
    var len := |sql|;
    var buf := new char[len * 2 + 16];
    var cap := len * 2 + 15;
    var o: nat := 0;
    var sc := new Scanner(sql, 0);
    while sc.pos < len
      invariant sc.sql == sql && Budget(sql, sc.pos, o)
      invariant buf[..o] + Rewritten(sql, sc.pos, tables) == Rewritten(sql, 0, tables)
      decreases len - sc.pos
    {
      BudgetKept(sql, sc.pos, o, tables);
      ghost var x := NextPiece(sql, sc.pos, tables);
      ghost var before, rest := buf[..o], Rewritten(sql, x.to, tables);
      assert before + (PieceText(sql, x, tables) + rest) == before + PieceText(sql, x, tables) + rest;
      o := WritePiece(sc, tables, buf, o, cap);
    }
    buf[o] := '\0';
    return buf[..o];
  }

  /** One turn of the loop: a literal, a comment, a reference, a word or a single character. */
  method WritePiece(sc: Scanner, tables: seq<Table>, buf: array<char>, o: nat, cap: nat) returns (o': nat)
    requires sc.pos < |sc.sql| && AliasesFit(tables) && Budget(sc.sql, sc.pos, o)
    requires cap == |sc.sql| * 2 + 15 < buf.Length
    modifies sc`pos, buf
    ensures sc.pos == NextPiece(sc.sql, old(sc.pos), tables).to
    ensures o' == o + |PieceText(sc.sql, NextPiece(sc.sql, old(sc.pos), tables), tables)| <= buf.Length
    ensures buf[..o'] == old(buf[..o]) + PieceText(sc.sql, NextPiece(sc.sql, old(sc.pos), tables), tables)
  {
    hide AliasesFit, Match;
    var start, c := sc.pos, sc.sql[sc.pos];
    BudgetKept(sc.sql, start, o, tables);
    var i;
    if c == '\'' {
      sc.SkipQuotedRaw();
      i, o' := CopyRange(sc.sql, start, sc.pos, buf, o, cap);
      return;
    }
    if c == '-' && start + 1 < |sc.sql| && sc.sql[start + 1] == '-' {
      o' := CopyRun(sc, false, buf, o, cap);
      return;
    }
    if c == '/' && start + 1 < |sc.sql| && sc.sql[start + 1] == '*' {
      i, o' := CopyRange(sc.sql, start, CommentEnd(sc.sql, start + 2), buf, o, cap);
      sc.pos := i;
      return;
    }
    if !IsQuote(c) && !IsIdent(c) {
      i, o' := CopyRange(sc.sql, start, start + 1, buf, o, cap);
      sc.pos := i;
      return;
    }
    o' := WriteWord(sc, tables, buf, o, cap);
  }

  /** The last case of that turn: something that may be a reference. */
  method WriteWord(sc: Scanner, tables: seq<Table>, buf: array<char>, o: nat, cap: nat) returns (o': nat)
    requires sc.pos < |sc.sql| && (IsQuote(sc.sql[sc.pos]) || IsIdent(sc.sql[sc.pos]))
    requires AliasesFit(tables) && Budget(sc.sql, sc.pos, o) && cap == |sc.sql| * 2 + 15 < buf.Length
    modifies sc`pos, buf
    ensures sc.pos == NextPiece(sc.sql, old(sc.pos), tables).to
    ensures o' == o + |PieceText(sc.sql, NextPiece(sc.sql, old(sc.pos), tables), tables)| <= buf.Length
    ensures buf[..o'] == old(buf[..o]) + PieceText(sc.sql, NextPiece(sc.sql, old(sc.pos), tables), tables)
  {
    hide MatchThree, MatchTwo;
    var start := sc.pos;
    var hit := TryThree(sc.sql, start, tables);
    if hit.None? {
      hit := TryTwo(sc.sql, start, tables);
    }
    if hit.Some? {
      o' := CopyAlias(tables[hit.value.0].alias, buf, o, cap);
      sc.pos := hit.value.1;
    } else if IsQuote(sc.sql[start]) {
      sc.SkipQuotedRaw();
      var i;
      i, o' := CopyRange(sc.sql, start, sc.pos, buf, o, cap);
    } else {
      o' := CopyRun(sc, true, buf, o, cap);
    }
  }

  // ---------------------------------------------------------------------------------------------
  // Properties of the pieces

  /** The pieces cut the statement: each starts where the one before ends, from p to the end. */
  ghost predicate Cuts(xs: seq<Piece>, p: nat, q: nat)
    decreases |xs|
  {
    if xs == [] then p == q else xs[0].from == p && p < xs[0].to <= q && Cuts(xs[1..], xs[0].to, q)
  }

  function Texts(s: string, xs: seq<Piece>, tables: seq<Table>): string
    requires forall i :: 0 <= i < |xs| ==> xs[i].from <= xs[i].to <= |s| && (xs[i].Ref? ==> xs[i].table < |tables|)
  {
    if xs == [] then "" else PieceText(s, xs[0], tables) + Texts(s, xs[1..], tables)
  }

  /** The output is the input cut into consecutive pieces, each copied verbatim or replaced by a table's alias. */
  lemma {:induction false} RewritingCutsTheStatement(s: string, p: nat, tables: seq<Table>)
    requires p <= |s|
    ensures Cuts(Pieces(s, p, tables), p, |s|)
    ensures forall i :: 0 <= i < |Pieces(s, p, tables)| ==>
              var x := Pieces(s, p, tables)[i];
              x.from <= x.to <= |s| && (x.Ref? ==> x.table < |tables| && Match(s, x.from, tables) == Some((x.table, x.to)))
    ensures Rewritten(s, p, tables) == Texts(s, Pieces(s, p, tables), tables)
    decreases |s| - p
  {
    if p < |s| {
      hide NextPiece, Match;
      var x := NextPiece(s, p, tables);
      RewritingCutsTheStatement(s, x.to, tables);
      ReferenceIsMatch(s, p, tables);
      assert Pieces(s, p, tables) == [x] + Pieces(s, x.to, tables);
    }
  }

  lemma ReferenceIsMatch(s: string, p: nat, tables: seq<Table>)
    requires p < |s|
    ensures var x := NextPiece(s, p, tables); x.Ref? ==> Match(s, p, tables) == Some((x.table, x.to))
  {
    hide Match;
  }

  /** Without tables nothing changes. */
  lemma {:induction false} NoTablesNoChange(s: string, p: nat)
    requires p <= |s|
    ensures Rewritten(s, p, []) == s[p..]
    decreases |s| - p
  {
    if p < |s| {
      var x := NextPiece(s, p, []);
      NoTablesNoChange(s, x.to);
      assert s[p..x.to] + s[x.to..] == s[p..];
    }
  }

  // ---------------------------------------------------------------------------------------------
  // Registered references get their own alias

  const DB_BUFFER: nat := 128
  const PART_BUFFER: nat := 256
  const KS_BUFFER: nat := 128

  /** A reference as collect_refs finds it; an empty keyspace makes it partition-wide. */
  datatype Reference = Reference(db: string, part: string, ks: string)

  function AliasOf(n: nat): (a: string)
    requires n < MAX_TABLES
    ensures |a| <= 7
  {
    "eql_t" + (if n < 10 then ['0' + n as char] else ['1', '0' + (n - 10) as char])
  }

  function TableFor(r: Reference, n: nat): Table
    requires n < MAX_TABLES
  {
    var (db, part, ks) := (Clip(r.db, DB_BUFFER), Clip(r.part, PART_BUFFER), Clip(r.ks, KS_BUFFER));
    var pw := r.ks == "";
    Table(db, part, ks, if pw then db + "." + part else db + "." + part + "." + ks, AliasOf(n), pw)
  }

  predicate Known(tables: seq<Table>, r: Reference) {
    exists i :: 0 <= i < |tables| && tables[i].db == r.db && tables[i].part == r.part && tables[i].ks == r.ks
                && tables[i].pw == (r.ks == "")
  }

  /** How collect_refs fills the table list: duplicates are dropped, and so is whatever exceeds sixteen. */
  function Register(refs: seq<Reference>): (tables: seq<Table>)
    ensures |tables| <= 16 && AliasesFit(tables)
  {
    if refs == [] then []
    else
      var before := Register(refs[..|refs| - 1]);
      var r := refs[|refs| - 1];
      if Known(before, r) || |before| == MAX_TABLES then before else before + [TableFor(r, |before|)]
  }

  /** Names that fit their buffers. */
  predicate Fitting(r: Reference) {
    |r.db| < 128 && |r.part| < 256 && |r.ks| < 128
  }

  predicate Plain(r: Reference) {
    Fitting(r) && '.' !in r.db && '.' !in r.part && '.' !in r.ks
  }

  function RefOf(t: Table): Reference { Reference(t.db, t.part, t.ks) }

  /** Every table stands for one of the references, under its own names and alias, and no two for the same. */
  ghost predicate WellRegistered(tables: seq<Table>, refs: seq<Reference>) {
    && |tables| <= MAX_TABLES
    && (forall i :: 0 <= i < |tables| ==> RefOf(tables[i]) in refs && tables[i] == TableFor(RefOf(tables[i]), i))
    && (forall i, j :: 0 <= i < j < |tables| ==> RefOf(tables[i]) != RefOf(tables[j]))
  }

  lemma {:induction false} RegisteredTables(refs: seq<Reference>)
    requires forall k :: 0 <= k < |refs| ==> Fitting(refs[k])
    ensures WellRegistered(Register(refs), refs)
  {
    if refs != [] {
      hide AliasesFit, TableFor, RefOf, Known, Fitting, WellRegistered;
      var front, r := refs[..|refs| - 1], refs[|refs| - 1];
      assert refs == front + [r];
      RegisteredTables(front);
      OneMoreReference(Register(front), front, r);
    } else {
      assert Register(refs) == [];
    }
  }

  lemma OneMoreReference(tables: seq<Table>, refs: seq<Reference>, r: Reference)
    requires WellRegistered(tables, refs) && Fitting(r)
    ensures WellRegistered(tables, refs + [r])
    ensures |tables| < MAX_TABLES && !Known(tables, r) ==> WellRegistered(tables + [TableFor(r, |tables|)], refs + [r])
  {
    if |tables| < MAX_TABLES && !Known(tables, r) {
      RefOfTable(r, |tables|);
      UnknownIsNew(tables, refs, r);
    }
    hide TableFor, RefOf, Known, Fitting;
  }

  lemma UnknownIsNew(tables: seq<Table>, refs: seq<Reference>, r: Reference)
    requires WellRegistered(tables, refs) && !Known(tables, r)
    ensures forall i :: 0 <= i < |tables| ==> RefOf(tables[i]) != r
  {
    hide AliasesFit;
    forall i | 0 <= i < |tables| ensures RefOf(tables[i]) != r {
      assert tables[i].pw == (tables[i].ks == "");
    }
  }

  /** Also where names were cut: each table has the alias of its place and a dotted name that fits its buffer. */
  lemma {:induction false} TablesAreNumbered(refs: seq<Reference>, i: nat)
    requires i < |Register(refs)|
    ensures exists r :: r in refs && Register(refs)[i] == TableFor(r, i)
  {
    hide TableFor, AliasesFit, Known;
    var front, r := refs[..|refs| - 1], refs[|refs| - 1];
    assert refs == front + [r];
    if i < |Register(front)| {
      TablesAreNumbered(front, i);
    }
  }

  lemma DotSeparates(a: string, r: string, b: string, q: string)
    requires '.' !in a && '.' !in b && a + "." + r == b + "." + q
    ensures a == b && r == q
  {
    var x, y := a + "." + r, b + "." + q;
    assert x[|a|] == '.' && y[|b|] == '.';
    assert forall k :: 0 <= k < |a| ==> x[k] == a[k];
    assert forall k :: 0 <= k < |b| ==> y[k] == b[k];
    assert |a| == |b|;
    assert x[..|a|] == a && y[..|b|] == b && x[|a| + 1..] == r && y[|b| + 1..] == q;
  }

  function DottedOf(r: Reference): string {
    if r.ks == "" then r.db + "." + r.part else r.db + "." + r.part + "." + r.ks
  }

  /** Dot-free names: a three-part name is the dotted name of no other reference, partition-wide or not. */
  lemma DottedNamesAreUnique(a: Reference, b: Reference)
    requires Plain(a) && Plain(b) && a.ks != "" && DottedOf(a) == DottedOf(b)
    ensures a == b
  {
    var tail, rest := a.part + "." + a.ks, if b.ks == "" then b.part else b.part + "." + b.ks;
    assert DottedOf(a) == a.db + "." + tail;
    assert DottedOf(b) == b.db + "." + rest;
    DotSeparates(a.db, tail, b.db, rest);
    assert tail[|a.part|] == '.';
    assert b.ks != "";
    DotSeparates(a.part, a.ks, b.part, b.ks);
  }

  /** Wherever the scan meets the names of a registered three-part reference, quoted and spaced as they may be, it puts
      that table's own alias if and only if no table registered before it has the same dotted name, and else the alias
      of the first that has. */
  lemma RegisteredReferenceGetsItsAliasExactly(refs: seq<Reference>, i: nat, s: string, p: nat, e: nat)
    requires i < |Register(refs)| && !Register(refs)[i].pw && p < |s|
    requires var t := Register(refs)[i]; Dotted(s, p, 3) == Some(([t.db, t.part, t.ks], e))
    ensures var tables := Register(refs);
            && tables[i].alias == AliasOf(i)
            && (NextPiece(s, p, tables) == Ref(i, p, e) <==> FirstOfItsName(tables, i))
            && NextPiece(s, p, tables).Ref? && NextPiece(s, p, tables).to == e
            && NextPiece(s, p, tables).table <= i && tables[NextPiece(s, p, tables).table].dotted == tables[i].dotted
  {
    hide Register, NextPiece, Dotted;
    var tables := Register(refs);
    TablesAreNumbered(refs, i);
    DottedFits(tables[i], refs, i);
    var first := FindTable(tables, tables[i].dotted, false, 0);
    ThreeNamesMatch(s, p, tables, [tables[i].db, tables[i].part, tables[i].ks], e, first.value);
  }

  ghost predicate FirstOfItsName(tables: seq<Table>, i: nat)
    requires i < |tables|
  {
    forall k :: 0 <= k < i ==> tables[k].dotted != tables[i].dotted
  }

  lemma DottedFits(t: Table, refs: seq<Reference>, i: nat)
    requires i < MAX_TABLES && !t.pw && exists r :: r in refs && t == TableFor(r, i)
    ensures Name3([t.db, t.part, t.ks]) == t.dotted && t.alias == AliasOf(i)
  {
  }

  /** For dot-free names that is always so, even beside a partition-wide table with the same first two names. */
  lemma RegisteredReferenceGetsItsAlias(refs: seq<Reference>, i: nat, s: string, p: nat, e: nat)
    requires forall k :: 0 <= k < |refs| ==> Plain(refs[k])
    requires i < |Register(refs)| && !Register(refs)[i].pw && p < |s|
    requires var t := Register(refs)[i]; Dotted(s, p, 3) == Some(([t.db, t.part, t.ks], e))
    ensures NextPiece(s, p, Register(refs)) == Ref(i, p, e) && Register(refs)[i].alias == AliasOf(i)
  {
    PlainNamesDiffer(refs, i);
    RegisteredReferenceGetsItsAliasExactly(refs, i, s, p, e);
  }

  lemma PlainNamesDiffer(refs: seq<Reference>, i: nat)
    requires forall k :: 0 <= k < |refs| ==> Plain(refs[k])
    requires i < |Register(refs)| && !Register(refs)[i].pw
    ensures FirstOfItsName(Register(refs), i)
  {
    hide Register;
    RegisteredTables(refs);
    var tables := Register(refs);
    forall k | 0 <= k < i ensures tables[k].dotted != tables[i].dotted {
      assert tables[k].dotted == DottedOf(RefOf(tables[k])) && tables[i].dotted == DottedOf(RefOf(tables[i]));
      if tables[k].dotted == tables[i].dotted { DottedNamesAreUnique(RefOf(tables[i]), RefOf(tables[k])); }
    }
  }

  /** Different references, one dotted name each time. */
  const TWINS: seq<Reference> := [Reference("a.b", "c", "d"), Reference("a", "b.c", "d")]
  const PARTITION_TWINS: seq<Reference> := [Reference("a", "b.c", ""), Reference("a", "b", "c")]

  /** Where dots are quoted into names it is not: the second of two such references gets the alias of the first. */
  lemma DotsMislead()
    ensures NextPiece("a.\"b.c\".d", 0, Register(TWINS)) == Ref(0, 0, 9)
    ensures NextPiece("a.b.c", 0, Register(PARTITION_TWINS)) == Ref(0, 0, 5)
  {
    hide Register, NextPiece, Dotted;
    TwinsRegister(TWINS);
    TwinsRegister(PARTITION_TWINS);
    assert "a" + "." + "b.c" + "." + "d" == "a.b" + "." + "c" + "." + "d";
    assert "a" + "." + "b.c" == "a" + "." + "b" + "." + "c";
    QuotedTwinIsRead("a.\"b.c\".d");
    PlainTwinIsRead("a.b.c");
    RegisteredReferenceGetsItsAliasExactly(TWINS, 1, "a.\"b.c\".d", 0, 9);
    RegisteredReferenceGetsItsAliasExactly(PARTITION_TWINS, 1, "a.b.c", 0, 5);
  }

  lemma QuotedTwinIsRead(s: string)
    requires s == "a.\"b.c\".d"
    ensures Dotted(s, 0, 3) == Some((["a", "b.c", "d"], 9))
  {
    assert WordEnd(s, 0) == WordEnd(s, 1) == 1 && WordEnd(s, 8) == WordEnd(s, 9) == 9;
    assert s[0..1] == "a" && s[8..9] == "d";
    assert ReadQuoted(s, 6, '"') == Some(("", 7)) && [s[5]] + "" == "c";
    assert ReadQuoted(s, 5, '"') == Some(("c", 7)) && [s[4]] + "c" == ".c";
    assert ReadQuoted(s, 4, '"') == Some((".c", 7)) && [s[3]] + ".c" == "b.c";
    assert ReadQuoted(s, 3, '"') == Some(("b.c", 7));
    assert SkipSpaces(s, 1) == 1 && SkipSpaces(s, 2) == 2 && SkipSpaces(s, 7) == 7 && SkipSpaces(s, 8) == 8;
    assert DotIdent(s, 1) == Some(("b.c", 7)) && DotIdent(s, 7) == Some(("d", 9));
    ThreeAreRead(s, 0, "a", 1, "b.c", 7, "d", 9);
  }

  lemma PlainTwinIsRead(s: string)
    requires s == "a.b.c"
    ensures Dotted(s, 0, 3) == Some((["a", "b", "c"], 5))
  {
    assert WordEnd(s, 0) == WordEnd(s, 1) == 1 && WordEnd(s, 2) == WordEnd(s, 3) == 3 && WordEnd(s, 4) == WordEnd(s, 5) == 5;
    assert s[0..1] == "a" && s[2..3] == "b" && s[4..5] == "c";
    assert SkipSpaces(s, 1) == 1 && SkipSpaces(s, 2) == 2 && SkipSpaces(s, 3) == 3 && SkipSpaces(s, 4) == 4;
    assert DotIdent(s, 1) == Some(("b", 3)) && DotIdent(s, 3) == Some(("c", 5));
    ThreeAreRead(s, 0, "a", 1, "b", 3, "c", 5);
  }

  lemma TwinsRegister(refs: seq<Reference>)
    requires |refs| == 2 && Fitting(refs[0]) && Fitting(refs[1]) && refs[0] != refs[1]
    ensures |Register(refs)| == 2 && Register(refs)[0] == TableFor(refs[0], 0) && Register(refs)[1] == TableFor(refs[1], 1)
  {
    hide Fitting, TableFor;
    DistinctAreRegistered(refs);
  }

  lemma ThreeNamesMatch(s: string, p: nat, tables: seq<Table>, names: seq<string>, e: nat, i: nat)
    requires p < |s| && Dotted(s, p, 3) == Some((names, e)) && FindTable(tables, Name3(names), false, 0) == Some(i)
    ensures NextPiece(s, p, tables) == Ref(i, p, e)
  {
    assert Dotted(s, p, 2).Some? && Dotted(s, p, 1).Some? && Ident(s, p).Some?;
  }

  /** eql_t0 to eql_t9, then eql_t10 to eql_t15. */
  lemma AliasNames(n: nat)
    requires n < 16
    ensures n < 10 ==> AliasOf(n) == "eql_t" + ['0' + n as char]
    ensures n >= 10 ==> AliasOf(n) == "eql_t1" + ['0' + (n - 10) as char]
  {
    assert "eql_t" + "1" == "eql_t1";
  }

  /** Every reference whose names fit has a table, unless sixteen others have. */
  lemma {:induction false} EveryReferenceIsRegistered(refs: seq<Reference>, r: Reference)
    requires r in refs && Fitting(r)
    ensures |Register(refs)| == 16 || exists i :: 0 <= i < |Register(refs)| && RefOf(Register(refs)[i]) == r
  {
    hide TableFor, AliasesFit, RefOf;
    var front, last := refs[..|refs| - 1], refs[|refs| - 1];
    assert refs == front + [last];
    var before := Register(front);
    if r in front {
      EveryReferenceIsRegistered(front, r);
      if i :| 0 <= i < |before| && RefOf(before[i]) == r {
        assert Register(refs)[i] == before[i];
      }
    } else {
      KnownRef(before, r);
      if |before| < 16 && !Known(before, r) {
        RefOfTable(r, |before|);
        assert Register(refs)[|before|] == TableFor(r, |before|);
      }
    }
  }

  lemma AliasesAreDistinct(m: nat, n: nat)
    requires m < n < MAX_TABLES
    ensures AliasOf(m) != AliasOf(n)
  {
    assert n < 10 ==> AliasOf(m)[5] != AliasOf(n)[5];
    assert m >= 10 ==> AliasOf(m)[6] != AliasOf(n)[6];
    assert m < 10 <= n ==> |AliasOf(m)| < |AliasOf(n)|;
  }

  /** The comment in the source has a partition-wide alias win only when the text stops after two names; the code
      does not look: of three names the first two are replaced exactly when they name such a table and the three
      name none. */
  lemma PrefixOfUnregisteredIsReplaced(s: string, p: nat, tables: seq<Table>, names: seq<string>, e: nat)
    requires p < |s| && Dotted(s, p, 3) == Some((names, e))
    ensures var x, two := NextPiece(s, p, tables), FindTable(tables, Name2(names[..2]), true, 0);
            && (x.Ref? && x.to < e <==> FindTable(tables, Name3(names), false, 0).None? && two.Some?)
            && (x.Ref? && x.to < e ==> two == Some(x.table))
  {
    hide Dotted, FindTable, Ident, Name2, Name3;
    ThreeHoldTwo(s, p, names, e);
  }

  lemma ThreeHoldTwo(s: string, p: nat, names: seq<string>, e: nat)
    requires p < |s| && Dotted(s, p, 3) == Some((names, e))
    ensures Dotted(s, p, 2).Some? && Dotted(s, p, 2).value.0 == names[..2] && Dotted(s, p, 2).value.1 < e
    ensures IsQuote(s[p]) || IsIdent(s[p])
    ensures At(s, p, '-', '-') == At(s, p, '/', '*') == false
  {
    hide Ident, DotIdent;
    assert Dotted(s, p, 2).Some? && Dotted(s, p, 1).Some? && Ident(s, p).Some?;
  }

  /** References that differ are all registered, in their order, up to sixteen. */
  lemma {:induction false} DistinctAreRegistered(refs: seq<Reference>)
    requires |refs| <= 16 && forall k :: 0 <= k < |refs| ==> Fitting(refs[k])
    requires forall j, k :: 0 <= j < k < |refs| ==> refs[j] != refs[k]
    ensures |Register(refs)| == |refs|
    ensures forall k :: 0 <= k < |refs| ==> Register(refs)[k] == TableFor(refs[k], k)
  {
    if refs != [] {
      hide TableFor, AliasesFit, Known, RefOf, Fitting;
      var front, r := refs[..|refs| - 1], refs[|refs| - 1];
      DistinctAreRegistered(front);
      var before := Register(front);
      forall k | 0 <= k < |front| ensures RefOf(before[k]) != r {
        RefOfTable(refs[k], k);
      }
      KnownRef(before, r);
    }
  }

  lemma RefOfTable(r: Reference, n: nat)
    requires Fitting(r) && n < MAX_TABLES
    ensures RefOf(TableFor(r, n)) == r
  {
  }

  lemma KnownRef(tables: seq<Table>, r: Reference)
    ensures Known(tables, r) ==> exists k :: 0 <= k < |tables| && RefOf(tables[k]) == r
  {
  }

  /** Ten references to keyspaces, then one to a partition. */
  const ELEVEN: seq<Reference> := seq(10, k requires 0 <= k < 10 => Reference(["0123456789"[k]], "p", "k")) + [Reference("a", "b", "")]

  /** The bound on the output is reached: the eleventh table has an alias of seven characters. */
  lemma BoundIsReached()
    ensures forall k :: 0 <= k < |ELEVEN| ==> Plain(ELEVEN[k])
    ensures exists s :: |s| > 0 && |Rewritten(s, 0, Register(ELEVEN))| == 2 * |s| + 1
  {
    ElevenTables();
    hide Register, FindTable, Rewritten;
    WholeReference("a.b", Register(ELEVEN), 10);
  }

  lemma ElevenTables()
    ensures var tables := Register(ELEVEN);
            |tables| == 11 && |tables[10].alias| == 7 && FindTable(tables, "a.b", true, 0) == Some(10)
    ensures forall k :: 0 <= k < |ELEVEN| ==> Plain(ELEVEN[k])
  {
    hide Register, AliasesFit;
    DistinctAreRegistered(ELEVEN);
    var tables := Register(ELEVEN);
    assert tables[10] == TableFor(ELEVEN[10], 10) && "a" + "." + "b" == "a.b";
    forall k | 0 <= k < 10 ensures !tables[k].pw {
      assert tables[k] == TableFor(ELEVEN[k], k) && ELEVEN[k].ks == "k";
    }
  }

  lemma WholeReference(s: string, tables: seq<Table>, i: nat)
    requires s == "a.b" && FindTable(tables, s, true, 0) == Some(i) && i < |tables|
    ensures NextPiece(s, 0, tables) == Ref(i, 0, 3) && Rewritten(s, 0, tables) == tables[i].alias
  {
    assert WordEnd(s, 2) == 3 && WordEnd(s, 0) == WordEnd(s, 1) == 1;
    assert Ident(s, 0) == Some((s[0..1], 1)) && Ident(s, 2) == Some((s[2..3], 3));
    assert s[0..1] == "a" && s[2..3] == "b";
    assert SkipSpaces(s, 1) == 1 && SkipSpaces(s, 2) == 2;
    assert DotIdent(s, 1) == Some(("b", 3));
    assert Dotted(s, 0, 1) == Some((["a"], 1));
    assert ["a"] + ["b"] == ["a", "b"];
    assert Dotted(s, 0, 2) == Some((["a", "b"], 3));
    assert SkipSpaces(s, 3) == 3 && DotIdent(s, 3) == None;
    assert Dotted(s, 0, 3) == None;
    assert "a" + "." + "b" == s;
    assert Name2(["a", "b"]) == s;
    assert Match(s, 0, tables) == Some((i, 3));
    assert Rewritten(s, 3, tables) == "";
  }
}
