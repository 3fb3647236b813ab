/** The hand-written scanner of the EQL engine (src/eql/epsilon_eql.c): a cursor over the statement text, and for
    each of its moves the function that says where it ends. */
module EqlScan {
  import opened Strings

  predicate IsIdent(c: char) {
    'a' <= c <= 'z' || 'A' <= c <= 'Z' || '0' <= c <= '9' || c == '_'
  }

  predicate IsSpace(c: char) {
    c == ' ' || '\t' <= c <= '\r'
  }

  predicate IsQuote(c: char) {
    c == '"' || c == '`' || c == '['
  }

  /** Two characters in a row. */
  predicate At(s: string, p: nat, c: char, d: char) {
    p + 1 < |s| && s[p] == c && s[p + 1] == d
  }

  function WordEnd(s: string, p: nat): (e: nat)
    requires p <= |s|
    ensures p <= e <= |s| && (e < |s| ==> !IsIdent(s[e])) && (p < |s| && IsIdent(s[p]) ==> p < e)
    decreases |s| - p
  {
    if p < |s| && IsIdent(s[p]) then WordEnd(s, p + 1) else p
  }

  /** An identifier that opened with `quote`, read from behind it; only a double quote is escaped by doubling. */
  function ReadQuoted(s: string, p: nat, quote: char): (r: Option<(string, nat)>)
    ensures r.Some? ==> p < r.value.1 <= |s|
    decreases |s| - p
  {
    if p >= |s| then None
    else if s[p] == quote && !(quote == '"' && At(s, p, '"', '"')) then Some(("", p + 1))
    else match ReadQuoted(s, if s[p] == quote then p + 2 else p + 1, quote)
      case None => None
      case Some((text, e)) => Some(([s[p]] + text, e))
  }

  /** The identifier at p with its quotes and escapes removed, and where it ends. */
  function Ident(s: string, p: nat): (r: Option<(string, nat)>)
    ensures r.Some? ==> p < r.value.1 <= |s| && (IsQuote(s[p]) || IsIdent(s[p]))
    ensures r.Some? && IsQuote(s[p]) ==> r.value.1 >= p + 2
    ensures r.Some? && IsIdent(s[p]) ==> r.value.1 == WordEnd(s, p)
  {
    if p >= |s| then None
    else if s[p] == '"' || s[p] == '`' then ReadQuoted(s, p + 1, s[p])
    else if s[p] == '[' then ReadQuoted(s, p + 1, ']')
    else if IsIdent(s[p]) then Some((s[p..WordEnd(s, p)], WordEnd(s, p)))
    else None
  }

  function LineEnd(s: string, p: nat): (e: nat)
    requires p <= |s|
    ensures p <= e <= |s| && (e < |s| ==> s[e] == '\n') && '\n' !in s[p..e]
    decreases |s| - p
  {
    if p < |s| && s[p] != '\n' then LineEnd(s, p + 1) else p
  }

  /** Behind the first star-slash at or after p, or the end of the text. */
  function CommentEnd(s: string, p: nat): (e: nat)
    requires p <= |s|
    ensures p <= e <= |s|
    decreases |s| - p
  {
    if p >= |s| then |s| else if At(s, p, '*', '/') then p + 2 else CommentEnd(s, p + 1)
  }

  function SkipSpaces(s: string, p: nat): (e: nat)
    requires p <= |s|
    ensures p <= e <= |s|
    decreases |s| - p
  {
    if p < |s| && IsSpace(s[p]) then SkipSpaces(s, p + 1)
    else if At(s, p, '-', '-') then assert LineEnd(s, p) > p; SkipSpaces(s, LineEnd(s, p))
    else if At(s, p, '/', '*') then SkipSpaces(s, CommentEnd(s, p + 2))
    else p
  }

  /** Where a literal that opened with `quote` ends, read from behind it: doubling escapes any quote, and inside
      a string literal so does a backslash. A bracket closes at the next opening bracket. */
  function QuotedEnd(s: string, p: nat, quote: char): (e: nat)
    requires p <= |s|
    ensures p <= e <= |s|
    decreases |s| - p
  {
    if p == |s| then p
    else if s[p] == quote then (if At(s, p, quote, quote) then QuotedEnd(s, p + 2, quote) else p + 1)
    else if quote == '\'' && s[p] == '\\' && p + 1 < |s| then QuotedEnd(s, p + 2, quote)
    else QuotedEnd(s, p + 1, quote)
  }

  function SkipQuoted(s: string, p: nat): (e: nat)
    requires p < |s|
    ensures p < e <= |s|
  {
    QuotedEnd(s, p + 1, s[p])
  }

  const NAME_BUFFER: nat := 256

  /** A dot, with blanks and comments around it, and an identifier. */
  function DotIdent(s: string, p: nat): (r: Option<(string, nat)>)
    requires p <= |s|
    ensures r.Some? ==> p + 2 <= r.value.1 <= |s|
  {
    var d := SkipSpaces(s, p);
    if d >= |s| || s[d] != '.' then None else Ident(s, SkipSpaces(s, d + 1))
  }

  /** `count` identifiers joined by dots, each as it fits its buffer. */
  function Dotted(s: string, p: nat, count: nat): (r: Option<(seq<string>, nat)>)
    requires count >= 1
    ensures r.Some? ==> |r.value.0| == count && p + 2 * count - 1 <= r.value.1 <= |s|
  {
    if count == 1 then
      match Ident(s, p)
      case None => None
      case Some((text, e)) => Some(([Clip(text, NAME_BUFFER)], e))
    else
      match Dotted(s, p, count - 1)
      case None => None
      case Some((names, e)) =>
        match DotIdent(s, e)
        case None => None
        case Some((text, e')) => Some((names + [Clip(text, NAME_BUFFER)], e'))
  }

  class Scanner {
    const sql: string
    var pos: nat

    constructor (sql: string, pos: nat)
      ensures this.sql == sql && this.pos == pos
    {
      this.sql, this.pos := sql, pos;
    }

    /** The quoted branches of read_ident, from behind the opening quote. */
    method ReadUntil(quote: char, start: nat, cap: nat) returns (ok: bool, out: string, p: nat)
      requires cap > 0
      ensures ok <==> ReadQuoted(sql, start, quote).Some?
      ensures ok ==> out == Clip(ReadQuoted(sql, start, quote).value.0, cap) && p == ReadQuoted(sql, start, quote).value.1
    {
      ok, out, p := false, "", start;
      ghost var text, whole := "", ReadQuoted(sql, start, quote);
      assert whole.Some? ==> "" + whole.value.0 == whole.value.0;
      while p < |sql|
        invariant out == Clip(text, cap) && whole == Behind(text, ReadQuoted(sql, p, quote))
        decreases |sql| - p
      {
        var ch := sql[p];
        var doubled := ch == quote && quote == '"' && p + 1 < |sql| && sql[p + 1] == '"';
        if ch == quote && !doubled {
          assert text + "" == text;
          return true, out, p + 1;
        }
        BehindOneMore(text, ch, ReadQuoted(sql, if doubled then p + 2 else p + 1, quote));
        if |out| + 1 < cap {
          out := out + [ch];
        }
        text := text + [ch];
        p := if doubled then p + 2 else p + 1;
      }
    }

    /** The bare branch of read_ident. */
    method ReadWord(start: nat, cap: nat) returns (out: string, p: nat)
      requires cap > 0 && start <= |sql|
      ensures p == WordEnd(sql, start) && out == Clip(sql[start..p], cap)
    {
      out, p := "", start;
      while p < |sql| && IsIdent(sql[p])
        invariant start <= p <= |sql| && WordEnd(sql, start) == WordEnd(sql, p)
        invariant out == Clip(sql[start..p], cap)
      {
        if |out| + 1 < cap {
          out := out + [sql[p]];
        }
        p := p + 1;
      }
    }

    /** read_ident: the text goes to a buffer of `cap` bytes; the cursor stays put when there is no identifier. */
    method ReadIdent(cap: nat) returns (ok: bool, out: string)
      requires cap > 0
      modifies this`pos
      ensures ok <==> Ident(sql, old(pos)).Some?
      ensures ok ==> out == Clip(Ident(sql, old(pos)).value.0, cap) && pos == Ident(sql, old(pos)).value.1
      ensures !ok ==> pos == old(pos)
    {
      hide ReadQuoted;
      ok, out := false, "";
      var p := pos;
      if p >= |sql| {
        return;
      }
      var c := sql[p];
      if IsQuote(c) {
        ok, out, p := ReadUntil(if c == '[' then ']' else c, p + 1, cap);
        if !ok {
          return;
        }
      } else {
        if !IsIdent(c) {
          return;
        }
        out, p := ReadWord(p, cap);
        ok := true;
      }
      pos := p;
    }

    method SkipSpacesComments()
      requires pos <= |sql|
      modifies this`pos
      ensures pos == SkipSpaces(sql, old(pos))
    {
      while true
        invariant pos <= |sql| && SkipSpaces(sql, pos) == SkipSpaces(sql, old(pos))
        decreases |sql| - pos
      {
        while pos < |sql| && IsSpace(sql[pos])
          invariant pos <= |sql| && SkipSpaces(sql, pos) == SkipSpaces(sql, old(pos))
        {
          pos := pos + 1;
        }
        if pos + 1 < |sql| && sql[pos] == '-' && sql[pos + 1] == '-' {
          ghost var start := pos;
          while pos < |sql| && sql[pos] != '\n'
            invariant start <= pos <= |sql| && LineEnd(sql, pos) == LineEnd(sql, start)
          {
            pos := pos + 1;
          }
          continue;
        }
        if pos + 1 < |sql| && sql[pos] == '/' && sql[pos + 1] == '*' {
          pos := CommentEnd(sql, pos + 2);
          continue;
        }
        return;
      }
    }

    method SkipQuotedRaw()
      requires pos < |sql|
      modifies this`pos
      ensures pos == SkipQuoted(sql, old(pos))
    {
      var quote := sql[pos];
      pos := pos + 1;
      while pos < |sql|
        invariant pos <= |sql| && QuotedEnd(sql, pos, quote) == SkipQuoted(sql, old(pos))
      {
        var c := sql[pos];
        if c == quote {
          if pos + 1 < |sql| && sql[pos + 1] == quote {
            pos := pos + 2;
            continue;
          }
          pos := pos + 1;
          return;
        }
        if quote == '\'' && c == '\\' && pos + 1 < |sql| {
          pos := pos + 1;
        }
        pos := pos + 1;
      }
    }

    method ReadDotIdent() returns (ok: bool, name: string)
      requires pos <= |sql|
      modifies this`pos
      ensures ok <==> DotIdent(sql, old(pos)).Some?
      ensures ok ==> name == Clip(DotIdent(sql, old(pos)).value.0, NAME_BUFFER) && pos == DotIdent(sql, old(pos)).value.1
    {
      SkipSpacesComments();
      if pos >= |sql| || sql[pos] != '.' {
        return false, "";
      }
      pos := pos + 1;
      SkipSpacesComments();
      ok, name := ReadIdent(NAME_BUFFER);
    }

    /** `count` dotted identifiers from the cursor on. */
    method ReadDotted(count: nat) returns (ok: bool, names: seq<string>)
      requires count >= 1 && pos < |sql|
      modifies this`pos
      ensures ok <==> Dotted(sql, old(pos), count).Some?
      ensures ok ==> (names, pos) == Dotted(sql, old(pos), count).value
    {
      hide Ident, DotIdent;
      DottedSteps(sql, pos);
      var name;
      ok, name := ReadIdent(NAME_BUFFER);
      names := [name];
      if !ok {
        DottedNeedsPrefix(sql, old(pos), 1, count);
        return;
      }
      for seg := 1 to count
        invariant pos <= |sql| && ok && Dotted(sql, old(pos), seg) == Some((names, pos))
      {
        ok, name := ReadDotIdent();
        if !ok {
          DottedNeedsPrefix(sql, old(pos), seg + 1, count);
          return;
        }
        names := names + [name];
      }
    }
  }

  lemma DottedSteps(s: string, p: nat)
    ensures Dotted(s, p, 1) == match Ident(s, p) case None => None case Some((text, e)) => Some(([Clip(text, NAME_BUFFER)], e))
  {
  }

  lemma {:induction false} DottedNeedsPrefix(s: string, p: nat, few: nat, many: nat)
    requires 1 <= few <= many && Dotted(s, p, few).None?
    ensures Dotted(s, p, many).None?
  {
    hide Ident, DotIdent;
    if few < many {
      DottedNeedsPrefix(s, p, few, many - 1);
    }
  }

  lemma BehindOneMore(text: string, c: char, r: Option<(string, nat)>)
    ensures Behind(text + [c], r) == Behind(text, Behind([c], r))
  {
    if r.Some? { assert text + [c] + r.value.0 == text + ([c] + r.value.0); }
  }

  /** The result of reading on, behind text that has been read already. */
  ghost function Behind(text: string, r: Option<(string, nat)>): Option<(string, nat)> {
    match r
    case None => None
    case Some((more, e)) => Some((text + more, e))
  }

  // ---------------------------------------------------------------------------------------------
  // What plain and quoted names are read as

  /** A name of letters, digits and underscores. */
  predicate BareName(name: string) {
    && 0 < |name| < 256
    && forall i :: 0 <= i < |name| ==> 'a' <= name[i] <= 'z' || 'A' <= name[i] <= 'Z' || '0' <= name[i] <= '9' || name[i] == '_'
  }

  /** text stands at p. */
  predicate StandsAt(s: string, p: nat, text: string) {
    p + |text| <= |s| && s[p..p + |text|] == text
  }

  /** Blanks, tabs, line feeds, vertical tabs, form feeds and carriage returns are skipped. */
  lemma {:induction false} BlanksAreSkipped(s: string, p: nat, e: nat)
    requires p <= e <= |s| && forall i :: p <= i < e ==> s[i] in {' ', '\t', '\n', 11 as char, 12 as char, '\r'}
    ensures SkipSpaces(s, p) == SkipSpaces(s, e)
    decreases e - p
  {
    if p < e { BlanksAreSkipped(s, p + 1, e); }
  }

  /** So is the rest of a line behind two dashes, */
  lemma LineCommentIsSkipped(s: string, p: nat, e: nat)
    requires At(s, p, '-', '-') && p < e <= |s| && (forall i :: p <= i < e ==> s[i] != '\n') && (e < |s| ==> s[e] == '\n')
    ensures SkipSpaces(s, p) == SkipSpaces(s, e)
  {
    LineEndIs(s, p, e);
  }

  lemma {:induction false} LineEndIs(s: string, p: nat, e: nat)
    requires p <= e <= |s| && (forall i :: p <= i < e ==> s[i] != '\n') && (e < |s| ==> s[e] == '\n')
    ensures LineEnd(s, p) == e
    decreases e - p
  {
    if p < e { LineEndIs(s, p + 1, e); }
  }

  /** and what is between slash-star and the next star-slash. */
  lemma BlockCommentIsSkipped(s: string, p: nat, e: nat)
    requires At(s, p, '/', '*') && p + 2 <= e && At(s, e, '*', '/') && forall i :: p + 2 <= i < e ==> !At(s, i, '*', '/')
    ensures SkipSpaces(s, p) == SkipSpaces(s, e + 2)
  {
    CommentEndIs(s, p + 2, e);
  }

  lemma {:induction false} CommentEndIs(s: string, p: nat, e: nat)
    requires p <= e && At(s, e, '*', '/') && forall i :: p <= i < e ==> !At(s, i, '*', '/')
    ensures CommentEnd(s, p) == e + 2
    decreases e - p
  {
    if p < e { CommentEndIs(s, p + 1, e); }
  }

  lemma {:induction false} WordEndIs(s: string, p: nat, e: nat)
    requires p <= e <= |s| && (forall i :: p <= i < e ==> IsIdent(s[i])) && (e < |s| ==> !IsIdent(s[e]))
    ensures WordEnd(s, p) == e
    decreases e - p
  {
    if p < e { WordEndIs(s, p + 1, e); }
  }

  lemma BareNameIsRead(s: string, p: nat, name: string)
    requires BareName(name) && StandsAt(s, p, name) && (p + |name| < |s| ==> !IsIdent(s[p + |name|]))
    ensures Ident(s, p) == Some((name, p + |name|))
  {
    var e := p + |name|;
    forall i | p <= i < e ensures IsIdent(s[i]) { assert s[i] == s[p..e][i - p]; }
    WordEndIs(s, p, e);
  }

  lemma {:induction false} ReadsUpTo(s: string, p: nat, name: string, quote: char)
    requires StandsAt(s, p, name + [quote]) && quote !in name
    requires quote == '"' ==> p + |name| + 1 >= |s| || s[p + |name| + 1] != '"'
    ensures ReadQuoted(s, p, quote) == Some((name, p + |name| + 1))
    decreases |name|
  {
    assert forall i :: 0 <= i <= |name| ==> s[p + i] == (s[p..p + |name| + 1])[i] == (name + [quote])[i];
    if name != "" {
      assert s[p] == name[0] && name[1..] + [quote] == (name + [quote])[1..];
      assert s[p + 1..p + 1 + |name[1..] + [quote]|] == s[p..p + |name| + 1][1..];
      ReadsUpTo(s, p + 1, name[1..], quote);
      assert [name[0]] + name[1..] == name;
    }
  }

  /** A name in double quotes, backquotes or brackets is what stands between them. */
  lemma QuotedNameIsRead(s: string, p: nat, name: string, open: char, close: char)
    requires (open, close) in {('"', '"'), ('`', '`'), ('[', ']')} && close !in name
    requires StandsAt(s, p, [open] + name + [close])
    requires open == '"' ==> p + |name| + 2 >= |s| || s[p + |name| + 2] != '"'
    ensures Ident(s, p) == Some((name, p + |name| + 2))
  {
    var all := [open] + name + [close];
    assert s[p] == s[p..p + |all|][0] == open;
    assert s[p + 1..p + 1 + |name + [close]|] == s[p..p + |all|][1..] == name + [close];
    ReadsUpTo(s, p + 1, name, close);
  }

  /** A dot and a name right behind it. */
  lemma DotNameIsRead(s: string, p: nat, name: string)
    requires BareName(name) && StandsAt(s, p, "." + name) && (p + 1 + |name| < |s| ==> !IsIdent(s[p + 1 + |name|]))
    ensures DotIdent(s, p) == Some((name, p + 1 + |name|))
  {
    var all := "." + name;
    assert s[p] == s[p..p + |all|][0] == '.';
    assert s[p + 1..p + 1 + |name|] == s[p..p + |all|][1..] == name;
    assert s[p + 1] == name[0];
    assert SkipSpaces(s, p) == p && SkipSpaces(s, p + 1) == p + 1;
    BareNameIsRead(s, p + 1, name);
  }

  /** The text db.part.ks, where no further character of a name follows, is read as those three names. */
  lemma ThreeNamesAreRead(s: string, p: nat, db: string, part: string, ks: string)
    requires BareName(db) && BareName(part) && BareName(ks) && StandsAt(s, p, db + "." + part + "." + ks)
    requires var e := p + |db| + |part| + |ks| + 2; e < |s| ==> !IsIdent(s[e])
    ensures Dotted(s, p, 3) == Some(([db, part, ks], p + |db| + |part| + |ks| + 2))
  {
    hide BareName, Ident, DotIdent;
    ShortNames(db, part, ks);
    var i, j := p + |db|, p + |db| + 1 + |part|;
    InParts(s, p, db, "." + part, "." + ks);
    assert db + ("." + part) + ("." + ks) == db + "." + part + "." + ks;
    FirstOf(s, i, "." + part);
    FirstOf(s, j, "." + ks);
    BareNameIsRead(s, p, db);
    DotNameIsRead(s, i, part);
    DotNameIsRead(s, j, ks);
    ThreeAreRead(s, p, db, i, part, j, ks, j + 1 + |ks|);
  }

  lemma InParts(s: string, p: nat, a: string, b: string, c: string)
    requires StandsAt(s, p, a + b + c)
    ensures StandsAt(s, p, a) && StandsAt(s, p + |a|, b) && StandsAt(s, p + |a| + |b|, c)
  {
    var all := a + b + c;
    assert s[p..p + |a|] == s[p..p + |all|][..|a|] == a;
    assert s[p + |a|..p + |a| + |b|] == s[p..p + |all|][|a|..|a| + |b|] == b;
    assert s[p + |a| + |b|..p + |all|] == s[p..p + |all|][|a| + |b|..] == c;
  }

  lemma FirstOf(s: string, p: nat, text: string)
    requires StandsAt(s, p, text) && text != ""
    ensures s[p] == text[0]
  {
    assert s[p] == s[p..p + |text|][0];
  }

  lemma ShortNames(a: string, b: string, c: string)
    requires BareName(a) && BareName(b) && BareName(c)
    ensures |a| < NAME_BUFFER && |b| < NAME_BUFFER && |c| < NAME_BUFFER
  {
  }

  lemma TwoAreRead(s: string, p: nat, x: string, i: nat, y: string, j: nat)
    requires |x| < NAME_BUFFER && |y| < NAME_BUFFER && i <= |s|
    requires Ident(s, p) == Some((x, i)) && DotIdent(s, i) == Some((y, j))
    ensures Dotted(s, p, 2) == Some(([x, y], j))
  {
    hide Ident, DotIdent;
    assert Dotted(s, p, 1) == Some(([x], i));
    assert [x] + [y] == [x, y];
  }

  lemma ThreeAreRead(s: string, p: nat, x: string, i: nat, y: string, j: nat, z: string, k: nat)
    requires |x| < NAME_BUFFER && |y| < NAME_BUFFER && |z| < NAME_BUFFER && i <= |s| && j <= |s|
    requires Ident(s, p) == Some((x, i)) && DotIdent(s, i) == Some((y, j)) && DotIdent(s, j) == Some((z, k))
    ensures Dotted(s, p, 3) == Some(([x, y, z], k))
  {
    hide Ident, DotIdent;
    TwoAreRead(s, p, x, i, y, j);
    assert [x, y] + [z] == [x, y, z];
  }
}
