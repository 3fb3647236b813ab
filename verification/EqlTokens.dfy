/** The scanner of the EQL engine against SQL's own reading of the statement: where the two agree on what is a
    literal, a quoted name or a comment, and what that means for the references that are rewritten. */
module EqlTokens {
  import opened Strings
  import opened EqlScan
  import opened EqlRewrite

  // ---------------------------------------------------------------------------------------------
  // SQL's own reading, character by character

  /** Where a reader of SQL is: in code, in a comment, or in a literal or quoted name that ends with `close`. */
  datatype Mode = Code | Line | BlockOpen | Block | BlockClose | Quoted(close: char) | Doubled(close: char)

  /** What closes a literal or name that opens with c. */
  function Closer(c: char): char { if c == '[' then ']' else c }

  predicate Opens(c: char) { c == '\'' || IsQuote(c) }

  /** The mode behind the character at p. Doubling escapes every quote but a bracket; a backslash is an ordinary
      character. */
  function Step(m: Mode, s: string, p: nat): Mode
    requires p < |s|
  {
    match m
    case Code =>
      if Opens(s[p]) then Quoted(Closer(s[p]))
      else if At(s, p, '-', '-') then Line
      else if At(s, p, '/', '*') then BlockOpen
      else Code
    case Line => if p + 1 < |s| && s[p + 1] == '\n' then Code else Line
    case BlockOpen => Block
    case Block => if At(s, p, '*', '/') then BlockClose else Block
    case BlockClose => Code
    case Quoted(close) => if s[p] != close then m else if close != ']' && At(s, p, close, close) then Doubled(close) else Code
    case Doubled(close) => Quoted(close)
  }

  function ModeAt(s: string, p: nat): Mode
    requires p <= |s|
  {
    if p == 0 then Code else Step(ModeAt(s, p - 1), s, p - 1)
  }

  /** A place where SQL expects code, or the end of the text. */
  predicate InCode(s: string, p: nat) {
    p <= |s| && (p == |s| || ModeAt(s, p) == Code)
  }

  // ---------------------------------------------------------------------------------------------
  // The same reading, token by token

  /** Behind the quote that closes a literal or name, read from inside it; the end of the text if none does. */
  function CloseEnd(s: string, p: nat, close: char): (e: nat)
    requires p <= |s|
    ensures p <= e <= |s| && (p < |s| ==> p < e)
    decreases |s| - p
  {
    if p == |s| then p
    else if s[p] != close then CloseEnd(s, p + 1, close)
    else if close != ']' && At(s, p, close, close) then CloseEnd(s, p + 2, close)
    else p + 1
  }

  /** The end of the literal, quoted name, comment, word or single character that starts at p. */
  function TokenEnd(s: string, p: nat): (e: nat)
    requires p < |s|
    ensures p < e <= |s|
  {
    if Opens(s[p]) then CloseEnd(s, p + 1, Closer(s[p]))
    else if At(s, p, '-', '-') then assert LineEnd(s, p) > p; LineEnd(s, p)
    else if At(s, p, '/', '*') then CommentEnd(s, p + 2)
    else if IsIdent(s[p]) then WordEnd(s, p)
    else p + 1
  }

  /** SQL's tokens from p on, each as the piece that copies it. */
  function Tokens(s: string, p: nat): seq<Piece>
    requires p <= |s|
    decreases |s| - p
  {
    if p == |s| then [] else [Copy(p, TokenEnd(s, p))] + Tokens(s, TokenEnd(s, p))
  }

  /** A token that starts at p ends at q, or the next one does, and so on. */
  ghost predicate Reaches(s: string, p: nat, q: nat)
    requires p <= |s|
    decreases |s| - p
  {
    p == q || (p < q && p < |s| && Reaches(s, TokenEnd(s, p), q))
  }

  lemma {:induction false} ReachOn(s: string, p: nat, q: nat, r: nat)
    requires p <= |s| && q <= |s| && Reaches(s, p, q) && Reaches(s, q, r)
    ensures Reaches(s, p, r)
    decreases |s| - p
  {
    hide TokenEnd;
    if p < q { ReachOn(s, TokenEnd(s, p), q, r); ReachForward(s, TokenEnd(s, p), r); }
  }

  lemma {:induction false} ReachForward(s: string, p: nat, q: nat)
    requires p <= |s| && Reaches(s, p, q)
    ensures p <= q <= |s|
    decreases |s| - p
  {
    hide TokenEnd;
    if p < q { ReachForward(s, TokenEnd(s, p), q); }
  }

  /** There is one chain of tokens: of two places on it the later is reached from the earlier. */
  lemma {:induction false} ReachBetween(s: string, p: nat, q: nat, r: nat)
    requires p <= |s| && q <= r && q <= |s| && Reaches(s, p, q) && Reaches(s, p, r)
    ensures Reaches(s, q, r)
    decreases |s| - p
  {
    hide TokenEnd;
    if p < q { ReachBetween(s, TokenEnd(s, p), q, r); }
  }

  /** The tokens from a place that is reached are among the tokens from the start. */
  lemma {:induction false} LaterTokens(s: string, p: nat, q: nat)
    requires p <= |s| && q <= |s| && Reaches(s, p, q)
    ensures forall t :: t in Tokens(s, q) ==> t in Tokens(s, p)
    decreases |s| - p
  {
    hide TokenEnd;
    if p < q { LaterTokens(s, TokenEnd(s, p), q); }
  }

  // ---------------------------------------------------------------------------------------------
  // The two readings of SQL are one

  lemma {:induction false} ClosesInCode(s: string, p: nat, close: char)
    requires p <= |s| && ModeAt(s, p) == Quoted(close)
    ensures InCode(s, CloseEnd(s, p, close))
    ensures forall q :: p <= q < CloseEnd(s, p, close) ==> ModeAt(s, q) != Code
    decreases |s| - p
  {
    if p < |s| {
      assert ModeAt(s, p + 1) == Step(Quoted(close), s, p);
      if s[p] != close {
        ClosesInCode(s, p + 1, close);
      } else if close != ']' && At(s, p, close, close) {
        assert ModeAt(s, p + 2) == Quoted(close);
        ClosesInCode(s, p + 2, close);
      }
    }
  }

  lemma {:induction false} LineEndsInCode(s: string, p: nat)
    requires p < |s| && ModeAt(s, p) == Line && s[p] != '\n'
    ensures InCode(s, LineEnd(s, p))
    ensures forall q :: p <= q < LineEnd(s, p) ==> ModeAt(s, q) != Code
    decreases |s| - p
  {
    assert ModeAt(s, p + 1) == Step(Line, s, p);
    if p + 1 < |s| && s[p + 1] != '\n' {
      LineEndsInCode(s, p + 1);
    }
  }

  lemma {:induction false} BlockEndsInCode(s: string, p: nat)
    requires p <= |s| && (p == |s| || ModeAt(s, p) == Block)
    ensures InCode(s, CommentEnd(s, p))
    ensures forall q :: p <= q < CommentEnd(s, p) ==> ModeAt(s, q) != Code
    decreases |s| - p
  {
    if p < |s| {
      assert ModeAt(s, p + 1) == Step(Block, s, p);
      if At(s, p, '*', '/') {
        assert ModeAt(s, p + 2) == Step(BlockClose, s, p + 1);
      } else {
        BlockEndsInCode(s, p + 1);
      }
    }
  }

  lemma {:induction false} WordEndsInCode(s: string, p: nat)
    requires InCode(s, p)
    ensures InCode(s, WordEnd(s, p))
    ensures forall q :: p <= q < WordEnd(s, p) ==> IsIdent(s[q])
    decreases |s| - p
  {
    if p < |s| && IsIdent(s[p]) {
      assert ModeAt(s, p + 1) == Step(Code, s, p);
      WordEndsInCode(s, p + 1);
    }
  }

  /** A token ends in code, and inside it there is none but within a word. */
  lemma TokenEndsInCode(s: string, p: nat)
    requires p < |s| && ModeAt(s, p) == Code
    ensures InCode(s, TokenEnd(s, p))
    ensures forall q :: p < q < TokenEnd(s, p) && ModeAt(s, q) == Code ==> IsIdent(s[q - 1]) && IsIdent(s[q])
    ensures Opens(s[p]) ==> forall q :: p < q < TokenEnd(s, p) ==> ModeAt(s, q) != Code
  {
    if Opens(s[p]) {
      hide CommentEnd, LineEnd, WordEnd;
      assert ModeAt(s, p + 1) == Step(Code, s, p);
      ClosesInCode(s, p + 1, Closer(s[p]));
    } else if At(s, p, '-', '-') || At(s, p, '/', '*') {
      CommentsEnd(s, p);
    } else {
      hide CommentEnd, LineEnd, CloseEnd;
      assert ModeAt(s, p + 1) == Step(Code, s, p);
      WordEndsInCode(s, p);
    }
  }

  lemma CommentsEnd(s: string, p: nat)
    requires p < |s| && ModeAt(s, p) == Code
    ensures At(s, p, '-', '-') ==> LineEnd(s, p) > p && InCode(s, LineEnd(s, p))
    ensures At(s, p, '-', '-') ==> forall q :: p < q < LineEnd(s, p) ==> ModeAt(s, q) != Code
    ensures At(s, p, '/', '*') ==> InCode(s, CommentEnd(s, p + 2))
    ensures At(s, p, '/', '*') ==> forall q :: p < q < CommentEnd(s, p + 2) ==> ModeAt(s, q) != Code
  {
    hide CommentEnd;
    assert ModeAt(s, p + 1) == Step(Code, s, p);
    if At(s, p, '-', '-') { LineEndsInCode(s, p + 1); }
    if At(s, p, '/', '*') {
      assert ModeAt(s, p + 2) == Step(BlockOpen, s, p + 1);
      BlockEndsInCode(s, p + 2);
    }
  }

  lemma {:induction false} ReachedIsCode(s: string, p: nat, q: nat)
    requires InCode(s, p) && Reaches(s, p, q)
    ensures InCode(s, q)
    decreases |s| - p
  {
    hide TokenEnd, ModeAt;
    if p < q {
      TokenEndsInCode(s, p);
      ReachedIsCode(s, TokenEnd(s, p), q);
    }
  }

  /** Tokens start exactly in code, and not within a word. */
  lemma {:induction false} TokenStarts(s: string, p: nat, q: nat)
    requires InCode(s, p) && p <= q < |s| && ModeAt(s, q) == Code
    requires p < q ==> !(IsIdent(s[q - 1]) && IsIdent(s[q]))
    ensures Reaches(s, p, q)
    decreases |s| - p
  {
    hide TokenEnd, ModeAt;
    if p < q {
      TokenEndsInCode(s, p);
      TokenStarts(s, TokenEnd(s, p), q);
    }
  }

  // ---------------------------------------------------------------------------------------------
  // Where the scanner skips as SQL does

  /** From p on there is nothing but quotes. */
  ghost predicate QuotesToTheEnd(s: string, p: nat) {
    forall k :: p <= k < |s| ==> s[k] == '\''
  }

  /** The rest of a literal, read from inside it, holds no quote behind an odd run of backslashes, unless nothing
      but quotes follows up to the end of the text. */
  ghost predicate NoEscapedQuote(s: string, p: nat)
    requires p <= |s|
    decreases |s| - p
  {
    if p == |s| then true
    else if At(s, p, '\'', '\'') then NoEscapedQuote(s, p + 2)
    else if s[p] == '\'' then true
    else if At(s, p, '\\', '\'') then QuotesToTheEnd(s, p + 1)
    else if s[p] == '\\' && p + 1 < |s| then NoEscapedQuote(s, p + 2)
    else NoEscapedQuote(s, p + 1)
  }

  /** What the scanner and SQL make of a quote that a backslash escapes: one of them is always one quote ahead. */
  lemma {:induction false} OneQuoteAhead(s: string, p: nat)
    requires p < |s| && s[p] == '\''
    ensures QuotedEnd(s, p + 1, '\'') == CloseEnd(s, p, '\'') <==> QuotesToTheEnd(s, p)
    decreases |s| - p
  {
    if At(s, p, '\'', '\'') {
      if At(s, p + 1, '\'', '\'') {
        OneQuoteAhead(s, p + 2);
        assert QuotesToTheEnd(s, p) <==> QuotesToTheEnd(s, p + 2);
      } else {
        assert p + 2 < |s| ==> s[p + 2] != '\'';
      }
    } else {
      assert p + 1 < |s| ==> s[p + 1] != '\'' && QuotedEnd(s, p + 1, '\'') > p + 1;
    }
  }

  /** The scanner finds the end of a literal exactly when no quote in it is escaped. */
  lemma {:induction false} LiteralSkippedExactly(s: string, p: nat)
    requires p <= |s|
    ensures QuotedEnd(s, p, '\'') == CloseEnd(s, p, '\'') <==> NoEscapedQuote(s, p)
    decreases |s| - p
  {
    if p < |s| {
      if At(s, p, '\'', '\'') {
        LiteralSkippedExactly(s, p + 2);
      } else if At(s, p, '\\', '\'') {
        OneQuoteAhead(s, p + 1);
      } else if s[p] == '\\' && p + 1 < |s| {
        LiteralSkippedExactly(s, p + 2);
        assert CloseEnd(s, p, '\'') == CloseEnd(s, p + 1, '\'') == CloseEnd(s, p + 2, '\'');
      } else if s[p] != '\'' {
        LiteralSkippedExactly(s, p + 1);
      }
    }
  }

  /** Names in double quotes and backquotes are skipped as SQL reads them. */
  lemma {:induction false} NameSkipped(s: string, p: nat, quote: char)
    requires p <= |s| && (quote == '"' || quote == '`')
    ensures QuotedEnd(s, p, quote) == CloseEnd(s, p, quote)
    decreases |s| - p
  {
    if p < |s| {
      if At(s, p, quote, quote) { NameSkipped(s, p + 2, quote); }
      else if s[p] != quote { NameSkipped(s, p + 1, quote); }
    }
  }

  lemma {:induction false} BracketEnds(s: string, p: nat)
    requires p <= |s|
    ensures QuotedEnd(s, p, '[') < |s| ==> p < QuotedEnd(s, p, '[') && s[QuotedEnd(s, p, '[') - 1] == '['
    ensures CloseEnd(s, p, ']') < |s| ==> p < CloseEnd(s, p, ']') && s[CloseEnd(s, p, ']') - 1] == ']'
    decreases |s| - p
  {
    if p < |s| {
      BracketEnds(s, p + 1);
      if p + 2 <= |s| { BracketEnds(s, p + 2); }
    }
  }

  /** What may stand at p without misleading the scanner into code that is none: a literal without escaped quote,
      and an opening bracket behind which no other is left to stop the skip. */
  ghost predicate Calm(s: string, p: nat)
    requires p < |s|
  {
    && (s[p] == '\'' ==> NoEscapedQuote(s, p + 1))
    && (s[p] == '[' ==> SkipQuoted(s, p) == |s|)
  }

  /** Every token of the text from p on is calm. */
  ghost predicate Quiet(s: string, p: nat)
    requires p <= |s|
  {
    forall t :: t in Tokens(s, p) ==> t.from < |s| && Calm(s, t.from)
  }

  /** And no bracketed name ends before the text does. */
  ghost predicate Harmless(s: string, p: nat)
    requires p <= |s|
  {
    Quiet(s, p) && forall t :: t in Tokens(s, p) && t.from < |s| && s[t.from] == '[' ==> t.to == |s|
  }

  lemma CalmSteps(s: string, p: nat)
    requires p < |s|
    ensures Quiet(s, p) <==> Calm(s, p) && Quiet(s, TokenEnd(s, p))
    ensures Harmless(s, p) <==> Calm(s, p) && (s[p] == '[' ==> TokenEnd(s, p) == |s|) && Harmless(s, TokenEnd(s, p))
  {
    hide TokenEnd, Calm;
    var t := Copy(p, TokenEnd(s, p));
    assert Tokens(s, p) == [t] + Tokens(s, t.to) && t in Tokens(s, p);
  }

  lemma SkipIsToken(s: string, p: nat)
    requires p < |s| && Opens(s[p])
    ensures SkipQuoted(s, p) == TokenEnd(s, p) <==> Calm(s, p) && (s[p] == '[' ==> TokenEnd(s, p) == |s|)
  {
    if s[p] == '\'' {
      LiteralSkippedExactly(s, p + 1);
    } else if s[p] == '[' {
      BracketEnds(s, p + 1);
    } else {
      NameSkipped(s, p + 1, s[p]);
    }
  }

  /** A piece that is copied is SQL's token exactly when the token is harmless. */
  lemma CopyIsToken(s: string, p: nat, tables: seq<Table>)
    requires p < |s| && NextPiece(s, p, tables).Copy?
    ensures NextPiece(s, p, tables).to == TokenEnd(s, p) <==> Calm(s, p) && (s[p] == '[' ==> TokenEnd(s, p) == |s|)
    ensures s[p] == '[' ==> NextPiece(s, p, tables).to == SkipQuoted(s, p)
  {
    hide Match, SkipQuoted, LineEnd, CommentEnd, WordEnd, CloseEnd;
    if Opens(s[p]) {
      SkipIsToken(s, p);
    }
  }

  /** The scanner cuts the text into SQL's own tokens if and only if the text is harmless. */
  lemma {:induction false} ScansAsSqlExactly(s: string, p: nat)
    requires p <= |s|
    ensures Pieces(s, p, []) == Tokens(s, p) <==> Harmless(s, p)
    decreases |s| - p
  {
    if p < |s| {
      hide TokenEnd, NextPiece, Calm, Harmless;
      CalmSteps(s, p);
      NothingToMatch(s, p);
      CopyIsToken(s, p, []);
      var x, t := NextPiece(s, p, []), Copy(p, TokenEnd(s, p));
      assert Pieces(s, p, []) == [x] + Pieces(s, x.to, []) && Tokens(s, p) == [t] + Tokens(s, t.to);
      if x == t {
        ScansAsSqlExactly(s, t.to);
        assert Pieces(s, p, [])[1..] == Pieces(s, x.to, []) && Tokens(s, p)[1..] == Tokens(s, t.to);
      } else {
        assert Pieces(s, p, [])[0] != Tokens(s, p)[0];
      }
    }
  }

  lemma NothingToMatch(s: string, p: nat)
    requires p < |s|
    ensures NextPiece(s, p, []).Copy?
  {
  }

  /** And if it is not, it shows: some piece begins inside a literal or a name, or the piece that copies a literal or
      a name runs on behind its end. */
  lemma MisreadingShowsExactly(s: string)
    ensures !Harmless(s, 0) <==> exists x :: x in Pieces(s, 0, []) && Misread(s, x)
  {
    hide Harmless, Misread;
    ScansAsSqlExactly(s, 0);
    if Harmless(s, 0) {
      TokensAreReadWell(s, 0);
    } else {
      MisreadingShows(s, 0);
    }
  }

  ghost predicate Misread(s: string, x: Piece) {
    x.from < |s| && (ModeAt(s, x.from) != Code || TokenEnd(s, x.from) < x.to)
  }

  lemma {:induction false} TokensAreReadWell(s: string, p: nat)
    requires InCode(s, p)
    ensures forall t :: t in Tokens(s, p) ==> !Misread(s, t)
    decreases |s| - p
  {
    if p < |s| {
      hide TokenEnd, ModeAt;
      TokenEndsInCode(s, p);
      TokensAreReadWell(s, TokenEnd(s, p));
    }
  }

  lemma {:induction false} MisreadingShows(s: string, p: nat)
    requires InCode(s, p) && !Harmless(s, p)
    ensures exists x :: x in Pieces(s, p, []) && Misread(s, x)
    decreases |s| - p
  {
    if p < |s| {
      hide TokenEnd, NextPiece, Calm, Harmless, ModeAt, Misread;
      var x := NextPiece(s, p, []);
      assert Pieces(s, p, []) == [x] + Pieces(s, x.to, []) && x in Pieces(s, p, []);
      CalmSteps(s, p);
      NothingToMatch(s, p);
      CopyIsToken(s, p, []);
      if x.to == TokenEnd(s, p) {
        TokenEndsInCode(s, p);
        MisreadingShows(s, x.to);
        var y :| y in Pieces(s, x.to, []) && Misread(s, y);
        assert y in Pieces(s, p, []);
      } else {
        MisreadHere(s, p);
        if !Misread(s, x) {
          var y := Pieces(s, x.to, [])[0];
          assert y in Pieces(s, p, []);
        }
      }
    }
  }

  lemma MisreadHere(s: string, p: nat)
    requires p < |s| && ModeAt(s, p) == Code && NextPiece(s, p, []).to != TokenEnd(s, p)
    ensures var x := NextPiece(s, p, []);
            Misread(s, x) || (x.to < |s| && Misread(s, NextPiece(s, x.to, [])))
  {
    hide ModeAt, TokenEnd;
    TokenEndsInCode(s, p);
    NothingToMatch(s, p);
    CopyIsToken(s, p, []);
    var x := NextPiece(s, p, []);
    assert Opens(s[p]);
    assert x.to < TokenEnd(s, p) ==> x.to < |s| && ModeAt(s, x.to) != Code;
  }

  // ---------------------------------------------------------------------------------------------
  // References end where tokens end

  /** A backquoted name is read up to its first backquote, also where SQL reads two of them as one in the name. */
  predicate Splits(s: string, e: nat) {
    e > 0 && At(s, e - 1, '`', '`')
  }

  lemma {:induction false} SpacesReach(s: string, p: nat)
    requires p <= |s|
    ensures Reaches(s, p, SkipSpaces(s, p))
    decreases |s| - p
  {
    hide CommentEnd, LineEnd, CloseEnd, WordEnd;
    if p < |s| {
      if IsSpace(s[p]) {
        SpacesReach(s, p + 1);
      } else if At(s, p, '-', '-') {
        assert LineEnd(s, p) > p by { CommentMoves(s, p); }
        SpacesReach(s, LineEnd(s, p));
      } else if At(s, p, '/', '*') {
        SpacesReach(s, CommentEnd(s, p + 2));
      }
    }
  }

  lemma CommentMoves(s: string, p: nat)
    requires At(s, p, '-', '-')
    ensures LineEnd(s, p) > p
  {
  }

  lemma {:induction false} QuotedReads(s: string, p: nat, quote: char)
    requires p <= |s| && ModeAt(s, p) == Quoted(quote) && (quote == '"' || quote == '`' || quote == ']')
    requires ReadQuoted(s, p, quote).Some?
    ensures var e := ReadQuoted(s, p, quote).value.1;
            s[e - 1] == quote && if Splits(s, e) then ModeAt(s, e) == Doubled('`') else e == CloseEnd(s, p, quote)
    decreases |s| - p
  {
    assert ModeAt(s, p + 1) == Step(Quoted(quote), s, p);
    if s[p] != quote {
      QuotedReads(s, p + 1, quote);
    } else if quote == '"' && At(s, p, '"', '"') {
      assert ModeAt(s, p + 2) == Quoted(quote);
      QuotedReads(s, p + 2, quote);
    }
  }

  lemma IdentEnds(s: string, p: nat)
    requires InCode(s, p) && Ident(s, p).Some?
    ensures var e := Ident(s, p).value.1;
            if Splits(s, e) then ModeAt(s, e) == Doubled('`') else e == TokenEnd(s, p)
  {
    hide ReadQuoted, WordEnd, CloseEnd;
    if IsQuote(s[p]) {
      assert ModeAt(s, p + 1) == Step(Code, s, p);
      QuotedReads(s, p + 1, Closer(s[p]));
    } else {
      WordEndsInCode(s, p);
    }
  }

  lemma DotIdentEnds(s: string, p: nat)
    requires InCode(s, p) && DotIdent(s, p).Some?
    ensures var e := DotIdent(s, p).value.1;
            if Splits(s, e) then ModeAt(s, e) == Doubled('`') else Reaches(s, p, e)
  {
    hide ModeAt, SkipSpaces, Ident;
    var d := SkipSpaces(s, p);
    var q := SkipSpaces(s, d + 1);
    SpacesReach(s, p);
    SpacesReach(s, d + 1);
    assert Reaches(s, d, d + 1);
    assert TokenEnd(s, d) == d + 1;
    ReachForward(s, d + 1, q);
    ReachOn(s, d, d + 1, q);
    ReachOn(s, p, d, q);
    ReachedIsCode(s, p, q);
    IdentEnds(s, q);
    var e := Ident(s, q).value.1;
    if !Splits(s, e) {
      assert Reaches(s, e, e) && Reaches(s, q, e);
      ReachOn(s, p, q, e);
    }
  }

  lemma {:induction false} DottedEnds(s: string, p: nat, count: nat)
    requires InCode(s, p) && count >= 1 && Dotted(s, p, count).Some?
    ensures var e := Dotted(s, p, count).value.1;
            if Splits(s, e) then ModeAt(s, e) == Doubled('`') else Reaches(s, p, e)
  {
    hide Ident, DotIdent, ModeAt, TokenEnd;
    if count == 1 {
      IdentEnds(s, p);
      var e := Ident(s, p).value.1;
      assert Reaches(s, e, e);
    } else {
      DottedEnds(s, p, count - 1);
      var d, e := Dotted(s, p, count - 1).value.1, Dotted(s, p, count).value.1;
      NoDotBehindSplit(s, d);
      ReachedIsCode(s, p, d);
      DotIdentEnds(s, d);
      if !Splits(s, e) { ReachOn(s, p, d, e); }
    }
  }

  lemma NoDotBehindSplit(s: string, p: nat)
    requires p <= |s| && DotIdent(s, p).Some?
    ensures !Splits(s, p)
  {
  }

  lemma ReferenceEnds(s: string, p: nat, tables: seq<Table>)
    requires p < |s| && ModeAt(s, p) == Code && NextPiece(s, p, tables).Ref?
    ensures var e := NextPiece(s, p, tables).to;
            if Splits(s, e) then e < |s| && ModeAt(s, e) != Code else Reaches(s, p, e)
  {
    hide Dotted, ModeAt;
    DottedEnds(s, p, if MatchThree(s, p, tables).Some? then 3 else 2);
  }

  // ---------------------------------------------------------------------------------------------
  // What that means for the rewriting

  /** In quiet text, whatever the tables, no reference is replaced inside a literal, a quoted name or a comment, if
      and only if no replaced reference ends between two backquotes. */
  lemma {:induction false} InCodeIfNamesAreWhole(s: string, p: nat, tables: seq<Table>)
    requires InCode(s, p) && Quiet(s, p)
    ensures AllInCode(s, p, tables) <==> WholeNames(s, p, tables)
    decreases |s| - p
  {
    if p < |s| {
      hide ModeAt, Quiet, NextPiece, TokenEnd, Calm, Splits;
      var x := NextPiece(s, p, tables);
      assert Pieces(s, p, tables) == [x] + Pieces(s, x.to, tables) && x in Pieces(s, p, tables);
      CalmSteps(s, p);
      if x.Ref? && Splits(s, x.to) {
        ReferenceEnds(s, p, tables);
        var y := Pieces(s, x.to, tables)[0];
        assert y in Pieces(s, p, tables) && ModeAt(s, y.from) != Code;
      } else {
        QuietBehind(s, p, tables);
        InCodeIfNamesAreWhole(s, x.to, tables);
      }
    }
  }

  /** Every piece begins where SQL expects code. */
  ghost predicate AllInCode(s: string, p: nat, tables: seq<Table>)
    requires p <= |s|
  {
    forall x :: x in Pieces(s, p, tables) ==> x.from < |s| && ModeAt(s, x.from) == Code
  }

  /** No reference that is replaced ends between two backquotes of one name. */
  ghost predicate WholeNames(s: string, p: nat, tables: seq<Table>)
    requires p <= |s|
  {
    forall x :: x in Pieces(s, p, tables) && x.Ref? ==> !Splits(s, x.to)
  }

  /** Behind a piece of quiet text the scan is in code, and on SQL's tokens. */
  lemma OnTokensBehind(s: string, p: nat, tables: seq<Table>)
    requires p < |s| && ModeAt(s, p) == Code && Calm(s, p)
    requires var x := NextPiece(s, p, tables); x.Ref? ==> !Splits(s, x.to)
    ensures var x := NextPiece(s, p, tables); InCode(s, x.to) && forall t :: t in Tokens(s, x.to) ==> t in Tokens(s, p)
  {
    hide ModeAt, NextPiece, TokenEnd, Calm, Splits;
    var x := NextPiece(s, p, tables);
    if x.Ref? {
      ReferenceEnds(s, p, tables);
      ReachedIsCode(s, p, x.to);
      LaterTokens(s, p, x.to);
    } else {
      CopyIsToken(s, p, tables);
      TokenEndsInCode(s, p);
      if s[p] == '[' { CalmBracket(s, p); }
      assert x.to == TokenEnd(s, p) || x.to == |s|;
    }
  }

  lemma QuietBehind(s: string, p: nat, tables: seq<Table>)
    requires p < |s| && ModeAt(s, p) == Code && Quiet(s, p)
    requires var x := NextPiece(s, p, tables); x.Ref? ==> !Splits(s, x.to)
    ensures var x := NextPiece(s, p, tables); InCode(s, x.to) && Quiet(s, x.to)
  {
    hide ModeAt, NextPiece, TokenEnd, Calm, Splits;
    CalmSteps(s, p);
    OnTokensBehind(s, p, tables);
  }

  /** The three kinds of piece behind which the scanner may have lost its way: a literal with an escaped quote, a
      skipped bracket, and a reference that ends between two backquotes. */
  ghost predicate MayMislead(s: string, x: Piece)
    requires x.from < |s|
  {
    if x.Ref? then Splits(s, x.to) else s[x.from] == '[' || (s[x.from] == '\'' && !NoEscapedQuote(s, x.from + 1))
  }

  /** In any text, whatever the tables: no piece begins outside code if and only if none of those three kinds ends
      there. */
  lemma {:induction false} StaysInCodeExactly(s: string, p: nat, tables: seq<Table>)
    requires InCode(s, p)
    ensures AllInCode(s, p, tables)
            <==> (forall x :: x in Pieces(s, p, tables) ==> x.from < |s| && (MayMislead(s, x) ==> InCode(s, x.to)))
    decreases |s| - p
  {
    if p < |s| {
      hide ModeAt, NextPiece, MayMislead;
      var x := NextPiece(s, p, tables);
      var rest := Pieces(s, x.to, tables);
      assert Pieces(s, p, tables) == [x] + rest && x in Pieces(s, p, tables);
      OthersStayInCode(s, p, tables);
      if InCode(s, x.to) {
        StaysInCodeExactly(s, x.to, tables);
      } else {
        assert rest[0] in Pieces(s, p, tables);
      }
    }
  }

  lemma OthersStayInCode(s: string, p: nat, tables: seq<Table>)
    requires p < |s| && ModeAt(s, p) == Code
    ensures var x := NextPiece(s, p, tables); MayMislead(s, x) || InCode(s, x.to)
  {
    hide ModeAt, NextPiece, TokenEnd, Splits, NoEscapedQuote;
    var x := NextPiece(s, p, tables);
    if x.Ref? {
      ReferenceEnds(s, p, tables);
      if !Splits(s, x.to) { ReachedIsCode(s, p, x.to); }
    } else {
      CopyIsToken(s, p, tables);
      TokenEndsInCode(s, p);
    }
  }

  lemma CalmBracket(s: string, p: nat)
    requires p < |s| && Calm(s, p) && s[p] == '['
    ensures SkipQuoted(s, p) == |s|
  {
  }

  // ---------------------------------------------------------------------------------------------
  // Split names, read off the text

  /** Two or three dotted names from p on, the last of them cut between two backquotes. */
  ghost predicate SplitReference(s: string, p: nat, count: nat) {
    (count == 2 || count == 3) && Dotted(s, p, count).Some? && Splits(s, Dotted(s, p, count).value.1)
  }

  ghost predicate NoSplitReference(s: string, p: nat)
    requires p <= |s|
  {
    forall t, n :: t in Tokens(s, p) ==> !SplitReference(s, t.from, n)
  }

  /** No backquoted name holds two backquotes in a row. */
  ghost predicate PlainBackquotes(s: string, p: nat)
    requires p <= |s|
  {
    forall t :: t in Tokens(s, p) ==> t.from < t.to <= |s| && (s[t.from] == '`' ==> NoPair(s, t.from + 1, t.to))
  }

  ghost predicate NoPair(s: string, p: nat, q: nat)
    requires q <= |s|
  {
    forall k :: p <= k && k + 1 < q ==> !At(s, k, '`', '`')
  }

  lemma {:induction false} PairIsInside(s: string, p: nat)
    requires p <= |s| && ReadQuoted(s, p, '`').Some?
    ensures var e := ReadQuoted(s, p, '`').value.1; Splits(s, e) ==> p < e < CloseEnd(s, p, '`')
    decreases |s| - p
  {
    if s[p] != '`' { PairIsInside(s, p + 1); }
  }

  lemma SplitIdentHasPair(s: string, p: nat)
    requires Ident(s, p).Some? && Splits(s, Ident(s, p).value.1)
    ensures s[p] == '`' && !NoPair(s, p + 1, TokenEnd(s, p))
  {
    hide CloseEnd, WordEnd;
    var e := Ident(s, p).value.1;
    if s[p] == '`' {
      PairIsInside(s, p + 1);
    } else if IsQuote(s[p]) {
      QuoteCloses(s, p + 1, Closer(s[p]));
    } else {
      WordEndsInIdent(s, p);
    }
  }

  lemma {:induction false} QuoteCloses(s: string, p: nat, quote: char)
    requires ReadQuoted(s, p, quote).Some?
    ensures s[ReadQuoted(s, p, quote).value.1 - 1] == quote
    decreases |s| - p
  {
    if s[p] != quote { QuoteCloses(s, p + 1, quote); }
    else if quote == '"' && At(s, p, '"', '"') { QuoteCloses(s, p + 2, quote); }
  }

  lemma {:induction false} WordEndsInIdent(s: string, p: nat)
    requires p < |s| && IsIdent(s[p])
    ensures IsIdent(s[WordEnd(s, p) - 1])
    decreases |s| - p
  {
    if p + 1 < |s| && IsIdent(s[p + 1]) { WordEndsInIdent(s, p + 1); }
  }

  /** The last name of a dotted one starts at a token, and it is that name which is split. */
  lemma SplitDotIdentHasPair(s: string, p: nat) returns (q: nat)
    requires p <= |s| && DotIdent(s, p).Some? && Splits(s, DotIdent(s, p).value.1)
    ensures q < |s| && Reaches(s, p, q) && s[q] == '`' && !NoPair(s, q + 1, TokenEnd(s, q))
  {
    hide SkipSpaces, Ident, Splits, NoPair;
    var d := SkipSpaces(s, p);
    q := SkipSpaces(s, d + 1);
    SpacesReach(s, p);
    SpacesReach(s, d + 1);
    assert TokenEnd(s, d) == d + 1 && Reaches(s, d, d + 1);
    ReachForward(s, d + 1, q);
    ReachOn(s, d, d + 1, q);
    ReachOn(s, p, d, q);
    SplitIdentHasPair(s, q);
  }

  lemma StartsToken(s: string, p: nat)
    requires p < |s|
    ensures Copy(p, TokenEnd(s, p)) in Tokens(s, p)
  {
    hide TokenEnd;
  }

  /** Without two backquotes in a row inside a name no dotted name is split. */
  lemma PlainIsNotSplit(s: string, p: nat)
    requires InCode(s, p) && PlainBackquotes(s, p)
    ensures NoSplitReference(s, p)
  {
    hide ModeAt, TokenEnd, NoPair, Splits, Dotted;
    forall t, n | t in Tokens(s, p) ensures !SplitReference(s, t.from, n) {
      if SplitReference(s, t.from, n) {
        TokenIsReached(s, p, t);
        ReachedIsCode(s, p, t.from);
        var q := SplitReferenceHasPair(s, t.from, n);
        ReachForward(s, t.from, q);
        ReachOn(s, p, t.from, q);
        LaterTokens(s, p, q);
        StartsToken(s, q);
      }
    }
  }

  lemma SplitReferenceHasPair(s: string, p: nat, n: nat) returns (q: nat)
    requires InCode(s, p) && SplitReference(s, p, n)
    ensures q < |s| && Reaches(s, p, q) && s[q] == '`' && !NoPair(s, q + 1, TokenEnd(s, q))
  {
    hide ModeAt, TokenEnd, NoPair, Ident, DotIdent;
    DottedEnds(s, p, n - 1);
    var d := Dotted(s, p, n - 1).value.1;
    NoDotBehindSplit(s, d);
    q := SplitDotIdentHasPair(s, d);
    ReachOn(s, p, d, q);
  }

  lemma {:induction false} TokenIsReached(s: string, p: nat, t: Piece)
    requires p <= |s| && t in Tokens(s, p)
    ensures t.from < |s| && Reaches(s, p, t.from) && t == Copy(t.from, TokenEnd(s, t.from))
    decreases |s| - p
  {
    hide TokenEnd;
    if t != Copy(p, TokenEnd(s, p)) {
      TokenIsReached(s, TokenEnd(s, p), t);
      ReachForward(s, TokenEnd(s, p), t.from);
    }
  }

  /** Then all names are whole, whatever the tables. */
  lemma {:induction false} NamesStayWhole(s: string, p: nat, tables: seq<Table>)
    requires InCode(s, p) && Quiet(s, p) && NoSplitReference(s, p)
    ensures WholeNames(s, p, tables)
    decreases |s| - p
  {
    if p < |s| {
      hide ModeAt, Quiet, NextPiece, TokenEnd, Calm, Splits, SplitReference;
      var x := NextPiece(s, p, tables);
      assert Pieces(s, p, tables) == [x] + Pieces(s, x.to, tables);
      CalmSteps(s, p);
      if x.Ref? { ReferenceIsDotted(s, p, tables); StartsToken(s, p); }
      OnTokensBehind(s, p, tables);
      QuietBehind(s, p, tables);
      NamesStayWhole(s, x.to, tables);
    }
  }

  lemma ReferenceIsDotted(s: string, p: nat, tables: seq<Table>)
    requires p < |s| && NextPiece(s, p, tables).Ref?
    ensures Splits(s, NextPiece(s, p, tables).to) ==> SplitReference(s, p, 2) || SplitReference(s, p, 3)
  {
    hide Dotted, Splits;
  }

  /** In quiet text without split names no reference is replaced inside a literal, a quoted name or a comment, whatever
      the tables. */
  lemma NoMatchInsideLiterals(s: string, p: nat, tables: seq<Table>)
    requires InCode(s, p) && Quiet(s, p) && NoSplitReference(s, p)
    ensures AllInCode(s, p, tables)
  {
    NamesStayWhole(s, p, tables);
    InCodeIfNamesAreWhole(s, p, tables);
  }

  /** The condition on the text is exact: from no token on, for no tables, does a piece begin outside code, if and only
      if no dotted name of the text is split. (The scan from one token may miss a split name that a reference found
      before it overlaps.) */
  lemma SplitNamesMisleadExactly(s: string, p: nat)
    requires InCode(s, p) && Quiet(s, p)
    ensures NoSplitReference(s, p) <==> forall q: nat, tables :: q <= |s| && Reaches(s, p, q) ==> AllInCode(s, q, tables)
  {
    hide ModeAt, Quiet, SplitReference, AllInCode, WholeNames;
    if NoSplitReference(s, p) {
      forall q: nat, tables | q <= |s| && Reaches(s, p, q) ensures AllInCode(s, q, tables) {
        ReachedIsCode(s, p, q);
        LaterTokens(s, p, q);
        QuietLater(s, p, q);
        NoMatchInsideLiterals(s, q, tables);
      }
    } else {
      var t, n :| t in Tokens(s, p) && SplitReference(s, t.from, n);
      TokenIsReached(s, p, t);
      ReachedIsCode(s, p, t.from);
      SplitReferenceMisleads(s, t.from, n);
    }
  }

  lemma QuietLater(s: string, p: nat, q: nat)
    requires p <= |s| && q <= |s| && Quiet(s, p) && Reaches(s, p, q)
    ensures Quiet(s, q)
  {
    LaterTokens(s, p, q);
  }

  /** The table whose dotted name is just that of the names at p. */
  function TableAt(s: string, p: nat, n: nat): Table
    requires (n == 2 || n == 3) && Dotted(s, p, n).Some?
  {
    var names := Dotted(s, p, n).value.0;
    Table("", "", "", if n == 2 then Name2(names) else Name3(names), AliasOf(0), true)
  }

  lemma SplitReferenceMisleads(s: string, p: nat, n: nat)
    requires p < |s| && InCode(s, p) && SplitReference(s, p, n)
    ensures !AllInCode(s, p, [TableAt(s, p, n)])
  {
    hide ModeAt;
    var tables := [TableAt(s, p, n)];
    var e := Dotted(s, p, n).value.1;
    SplitReferenceIsTaken(s, p, n);
    DottedEnds(s, p, n);
    var y := NextPiece(s, e, tables);
    assert Pieces(s, p, tables) == [Ref(0, p, e)] + ([y] + Pieces(s, y.to, tables));
    assert y in Pieces(s, p, tables);
  }

  lemma SplitReferenceIsTaken(s: string, p: nat, n: nat)
    requires p < |s| && SplitReference(s, p, n)
    ensures NextPiece(s, p, [TableAt(s, p, n)]) == Ref(0, p, Dotted(s, p, n).value.1)
  {
    hide Ident, DotIdent, Splits;
    var tables := [TableAt(s, p, n)];
    var e := Dotted(s, p, n).value.1;
    if DotIdent(s, e).Some? { NoDotBehindSplit(s, e); }
    assert Dotted(s, p, 2).Some? && Dotted(s, p, 1).Some? && Ident(s, p).Some?;
    assert FindTable(tables, tables[0].dotted, n == 2, 0) == Some(0);
  }

  /** And from p itself, with the one table that the split name fits, unless a reference before it fits that too. */
  lemma {:induction false} SplitNameMisleads(s: string, p: nat, q: nat, n: nat, table: Table)
    requires q < |s| && InCode(s, p) && Harmless(s, p) && Reaches(s, p, q)
    requires SplitReference(s, q, n) && table == TableAt(s, q, n)
    requires forall t :: t in Tokens(s, p) && t.from < q ==> Match(s, t.from, [table]).None?
    ensures !AllInCode(s, p, [table])
    decreases |s| - p
  {
    hide ModeAt, NextPiece, Match, TokenEnd, Calm, Splits, SplitReference, Harmless, TableAt;
    if p == q {
      SplitReferenceMisleads(s, p, n);
    } else {
      var tables := [table];
      ReachForward(s, p, q);
      StartsToken(s, p);
      NoMatchNoReference(s, p, tables);
      HarmlessBehind(s, p, tables);
      var x := NextPiece(s, p, tables);
      LaterTokens(s, p, x.to);
      SplitNameMisleads(s, x.to, q, n, table);
      var y :| y in Pieces(s, x.to, tables) && !(y.from < |s| && ModeAt(s, y.from) == Code);
      assert Pieces(s, p, tables) == [x] + Pieces(s, x.to, tables);
      assert y in Pieces(s, p, tables);
    }
  }

  lemma NoMatchNoReference(s: string, p: nat, tables: seq<Table>)
    requires p < |s| && Match(s, p, tables).None?
    ensures NextPiece(s, p, tables).Copy?
  {
    hide Match;
  }

  // ---------------------------------------------------------------------------------------------
  // References that are replaced

  /** In harmless text the scan gets to every token that is not part of a reference found before. */
  lemma {:induction false} ScanArrives(s: string, q: nat, p: nat, tables: seq<Table>)
    requires q <= p < |s| && InCode(s, q) && Reaches(s, q, p) && Harmless(s, q) && WholeNames(s, q, tables)
    requires forall x :: x in Pieces(s, q, tables) && x.Ref? ==> !(x.from < p < x.to)
    ensures NextPiece(s, p, tables) in Pieces(s, q, tables)
    decreases |s| - q
  {
    hide ModeAt, NextPiece, TokenEnd, Calm, Splits, Harmless;
    var x := NextPiece(s, q, tables);
    assert Pieces(s, q, tables) == [x] + Pieces(s, x.to, tables) && x in Pieces(s, q, tables);
    if q < p {
      HarmlessBehind(s, q, tables);
      ReachForward(s, q, p);
      ReachForward(s, TokenEnd(s, q), p);
      ReachBetween(s, q, x.to, p);
      ScanArrives(s, x.to, p, tables);
    }
  }

  lemma HarmlessBehind(s: string, p: nat, tables: seq<Table>)
    requires p < |s| && ModeAt(s, p) == Code && Harmless(s, p)
    requires var x := NextPiece(s, p, tables); x.Ref? ==> !Splits(s, x.to)
    ensures var x := NextPiece(s, p, tables);
            && InCode(s, x.to) && Harmless(s, x.to) && Reaches(s, p, x.to)
            && (x.Copy? ==> x.to == TokenEnd(s, p))
  {
    hide ModeAt, NextPiece, TokenEnd, Calm, Splits;
    var x := NextPiece(s, p, tables);
    if x.Ref? {
      ReferenceEnds(s, p, tables);
      ReachedIsCode(s, p, x.to);
      LaterTokens(s, p, x.to);
    } else {
      CalmSteps(s, p);
      CopyIsToken(s, p, tables);
      TokenEndsInCode(s, p);
      assert Reaches(s, x.to, x.to);
    }
  }

  /** Each piece is the one that the scan finds at its start, and pieces do not overlap. */
  lemma {:induction false} PiecesAreApart(s: string, q: nat, tables: seq<Table>, x: Piece, y: Piece)
    requires q <= |s| && x in Pieces(s, q, tables) && y in Pieces(s, q, tables)
    ensures q <= x.from < |s| && x == NextPiece(s, x.from, tables)
    ensures !(x.from < y.from < x.to)
    decreases |s| - q
  {
    hide NextPiece;
    var z := NextPiece(s, q, tables);
    assert Pieces(s, q, tables) == [z] + Pieces(s, z.to, tables);
    if x in Pieces(s, z.to, tables) {
      PiecesAreApart(s, z.to, tables, x, if y in Pieces(s, z.to, tables) then y else x);
    } else if y in Pieces(s, z.to, tables) {
      PiecesAreApart(s, z.to, tables, y, y);
    }
  }

  /** p lies inside a reference that is replaced. */
  ghost predicate Covered(s: string, p: nat, tables: seq<Table>) {
    exists x :: x in Pieces(s, 0, tables) && x.Ref? && x.from < p < x.to
  }

  /** In harmless text without split names: the names of a registered three-part reference, quoted and spaced as they
      may be, that start in code and not within a word, are replaced by the alias of that table if and only if they do
      not start inside a reference found before and no table registered before has the same dotted name. */
  lemma RegisteredReferenceIsReplacedExactly(refs: seq<Reference>, i: nat, s: string, p: nat, e: nat)
    requires i < |Register(refs)| && !Register(refs)[i].pw
    requires p < |s| && ModeAt(s, p) == Code && (p > 0 ==> !(IsIdent(s[p - 1]) && IsIdent(s[p])))
    requires var t := Register(refs)[i]; Dotted(s, p, 3) == Some(([t.db, t.part, t.ks], e))
    requires Harmless(s, 0) && NoSplitReference(s, 0)
    ensures Register(refs)[i].alias == AliasOf(i)
    ensures Ref(i, p, e) in Pieces(s, 0, Register(refs))
            <==> !Covered(s, p, Register(refs)) && FirstOfItsName(Register(refs), i)
  {
    hide Harmless, WholeNames, NoSplitReference, ModeAt, Register, NextPiece, Pieces, Dotted;
    var tables := Register(refs);
    RegisteredReferenceGetsItsAliasExactly(refs, i, s, p, e);
    if Ref(i, p, e) in Pieces(s, 0, tables) {
      PiecesAreApart(s, 0, tables, Ref(i, p, e), Ref(i, p, e));
      forall x | x in Pieces(s, 0, tables) ensures !(x.from < p < x.to) { PiecesAreApart(s, 0, tables, x, Ref(i, p, e)); }
    }
    if !Covered(s, p, tables) {
      StartsInCode(s);
      HarmlessIsQuiet(s, 0);
      NamesStayWhole(s, 0, tables);
      TokenStarts(s, 0, p);
      ScanArrives(s, 0, p, tables);
    }
  }

  lemma HarmlessIsQuiet(s: string, p: nat)
    requires p <= |s| && Harmless(s, p)
    ensures Quiet(s, p)
  {
  }

  /** No reference to one of the tables that starts at a token before p reaches beyond p. */
  ghost predicate Clear(s: string, p: nat, tables: seq<Table>) {
    forall t :: t in Tokens(s, 0) && t.from < p && Match(s, t.from, tables).Some? ==> Match(s, t.from, tables).value.1 <= p
  }

  /** With dot-free names, and conditions on the text and the tables alone: such a reference is replaced by its own
      alias, also beside a partition-wide table with the same first two names. */
  lemma RegisteredReferenceIsReplaced(refs: seq<Reference>, i: nat, s: string, p: nat, e: nat)
    requires forall k :: 0 <= k < |refs| ==> Plain(refs[k])
    requires i < |Register(refs)| && !Register(refs)[i].pw
    requires p < |s| && ModeAt(s, p) == Code && (p > 0 ==> !(IsIdent(s[p - 1]) && IsIdent(s[p])))
    requires var t := Register(refs)[i]; Dotted(s, p, 3) == Some(([t.db, t.part, t.ks], e))
    requires Harmless(s, 0) && NoSplitReference(s, 0) && Clear(s, p, Register(refs))
    ensures Ref(i, p, e) in Pieces(s, 0, Register(refs)) && Register(refs)[i].alias == AliasOf(i)
  {
    hide Harmless, WholeNames, NoSplitReference, ModeAt, Register, NextPiece, Pieces, Dotted, Match;
    var tables := Register(refs);
    PlainNamesDiffer(refs, i);
    StartsInCode(s);
    HarmlessIsQuiet(s, 0);
    NamesStayWhole(s, 0, tables);
    forall x | x in Pieces(s, 0, tables) && x.Ref? ensures !(x.from < p < x.to) {
      PiecesAreApart(s, 0, tables, x, x);
      PieceStartsToken(s, 0, tables, x);
      ReferenceIsMatch(s, x.from, tables);
    }
    RegisteredReferenceIsReplacedExactly(refs, i, s, p, e);
  }

  /** Spelled out: the text db.part.ks itself, of names of letters, digits and underscores. */
  lemma SpelledReferenceIsReplaced(refs: seq<Reference>, i: nat, s: string, p: nat)
    requires forall k :: 0 <= k < |refs| ==> Plain(refs[k])
    requires i < |Register(refs)| && !Register(refs)[i].pw
    requires var t := Register(refs)[i];
             && BareName(t.db) && BareName(t.part) && BareName(t.ks) && StandsAt(s, p, t.db + "." + t.part + "." + t.ks)
             && var e := p + |t.db| + |t.part| + |t.ks| + 2; e < |s| ==> !IsIdent(s[e])
    requires p < |s| && ModeAt(s, p) == Code && (p > 0 ==> !IsIdent(s[p - 1]))
    requires Harmless(s, 0) && NoSplitReference(s, 0) && Clear(s, p, Register(refs))
    ensures var t := Register(refs)[i];
            Ref(i, p, p + |t.db| + |t.part| + |t.ks| + 2) in Pieces(s, 0, Register(refs)) && t.alias == AliasOf(i)
  {
    hide Harmless, NoSplitReference, Clear, ModeAt, Register, Pieces, Dotted, BareName;
    var t := Register(refs)[i];
    ThreeNamesAreRead(s, p, t.db, t.part, t.ks);
    RegisteredReferenceIsReplaced(refs, i, s, p, p + |t.db| + |t.part| + |t.ks| + 2);
  }

  lemma {:induction false} PieceStartsToken(s: string, p: nat, tables: seq<Table>, x: Piece)
    requires InCode(s, p) && Quiet(s, p) && WholeNames(s, p, tables) && x in Pieces(s, p, tables)
    ensures x.from < |s| && Copy(x.from, TokenEnd(s, x.from)) in Tokens(s, p)
    decreases |s| - p
  {
    hide ModeAt, NextPiece, TokenEnd, Splits, Quiet;
    var y := NextPiece(s, p, tables);
    assert Pieces(s, p, tables) == [y] + Pieces(s, y.to, tables) && y in Pieces(s, p, tables);
    StartsToken(s, p);
    if x != y {
      CalmSteps(s, p);
      OnTokensBehind(s, p, tables);
      QuietBehind(s, p, tables);
      PieceStartsToken(s, y.to, tables, x);
    }
  }

  lemma StartsInCode(s: string)
    ensures InCode(s, 0)
  {
  }

  /** Text without backslash and opening bracket is harmless, and much other text is. */
  lemma {:induction false} TextWithoutIsHarmless(s: string, p: nat)
    requires p <= |s| && '\\' !in s && '[' !in s
    ensures Harmless(s, p) && Quiet(s, p)
    decreases |s| - p
  {
    if p < |s| {
      hide TokenEnd, Harmless, Quiet;
      TextWithoutIsHarmless(s, TokenEnd(s, p));
      CalmSteps(s, p);
      NothingEscaped(s, p + 1);
    }
  }

  lemma {:induction false} NothingEscaped(s: string, p: nat)
    requires p <= |s| && '\\' !in s
    ensures NoEscapedQuote(s, p)
    decreases |s| - p
  {
    if p < |s| {
      NothingEscaped(s, p + 1);
      if p + 2 <= |s| { NothingEscaped(s, p + 2); }
    }
  }

  // ---------------------------------------------------------------------------------------------
  // What happens in other text

  const PW: seq<Table> := [Table("a", "b", "", "a.b", AliasOf(0), true)]

  /** With a backslash: SQL reads the whole of '\''a.b' as one literal, the scanner a reference in it. */
  lemma BackslashMisleads()
    ensures var s := "'\\''a.b'";
            ModeAt(s, 4) == Quoted('\'') && Ref(0, 4, 7) in Pieces(s, 0, PW)
  {
    var s := "'\\''a.b'";
    assert ModeAt(s, 1) == Quoted('\'') && ModeAt(s, 2) == Quoted('\'') && ModeAt(s, 3) == Doubled('\'');
    assert QuotedEnd(s, 3, '\'') == 4 && QuotedEnd(s, 1, '\'') == 4;
    SecondPiece(s, 4, PW);
  }

  /** With a bracketed name and another bracket: the scanner skips to the second one, here inside a literal. */
  lemma BracketMisleads()
    ensures var s := "[x]'[a.b'";
            ModeAt(s, 5) == Quoted('\'') && Ref(0, 5, 8) in Pieces(s, 0, PW)
  {
    var s := "[x]'[a.b'";
    assert ModeAt(s, 1) == ModeAt(s, 2) == Quoted(']') && ModeAt(s, 3) == Code && ModeAt(s, 4) == Quoted('\'');
    assert QuotedEnd(s, 4, '[') == 5 && QuotedEnd(s, 3, '[') == 5 && QuotedEnd(s, 2, '[') == 5 && QuotedEnd(s, 1, '[') == 5;
    assert Ident(s, 0).Some? && Ident(s, 0).value.1 == 3;
    assert SkipSpaces(s, 3) == 3 && DotIdent(s, 3) == None;
    assert Dotted(s, 0, 2) == None && Dotted(s, 0, 3) == None;
    SecondPiece(s, 5, PW);
  }

  /** A text may be misread though every piece begins in code: behind a bracketed name the scanner skips all the rest,
      and a reference in it is not replaced. */
  lemma BracketSwallows()
    ensures var s := "[x]+a.b'";
            !Harmless(s, 0) && Pieces(s, 0, PW) == [Copy(0, 8)] && ModeAt(s, 0) == ModeAt(s, 4) == Code
            && NextPiece(s, 4, PW) == Ref(0, 4, 7)
  {
    hide NextPiece, Harmless, Calm, Tokens, PW;
    var s := "[x]+a.b'";
    assert |PW| == 1 && PW[0].dotted == "a.b" && PW[0].pw by { OneTable(); }
    assert ModeAt(s, 1) == ModeAt(s, 2) == Quoted(']') && ModeAt(s, 3) == Code;
    SwallowsAll(s, PW);
    assert Pieces(s, 8, PW) == [];
    assert CloseEnd(s, 1, ']') == 3;
    CalmSteps(s, 0);
    ReferenceAt(s, 4, PW);
  }

  /** So it does in a literal that ends with a backslash. */
  lemma EscapeSwallows()
    ensures var s := "'\\'+a.b'";
            !Quiet(s, 0) && Pieces(s, 0, PW) == [Copy(0, 8)] && ModeAt(s, 0) == ModeAt(s, 4) == Code
            && NextPiece(s, 4, PW) == Ref(0, 4, 7)
  {
    hide Match, Quiet, PW;
    var s := "'\\'+a.b'";
    assert ModeAt(s, 1) == ModeAt(s, 2) == Quoted('\'') && ModeAt(s, 3) == Code;
    assert QuotedEnd(s, 7, '\'') == 8 && QuotedEnd(s, 5, '\'') == 8 && QuotedEnd(s, 3, '\'') == 8;
    assert Pieces(s, 8, PW) == [];
    assert !NoEscapedQuote(s, 1);
    CalmSteps(s, 0);
    assert |PW| == 1 && PW[0].dotted == "a.b" && PW[0].pw by { OneTable(); }
    ReferenceAt(s, 4, PW);
  }

  lemma SwallowsAll(s: string, tables: seq<Table>)
    requires s == "[x]+a.b'"
    ensures NextPiece(s, 0, tables) == Copy(0, 8)
  {
    assert QuotedEnd(s, 8, '[') == 8 && QuotedEnd(s, 7, '[') == 8 && QuotedEnd(s, 6, '[') == 8 && QuotedEnd(s, 5, '[') == 8;
    assert QuotedEnd(s, 4, '[') == 8 && QuotedEnd(s, 3, '[') == 8 && QuotedEnd(s, 2, '[') == 8 && QuotedEnd(s, 1, '[') == 8;
    assert ReadQuoted(s, 2, ']') == Some(("", 3));
    assert Ident(s, 0).Some? && Ident(s, 0).value.1 == 3;
    assert SkipSpaces(s, 3) == 3 && DotIdent(s, 3) == None;
    assert Dotted(s, 0, 2) == None && Dotted(s, 0, 3) == None;
  }

  /** Quiet text is not enough: behind two backquotes in a name the scanner is still inside it, and here takes what
      follows for a reference. */
  lemma BackquoteMisleads()
    ensures var s := "a.`b``a`.b";
            Quiet(s, 0) && ModeAt(s, 5) == Doubled('`') && Ref(0, 5, 10) in Pieces(s, 0, PW)
  {
    hide Quiet, Harmless, NextPiece, PW;
    var s := "a.`b``a`.b";
    assert |PW| == 1 && PW[0].dotted == "a.b" && PW[0].pw by { OneTable(); }
    TextWithoutIsHarmless(s, 0);
    assert ModeAt(s, 1) == ModeAt(s, 2) == Code && ModeAt(s, 3) == ModeAt(s, 4) == Quoted('`');
    FirstOfTwo(s, PW);
    SecondOfTwo(s, PW);
    var rest := Pieces(s, 5, PW);
    assert Pieces(s, 0, PW) == [Ref(0, 0, 5)] + rest && rest[0] == Ref(0, 5, 10);
    assert rest[0] in rest;
  }

  lemma OneTable()
    ensures |PW| == 1 && PW[0].dotted == "a.b" && PW[0].pw
  {
  }

  lemma FirstOfTwo(s: string, tables: seq<Table>)
    requires s == "a.`b``a`.b" && |tables| == 1 && tables[0].dotted == "a.b" && tables[0].pw
    ensures NextPiece(s, 0, tables) == Ref(0, 0, 5)
  {
    assert WordEnd(s, 0) == WordEnd(s, 1) == 1 && s[0..1] == "a";
    assert [s[3]] + "" == "b";
    assert ReadQuoted(s, 4, '`') == Some(("", 5)) && ReadQuoted(s, 3, '`') == Some(("b", 5));
    assert SkipSpaces(s, 1) == 1 && SkipSpaces(s, 2) == 2 && SkipSpaces(s, 5) == 5;
    assert DotIdent(s, 1) == Some(("b", 5)) && DotIdent(s, 5) == None;
    assert Dotted(s, 0, 1) == Some((["a"], 1));
    assert ["a"] + ["b"] == ["a", "b"];
    assert Dotted(s, 0, 2) == Some((["a", "b"], 5)) && Dotted(s, 0, 3) == None;
    assert "a" + "." + "b" == "a.b";
    assert Name2(["a", "b"]) == "a.b";
  }

  lemma SecondOfTwo(s: string, tables: seq<Table>)
    requires s == "a.`b``a`.b" && |tables| == 1 && tables[0].dotted == "a.b" && tables[0].pw
    ensures NextPiece(s, 5, tables) == Ref(0, 5, 10)
  {
    assert [s[6]] + "" == "a";
    assert ReadQuoted(s, 7, '`') == Some(("", 8)) && ReadQuoted(s, 6, '`') == Some(("a", 8));
    assert WordEnd(s, 10) == WordEnd(s, 9) == 10 && s[9..10] == "b";
    assert SkipSpaces(s, 8) == 8 && SkipSpaces(s, 9) == 9 && SkipSpaces(s, 10) == 10;
    assert DotIdent(s, 8) == Some(("b", 10)) && DotIdent(s, 10) == None;
    assert Dotted(s, 5, 1) == Some((["a"], 8));
    assert ["a"] + ["b"] == ["a", "b"];
    assert Dotted(s, 5, 2) == Some((["a", "b"], 10)) && Dotted(s, 5, 3) == None;
    assert "a" + "." + "b" == "a.b";
    assert Name2(["a", "b"]) == "a.b";
  }

  /** Six names and a split one. */
  const SEVEN := "a.a.a.a.a.a.`a``b`"

  predicate Three(tables: seq<Table>) { FindTable(tables, "a.a.a", false, 0).Some? }

  predicate Two(tables: seq<Table>) { FindTable(tables, "a.a", true, 0).Some? }

  /** Yet a split name need not show from the start: whatever the tables, these names are used up in threes or in pairs
      before the scan gets to the split one. */
  lemma OverlapHidesSplit(tables: seq<Table>)
    ensures SplitReference(SEVEN, 10, 2) && Quiet(SEVEN, 0) && AllInCode(SEVEN, 0, tables)
  {
    hide SEVEN, Quiet, Harmless, AllInCode, WholeNames, SplitReference, Three, Two, ModeAt;
    var s := SEVEN;
    SevenIs(s);
    LastIsSplit(s);
    TextWithoutIsHarmless(s, 0);
    StartsInCode(s);
    LastIsCopied(s, tables);
    DotSteps(s, 11, tables);
    if Three(tables) {
      NameSteps(s, 6, tables); DotSteps(s, 5, tables); NameSteps(s, 0, tables);
    } else if Two(tables) {
      NameSteps(s, 8, tables); DotSteps(s, 7, tables); NameSteps(s, 4, tables); DotSteps(s, 3, tables); NameSteps(s, 0, tables);
    } else {
      NameSteps(s, 10, tables); DotSteps(s, 9, tables); NameSteps(s, 8, tables); DotSteps(s, 7, tables);
      NameSteps(s, 6, tables); DotSteps(s, 5, tables); NameSteps(s, 4, tables); DotSteps(s, 3, tables);
      NameSteps(s, 2, tables); DotSteps(s, 1, tables); NameSteps(s, 0, tables);
    }
    InCodeIfNamesAreWhole(s, 0, tables);
  }

  ghost predicate Seven(s: string) {
    && |s| == 18
    && (forall i :: 0 <= i < 12 ==> s[i] == if i % 2 == 0 then 'a' else '.')
    && s[12] == '`' && s[13] == 'a' && s[14] == '`' && s[15] == '`' && s[16] == 'b' && s[17] == '`'
  }

  lemma SevenIs(s: string)
    requires s == SEVEN
    ensures Seven(s) && '\\' !in s && '[' !in s
  {
  }

  lemma StepsOver(s: string, p: nat, tables: seq<Table>)
    requires p < |s|
    requires var x := NextPiece(s, p, tables); !Splits(s, x.to) && WholeNames(s, x.to, tables)
    ensures WholeNames(s, p, tables)
  {
    hide NextPiece;
    var x := NextPiece(s, p, tables);
    assert Pieces(s, p, tables) == [x] + Pieces(s, x.to, tables);
  }

  lemma DotSteps(s: string, p: nat, tables: seq<Table>)
    requires Seven(s) && p < 12 && p % 2 == 1 && WholeNames(s, p + 1, tables)
    ensures WholeNames(s, p, tables)
  {
    hide WholeNames, Match;
    assert NextPiece(s, p, tables) == Copy(p, p + 1);
    StepsOver(s, p, tables);
  }

  lemma LastIsCopied(s: string, tables: seq<Table>)
    requires Seven(s)
    ensures WholeNames(s, 12, tables)
  {
    LastIsRead(s);
    assert SkipSpaces(s, 15) == 15 && DotIdent(s, 15) == None;
    assert Dotted(s, 12, 1) == Some((["a"], 15)) && Dotted(s, 12, 2) == None && Dotted(s, 12, 3) == None;
    assert QuotedEnd(s, 18, '`') == 18 && QuotedEnd(s, 17, '`') == 18 && QuotedEnd(s, 16, '`') == 18;
    assert QuotedEnd(s, 14, '`') == 18 && QuotedEnd(s, 13, '`') == 18;
    assert Pieces(s, 18, tables) == [];
  }

  lemma LastIsRead(s: string)
    requires Seven(s)
    ensures Ident(s, 12) == Some(("a", 15)) && SkipSpaces(s, 12) == 12
  {
    assert [s[13]] + "" == "a";
    assert ReadQuoted(s, 14, '`') == Some(("", 15)) && ReadQuoted(s, 13, '`') == Some(("a", 15));
  }

  lemma NameIsRead(s: string, p: nat)
    requires p + 1 < |s| && s[p] == 'a' && s[p + 1] == '.'
    ensures Ident(s, p) == Some(("a", p + 1)) && SkipSpaces(s, p) == p && SkipSpaces(s, p + 1) == p + 1
  {
    assert WordEnd(s, p + 1) == p + 1 && s[p..p + 1] == "a";
  }

  /** What is read behind each of the six. */
  lemma NextIsRead(s: string, p: nat)
    requires Seven(s) && p <= 10 && p % 2 == 0
    ensures Ident(s, p) == Some(("a", p + 1))
    ensures DotIdent(s, p + 1) == Some(("a", if p < 10 then p + 3 else 15))
  {
    NameIsRead(s, p);
    if p < 10 { NameIsRead(s, p + 2); } else { LastIsRead(s); }
  }

  lemma LastIsSplit(s: string)
    requires Seven(s)
    ensures SplitReference(s, 10, 2)
  {
    hide Ident, DotIdent;
    NextIsRead(s, 10);
    TwoAreRead(s, 10, "a", 11, "a", 15);
  }

  /** From each of the first three of six names on, three and two are read; from the fifth too. */
  lemma NamesAreRead(s: string, p: nat)
    requires Seven(s) && p <= 8 && p % 2 == 0
    ensures Dotted(s, p, 2) == Some((["a", "a"], p + 3))
    ensures Dotted(s, p, 3) == Some((["a", "a", "a"], if p < 8 then p + 5 else 15))
  {
    hide Ident, DotIdent, Dotted;
    NextIsRead(s, p);
    NextIsRead(s, p + 2);
    TwoAreRead(s, p, "a", p + 1, "a", p + 3);
    ThreeAreRead(s, p, "a", p + 1, "a", p + 3, "a", if p < 8 then p + 5 else 15);
  }

  lemma NoThirdIsRead(s: string)
    requires Seven(s)
    ensures Dotted(s, 10, 2) == Some((["a", "a"], 15)) && Dotted(s, 10, 3) == None
  {
    hide Ident;
    NextIsRead(s, 10);
    TwoAreRead(s, 10, "a", 11, "a", 15);
    assert SkipSpaces(s, 15) == 15 && DotIdent(s, 15) == None;
  }

  lemma NamesMatch(s: string, p: nat, tables: seq<Table>)
    requires Seven(s) && p <= 10 && p % 2 == 0 && (Three(tables) ==> p < 8) && (Two(tables) ==> p < 10)
    ensures var m := Match(s, p, tables);
            if Three(tables) then m.Some? && m.value.1 == p + 5
            else if Two(tables) then m.Some? && m.value.1 == p + 3 else m.None?
  {
    hide Dotted;
    assert "a" + "." + "a" == "a.a" && "a" + "." + "a" + "." + "a" == "a.a.a";
    if p <= 8 { NamesAreRead(s, p); } else { NoThirdIsRead(s); }
    assert Name2(["a", "a"]) == "a.a" && Name3(["a", "a", "a"]) == "a.a.a";
  }

  lemma NameSteps(s: string, p: nat, tables: seq<Table>)
    requires Seven(s) && p <= 10 && p % 2 == 0 && (Three(tables) ==> p < 8) && (Two(tables) ==> p < 10)
    requires WholeNames(s, if Three(tables) then p + 5 else if Two(tables) then p + 3 else p + 1, tables)
    ensures WholeNames(s, p, tables)
  {
    hide WholeNames, Match, Three, Two;
    NamesMatch(s, p, tables);
    assert WordEnd(s, p + 1) == p + 1 == WordEnd(s, p);
    StepsOver(s, p, tables);
  }

  lemma SecondPiece(s: string, p: nat, tables: seq<Table>)
    requires p + 3 < |s| && s[p] == 'a' && s[p + 1] == '.' && s[p + 2] == 'b' && s[p + 3] == '\''
    requires |tables| == 1 && tables[0].dotted == "a.b" && tables[0].pw
    requires |s| > 0 && NextPiece(s, 0, tables).to == p
    ensures Ref(0, p, p + 3) in Pieces(s, 0, tables)
  {
    hide NextPiece;
    ReferenceAt(s, p, tables);
    var rest := Pieces(s, p, tables);
    assert Pieces(s, 0, tables) == [NextPiece(s, 0, tables)] + rest && rest[0] == Ref(0, p, p + 3);
    assert rest[0] in rest;
  }

  /** The text a.b at p, with something else than a dot or blank behind it. */
  lemma ReferenceAt(s: string, p: nat, tables: seq<Table>)
    requires p + 3 < |s| && s[p] == 'a' && s[p + 1] == '.' && s[p + 2] == 'b' && s[p + 3] == '\''
    requires |tables| == 1 && tables[0].dotted == "a.b" && tables[0].pw
    ensures NextPiece(s, p, tables) == Ref(0, p, p + 3)
  {
    assert WordEnd(s, p + 3) == p + 3 && WordEnd(s, p + 2) == p + 3 && WordEnd(s, p + 1) == p + 1 && WordEnd(s, p) == p + 1;
    assert s[p..p + 1] == "a" && s[p + 2..p + 3] == "b";
    assert SkipSpaces(s, p + 1) == p + 1 && SkipSpaces(s, p + 2) == p + 2 && SkipSpaces(s, p + 3) == p + 3;
    assert DotIdent(s, p + 1) == Some(("b", p + 3)) && DotIdent(s, p + 3) == None;
    assert Dotted(s, p, 1) == Some((["a"], p + 1));
    assert ["a"] + ["b"] == ["a", "b"];
    assert Dotted(s, p, 2) == Some((["a", "b"], p + 3)) && Dotted(s, p, 3) == None;
    assert "a" + "." + "b" == "a.b";
    assert Name2(["a", "b"]) == "a.b";
  }
}
