/** One request head: the request line, the header lines and the body length they announce. */
module HttpHead {
  import opened Strings

  const NUL := '\0'
  const MAX_HEADERS := 32
  const MAX_BODY := 16777216

  datatype Header = Header(name: string, value: string)
  datatype Head = Head(verb: string, path: string, query: string, headers: seq<Header>, length: nat)

  // -------------------------------------------------------------------------
  // Scanning

  /** strchr: where c first occurs, or the length. */
  function Find(s: string, c: char): (i: nat)
    ensures i <= |s|
    ensures i < |s| ==> s[i] == c
  {
    if s == "" || s[0] == c then 0 else 1 + Find(s[1..], c)
  }

  lemma {:induction false} FindIs(s: string, c: char, i: nat)
    requires i <= |s| && (forall j :: 0 <= j < i ==> s[j] != c) && (i < |s| ==> s[i] == c)
    ensures Find(s, c) == i
  {
    if i > 0 { FindIs(s[1..], c, i - 1); }
  }

  predicate IsSpace(c: char) { c in {' ', '\t', '\n', '\r', 11 as char, 12 as char} }

  /** The first index from i on that is not white space. */
  function SkipSpace(s: string, i: nat): (j: nat)
    requires i <= |s|
    ensures i <= j <= |s|
    decreases |s| - i
  {
    if i < |s| && IsSpace(s[i]) then SkipSpace(s, i + 1) else i
  }

  /** The end of a word of at most `width` characters starting at i. */
  function WordEnd(s: string, i: nat, width: nat): (j: nat)
    requires i <= |s|
    ensures i <= j <= |s|
    decreases |s| - i
  {
    if i < |s| && width > 0 && !IsSpace(s[i]) then WordEnd(s, i + 1, width - 1) else i
  }

  /** sscanf(line, "%15s %3071s"): two words, or fewer than two conversions. */
  function TwoWords(line: string): Option<(string, string)> {
    var a := SkipSpace(line, 0);
    var b := WordEnd(line, a, 15);
    var c := SkipSpace(line, b);
    var d := WordEnd(line, c, 3071);
    if a == b || c == d then None else Some((line[a..b], line[c..d]))
  }

  // -------------------------------------------------------------------------
  // trim

  predicate Blank(c: char) { c == ' ' || c == '\t' }

  predicate Tail(c: char) { Blank(c) || c == '\r' }

  /** [a, b) is what is left once blanks go from the front and blanks and CRs from the end. */
  ghost predicate TrimsTo(s: string, a: nat, b: nat)
    requires a <= b <= |s|
  {
    && (forall k :: 0 <= k < a ==> Blank(s[k])) && (a < |s| ==> !Blank(s[a]))
    && (forall k :: b <= k < |s| ==> Tail(s[k])) && (a < b ==> !Tail(s[b - 1]))
  }

  function TrimFront(s: string): string {
    if s != "" && Blank(s[0]) then TrimFront(s[1..]) else s
  }

  function TrimEnd(s: string): string {
    if s != "" && Tail(s[|s| - 1]) then TrimEnd(s[..|s| - 1]) else s
  }

  function Trim(s: string): string { TrimEnd(TrimFront(s)) }

  lemma {:induction false} TrimFrontIs(s: string, a: nat)
    requires a <= |s| && (forall k :: 0 <= k < a ==> Blank(s[k])) && (a < |s| ==> !Blank(s[a]))
    ensures TrimFront(s) == s[a..]
  {
    if a > 0 { TrimFrontIs(s[1..], a - 1); }
  }

  lemma {:induction false} TrimEndIs(s: string, b: nat)
    requires b <= |s| && (forall k :: b <= k < |s| ==> Tail(s[k])) && (b > 0 ==> !Tail(s[b - 1]))
    ensures TrimEnd(s) == s[..b]
  {
    if b < |s| {
      TrimEndIs(s[..|s| - 1], b);
      assert s[..|s| - 1][..b] == s[..b];
    }
  }

  lemma TrimIs(s: string, a: nat, b: nat)
    requires a <= b <= |s| && TrimsTo(s, a, b)
    ensures Trim(s) == s[a..b]
  {
    TrimFrontIs(s, a);
    TrimEndIs(s[a..], b - a);
  }

  method TrimText(s: string) returns (t: string)
    ensures t == Trim(s)
  {
    var a := 0;
    while a < |s| && Blank(s[a])
      invariant 0 <= a <= |s| && forall k :: 0 <= k < a ==> Blank(s[k])
    {
      a := a + 1;
    }
    var b := |s|;
    while b > a && Tail(s[b - 1])
      invariant a <= b <= |s| && forall k :: b <= k < |s| ==> Tail(s[k])
    {
      b := b - 1;
    }
    t := s[a..b];
    assert TrimsTo(s, a, b);
    TrimIs(s, a, b);
  }

  // -------------------------------------------------------------------------
  // Header lines

  /** A line without a colon is passed over. */
  function AddLine(got: seq<Header>, line: string): seq<Header> {
    var k := Find(line, ':');
    if k < |line| then got + [Header(Trim(line[..k]), Trim(line[k + 1..]))] else got
  }

  /** Where the line loop stops. */
  predicate Last(text: string) {
    Find(text, '\n') == |text| || text[0] == '\r' || text[0] == '\n'
  }

  /** Header lines up to the blank one; None when a line comes after the table is full. */
  function Headers(text: string, got: seq<Header>): Option<seq<Header>>
    decreases |text|
  {
    if Last(text) then Some(got)
    else if |got| >= MAX_HEADERS then None
    else
      var e := Find(text, '\n');
      Headers(text[e + 1..], AddLine(got, text[..e]))
  }

  method AddLineTo(got: seq<Header>, line: string) returns (r: seq<Header>)
    ensures r == AddLine(got, line)
  {
    var colon := Find(line, ':');
    if colon == |line| { return got; }
    var name := TrimText(line[..colon]);
    var value := TrimText(line[colon + 1..]);
    r := got + [Header(name, value)];
  }

  method ReadHeaders(text: string) returns (r: Option<seq<Header>>)
    ensures r == Headers(text, [])
  {
    var cursor, got := text, [];
    while !Last(cursor)
      invariant Headers(text, []) == Headers(cursor, got)
      decreases |cursor|
    {
      if |got| >= MAX_HEADERS {
        return None;
      }
      var e := Find(cursor, '\n');
      got := AddLineTo(got, cursor[..e]);
      cursor := cursor[e + 1..];
    }
    return Some(got);
  }

  function Lower(c: char): char { if 'A' <= c <= 'Z' then c + 32 as char else c }

  predicate SameName(a: string, b: string) {
    |a| == |b| && forall i :: 0 <= i < |a| ==> Lower(a[i]) == Lower(b[i])
  }

  /** a is the capital of b. */
  predicate CapitalOf(a: char, b: char) { 'A' <= a <= 'Z' && b as int - a as int == 32 }

  /** Names and "close" are compared without regard to case, and in nothing else loosely. */
  lemma SameNameExactly(a: string, b: string)
    ensures SameName(a, b) <==> |a| == |b| && forall i :: 0 <= i < |a| ==> a[i] == b[i] || CapitalOf(a[i], b[i]) || CapitalOf(b[i], a[i])
  {
    if |a| == |b| {
      forall i | 0 <= i < |a| ensures Lower(a[i]) == Lower(b[i]) <==> a[i] == b[i] || CapitalOf(a[i], b[i]) || CapitalOf(b[i], a[i]) {}
    }
  }

  /** The value of the first header of this name. */
  function Lookup(hs: seq<Header>, name: string): (r: Option<string>)
    ensures r.None? <==> forall i :: 0 <= i < |hs| ==> !SameName(hs[i].name, name)
  {
    if hs == [] then None
    else if SameName(hs[0].name, name) then Some(hs[0].value)
    else Lookup(hs[1..], name)
  }

  function Count(hs: seq<Header>, name: string): nat {
    if hs == [] then 0 else Count(hs[..|hs| - 1], name) + if SameName(hs[|hs| - 1].name, name) then 1 else 0
  }

  // -------------------------------------------------------------------------
  // Content-Length

  predicate Digit(c: char) { '0' <= c <= '9' }

  function Value(s: string): nat
    requires forall i :: 0 <= i < |s| ==> Digit(s[i])
  {
    if s == "" then 0
    else
      assert Digit(s[|s| - 1]);
      10 * Value(s[..|s| - 1]) + (s[|s| - 1] as int - '0' as int)
  }

  /** The number written in decimal. */
  function Decimal(n: nat): (s: string)
    ensures s != "" && (forall i :: 0 <= i < |s| ==> Digit(s[i])) && Value(s) == n
  {
    var d := ['0' + (n % 10) as char];
    if n < 10 then d
    else
      assert (Decimal(n / 10) + d)[..|Decimal(n / 10)|] == Decimal(n / 10);
      Decimal(n / 10) + d
  }

  /** How long the body is, or None for a head that must be refused. */
  function BodyLength(hs: seq<Header>): Option<nat> {
    match Lookup(hs, "Content-Length")
    case None => if Lookup(hs, "Transfer-Encoding").Some? then None else Some(0)
    case Some(v) =>
      if Count(hs, "Content-Length") > 1 || v == "" || (exists i :: 0 <= i < |v| && !Digit(v[i])) then None
      else if Value(v) > MAX_BODY || Lookup(hs, "Transfer-Encoding").Some? then None
      else Some(Value(v))
  }

  method ReadBodyLength(hs: seq<Header>) returns (r: Option<nat>)
    ensures r == BodyLength(hs)
  {
    var count := 0;
    for i := 0 to |hs|
      invariant count == Count(hs[..i], "Content-Length")
    {
      assert hs[..i + 1][..i] == hs[..i];
      if SameName(hs[i].name, "Content-Length") { count := count + 1; }
    }
    assert hs[..|hs|] == hs;
    var length := 0;
    var v := Lookup(hs, "Content-Length");
    if v.Some? {
      if count > 1 || v.value == "" { return None; }
      for i := 0 to |v.value|
        invariant forall j :: 0 <= j < i ==> Digit(v.value[j])
      {
        if !Digit(v.value[i]) { return None; }
      }
      length := Value(v.value);
      if length > MAX_BODY { return None; }
    }
    if Lookup(hs, "Transfer-Encoding").Some? { return None; }
    return Some(length);
  }

  // -------------------------------------------------------------------------
  // The whole head

  /** The head without its last byte, as a C string: everything before the first NUL. */
  function Text(head: string): string
    requires head != ""
  {
    var block := head[..|head| - 1];
    block[..Find(block, NUL)]
  }

  /** The target is cut at its first question mark and each part clipped to its buffer. */
  function Assemble(verb: string, target: string, headers: seq<Header>, length: nat): Head {
    var q := Find(target, '?');
    Head(verb, Clip(target[..q], 1024), if q < |target| then Clip(target[q + 1..], 2048) else "", headers, length)
  }

  function ParseLines(words: (string, string), lines: string): Option<Head> {
    var hs := Headers(lines, []);
    if hs.None? then None
    else
      var n := BodyLength(hs.value);
      if n.None? then None else Some(Assemble(words.0, words.1, hs.value, n.value))
  }

  function ParseText(text: string): Option<Head> {
    var e := Find(text, '\n');
    if e == |text| then None
    else
      var words := TwoWords(text[..e]);
      if words.None? then None else ParseLines(words.value, text[e + 1..])
  }

  function Parse(head: string): Option<Head>
    requires head != ""
  {
    ParseText(Text(head))
  }

  method ParseHead(head: string) returns (r: Option<Head>)
    requires head != ""
    ensures r == Parse(head)
  {
    var text := Text(head);
    var e := Find(text, '\n');
    if e == |text| { return None; }
    var words := TwoWords(text[..e]);
    if words.None? { return None; }
    var lines := text[e + 1..];
    var hs := ReadHeaders(lines);
    if hs.None? { return None; }
    var n := ReadBodyLength(hs.value);
    if n.None? { return None; }
    return Some(Assemble(words.value.0, words.value.1, hs.value, n.value));
  }

  // -------------------------------------------------------------------------
  // Writing a head and reading it back

  ghost predicate Word(s: string) {
    s != "" && forall i :: 0 <= i < |s| ==> !IsSpace(s[i]) && s[i] != NUL
  }

  /** Free of the bytes that end lines, and with nothing at either end that trim would take. */
  ghost predicate Clean(s: string) {
    && (forall i :: 0 <= i < |s| ==> s[i] != '\n' && s[i] != '\r' && s[i] != NUL)
    && (s != "" ==> !Blank(s[0]) && !Blank(s[|s| - 1]))
  }

  ghost predicate CleanHeader(h: Header) {
    Clean(h.name) && Clean(h.value) && (forall i :: 0 <= i < |h.name| ==> h.name[i] != ':')
  }

  ghost predicate CleanHeaders(hs: seq<Header>) {
    hs == [] || (CleanHeader(hs[0]) && CleanHeaders(hs[1..]))
  }

  function Line(h: Header): string { h.name + ": " + h.value + "\r\n" }

  function Lines(hs: seq<Header>): string {
    if hs == [] then "" else Line(hs[0]) + Lines(hs[1..])
  }

  function RequestLine(verb: string, target: string): string { verb + " " + target + " HTTP/1.1\r\n" }

  function HeadText(verb: string, target: string, hs: seq<Header>): string {
    RequestLine(verb, target) + Lines(hs) + "\r\n"
  }

  lemma LineParts(h: Header)
    requires CleanHeader(h)
    ensures var n := |Line(h)|; n >= 4 && Line(h)[n - 1] == '\n' && Line(h)[n - 2] == '\r' && Line(h)[0] !in {'\r', '\n'}
    ensures forall j :: 0 <= j < |Line(h)| - 2 ==> Line(h)[j] != '\n' && Line(h)[j] != '\r' && Line(h)[j] != NUL
  {
  }

  lemma NameTrims(s: string)
    requires Clean(s)
    ensures Trim(s) == s
  {
    TrimIs(s, 0, |s|);
    assert s[0..|s|] == s;
  }

  lemma ValueTrims(v: string)
    requires Clean(v)
    ensures Trim(" " + v + "\r") == v
  {
    var s := " " + v + "\r";
    if v == "" {
      TrimIs(s, 1, 1);
    } else {
      assert s[1] == v[0] && s[|v|] == v[|v| - 1];
      TrimIs(s, 1, 1 + |v|);
      assert s[1..1 + |v|] == v;
    }
  }

  lemma LineReadsBack(h: Header, got: seq<Header>)
    requires CleanHeader(h)
    ensures var line := Line(h)[..|Line(h)| - 1]; AddLine(got, line) == got + [h]
  {
    var line := Line(h)[..|Line(h)| - 1];
    assert line == h.name + ":" + (" " + h.value + "\r");
    FindIs(line, ':', |h.name|);
    assert line[..|h.name|] == h.name && line[|h.name| + 1..] == " " + h.value + "\r";
    NameTrims(h.name);
    ValueTrims(h.value);
  }

  lemma HeadersStep(line: string, rest: string, got: seq<Header>)
    requires |line| >= 1 && line[|line| - 1] == '\n' && line[0] != '\n' && line[0] != '\r' && |got| < MAX_HEADERS
    requires forall j :: 0 <= j < |line| - 1 ==> line[j] != '\n'
    ensures Headers(line + rest, got) == Headers(rest, AddLine(got, line[..|line| - 1]))
  {
    var text, n := line + rest, |line|;
    FindIs(text, '\n', n - 1);
    assert text[..n - 1] == line[..n - 1] && text[n..] == rest;
  }

  lemma BlankLineEnds(got: seq<Header>)
    ensures Headers(Lines([]) + "\r", got) == Some(got)
  {
    assert Lines([]) + "\r" == "\r";
  }

  lemma LineStep(h: Header, rest: string, got: seq<Header>)
    requires CleanHeader(h) && |got| < MAX_HEADERS
    ensures Headers(Line(h) + rest, got) == Headers(rest, got + [h])
  {
    LineParts(h);
    LineReadsBack(h, got);
    HeadersStep(Line(h), rest, got);
  }

  lemma LinesStep(hs: seq<Header>, got: seq<Header>)
    requires hs != [] && CleanHeaders(hs) && |got| < MAX_HEADERS
    ensures Headers(Lines(hs) + "\r", got) == Headers(Lines(hs[1..]) + "\r", got + [hs[0]])
  {
    var rest := Lines(hs[1..]) + "\r";
    assert Lines(hs) + "\r" == Line(hs[0]) + rest;
    LineStep(hs[0], rest, got);
  }

  lemma Reassociate(got: seq<Header>, hs: seq<Header>)
    requires hs != []
    ensures got + [hs[0]] + hs[1..] == got + hs
  {
  }

  ghost predicate ReadsBack(hs: seq<Header>, got: seq<Header>) {
    Headers(Lines(hs) + "\r", got) == Some(got + hs)
  }

  lemma ReadsBackFromTail(hs: seq<Header>, got: seq<Header>)
    requires hs != [] && CleanHeaders(hs) && |got| < MAX_HEADERS && ReadsBack(hs[1..], got + [hs[0]])
    ensures ReadsBack(hs, got)
  {
    Reassociate(got, hs);
    LinesStep(hs, got);
  }

  lemma {:induction false} AllReadBack(hs: seq<Header>, got: seq<Header>)
    requires CleanHeaders(hs) && |got| + |hs| <= MAX_HEADERS
    ensures ReadsBack(hs, got)
    decreases |hs|
  {
    if hs == [] {
      BlankLineEnds(got);
      assert got + hs == got;
    } else {
      AllReadBack(hs[1..], got + [hs[0]]);
      ReadsBackFromTail(hs, got);
    }
  }

  /** The lines written for a list of headers are read back as that list. */
  lemma LinesReadBack(hs: seq<Header>)
    requires CleanHeaders(hs) && |hs| <= 32
    ensures Headers(Lines(hs) + "\r", []) == Some(hs)
  {
    AllReadBack(hs, []);
    assert [] + hs == hs;
  }

  lemma {:induction false} LinesOverflow(hs: seq<Header>, got: seq<Header>)
    requires CleanHeaders(hs) && |got| <= 32 < |got| + |hs|
    ensures Headers(Lines(hs) + "\r", got) == None
    decreases |hs|
  {
    if |got| == 32 {
      LineIsNotLast(hs[0], Lines(hs[1..]) + "\r");
      assert Lines(hs) + "\r" == Line(hs[0]) + (Lines(hs[1..]) + "\r");
    } else {
      LinesStep(hs, got);
      LinesOverflow(hs[1..], got + [hs[0]]);
    }
  }

  lemma LineIsNotLast(h: Header, rest: string)
    requires CleanHeader(h)
    ensures !Last(Line(h) + rest)
  {
    LineParts(h);
    var line := Line(h);
    FindIs(line + rest, '\n', |line| - 1);
    assert (line + rest)[0] == line[0];
  }

  /** More than 32 of them are refused. */
  lemma MoreThan32AreRefused(hs: seq<Header>)
    requires CleanHeaders(hs) && |hs| > 32
    ensures Headers(Lines(hs) + "\r", []) == None
  {
    LinesOverflow(hs, []);
  }

  lemma {:induction false} LinesHaveNoNul(hs: seq<Header>)
    requires CleanHeaders(hs)
    ensures NUL !in Lines(hs)
  {
    if hs != [] { LineParts(hs[0]); LinesHaveNoNul(hs[1..]); }
  }

  lemma WordsReadBack(verb: string, target: string)
    requires Word(verb) && |verb| <= 15 && Word(target) && |target| <= 3071
    ensures TwoWords(verb + " " + target + " HTTP/1.1\r") == Some((verb, target))
  {
    var line := verb + " " + target + " HTTP/1.1\r";
    var v, t := |verb|, |target|;
    assert forall k :: 0 <= k < v ==> line[k] == verb[k];
    assert forall k :: 0 <= k < t ==> line[v + 1 + k] == target[k];
    assert line[v] == ' ' && line[v + 1 + t] == ' ';
    assert line[0] == verb[0] && line[v + 1] == target[0];
    WordIs(line, 0, v, 15);
    SpaceIs(line, v, v + 1);
    WordIs(line, v + 1, v + 1 + t, 3071);
    assert line[..v] == verb && line[v + 1..v + 1 + t] == target;
  }

  lemma {:induction false} WordIs(s: string, i: nat, j: nat, width: nat)
    requires i <= j < |s| && j - i <= width && IsSpace(s[j])
    requires forall k :: i <= k < j ==> !IsSpace(s[k])
    ensures WordEnd(s, i, width) == j
    decreases j - i
  {
    if i < j { WordIs(s, i + 1, j, width - 1); }
  }

  lemma {:induction false} SpaceIs(s: string, i: nat, j: nat)
    requires i <= j < |s| && !IsSpace(s[j])
    requires forall k :: i <= k < j ==> IsSpace(s[k])
    ensures SkipSpace(s, i) == j
    decreases j - i
  {
    if i < j { SpaceIs(s, i + 1, j); }
  }

  lemma HeadIsText(verb: string, target: string, hs: seq<Header>)
    requires Word(verb) && Word(target) && CleanHeaders(hs)
    ensures var head := HeadText(verb, target, hs);
            Text(head) == RequestLine(verb, target) + (Lines(hs) + "\r")
  {
    var head := HeadText(verb, target, hs);
    var block := head[..|head| - 1];
    assert block == RequestLine(verb, target) + (Lines(hs) + "\r");
    LinesHaveNoNul(hs);
    LineHasNoNul(verb, target);
    FindIs(block, NUL, |block|);
  }

  lemma LineHasNoNul(verb: string, target: string)
    requires Word(verb) && Word(target)
    ensures var line := RequestLine(verb, target);
            NUL !in line && (forall j :: 0 <= j < |line| - 1 ==> line[j] != '\n') && line[|line| - 1] == '\n'
    ensures var line := RequestLine(verb, target);
            (forall j :: 0 <= j < |line| - 2 ==> line[j] != '\r') && line[|line| - 2] == '\r'
  {
    assert forall c :: c in " HTTP/1.1" ==> c !in {'\r', '\n', NUL};
  }

  lemma RequestLineReadsBack(verb: string, target: string, lines: string)
    requires Word(verb) && |verb| <= 15 && Word(target) && |target| <= 3071
    ensures ParseText(RequestLine(verb, target) + lines) == ParseLines((verb, target), lines)
  {
    hide TwoWords, ParseLines;
    var line := RequestLine(verb, target);
    var n, text := |line|, line + lines;
    LineHasNoNul(verb, target);
    FindIs(text, '\n', n - 1);
    WordsReadBack(verb, target);
    assert text[n..] == lines;
    assert text[..n - 1] == line[..n - 1] == verb + " " + target + " HTTP/1.1\r";
  }

  /** A head written with clean fields is read back field by field. */
  lemma HeadReadsBack(verb: string, target: string, hs: seq<Header>)
    requires Word(verb) && |verb| <= 15 && Word(target) && |target| <= 3071
    requires CleanHeaders(hs) && |hs| <= 32 && BodyLength(hs).Some?
    ensures Parse(HeadText(verb, target, hs)) == Some(Assemble(verb, target, hs, BodyLength(hs).value))
  {
    HeadIsText(verb, target, hs);
    RequestLineReadsBack(verb, target, Lines(hs) + "\r");
    LinesReadBack(hs);
  }

  lemma TargetIsCut(verb: string, path: string, query: string, hs: seq<Header>, length: nat)
    requires '?' !in path
    ensures Assemble(verb, path + "?" + query, hs, length) == Head(verb, Clip(path, 1024), Clip(query, 2048), hs, length)
  {
    var target := path + "?" + query;
    FindIs(target, '?', |path|);
    assert target[..|path|] == path && target[|path| + 1..] == query;
  }

  /** The path is what stands before the first question mark, cut to 1023 characters, and the query what stands behind it,
      cut to 2047. */
  lemma LongPartsAreCut(verb: string, path: string, query: string, hs: seq<Header>)
    requires Word(verb) && |verb| <= 15 && Word(path + "?" + query) && |path + "?" + query| <= 3071
    requires CleanHeaders(hs) && |hs| <= 32 && BodyLength(hs).Some? && '?' !in path
    ensures Parse(HeadText(verb, path + "?" + query, hs)) ==
            Some(Head(verb, Clip(path, 1024), Clip(query, 2048), hs, BodyLength(hs).value))
  {
    hide BodyLength, Parse, HeadText;
    HeadReadsBack(verb, path + "?" + query, hs);
    TargetIsCut(verb, path, query, hs, BodyLength(hs).value);
  }

  /** Shorter parts come back whole. */
  lemma PathAndQueryReadBack(verb: string, path: string, query: string, hs: seq<Header>)
    requires Word(verb) && |verb| <= 15 && Word(path + "?" + query) && |path + "?" + query| <= 3071
    requires CleanHeaders(hs) && |hs| <= 32 && BodyLength(hs).Some?
    requires '?' !in path && |path| < 1024 && |query| < 2048
    ensures Parse(HeadText(verb, path + "?" + query, hs)) == Some(Head(verb, path, query, hs, BodyLength(hs).value))
  {
    hide BodyLength, Parse, HeadText;
    LongPartsAreCut(verb, path, query, hs);
  }

  /** Without a question mark all of the target is the path. */
  lemma PathReadsBack(verb: string, path: string, hs: seq<Header>)
    requires Word(verb) && |verb| <= 15 && Word(path) && '?' !in path && |path| < 1024
    requires CleanHeaders(hs) && |hs| <= 32 && BodyLength(hs).Some?
    ensures Parse(HeadText(verb, path, hs)) == Some(Head(verb, path, "", hs, BodyLength(hs).value))
  {
    HeadReadsBack(verb, path, hs);
    FindIs(path, '?', |path|);
    assert path[..|path|] == path;
  }

  // -------------------------------------------------------------------------
  // What a body length is taken from

  /** Transfer-Encoding is refused, whatever else is there. */
  lemma TransferEncodingIsRefused(hs: seq<Header>, i: nat)
    requires i < |hs| && SameName(hs[i].name, "Transfer-Encoding")
    ensures BodyLength(hs) == None
  {
  }

  lemma {:induction false} CountedTwice(hs: seq<Header>, i: nat, j: nat, name: string)
    requires i < j < |hs| && SameName(hs[i].name, name) && SameName(hs[j].name, name)
    ensures Count(hs, name) >= 2
  {
    var n := |hs| - 1;
    if j < n {
      CountedTwice(hs[..n], i, j, name);
    } else {
      CountedOnce(hs[..n], i, name);
    }
  }

  lemma {:induction false} CountedOnce(hs: seq<Header>, i: nat, name: string)
    requires i < |hs| && SameName(hs[i].name, name)
    ensures Count(hs, name) >= 1
  {
    if i < |hs| - 1 { CountedOnce(hs[..|hs| - 1], i, name); }
  }

  /** So is a second Content-Length, even of the same value. */
  lemma SecondLengthIsRefused(hs: seq<Header>, i: nat, j: nat)
    requires i < j < |hs| && SameName(hs[i].name, "Content-Length") && SameName(hs[j].name, "Content-Length")
    ensures BodyLength(hs) == None
  {
    CountedTwice(hs, i, j, "Content-Length");
  }

  /** And a length that is empty, not all digits, or above 16 MiB. */
  lemma BadLengthIsRefused(hs: seq<Header>, v: string)
    requires Lookup(hs, "Content-Length") == Some(v)
    requires v == "" || (exists i :: 0 <= i < |v| && !('0' <= v[i] <= '9')) || Value(v) > 16777216
    ensures BodyLength(hs) == None
  {
  }

  /** A head with any such headers is no head at all. */
  lemma RefusedHead(verb: string, target: string, hs: seq<Header>)
    requires Word(verb) && |verb| <= 15 && Word(target) && |target| <= 3071
    requires CleanHeaders(hs) && |hs| <= 32 && BodyLength(hs).None?
    ensures Parse(HeadText(verb, target, hs)) == None
  {
    HeadIsText(verb, target, hs);
    RequestLineReadsBack(verb, target, Lines(hs) + "\r");
    LinesReadBack(hs);
  }
}
