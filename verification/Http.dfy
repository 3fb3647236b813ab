/**
 * HTTP framing on one connection: a growing receive buffer filled by recv in chunks of any size,
 * a search for the end of the head, the body, and compaction before the next request.
 */
module Http {
  import opened Strings
  import opened HttpHead

  const MAX_HEADER := 32768
  const CRLF2 := "\r\n\r\n"
  const LF2 := "\n\n"

  // -------------------------------------------------------------------------
  // The end of the head

  predicate At(s: string, i: nat, needle: string) {
    i + |needle| <= |s| && s[i..i + |needle|] == needle
  }

  lemma AtMeans(s: string, i: nat, needle: string)
    ensures At(s, i, needle) <==> i + |needle| <= |s| && forall k :: 0 <= k < |needle| ==> s[i + k] == needle[k]
  {
    if i + |needle| <= |s| {
      var w := s[i..i + |needle|];
      assert forall k :: 0 <= k < |needle| ==> w[k] == s[i + k];
    }
  }

  /** The first occurrence from i on. */
  function Search(s: string, needle: string, i: nat): (r: Option<nat>)
    ensures r.Some? ==> i <= r.value && At(s, r.value, needle)
    decreases |s| - i
  {
    if i + |needle| > |s| then None
    else if At(s, i, needle) then Some(i)
    else if i == |s| then None
    else Search(s, needle, i + 1)
  }

  lemma {:induction false} SearchIs(s: string, needle: string, i: nat, k: nat)
    requires i <= k && At(s, k, needle) && forall j :: i <= j < k ==> !At(s, j, needle)
    ensures Search(s, needle, i) == Some(k)
    decreases k - i
  {
    if i < k { SearchIs(s, needle, i + 1, k); }
  }

  lemma {:induction false} SearchFails(s: string, needle: string, i: nat)
    requires forall j :: i <= j <= |s| ==> !At(s, j, needle)
    ensures Search(s, needle, i) == None
    decreases |s| - i
  {
    if i < |s| { SearchFails(s, needle, i + 1); }
  }

  lemma {:induction false} SearchIsFirst(s: string, needle: string, i: nat)
    requires i <= |s|
    ensures var r := Search(s, needle, i);
            forall j :: i <= j && j < (if r.Some? then r.value else |s| + 1) ==> !At(s, j, needle)
    decreases |s| - i
  {
    if i < |s| { SearchIsFirst(s, needle, i + 1); }
  }

  method BufFind(hay: string, needle: string) returns (r: Option<nat>)
    requires needle != ""
    ensures r == Search(hay, needle, 0)
  {
    var i := 0;
    while i + |needle| <= |hay|
      invariant Search(hay, needle, 0) == Search(hay, needle, i)
    {
      if hay[i] == needle[0] && hay[i..i + |needle|] == needle {
        return Some(i);
      }
      i := i + 1;
    }
    return None;
  }

  /** The length of the head that a buffer shows: up to CRLFCRLF wherever it stands, else up to LFLF. */
  function HeadLength(s: string): (r: Option<nat>)
    ensures r.Some? ==> 2 <= r.value <= |s|
  {
    match Search(s, CRLF2, 0)
    case Some(c) => Some(c + 4)
    case None =>
      match Search(s, LF2, 0)
      case Some(l) => Some(l + 2)
      case None => None
  }

  function Limited(h: Option<nat>): (r: Option<nat>)
    ensures r.Some? ==> r == h && r.value <= MAX_HEADER
  {
    if h.Some? && h.value <= MAX_HEADER then h else None
  }

  /** The head of a stream seen whole. */
  function HeadOf(stream: string): (r: Option<nat>)
    ensures r.Some? ==> 2 <= r.value <= |stream| && r.value <= MAX_HEADER
  {
    Limited(HeadLength(stream))
  }

  function Flat(chunks: seq<string>): string {
    if chunks == [] then "" else chunks[0] + Flat(chunks[1..])
  }

  /** The head accepted when the buffer grows chunk by chunk; total counts the bytes read for it. */
  function Accepted(buf: string, chunks: seq<string>, total: nat): (r: Option<nat>)
    ensures r.Some? ==> 2 <= r.value <= |buf| + |Flat(chunks)| && r.value <= MAX_HEADER
    decreases |chunks|
  {
    var h := HeadLength(buf);
    if h.Some? then Limited(h)
    else if total > MAX_HEADER || chunks == [] then None
    else Accepted(buf + chunks[0], chunks[1..], total + |chunks[0]|)
  }

  /**
   * Within the size limit, no LFLF ends before the first CRLFCRLF ends. (A stream without a
   * CRLFCRLF is steady: only its first LFLF can end the head.)
   */
  predicate Steady(stream: string) {
    var c, l := Search(stream, CRLF2, 0), Search(stream, LF2, 0);
    c.Some? && l.Some? && l.value + 2 <= 32768 ==> l.value > c.value + 2
  }

  ghost predicate NonEmpty(chunks: seq<string>) { forall i :: 0 <= i < |chunks| ==> chunks[i] != "" }

  lemma PrefixAt(s: string, p: string, i: nat, needle: string)
    requires p <= s
    ensures At(p, i, needle) <==> At(s, i, needle) && i + |needle| <= |p|
  {
    if i + |needle| <= |p| { assert p[i..i + |needle|] == s[i..i + |needle|]; }
  }

  /** What the prefix finds, the whole finds at the same place. */
  lemma PrefixSearch(s: string, p: string, needle: string)
    requires p <= s && needle != ""
    ensures var r, q := Search(s, needle, 0), Search(p, needle, 0);
            q == if r.Some? && r.value + |needle| <= |p| then r else None
  {
    var r := Search(s, needle, 0);
    SearchIsFirst(s, needle, 0);
    if r.Some? && r.value + |needle| <= |p| {
      forall j | 0 <= j < r.value ensures !At(p, j, needle) { PrefixAt(s, p, j, needle); }
      PrefixAt(s, p, r.value, needle);
      SearchIs(p, needle, 0, r.value);
    } else {
      forall j | 0 <= j <= |p| ensures !At(p, j, needle) { PrefixAt(s, p, j, needle); }
      SearchFails(p, needle, 0);
    }
  }

  lemma PrefixShows(s: string, p: string)
    requires p <= s && Steady(s)
    ensures HeadLength(p).Some? ==> Limited(HeadLength(p)) == HeadOf(s)
    ensures HeadLength(p).None? && HeadOf(s).Some? ==> HeadOf(s).value > |p|
  {
    PrefixSearch(s, p, CRLF2);
    PrefixSearch(s, p, LF2);
  }

  lemma FlatSplit(buf: string, chunks: seq<string>)
    requires chunks != []
    ensures buf + Flat(chunks) == (buf + chunks[0]) + Flat(chunks[1..])
  {
  }

  /** On a steady stream the head does not depend on how the bytes arrive. */
  lemma {:induction false} AcceptedIsHead(buf: string, chunks: seq<string>, total: nat)
    requires Steady(buf + Flat(chunks)) && total <= |buf|
    ensures Accepted(buf, chunks, total) == HeadOf(buf + Flat(chunks))
    decreases |chunks|
  {
    hide Steady, HeadLength;
    var s := buf + Flat(chunks);
    PrefixShows(s, buf);
    if HeadLength(buf).None? && total <= MAX_HEADER && chunks != [] {
      FlatSplit(buf, chunks);
      AcceptedIsHead(buf + chunks[0], chunks[1..], total + |chunks[0]|);
    }
  }

  lemma TwoChunks(p: string, q: string, h: nat)
    requires HeadLength(p) == Some(h) && h == |p|
    ensures Flat([p, q]) == p + q
    ensures Accepted("", [p, q], 0) == Limited(Some(h))
  {
    assert [p, q][1..] == [q] && [q][1..] == [] && "" + p == p;
    assert Flat([q]) == q + Flat([]) == q;
    assert HeadLength("") == None;
    assert Accepted("", [p, q], 0) == Accepted(p, [q], |p|);
  }

  lemma EndsApart(s: string, c: nat, l: nat)
    requires At(s, c, CRLF2) && At(s, l, LF2)
    ensures l != c + 2
  {
    assert s[c + 2] == s[c..c + 4][2] && s[l] == s[l..l + 2][0];
  }

  lemma EarlyEnds(s: string)
    requires !Steady(s)
    ensures var c, l := Search(s, CRLF2, 0), Search(s, LF2, 0);
            c.Some? && l.Some? && l.value + 2 < c.value + 4 <= |s| && l.value + 2 <= MAX_HEADER
  {
    EndsApart(s, Search(s, CRLF2, 0).value, Search(s, LF2, 0).value);
  }

  lemma EarlyPrefix(s: string, l: nat)
    requires !Steady(s) && Search(s, LF2, 0) == Some(l) && l + 2 <= |s|
    ensures HeadLength(s[..l + 2]) == Some(l + 2) && l + 2 <= MAX_HEADER
    ensures HeadLength(s).Some? && l + 2 < HeadLength(s).value
  {
    EarlyEnds(s);
    var p := s[..l + 2];
    PrefixSearch(s, p, CRLF2);
    PrefixSearch(s, p, LF2);
    assert Search(p, CRLF2, 0) == None && Search(p, LF2, 0) == Some(l);
  }

  lemma EarlySplitDiffers(s: string)
    requires !Steady(s)
    ensures exists chunks :: NonEmpty(chunks) && Flat(chunks) == s && Accepted("", chunks, 0) != HeadOf(s)
  {
    EarlyEnds(s);
    var l := Search(s, LF2, 0).value;
    EarlyPrefix(s, l);
    var p, q := s[..l + 2], s[l + 2..];
    TwoChunks(p, q, l + 2);
    assert p + q == s && NonEmpty([p, q]);
  }

  /** The head is the same for every way recv may split the bytes exactly when the stream is steady. */
  lemma SplitDoesNotMatterExactly(s: string)
    ensures Steady(s) <==> forall chunks :: NonEmpty(chunks) && Flat(chunks) == s ==> Accepted("", chunks, 0) == HeadOf(s)
  {
    if Steady(s) {
      forall chunks | NonEmpty(chunks) && Flat(chunks) == s ensures Accepted("", chunks, 0) == HeadOf(s) {
        assert "" + Flat(chunks) == s;
        AcceptedIsHead("", chunks, 0);
      }
    } else {
      EarlySplitDiffers(s);
    }
  }

  // -------------------------------------------------------------------------
  // Requests cut from a stream

  datatype Request = Request(head: Head, body: string)
  datatype Framed = Framed(request: Request, used: nat)

  function WithBody(head: Option<Head>, h: nat, stream: string): (r: Option<Framed>)
    requires 0 < h <= |stream|
    ensures r.Some? ==> 0 < r.value.used <= |stream|
  {
    if head.None? || h + head.value.length > |stream| then None
    else Some(Framed(Request(head.value, stream[h..h + head.value.length]), h + head.value.length))
  }

  /** The request whose head has length h, when the head is good and the whole body is there. */
  function FrameAt(h: Option<nat>, stream: string): (r: Option<Framed>)
    requires h.Some? ==> 0 < h.value <= |stream|
    ensures r.Some? ==> 0 < r.value.used <= |stream|
  {
    if h.None? then None else WithBody(Parse(stream[..h.value]), h.value, stream)
  }

  function Frame(stream: string): (r: Option<Framed>)
    ensures r.Some? ==> 0 < r.value.used <= |stream|
  {
    FrameAt(HeadOf(stream), stream)
  }

  predicate Closes(r: Request) {
    var v := Lookup(r.head.headers, "Connection");
    v.Some? && SameName(v.value, "close")
  }

  predicate Continues(r: Request, keep: nat -> bool, n: nat) { keep(n) && !Closes(r) }

  /** The requests of a stream and the bytes left over; keep(n) is what the handler of request n answers. */
  function Ideal(stream: string, keep: nat -> bool, n: nat): (seq<Request>, string)
    decreases |stream|
  {
    var f := Frame(stream);
    if f.None? then ([], stream)
    else
      var rest := stream[f.value.used..];
      if !Continues(f.value.request, keep, n) then ([f.value.request], rest)
      else
        var more := Ideal(rest, keep, n + 1);
        ([f.value.request] + more.0, more.1)
  }

  /** The stream is steady wherever a request starts. */
  predicate Calm(stream: string, keep: nat -> bool, n: nat)
    decreases |stream|
  {
    Steady(stream)
    && var f := Frame(stream);
       f.Some? && Continues(f.value.request, keep, n) ==> Calm(stream[f.value.used..], keep, n + 1)
  }

  /** The requests and then the rest are consecutive bytes of the stream, none lost and none used twice. */
  ghost predicate Carved(stream: string, rs: seq<Request>, rest: string)
    decreases |rs|
  {
    if rs == [] then stream == rest
    else
      var n := |rs| - 1;
      exists mid: string, h: nat :: CarvedLast(mid, h, rs[n], rest) && Carved(stream, rs[..n], mid)
  }

  ghost predicate CarvedLast(mid: string, h: nat, r: Request, rest: string) {
    && 0 < h <= |mid| && var f := FrameAt(Some(h), mid);
                         f.Some? && f.value.request == r && rest == mid[f.value.used..]
  }

  lemma CarvedGrows(stream: string, rs: seq<Request>, mid: string, h: nat, r: Request, rest: string)
    requires Carved(stream, rs, mid) && CarvedLast(mid, h, r, rest)
    ensures Carved(stream, rs + [r], rest)
  {
    var all, n := rs + [r], |rs|;
    assert all[..n] == rs;
    assert CarvedLast(mid, h, all[n], rest) && Carved(stream, all[..n], mid);
  }

  lemma LastLeavesSuffix(mid: string, h: nat, r: Request, rest: string)
    requires CarvedLast(mid, h, r, rest)
    ensures exists k :: 0 < k <= |mid| && rest == mid[k..]
  {
    assert rest == mid[FrameAt(Some(h), mid).value.used..];
  }

  lemma SuffixOfSuffix(stream: string, i: nat, k: nat)
    requires i <= |stream| && k <= |stream| - i
    ensures stream[i..][k..] == stream[i + k..]
  {
  }

  /** What is left is a tail of what came in, at least one byte shorter for each request. */
  lemma {:induction false} CarvedLeavesSuffix(stream: string, rs: seq<Request>, rest: string)
    requires Carved(stream, rs, rest)
    ensures exists k :: |rs| <= k <= |stream| && rest == stream[k..]
    decreases |rs|
  {
    if rs == [] {
      assert rest == stream[0..];
    } else {
      var n := |rs| - 1;
      var mid: string, h: nat :| CarvedLast(mid, h, rs[n], rest) && Carved(stream, rs[..n], mid);
      CarvedLeavesSuffix(stream, rs[..n], mid);
      LastLeavesSuffix(mid, h, rs[n], rest);
      var i :| n <= i <= |stream| && mid == stream[i..];
      var k :| 0 < k <= |mid| && rest == mid[k..];
      SuffixOfSuffix(stream, i, k);
    }
  }

  /** The requests served so far, and what the rest would still give, make up the whole. */
  ghost predicate AgreesWith(stream: string, rs: seq<Request>, rest: string, alive: bool, keep: nat -> bool) {
    var whole, more := Ideal(stream, keep, 0), Ideal(rest, keep, |rs|);
    if alive then Calm(rest, keep, |rs|) && whole.0 == rs + more.0 && whole.1 == more.1
    else whole == (rs, rest)
  }

  lemma ServingStarts(stream: string, keep: nat -> bool)
    ensures Carved(stream, [], stream)
    ensures Calm(stream, keep, 0) ==> AgreesWith(stream, [], stream, true, keep)
  {
    assert [] + Ideal(stream, keep, 0).0 == Ideal(stream, keep, 0).0;
  }

  lemma AgreedIsSteady(stream: string, rs: seq<Request>, rest: string, keep: nat -> bool)
    requires AgreesWith(stream, rs, rest, true, keep)
    ensures Steady(rest)
  {
  }

  lemma AgreementEnds(stream: string, rs: seq<Request>, rest: string, keep: nat -> bool)
    requires AgreesWith(stream, rs, rest, false, keep)
    ensures Ideal(stream, keep, 0) == (rs, rest)
  {
  }

  lemma AgreementStops(stream: string, rs: seq<Request>, rest: string, keep: nat -> bool)
    requires AgreesWith(stream, rs, rest, true, keep) && Frame(rest) == None
    ensures AgreesWith(stream, rs, rest, false, keep)
  {
    assert Ideal(rest, keep, |rs|) == ([], rest) && rs + [] == rs;
  }

  lemma Reassociate(rs: seq<Request>, r: Request, later: seq<Request>)
    ensures rs + ([r] + later) == rs + [r] + later && |rs + [r]| == |rs| + 1
  {
  }

  lemma AgreementGrows(stream: string, rs: seq<Request>, rest: string, keep: nat -> bool)
    requires AgreesWith(stream, rs, rest, true, keep) && Frame(rest).Some?
    ensures var f := Frame(rest).value;
            AgreesWith(stream, rs + [f.request], rest[f.used..], Continues(f.request, keep, |rs|), keep)
  {
    var f := Frame(rest).value;
    Reassociate(rs, f.request, Ideal(rest[f.used..], keep, |rs| + 1).0);
  }

  lemma Slices(buf: string, pos: nat, tail: string, h: nat, need: nat)
    requires h <= need <= |buf| - pos
    ensures var rest := buf[pos..] + tail;
            rest[..h] == buf[pos..pos + h] && rest[h..need] == buf[pos + h..pos + need] && rest[need..] == buf[pos + need..] + tail
  {
  }

  // -------------------------------------------------------------------------
  // The connection

  class Conn {
    var buf: string
    var pos: nat
    var net: seq<string>  // what each recv will return, until the peer closes

    ghost predicate Valid()
      reads this
    {
      pos <= |buf|
    }

    /** The bytes not yet used: the rest of the buffer, then all that is to come. */
    ghost function Rest(): string
      requires Valid()
      reads this
    {
      buf[pos..] + Flat(net)
    }

    constructor (chunks: seq<string>)
      ensures Valid() && buf == "" && pos == 0 && net == chunks && Rest() == Flat(chunks)
    {
      buf, pos, net := "", 0, chunks;
      new;
      assert buf[pos..] + Flat(net) == Flat(chunks);
    }

    method Receive() returns (n: Option<nat>)
      requires Valid()
      modifies this
      ensures Valid() && pos == old(pos) && Rest() == old(Rest())
      ensures n.None? <==> old(net) == []
      ensures n.Some? ==> net == old(net)[1..] && buf == old(buf) + old(net)[0] && n.value == |old(net)[0]|
      ensures n.None? ==> net == old(net) && buf == old(buf)
    {
      if net == [] { return None; }
      var chunk := net[0];
      FlatSplit(buf[pos..], net);
      buf, net := buf + chunk, net[1..];
      assert buf[pos..] == old(buf[pos..]) + chunk;
      return Some(|chunk|);
    }

    method FindHead() returns (h: Option<nat>)
      requires Valid()
      ensures h == HeadLength(buf[pos..])
    {
      var c := BufFind(buf[pos..], CRLF2);
      if c.Some? { return Some(c.value + 4); }
      var l := BufFind(buf[pos..], LF2);
      if l.Some? { return Some(l.value + 2); }
      return None;
    }

    /** The head that comes next, with reading as long as none shows. */
    method AwaitHead() returns (h: Option<nat>)
      requires Valid()
      modifies this
      ensures Valid() && pos == old(pos) && Rest() == old(Rest())
      ensures h == Accepted(old(buf[pos..]), old(net), 0)
      ensures h.Some? ==> 2 <= h.value <= |buf| - pos
    {
      hide HeadLength;
      var total: nat := 0;
      h := FindHead();
      while h.None?
        invariant Valid() && pos == old(pos) && Rest() == old(Rest())
        invariant h == HeadLength(buf[pos..])
        invariant Accepted(buf[pos..], net, total) == Accepted(old(buf[pos..]), old(net), 0)
        decreases h.None?, |net|
      {
        if total > MAX_HEADER { return None; }
        ghost var before := buf[pos..];
        var n := Receive();
        if n.None? { return None; }
        assert buf[pos..] == before + buf[|buf| - n.value..];
        total := total + n.value;
        h := FindHead();
      }
      if h.value > MAX_HEADER { h := None; }
    }

    method AwaitBody(need: nat) returns (ok: bool)
      requires Valid()
      modifies this
      ensures Valid() && pos == old(pos) && Rest() == old(Rest())
      ensures old(buf) <= buf
      ensures ok == (need <= |Rest()|) && (ok ==> need <= |buf| - pos)
    {
      while |buf| < pos + need
        invariant Valid() && pos == old(pos) && Rest() == old(Rest()) && old(buf) <= buf
        decreases |net|
      {
        var n := Receive();
        if n.None? { return false; }
      }
      return true;
    }

    /** Takes the body that a head of length h announces. */
    method TakeBody(head: Head, h: nat) returns (r: Option<Request>)
      requires Valid() && 0 < h <= |buf| - pos
      modifies this
      ensures Valid()
      ensures var f := WithBody(Some(head), h, old(Rest()));
              if f.None? then r == None && Rest() == old(Rest())
              else r == Some(f.value.request) && Rest() == old(Rest())[f.value.used..]
    {
      var need := h + head.length;
      var ok := AwaitBody(need);
      if !ok { return None; }
      Slices(buf, pos, Flat(net), h, need);
      r := Some(Request(head, buf[pos + h..pos + need]));
      pos := pos + need;
    }

    method ParseRequest() returns (r: Option<Request>)
      requires Valid()
      modifies this
      ensures Valid()
      ensures var f := FrameAt(Accepted(old(buf[pos..]), old(net), 0), old(Rest()));
              if f.None? then r == None && Rest() == old(Rest())
              else r == Some(f.value.request) && Rest() == old(Rest())[f.value.used..]
    {
      var h := AwaitHead();
      if h.None? { return None; }
      Slices(buf, pos, Flat(net), h.value, h.value);
      var head := ParseHead(buf[pos..pos + h.value]);
      if head.None? { return None; }
      r := TakeBody(head.value, h.value);
    }

    method Compact()
      requires Valid()
      modifies this
      ensures Valid() && pos == 0 && net == old(net) && Rest() == old(Rest())
    {
      if pos > 0 {
        buf := buf[pos..];
        pos := 0;
        assert buf[pos..] == buf;
      }
    }

    /** The connection loop: parse, answer, decide whether to go on, compact. */
    method Serve(keep: nat -> bool) returns (rs: seq<Request>)
      requires Valid()
      modifies this
      ensures Valid() && Carved(old(Rest()), rs, Rest())
      ensures Calm(old(Rest()), keep, 0) ==> (rs, Rest()) == Ideal(old(Rest()), keep, 0)
    {
      hide Calm, Ideal, Steady, Carved, AgreesWith, Accepted, WithBody;
      rs := [];
      var alive := true;
      ghost var stream := Rest();
      ServingStarts(stream, keep);
      while alive
        invariant Valid() && Carved(stream, rs, Rest())
        invariant Calm(stream, keep, 0) ==> AgreesWith(stream, rs, Rest(), alive, keep)
        decreases alive, |Rest()|
      {
        ghost var mid := Rest();
        ghost var h := Accepted(buf[pos..], net, 0);
        if Calm(stream, keep, 0) { AgreedIsSteady(stream, rs, mid, keep); AcceptedIsHead(buf[pos..], net, 0); }
        var r := ParseRequest();
        if r.None? {
          if Calm(stream, keep, 0) { AgreementStops(stream, rs, mid, keep); AgreementEnds(stream, rs, mid, keep); }
          break;
        }
        CarvedGrows(stream, rs, mid, h.value, r.value, Rest());
        if Calm(stream, keep, 0) { AgreementGrows(stream, rs, mid, keep); }
        alive := keep(|rs|) && !Closes(r.value);
        rs := rs + [r.value];
        Compact();
      }
      if Calm(stream, keep, 0) && !alive { AgreementEnds(stream, rs, Rest(), keep); }
    }
  }

  // -------------------------------------------------------------------------
  // Pipelines

  /** One request and no more, whatever its head looks like: it is steady, and its frame uses it up. */
  predicate Single(m: string) {
    Steady(m) && Frame(m).Some? && Frame(m).value.used == |m|
  }

  /** Its head ends in CRLFCRLF. */
  predicate Whole(m: string) {
    Single(m) && Search(m, CRLF2, 0).Some?
  }

  lemma FrontSlices(m: string, tail: string, h: nat, n: nat)
    requires h + n == |m|
    ensures (m + tail)[..h] == m[..h] && (m + tail)[h..h + n] == m[h..h + n] && (m + tail)[h + n..] == tail
  {
  }

  lemma HeadInFront(m: string, tail: string)
    requires Steady(m) && Search(m, CRLF2, 0).Some?
    ensures Steady(m + tail) && HeadOf(m + tail) == HeadOf(m)
  {
    PrefixSearch(m + tail, m, CRLF2);
    PrefixSearch(m + tail, m, LF2);
  }

  /** A whole request is framed as itself in front of anything else. */
  lemma WholeIsFramed(m: string, tail: string)
    requires Whole(m)
    ensures Steady(m + tail) && Frame(m + tail) == Frame(m) && (m + tail)[|m|..] == tail
  {
    hide Search, Steady;
    HeadInFront(m, tail);
    var h := HeadOf(m).value;
    FrontSlices(m, tail, h, |m| - h);
  }

  /** One whose head ends in LFLF is not: a CRLFCRLF behind it would be taken for the end of its head. */
  lemma BareHeadIsAmbiguous(m: string)
    requires Single(m) && Search(m, CRLF2, 0).None?
    ensures !Steady(m + CRLF2)
  {
    var s, l := m + CRLF2, Search(m, LF2, 0).value;
    PrefixSearch(s, m, CRLF2);
    PrefixSearch(s, m, LF2);
    assert s[|m|..] == CRLF2 && At(s, |m|, CRLF2);
    SearchIsFirst(s, CRLF2, 0);
  }

  /** A request is framed as itself in front of anything else if and only if its head ends in CRLFCRLF. */
  lemma FramedInFrontExactly(m: string)
    requires Single(m)
    ensures Whole(m) <==> forall tail :: Steady(m + tail) && Frame(m + tail) == Frame(m)
  {
    hide Search, Steady, Frame;
    if Whole(m) {
      forall tail ensures Steady(m + tail) && Frame(m + tail) == Frame(m) { WholeIsFramed(m, tail); }
    } else {
      BareHeadIsAmbiguous(m);
    }
  }

  function RequestOf(m: string): Request
    requires Single(m)
  {
    Frame(m).value.request
  }

  function Requests(ms: seq<string>): seq<Request>
    requires forall i :: 0 <= i < |ms| ==> Single(ms[i])
  {
    if ms == [] then [] else [RequestOf(ms[0])] + Requests(ms[1..])
  }

  /** Whole requests, each of which leaves the connection open. */
  ghost predicate Open(ms: seq<string>, keep: nat -> bool, n: nat) {
    ms == [] || (Whole(ms[0]) && Continues(RequestOf(ms[0]), keep, n) && Open(ms[1..], keep, n + 1))
  }

  lemma {:induction false} OpenAreSingle(ms: seq<string>, keep: nat -> bool, n: nat)
    requires Open(ms, keep, n)
    ensures forall i :: 0 <= i < |ms| ==> Single(ms[i])
  {
    if ms != [] {
      OpenAreSingle(ms[1..], keep, n + 1);
      forall i | 0 <= i < |ms| ensures Single(ms[i]) { if i > 0 { assert ms[i] == ms[1..][i - 1]; } }
    }
  }

  lemma FrontRequest(m: string, rest: string, keep: nat -> bool, n: nat)
    requires Whole(m) && Continues(RequestOf(m), keep, n)
    ensures Calm(m + rest, keep, n) == Calm(rest, keep, n + 1)
    ensures Ideal(m + rest, keep, n) == ([RequestOf(m)] + Ideal(rest, keep, n + 1).0, Ideal(rest, keep, n + 1).1)
  {
    hide Steady, Whole, Continues;
    assert Single(m) by { SingleOfWhole(m); }
    WholeIsFramed(m, rest);
    assert Calm(m + rest, keep, n) == Calm((m + rest)[|m|..], keep, n + 1);
  }

  /** A request with "Connection: close", or whose handler does not keep the connection, is the last: what is behind it is
      not even looked at. */
  lemma ClosingRequestIsLast(m: string, rest: string, keep: nat -> bool, n: nat)
    requires Whole(m)
    requires !keep(n) || exists v :: Lookup(RequestOf(m).head.headers, "Connection") == Some(v) && SameName(v, "close")
    ensures Calm(m + rest, keep, n) && Ideal(m + rest, keep, n) == ([RequestOf(m)], rest)
  {
    hide Steady, Whole, SameName;
    SingleOfWhole(m);
    WholeIsFramed(m, rest);
  }

  lemma SingleOfWhole(m: string)
    requires Whole(m)
    ensures Single(m)
  {
  }

  lemma Later(front: seq<Request>, r: Request, more: seq<Request>, m: string, ms: string, rest: string)
    ensures [r] + front + more == [r] + (front + more) && (m + ms) + rest == m + (ms + rest)
  {
  }

  /** Requests in front of any other bytes are read one by one, and then what is behind them as if it stood alone. */
  lemma {:induction false} PipelineInFront(ms: seq<string>, rest: string, keep: nat -> bool, n: nat)
    requires Open(ms, keep, n)
    ensures forall i :: 0 <= i < |ms| ==> Single(ms[i])
    ensures Calm(Flat(ms) + rest, keep, n) == Calm(rest, keep, n + |ms|)
    ensures var more := Ideal(rest, keep, n + |ms|);
            Ideal(Flat(ms) + rest, keep, n) == (Requests(ms) + more.0, more.1)
    decreases |ms|
  {
    hide Single, Whole, Continues, Calm, Ideal;
    OpenAreSingle(ms, keep, n);
    var more := Ideal(rest, keep, n + |ms|).0;
    if ms == [] {
      assert Flat(ms) + rest == rest && Requests(ms) + more == more;
    } else {
      PipelineInFront(ms[1..], rest, keep, n + 1);
      FrontRequest(ms[0], Flat(ms[1..]) + rest, keep, n);
      Later(Requests(ms[1..]), RequestOf(ms[0]), more, ms[0], Flat(ms[1..]), rest);
    }
  }

  /** Whole requests that keep the connection open, and a last one that need not. */
  ghost predicate Pipelined(ms: seq<string>, keep: nat -> bool, n: nat) {
    ms == [] || (Open(ms[..|ms| - 1], keep, n) && Single(ms[|ms| - 1]))
  }

  lemma NothingToServe(keep: nat -> bool, n: nat)
    ensures Calm("", keep, n) && Ideal("", keep, n) == ([], "")
  {
    assert HeadLength("") == None;
  }

  lemma LastRequest(m: string, keep: nat -> bool, n: nat)
    requires Single(m)
    ensures Calm(m, keep, n) && Ideal(m, keep, n) == ([RequestOf(m)], "")
  {
    assert m[|m|..] == "";
    NothingToServe(keep, n + 1);
    assert [RequestOf(m)] + [] == [RequestOf(m)];
  }

  lemma {:induction false} FlatOfLast(ms: seq<string>, m: string)
    ensures Flat(ms + [m]) == Flat(ms) + m
  {
    var all := ms + [m];
    if ms == [] {
      assert all[1..] == [];
    } else {
      assert all[0] == ms[0] && all[1..] == ms[1..] + [m];
      FlatOfLast(ms[1..], m);
    }
  }

  lemma {:induction false} RequestsOfLast(ms: seq<string>, m: string)
    requires Single(m) && forall i :: 0 <= i < |ms| ==> Single(ms[i])
    ensures forall i :: 0 <= i < |ms + [m]| ==> Single((ms + [m])[i])
    ensures Requests(ms + [m]) == Requests(ms) + [RequestOf(m)]
  {
    hide Single;
    var all := ms + [m];
    if ms == [] {
      assert all[1..] == [];
    } else {
      assert all[0] == ms[0] && all[1..] == ms[1..] + [m];
      RequestsOfLast(ms[1..], m);
    }
  }

  /**
   * A pipeline is calm, is read back request for request in order, and leaves no byte over, whatever its
   * heads look like and wherever they say how long their bodies are.
   */
  lemma PipelineIsReadBack(ms: seq<string>, keep: nat -> bool, n: nat)
    requires Pipelined(ms, keep, n)
    ensures forall i :: 0 <= i < |ms| ==> Single(ms[i])
    ensures Calm(Flat(ms), keep, n) && Ideal(Flat(ms), keep, n) == (Requests(ms), "")
  {
    hide Single, Open, Calm, Ideal, Requests, RequestOf;
    if ms == [] {
      NothingToServe(keep, n);
      assert Requests(ms) == [] by { NoRequests(); }
    } else {
      assert ms == ms[..|ms| - 1] + [ms[|ms| - 1]];
      FrontAndLast(ms[..|ms| - 1], ms[|ms| - 1], keep, n);
    }
  }

  lemma NoRequests()
    ensures Requests([]) == []
  {
  }

  lemma FrontAndLast(front: seq<string>, m: string, keep: nat -> bool, n: nat)
    requires Open(front, keep, n) && Single(m)
    ensures var ms := front + [m];
            && (forall i :: 0 <= i < |ms| ==> Single(ms[i]))
            && Calm(Flat(ms), keep, n) && Ideal(Flat(ms), keep, n) == (Requests(ms), "")
  {
    hide Single, Open, Calm, Ideal, Requests, RequestOf, Flat;
    PipelineInFront(front, m, keep, n);
    LastRequest(m, keep, n + |front|);
    FlatOfLast(front, m);
    RequestsOfLast(front, m);
  }

  // -------------------------------------------------------------------------
  // Requests written and read back

  /** Any headers that announce the body: a Content-Length anywhere, or none where there is no body. */
  datatype Message = Message(verb: string, target: string, headers: seq<Header>, body: string)

  function HeadBytes(m: Message): string { HeadText(m.verb, m.target, m.headers) }

  function Write(m: Message): string { HeadBytes(m) + m.body }

  ghost predicate WellFormed(m: Message) {
    && Word(m.verb) && |m.verb| <= 15 && Word(m.target) && |m.target| <= 3071
    && CleanHeaders(m.headers) && |m.headers| <= 32
    && BodyLength(m.headers) == Some(|m.body|) && |HeadBytes(m)| <= 32768
  }

  /** The request that a message is meant to be. */
  function Read(m: Message): Request {
    Request(Assemble(m.verb, m.target, m.headers, |m.body|), m.body)
  }

  /** Lines that start with neither CR nor LF and end in CRLF, with no other CR or LF that could end a head. */
  ghost predicate Tidy(s: string) {
    && (s != "" ==> |s| >= 2 && s[0] !in {'\r', '\n'} && s[|s| - 2] == '\r' && s[|s| - 1] == '\n')
    && (forall i :: 0 <= i < |s| && s[i] == '\n' ==> i > 0 && s[i - 1] == '\r')
    && (forall i :: 0 <= i < |s| - 1 && s[i] == '\n' ==> s[i + 1] !in {'\r', '\n'})
  }

  lemma TidyJoins(a: string, b: string)
    requires Tidy(a) && Tidy(b)
    ensures Tidy(a + b)
  {
    var s := a + b;
    forall i | 0 <= i < |s| && s[i] == '\n' ensures i > 0 && s[i - 1] == '\r' {
      if i < |a| { assert s[i] == a[i]; } else { assert s[i] == b[i - |a|]; }
    }
    forall i | 0 <= i < |s| - 1 && s[i] == '\n' ensures s[i + 1] !in {'\r', '\n'} {
      if i < |a| { assert s[i] == a[i]; } else { assert s[i] == b[i - |a|]; }
    }
  }

  lemma LineIsTidy(h: Header)
    requires CleanHeader(h)
    ensures Tidy(Line(h))
  {
    LineParts(h);
  }

  lemma {:induction false} LinesAreTidy(hs: seq<Header>)
    requires CleanHeaders(hs)
    ensures Tidy(Lines(hs))
  {
    if hs != [] {
      LineIsTidy(hs[0]);
      LinesAreTidy(hs[1..]);
      TidyJoins(Line(hs[0]), Lines(hs[1..]));
    }
  }

  lemma RequestLineIsTidy(verb: string, target: string)
    requires Word(verb) && Word(target)
    ensures Tidy(RequestLine(verb, target)) && RequestLine(verb, target) != ""
  {
    LineHasNoNul(verb, target);
    assert RequestLine(verb, target)[0] == verb[0];
  }

  /** A blank line after tidy lines is the first place where a head can end. */
  lemma BlankLineIsFirst(lines: string, tail: string)
    requires Tidy(lines) && lines != ""
    ensures var s := lines + "\r\n" + tail;
            && Search(s, CRLF2, 0) == Some(|lines| - 2)
            && forall j :: 0 <= j <= |lines| ==> !At(s, j, LF2)
  {
    var s, c := lines + "\r\n" + tail, |lines| - 2;
    assert s[c..c + 4] == CRLF2;
    forall j | 0 <= j < c ensures !At(s, j, CRLF2) {
      AtMeans(s, j, CRLF2);
      assert s[j + 1] == lines[j + 1] && s[j + 2] == lines[j + 2];
    }
    SearchIs(s, CRLF2, 0, c);
    forall j | 0 <= j <= |lines| ensures !At(s, j, LF2) {
      AtMeans(s, j, LF2);
      assert LF2[0] == '\n' && LF2[1] == '\n';
      assert j + 1 < |lines| ==> s[j] == lines[j] && s[j + 1] == lines[j + 1];
    }
  }

  lemma HeadIsFound(m: Message)
    requires WellFormed(m)
    ensures Search(Write(m), CRLF2, 0).Some? && Steady(Write(m)) && HeadOf(Write(m)) == Some(|HeadBytes(m)|)
  {
    RequestLineIsTidy(m.verb, m.target);
    LinesAreTidy(m.headers);
    var lines := RequestLine(m.verb, m.target) + Lines(m.headers);
    TidyJoins(RequestLine(m.verb, m.target), Lines(m.headers));
    BlankLineIsFirst(lines, m.body);
    assert Write(m) == lines + "\r\n" + m.body;
  }

  lemma HeadAndBody(head: string, body: string, parsed: Head)
    requires HeadOf(head + body) == Some(|head|)
    requires Parse(head) == Some(parsed) && parsed.length == |body|
    ensures Frame(head + body) == Some(Framed(Request(parsed, body), |head + body|))
  {
    hide HeadOf, Parse;
    var s := head + body;
    assert s[..|head|] == head && s[|head|..|head| + |body|] == body;
    assert WithBody(Some(parsed), |head|, s) == Some(Framed(Request(parsed, body), |s|));
  }

  /** A message as it is written is a whole request, and the one it is meant to be. */
  lemma MessageIsWhole(m: Message)
    requires WellFormed(m)
    ensures Whole(Write(m)) && RequestOf(Write(m)) == Read(m)
  {
    hide BodyLength, Search, Steady, Parse, HeadText;
    HeadIsFound(m);
    HeadReadsBack(m.verb, m.target, m.headers);
    HeadAndBody(HeadBytes(m), m.body, Read(m).head);
  }

  /** No Content-Length is needed where there is no body, as in a plain GET. */
  lemma BodylessNeedsNoLength(hs: seq<Header>)
    requires Lookup(hs, "Content-Length") == None && Lookup(hs, "Transfer-Encoding") == None
    ensures BodyLength(hs) == Some(0)
  {
  }

  lemma {:induction false} LookupJoins(a: seq<Header>, b: seq<Header>, name: string)
    ensures Lookup(a + b, name) == if Lookup(a, name).Some? then Lookup(a, name) else Lookup(b, name)
  {
    if a == [] {
      assert a + b == b;
    } else {
      assert (a + b)[1..] == a[1..] + b;
      LookupJoins(a[1..], b, name);
    }
  }

  lemma {:induction false} CountJoins(a: seq<Header>, b: seq<Header>, name: string)
    ensures Count(a + b, name) == Count(a, name) + Count(b, name)
  {
    if b == [] {
      assert a + b == a;
    } else {
      var n := |b| - 1;
      assert (a + b)[..|a + b| - 1] == a + b[..n];
      CountJoins(a, b[..n], name);
    }
  }

  lemma {:induction false} AbsentCountsZero(hs: seq<Header>, name: string)
    requires Lookup(hs, name) == None
    ensures Count(hs, name) == 0
  {
    if hs != [] {
      var n := |hs| - 1;
      assert !SameName(hs[n].name, name);
      assert forall i :: 0 <= i < n ==> hs[..n][i] == hs[i];
      AbsentCountsZero(hs[..n], name);
    }
  }

  /** With a body, one may be added to the other headers in any place. */
  lemma LengthAnywhere(hs: seq<Header>, k: nat, n: nat)
    requires k <= |hs| && n <= 16777216
    requires Lookup(hs, "Content-Length") == None && Lookup(hs, "Transfer-Encoding") == None
    ensures BodyLength(hs[..k] + [Header("Content-Length", Decimal(n))] + hs[k..]) == Some(n)
  {
    hide Decimal;
    var h := Header("Content-Length", Decimal(n));
    var front, back := hs[..k], hs[k..];
    var all := front + [h] + back;
    assert hs == front + back;
    LookupJoins(front, back, "Content-Length"); LookupJoins(front, back, "Transfer-Encoding");
    LookupJoins([h], back, "Content-Length"); LookupJoins([h], back, "Transfer-Encoding");
    assert all == front + ([h] + back);
    LookupJoins(front, [h] + back, "Content-Length"); LookupJoins(front, [h] + back, "Transfer-Encoding");
    CountJoins(front, [h] + back, "Content-Length"); CountJoins([h], back, "Content-Length");
    AbsentCountsZero(front, "Content-Length"); AbsentCountsZero(back, "Content-Length");
    assert [h][..0] == [];
  }

  /** A whole connection: however the bytes of a pipeline are cut, its requests are what is answered. */
  method ConnMain(chunks: seq<string>, keep: nat -> bool) returns (rs: seq<Request>)
    ensures Calm(Flat(chunks), keep, 0) ==> rs == Ideal(Flat(chunks), keep, 0).0
    ensures forall ms :: Pipelined(ms, keep, 0) && Flat(chunks) == Flat(ms) ==>
                           (forall i :: 0 <= i < |ms| ==> Single(ms[i])) && rs == Requests(ms)
  {
    hide Single, Pipelined, Calm, Ideal;
    var c := new Conn(chunks);
    rs := c.Serve(keep);
    forall ms | Pipelined(ms, keep, 0) && Flat(chunks) == Flat(ms)
      ensures (forall i :: 0 <= i < |ms| ==> Single(ms[i])) && rs == Requests(ms)
    {
      PipelineIsReadBack(ms, keep, 0);
    }
  }
}
