/** From a dotted filter key to a quoted JSON path and back (src/engine/shard.c). */
module JsonPath {
  import opened Strings

  const KEY_LIMIT := 512

  /** The position of the first dot, or the length of the text. */
  function Dot(s: string): (i: nat)
    ensures i <= |s| && '.' !in s[..i] && (i < |s| ==> s[i] == '.')
  {
    if s == "" || s[0] == '.' then 0 else 1 + Dot(s[1..])
  }

  /** The segments between the dots. */
  function Split(key: string): (segments: seq<string>)
    ensures |segments| > 0
  {
    var d := Dot(key);
    if d == |key| then [key] else [key[..d]] + Split(key[d + 1..])
  }

  function Join(segments: seq<string>): string
    requires |segments| > 0
  {
    if |segments| == 1 then segments[0] else segments[0] + "." + Join(segments[1..])
  }

  lemma {:induction false} JoinUndoesSplit(key: string)
    ensures Join(Split(key)) == key
    ensures forall i :: 0 <= i < |Split(key)| ==> '.' !in Split(key)[i]
  {
    var d := Dot(key);
    if d < |key| {
      JoinUndoesSplit(key[d + 1..]);
      assert Split(key)[1..] == Split(key[d + 1..]);
      assert key == key[..d] + "." + key[d + 1..];
    } else {
      assert key[..d] == key;
    }
  }

  /** A usable key: every segment is non-empty and free of control characters. */
  predicate KeyValid(key: string) {
    && |key| <= KEY_LIMIT
    && (forall i :: 0 <= i < |Split(key)| ==> Split(key)[i] != "")
    && (forall i :: 0 <= i < |key| ==> key[i] >= ' ')
  }

  /** No dot at either end or next to another dot, and something between them. */
  predicate NoEmptySegment(key: string) {
    && key != "" && key[0] != '.' && key[|key| - 1] != '.'
    && (forall i :: 0 < i < |key| && key[i] == '.' ==> key[i - 1] != '.')
  }

  lemma {:induction false} SegmentsAreNonEmpty(key: string)
    ensures NoEmptySegment(key) <==> forall i :: 0 <= i < |Split(key)| ==> Split(key)[i] != ""
  {
    var d := Dot(key);
    if d < |key| {
      var rest := key[d + 1..];
      SegmentsAreNonEmpty(rest);
      assert Split(key) == [key[..d]] + Split(rest);
      assert forall i :: 0 <= i < |rest| ==> rest[i] == key[d + 1 + i];
      assert forall i :: 0 <= i < d ==> key[i] == key[..d][i];
      if NoEmptySegment(key) {
        assert d > 0 && rest != "" && rest[0] != '.';
        assert NoEmptySegment(rest);
      }
      if d > 0 && NoEmptySegment(rest) {
        forall i | 0 < i < |key| && key[i] == '.' ensures key[i - 1] != '.' {
          if i == d { assert key[..d][d - 1] != '.'; }
          if i > d + 1 { assert rest[i - d - 1] == '.'; assert rest[i - d - 2] != '.'; }
        }
        assert key[|key| - 1] == rest[|rest| - 1];
      }
      if forall i :: 0 <= i < |Split(key)| ==> Split(key)[i] != "" {
        assert Split(key)[0] == key[..d];
        forall i | 0 <= i < |Split(rest)| ensures Split(rest)[i] != "" { assert Split(key)[i + 1] == Split(rest)[i]; }
      }
    } else {
      assert key[..d] == key;
      assert Split(key) == [key];
      if NoEmptySegment(key) { assert Split(key)[0] != ""; }
      if key == "" { assert Split(key)[0] == ""; }
    }
  }

  method FilterKeyValid(key: string) returns (ok: bool)
    ensures ok <==> KeyValid(key)
    ensures ok <==> |key| <= 512 && NoEmptySegment(key) && forall i :: 0 <= i < |key| ==> key[i] as int >= 32
  {
    SegmentsAreNonEmpty(key);
    if key == "" || |key| > KEY_LIMIT || key[0] == '.' || key[|key| - 1] == '.' {
      return false;
    }
    var segment := false;
    for i := 0 to |key|
      invariant segment <==> i > 0 && key[i - 1] != '.'
      invariant forall k :: 0 < k < i && key[k] == '.' ==> key[k - 1] != '.'
      invariant forall k :: 0 <= k < i ==> key[k] >= ' '
    {
      if key[i] == '.' {
        if !segment {
          assert i > 0 && key[i] == '.' && key[i - 1] == '.';
          return false;
        }
        segment := false;
      } else {
        if key[i] < ' ' {
          return false;
        }
        segment := true;
      }
    }
    return segment;
  }

  predicate Special(c: char) { c == '"' || c == '\\' }

  function Escape(s: string): string {
    if s == "" then ""
    else (if Special(s[0]) then ['\\', s[0]] else [s[0]]) + Escape(s[1..])
  }

  function Label(segment: string): string {
    ['.', '"'] + Escape(segment) + ['"']
  }

  function Labels(segments: seq<string>): string {
    if segments == [] then "" else Label(segments[0]) + Labels(segments[1..])
  }

  function PathText(segments: seq<string>): string {
    "$" + Labels(segments)
  }

  lemma {:induction false} EscapeAppends(s: string, c: char)
    ensures Escape(s + [c]) == Escape(s) + (if Special(c) then ['\\', c] else [c])
  {
    if s != "" {
      assert (s + [c])[1..] == s[1..] + [c];
      EscapeAppends(s[1..], c);
    }
  }

  lemma LabelsCons(segment: string, rest: seq<string>)
    ensures Labels([segment] + rest) == Label(segment) + Labels(rest)
  {
    assert ([segment] + rest)[1..] == rest;
  }

  /** The labels of the segments after the first dot. */
  function Later(segment: string): string {
    var d := Dot(segment);
    if d == |segment| then "" else Labels(Split(segment[d + 1..]))
  }

  lemma LabelsOfSplit(segment: string)
    ensures Labels(Split(segment)) == Label(segment[..Dot(segment)]) + Later(segment)
  {
    var d := Dot(segment);
    var name := segment[..d];
    if d == |segment| {
      assert name == segment;
      LabelsCons(name, []);
      assert [name] + [] == [segment];
    } else {
      LabelsCons(name, Split(segment[d + 1..]));
    }
  }

  /** json_path_for_key: one pass over the key, byte by byte into the path. */
  method PathForKey(key: string) returns (path: string)
    ensures path == PathText(Split(key))
  {
    path := "$";
    var segment := key;
    while true
      invariant path + Labels(Split(segment)) == PathText(Split(key))
      decreases |segment|
    {
      var dot := Dot(segment);
      LabelsOfSplit(segment);
      ghost var before, rest := path, Later(segment);
      path := path + ['.', '"'];
      ghost var start := path;
      for i := 0 to dot
        invariant path == start + Escape(segment[..i])
      {
        assert segment[..i + 1] == segment[..i] + [segment[i]];
        EscapeAppends(segment[..i], segment[i]);
        if segment[i] == '"' || segment[i] == '\\' {
          path := path + ['\\'];
        }
        path := path + [segment[i]];
      }
      path := path + ['"'];
      LabelAppended(before, segment[..dot], rest);
      assert path + rest == PathText(Split(key));
      if dot == |segment| {
        break;
      }
      segment := segment[dot + 1..];
    }
  }

  lemma LabelAppended(before: string, segment: string, rest: string)
    ensures before + ['.', '"'] + Escape(segment) + ['"'] + rest == before + (Label(segment) + rest)
  {
  }

  /** Reads a quoted label up to its closing quote; a backslash takes the next character literally. */
  function ReadLabel(s: string): (r: Option<(string, string)>)
    ensures r.Some? ==> |r.value.1| < |s|
  {
    if s == "" then None
    else if s[0] == '"' then Some(("", s[1..]))
    else if s[0] == '\\' && |s| == 1 then None
    else
      var skip := if s[0] == '\\' then 1 else 0;
      match ReadLabel(s[skip + 1..])
      case None => None
      case Some((name, rest)) => Some(([s[skip]] + name, rest))
  }

  function ReadLabels(s: string): Option<seq<string>>
    decreases |s|
  {
    if s == "" then Some([])
    else if |s| < 2 || s[0] != '.' || s[1] != '"' then None
    else match ReadLabel(s[2..])
      case None => None
      case Some((name, rest)) =>
        match ReadLabels(rest)
        case None => None
        case Some(more) => Some([name] + more)
  }

  /** The reader of a JSON path made of quoted labels. */
  function ReadPath(path: string): Option<seq<string>> {
    if path == "" || path[0] != '$' then None else ReadLabels(path[1..])
  }

  lemma {:induction false} ReadLabelUndoesEscape(segment: string, rest: string)
    ensures ReadLabel(Escape(segment) + "\"" + rest) == Some((segment, rest))
  {
    var s := Escape(segment) + "\"" + rest;
    if segment == "" {
      assert s[1..] == rest;
    } else {
      ReadLabelUndoesEscape(segment[1..], rest);
      var skip := if Special(segment[0]) then 1 else 0;
      assert s[skip + 1..] == Escape(segment[1..]) + "\"" + rest;
      assert s[skip] == segment[0];
      assert [segment[0]] + segment[1..] == segment;
    }
  }

  lemma ReadOneMore(name: string, more: seq<string>)
    requires ReadLabels(Labels(more)) == Some(more)
    ensures ReadLabels(Label(name) + Labels(more)) == Some([name] + more)
  {
    hide Escape, ReadLabel, Labels;
    var rest := Labels(more);
    var text := Label(name) + rest;
    ReadLabelUndoesEscape(name, rest);
    assert text[2..] == Escape(name) + "\"" + rest;
  }

  lemma {:induction false} ReadLabelsUndoesLabels(segments: seq<string>)
    ensures ReadLabels(Labels(segments)) == Some(segments)
  {
    if segments != [] {
      var name, more := segments[0], segments[1..];
      ReadLabelsUndoesLabels(more);
      ReadOneMore(name, more);
      assert [name] + more == segments;
    }
  }

  /** The path names exactly the key's segments, whatever characters they hold. */
  lemma PathRoundTrip(key: string)
    ensures ReadPath(PathText(Split(key))) == Some(Split(key))
    ensures Join(Split(key)) == key
  {
    ReadLabelsUndoesLabels(Split(key));
    assert PathText(Split(key))[1..] == Labels(Split(key));
    JoinUndoesSplit(key);
  }

  function Specials(s: string): nat {
    if s == "" then 0 else (if Special(s[0]) then 1 else 0) + Specials(s[1..])
  }

  lemma {:induction false} EscapeLength(s: string)
    ensures |Escape(s)| == |s| + Specials(s)
  {
    if s != "" { EscapeLength(s[1..]); }
  }

  lemma {:induction false} SpecialsAdd(s: string, t: string)
    ensures Specials(s + t) == Specials(s) + Specials(t)
  {
    if s == "" {
      assert s + t == t;
    } else {
      assert (s + t)[1..] == s[1..] + t;
      SpecialsAdd(s[1..], t);
    }
  }

  lemma SpecialsAroundDot(key: string, d: nat)
    requires d < |key| && key[d] == '.'
    ensures Specials(key) == Specials(key[..d]) + Specials(key[d + 1..])
  {
    assert key == key[..d] + key[d..];
    SpecialsAdd(key[..d], key[d..]);
    assert key[d..][1..] == key[d + 1..];
  }

  lemma {:induction false} LabelsLength(key: string)
    ensures |Labels(Split(key))| == |key| + 2 * |Split(key)| + 1 + Specials(key)
  {
    hide Escape, Specials;
    var d := Dot(key);
    EscapeLength(key[..d]);
    LabelsOfSplit(key);
    if d < |key| {
      LabelsLength(key[d + 1..]);
      SpecialsAroundDot(key, d);
    } else {
      assert key[..d] == key;
    }
  }

  /** Segments hold no dot: with JoinUndoesSplit that fixes them. */
  lemma {:induction false} SegmentsHoldNoDot(key: string)
    ensures forall i :: 0 <= i < |Split(key)| ==> '.' !in Split(key)[i]
  {
    var d := Dot(key);
    if d < |key| { SegmentsHoldNoDot(key[d + 1..]); }
  }

  /** The path of one plain segment, and of two. */
  lemma PlainPaths(a: string, b: string)
    requires Specials(a) == 0 && Specials(b) == 0
    ensures PathText([a]) == "$" + (".\"" + a + "\"") && PathText([a, b]) == "$" + (".\"" + a + "\"") + (".\"" + b + "\"")
  {
    PlainIsNotEscaped(a);
    PlainIsNotEscaped(b);
    PlainLabel(a);
    PlainLabel(b);
    hide Escape, Label;
    assert [a, b][1..] == [b] && [a][1..] == [] && [b][1..] == [];
    assert Labels([]) == "";
    assert Labels([a]) == Label(a) + "" == Label(a) && Labels([b]) == Label(b) + "" == Label(b);
    assert Labels([a, b]) == Label(a) + Labels([b]);
    assert "$" + (Label(a) + Label(b)) == "$" + Label(a) + Label(b);
  }

  lemma PlainLabel(a: string)
    requires Escape(a) == a
    ensures Label(a) == ".\"" + a + "\""
  {
    assert ['.', '"'] + a + ['"'] == ".\"" + a + "\"";
  }

  lemma {:induction false} PlainIsNotEscaped(s: string)
    requires Specials(s) == 0
    ensures Escape(s) == s
  {
    if s != "" { PlainIsNotEscaped(s[1..]); assert [s[0]] + s[1..] == s; }
  }

  lemma {:induction false} SegmentCount(key: string)
    requires forall i :: 0 <= i < |Split(key)| ==> Split(key)[i] != ""
    ensures 2 * |Split(key)| <= |key| + 1
    ensures 2 * |Split(key)| == |key| + 1 <==> forall i :: 0 <= i < |Split(key)| ==> |Split(key)[i]| == 1
  {
    var d := Dot(key);
    if d < |key| {
      var rest := Split(key[d + 1..]);
      assert Split(key) == [key[..d]] + rest;
      assert forall i :: 0 <= i < |rest| ==> rest[i] == Split(key)[i + 1];
      SegmentCount(key[d + 1..]);
      assert Split(key)[0] == key[..d];
      if forall i :: 0 <= i < |rest| ==> |rest[i]| == 1 {
        assert d == 1 ==> forall i :: 0 <= i < |Split(key)| ==> |Split(key)[i]| == 1;
      }
    } else {
      assert key[..d] == key && Split(key) == [key] && Split(key)[0] == key;
    }
  }

  /** The bytes allocated for a path. */
  function PathBuffer(key: string): nat { |key| * 2 + 4 }

  /** The path with its terminator fits the allocation exactly when the escapes do not outnumber the slack that
      segments longer than one character leave; without escapes every valid key fits, and fills the buffer
      exactly when all its segments are single characters. */
  lemma PathFits(key: string)
    requires KeyValid(key)
    ensures |PathText(Split(key))| + 1 <= PathBuffer(key) <==> 2 * |Split(key)| + Specials(key) <= |key| + 1
    ensures Specials(key) == 0 ==> |PathText(Split(key))| + 1 <= PathBuffer(key)
    ensures Specials(key) == 0 ==>
              (|PathText(Split(key))| + 1 == PathBuffer(key) <==> forall i :: 0 <= i < |Split(key)| ==> |Split(key)[i]| == 1)
  {
    LabelsLength(key);
    SegmentCount(key);
  }

  /** The smallest key that does not fit: one quote. */
  lemma QuoteDoesNotFit()
    ensures KeyValid("\"") && |PathText(Split("\""))| + 1 == PathBuffer("\"") + 1
  {
    assert Dot("\"") == 1;
    assert Split("\"") == ["\""];
    LabelsLength("\"");
  }
}
