/** Stock datatypes and the order that strcmp puts on C strings. */
module Strings {
  datatype Option<+T> = None | Some(value: T)

  /** strcmp(a, b) < 0: bytes compared left to right, a proper prefix is smaller. */
  predicate Less(a: string, b: string)
  {
    if b == "" then false
    else if a == "" then true
    else a[0] < b[0] || (a[0] == b[0] && Less(a[1..], b[1..]))
  }

  /** The first difference decides, the smaller character first. */
  lemma {:induction false} FirstDifferenceDecides(p: string, c: char, d: char, x: string, y: string)
    requires c < d
    ensures Less(p + [c] + x, p + [d] + y)
  {
    var a, b := p + [c] + x, p + [d] + y;
    if p != "" {
      FirstDifferenceDecides(p[1..], c, d, x, y);
      assert a[1..] == p[1..] + [c] + x && b[1..] == p[1..] + [d] + y;
    }
  }

  /** Without a difference the shorter one is smaller. */
  lemma {:induction false} PrefixIsLess(p: string, x: string)
    requires x != ""
    ensures Less(p, p + x)
  {
    if p != "" {
      PrefixIsLess(p[1..], x);
      assert (p + x)[1..] == p[1..] + x;
    }
  }

  /** a and b agree up to k, and there a ends or has the smaller character. */
  predicate SmallerAt(a: string, b: string, k: nat) {
    k <= |a| && k < |b| && a[..k] == b[..k] && (k == |a| || a[k] < b[k])
  }

  /** And only so is one string less than another. */
  lemma {:induction false} LessExactly(a: string, b: string)
    ensures Less(a, b) <==> exists k: nat :: SmallerAt(a, b, k)
  {
    if k: nat :| SmallerAt(a, b, k) {
      if k == |a| {
        assert b == a + b[k..];
        PrefixIsLess(a, b[k..]);
      } else {
        assert a == a[..k] + [a[k]] + a[k + 1..] && b == b[..k] + [b[k]] + b[k + 1..];
        FirstDifferenceDecides(a[..k], a[k], b[k], a[k + 1..], b[k + 1..]);
      }
    }
    if Less(a, b) { DifferenceOf(a, b); }
  }

  lemma {:induction false} DifferenceOf(a: string, b: string)
    requires Less(a, b)
    ensures exists k: nat :: SmallerAt(a, b, k)
  {
    if a == "" || a[0] != b[0] {
      assert SmallerAt(a, b, 0);
    } else {
      DifferenceOf(a[1..], b[1..]);
      var k: nat :| SmallerAt(a[1..], b[1..], k);
      assert a[..k + 1] == [a[0]] + a[1..][..k] && b[..k + 1] == [b[0]] + b[1..][..k];
      assert SmallerAt(a, b, k + 1);
    }
  }

  lemma {:induction false} LessIsAsymmetric(a: string, b: string)
    requires Less(a, b)
    ensures !Less(b, a)
  {
    if a != "" && a[0] == b[0] {
      LessIsAsymmetric(a[1..], b[1..]);
    }
  }

  lemma {:induction false} LessIsTotal(a: string, b: string)
    ensures Less(a, b) || a == b || Less(b, a)
  {
    if a != "" && b != "" && a[0] == b[0] {
      LessIsTotal(a[1..], b[1..]);
      assert a == [a[0]] + a[1..] && b == [b[0]] + b[1..];
    }
  }

  lemma {:induction false} LessIsTransitive(a: string, b: string, c: string)
    requires Less(a, b) && Less(b, c)
    ensures Less(a, c)
  {
    if a != "" && a[0] == b[0] == c[0] {
      LessIsTransitive(a[1..], b[1..], c[1..]);
    }
  }

  /** What snprintf(out, cap, "%s", s) leaves in a buffer of cap bytes. */
  function Clip(s: string, cap: nat): (r: string)
    requires cap > 0
    ensures r <= s && |r| < cap
    ensures |s| < cap ==> r == s
  {
    if |s| < cap then s else s[..cap - 1]
  }

  /** A text that does not fit is cut to one character less than the buffer. */
  lemma ClipCuts(s: string, cap: nat)
    requires 0 < cap <= |s|
    ensures Clip(s, cap) == s[..cap - 1]
  {
  }
}
