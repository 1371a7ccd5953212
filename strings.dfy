/** Substring search on text, as Python's `t in s` does it. */
module Strings {

  /** True when `t` occurs somewhere in `s` (the empty text occurs everywhere). */
  predicate Contains(s: string, t: string)
    decreases |s|
  {
    (|t| <= |s| && s[..|t|] == t) || (|s| > 0 && Contains(s[1..], t))
  }

  /** Whatever is written around a piece of text, the result contains it. */
  lemma {:induction false} ContainsPiece(a: string, t: string, b: string)
    ensures Contains(a + t + b, t)
    decreases |a|
  {
    if a == [] {
      assert (a + t + b)[..|t|] == t;
    } else {
      ContainsPiece(a[1..], t, b);
      assert (a + t + b)[1..] == a[1..] + t + b;
    }
  }

  /** A text written as a head and four pieces contains each of the pieces. */
  lemma ContainsEachPiece(h: string, a: string, b: string, c: string, d: string)
    ensures Contains(h + a + b + c + d, a) && Contains(h + a + b + c + d, b)
    ensures Contains(h + a + b + c + d, c) && Contains(h + a + b + c + d, d)
  {
    var r := h + a + b + c + d;
    ContainsPiece(h, a, b + c + d);
    assert h + a + (b + c + d) == r;
    ContainsPiece(h + a, b, c + d);
    assert h + a + b + (c + d) == r;
    ContainsPiece(h + a + b, c, d);
    ContainsPiece(h + a + b + c, d, []);
    assert r + [] == r;
  }
}
