/** Minimum and maximum of a non-empty list of prices, folded from the left
    the way `Math.min(...xs)` and `Math.max(...xs)` consume their arguments. */
module Extrema {

  function Max(a: real, b: real): (m: real)
    ensures a <= m && b <= m && (m == a || m == b)
  {
    if a >= b then a else b
  }

  function Min(a: real, b: real): (m: real)
    ensures m <= a && m <= b && (m == a || m == b)
  {
    if a <= b then a else b
  }

  /** The fold behind `Math.max(...s)`; `SeqMaxIsMax` states what it computes. */
  function SeqMax(s: seq<real>): real
    requires |s| > 0
    decreases |s|
  {
    if |s| == 1 then s[0] else Max(SeqMax(s[..|s| - 1]), s[|s| - 1])
  }

  /** The fold behind `Math.min(...s)`; `SeqMinIsMin` states what it computes. */
  function SeqMin(s: seq<real>): real
    requires |s| > 0
    decreases |s|
  {
    if |s| == 1 then s[0] else Min(SeqMin(s[..|s| - 1]), s[|s| - 1])
  }

  /** The fold computes the largest element: an upper bound of every element,
      and one of them. */
  lemma {:induction false} SeqMaxIsMax(s: seq<real>)
    requires |s| > 0
    ensures forall i :: 0 <= i < |s| ==> s[i] <= SeqMax(s)
    ensures exists i :: 0 <= i < |s| && s[i] == SeqMax(s)
    decreases |s|
  {
    if |s| == 1 {
      assert s[0] == SeqMax(s);
    } else {
      var init := s[..|s| - 1];
      SeqMaxIsMax(init);
      var k :| 0 <= k < |init| && init[k] == SeqMax(init);
      assert s[k] == init[k];
      if SeqMax(s) == s[k] {
        assert s[k] == SeqMax(s);
      } else {
        assert s[|s| - 1] == SeqMax(s);
      }
    }
  }

  /** The fold computes the smallest element: a lower bound of every element,
      and one of them. */
  lemma {:induction false} SeqMinIsMin(s: seq<real>)
    requires |s| > 0
    ensures forall i :: 0 <= i < |s| ==> SeqMin(s) <= s[i]
    ensures exists i :: 0 <= i < |s| && s[i] == SeqMin(s)
    decreases |s|
  {
    if |s| == 1 {
      assert s[0] == SeqMin(s);
    } else {
      var init := s[..|s| - 1];
      SeqMinIsMin(init);
      var k :| 0 <= k < |init| && init[k] == SeqMin(init);
      assert s[k] == init[k];
      if SeqMin(s) == s[k] {
        assert s[k] == SeqMin(s);
      } else {
        assert s[|s| - 1] == SeqMin(s);
      }
    }
  }

  /** Folding one more element into a running maximum. */
  lemma SeqMaxSnoc(s: seq<real>, x: real)
    requires |s| > 0
    ensures SeqMax(s + [x]) == Max(SeqMax(s), x)
  {
    assert (s + [x])[..|s|] == s;
  }

  /** Folding one more element into a running minimum. */
  lemma SeqMinSnoc(s: seq<real>, x: real)
    requires |s| > 0
    ensures SeqMin(s + [x]) == Min(SeqMin(s), x)
  {
    assert (s + [x])[..|s|] == s;
  }
}
