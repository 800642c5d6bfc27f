/** Search scores: the doubles of Minimax.java, with Double.NEGATIVE_INFINITY and POSITIVE_INFINITY as sentinels. */
module Scores {
  datatype Score = NegInf | Val(v: real) | PosInf

  /** The <= of doubles on these values. */
  predicate Le(a: Score, b: Score)
  {
    a.NegInf? || b.PosInf? || (a.Val? && b.Val? && a.v <= b.v)
  }

  /** Le is a total order. */
  lemma LeTotalOrder(a: Score, b: Score, c: Score)
    ensures Le(a, a)
    ensures Le(a, b) || Le(b, a)
    ensures Le(a, b) && Le(b, a) ==> a == b
    ensures Le(a, b) && Le(b, c) ==> Le(a, c)
  {
  }

  /** Math.max: the first argument when it is no smaller. */
  function Max(a: Score, b: Score): (r: Score)
    ensures Le(a, r) && Le(b, r)
    ensures r == a || r == b
  {
    if Le(b, a) then a else b
  }

  /** Math.min: the first argument when it is no larger. */
  function Min(a: Score, b: Score): (r: Score)
    ensures Le(r, a) && Le(r, b)
    ensures r == a || r == b
  {
    if Le(a, b) then a else b
  }

  /** v forced into the window [lo, hi]. */
  function Clamp(v: Score, lo: Score, hi: Score): Score
  {
    Min(Max(v, lo), hi)
  }

  /** With lo <= hi, the clamp lies in the window and is v whenever v does. */
  lemma ClampInWindow(v: Score, lo: Score, hi: Score)
    requires Le(lo, hi)
    ensures Le(lo, Clamp(v, lo, hi)) && Le(Clamp(v, lo, hi), hi)
    ensures Le(lo, v) && Le(v, hi) ==> Clamp(v, lo, hi) == v
    ensures Clamp(v, lo, hi) == Max(Min(v, hi), lo)
  {
  }

  /**
   * x is what a fail-hard search may return for a position of value v searched with the
   * window [lo, hi]: at most lo when v is, at least hi when v is, and v itself in between.
   */
  predicate Agrees(x: Score, v: Score, lo: Score, hi: Score)
  {
    (Le(v, lo) ==> Le(x, lo)) && (Le(hi, v) ==> Le(hi, x)) && (!Le(v, lo) && !Le(hi, v) ==> x == v)
  }

  /** The exact value and, for a window that is not empty, the clamped value both agree. */
  lemma ClampAgrees(v: Score, lo: Score, hi: Score)
    requires Le(lo, hi)
    ensures Agrees(v, v, lo, hi)
    ensures Agrees(Clamp(v, lo, hi), v, lo, hi)
  {
  }

  /**
   * Folding a child value x that agrees with the child's true value c on [cur, hi] into the
   * running best cur reaches hi exactly when max(cur, c) does, and otherwise gives max(cur, c).
   */
  lemma MaxOfAgrees(cur: Score, x: Score, c: Score, hi: Score)
    requires Le(cur, hi) && Agrees(x, c, cur, hi)
    ensures Le(hi, Max(cur, x)) <==> Le(hi, Max(cur, c))
    ensures !Le(hi, Max(cur, x)) ==> Max(cur, x) == Max(cur, c)
  {
  }

  /** The same for the running minimum cur and the window [lo, cur]. */
  lemma MinOfAgrees(cur: Score, x: Score, c: Score, lo: Score)
    requires Le(lo, cur) && Agrees(x, c, lo, cur)
    ensures Le(Min(cur, x), lo) <==> Le(Min(cur, c), lo)
    ensures !Le(Min(cur, x), lo) ==> Min(cur, x) == Min(cur, c)
  {
  }

  /**
   * One step of a fail-hard max loop: when the new running best nh reaches hi, the best over
   * cur, the child value c and the rest v, clamped to hi, is hi; otherwise continuing from nh
   * gives the same clamped best as continuing from cur.
   */
  lemma MaxFold(cur: Score, nh: Score, c: Score, v: Score, hi: Score)
    requires (Le(hi, nh) <==> Le(hi, Max(cur, c))) && (!Le(hi, nh) ==> nh == Max(cur, c))
    ensures Le(hi, nh) ==> Min(Max(cur, Max(c, v)), hi) == hi
    ensures !Le(hi, nh) ==> Min(Max(nh, v), hi) == Min(Max(cur, Max(c, v)), hi)
  {
  }

  /** The same step for a fail-hard min loop bounded below by lo. */
  lemma MinFold(cur: Score, nl: Score, c: Score, w: Score, lo: Score)
    requires (Le(nl, lo) <==> Le(Min(cur, c), lo)) && (!Le(nl, lo) ==> nl == Min(cur, c))
    ensures Le(nl, lo) ==> Max(Min(cur, Min(c, w)), lo) == lo
    ensures !Le(nl, lo) ==> Max(Min(nl, w), lo) == Max(Min(cur, Min(c, w)), lo)
  {
  }
}
