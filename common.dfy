/**
 * Helpers shared by the game scripts: the `clamp` helper, a real-valued
 * stand-in for pygame's axis-aligned rectangle tests, and the order-keeping
 * list filter that the scripts write as `[x for x in xs if keep(x)]`.
 */
module Common {

  function Min(a: real, b: real): real { if a <= b then a else b }

  function Max(a: real, b: real): real { if a >= b then a else b }

  /** `clamp(n, a, b) = max(a, min(b, n))`. */
  function Clamp(n: real, lo: real, hi: real): (r: real)
    ensures lo <= hi ==> lo <= r <= hi
    ensures lo <= n <= hi ==> r == n
    ensures lo <= hi && n < lo ==> r == lo
    ensures lo <= hi && hi < n ==> r == hi
    ensures hi < lo ==> r == lo
  {
    Max(lo, Min(hi, n))
  }

  /**
   * An axis-aligned rectangle the way pygame.Rect stores it: the left/top
   * corner and a size.  Coordinates are real here (see README).
   */
  datatype Rect = Rect(x: real, y: real, w: real, h: real)
  {
    /** `Rect.colliderect`: the two rectangles share interior points. */
    predicate Overlaps(o: Rect)
    {
      x < o.x + o.w && o.x < x + w && y < o.y + o.h && o.y < y + h
    }

    /** `Rect.collidepoint`: left and top edges inclusive, right and bottom exclusive. */
    predicate Contains(px: real, py: real)
    {
      x <= px < x + w && y <= py < y + h
    }
  }

  /** A square of side `2 * half` centred on `(cx, cy)`. */
  function Box(cx: real, cy: real, half: real): (r: Rect)
    ensures r.Contains(cx, cy) <==> half > 0.0
  {
    Rect(cx - half, cy - half, 2.0 * half, 2.0 * half)
  }

  /** True when some rectangle of `walls` overlaps `box`. */
  predicate AnyOverlap(box: Rect, walls: seq<Rect>)
  {
    exists k :: 0 <= k < |walls| && walls[k].Overlaps(box)
  }

  /** True when some rectangle of `walls` contains the point. */
  predicate AnyContains(walls: seq<Rect>, px: real, py: real)
  {
    exists k :: 0 <= k < |walls| && walls[k].Contains(px, py)
  }

  /** `[f(x) for x in s]`. */
  function Map<T, U>(s: seq<T>, f: T -> U): (r: seq<U>)
    ensures |r| == |s| && forall k :: 0 <= k < |s| ==> r[k] == f(s[k])
  {
    seq(|s|, k requires 0 <= k < |s| => f(s[k]))
  }

  /** Mapping a list grown by one element grows the result by that element's image. */
  lemma MapSnoc<T, U>(s: seq<T>, x: T, f: T -> U)
    ensures Map(s + [x], f) == Map(s, f) + [f(x)]
  {
    var a, c := Map(s + [x], f), Map(s, f) + [f(x)];
    assert |a| == |c|;
    forall k | 0 <= k < |a|
      ensures a[k] == c[k]
    {
      if k < |s| {
        assert (s + [x])[k] == s[k];
      }
    }
  }

  /** `[x for x in s if keep(x)]`. */
  function Filter<T>(s: seq<T>, keep: T -> bool): (r: seq<T>)
    ensures |r| <= |s|
    ensures forall i :: 0 <= i < |r| ==> keep(r[i])
    ensures forall i :: 0 <= i < |r| ==> r[i] in s
    ensures forall i :: 0 <= i < |s| && keep(s[i]) ==> s[i] in r
    decreases |s|
  {
    if s == [] then []
    else Filter(s[..|s| - 1], keep) + (if keep(s[|s| - 1]) then [s[|s| - 1]] else [])
  }

  /** The elements of `s` whose `mask` entry is true, in their order in `s`. */
  function Select<T>(s: seq<T>, mask: seq<bool>): (r: seq<T>)
    requires |mask| == |s|
    ensures |r| <= |s|
    decreases |s|
  {
    if s == [] then []
    else Select(s[..|s| - 1], mask[..|s| - 1]) + (if mask[|s| - 1] then [s[|s| - 1]] else [])
  }

  /** `r` is obtained from `s` by deleting elements, the rest keeping their order. */
  ghost predicate SubsequenceOf<T>(r: seq<T>, s: seq<T>)
  {
    exists mask: seq<bool> :: |mask| == |s| && r == Select(s, mask)
  }

  /** Filtering only deletes: what it keeps stays in the original order. */
  lemma {:induction false} FilterKeepsOrder<T>(s: seq<T>, keep: T -> bool)
    ensures Filter(s, keep) == Select(s, seq(|s|, i requires 0 <= i < |s| => keep(s[i])))
    ensures SubsequenceOf(Filter(s, keep), s)
    decreases |s|
  {
    var mask := seq(|s|, i requires 0 <= i < |s| => keep(s[i]));
    if s != [] {
      var init := s[..|s| - 1];
      FilterKeepsOrder(init, keep);
      assert mask[..|s| - 1] == seq(|init|, i requires 0 <= i < |init| => keep(init[i]));
    }
  }

  /** A subsequence stays one when the sequence grows by an element that is either kept or left out. */
  lemma SubsequenceSnoc<T>(r: seq<T>, s: seq<T>, x: T, keep: bool)
    requires SubsequenceOf(r, s)
    ensures SubsequenceOf(r + (if keep then [x] else []), s + [x])
  {
    var mask: seq<bool> :| |mask| == |s| && r == Select(s, mask);
    SelectSnoc(s, mask, x, keep);
    assert |mask + [keep]| == |s + [x]|;
  }

  /** Extending the input by one element extends the selection by at most that element. */
  lemma SelectSnoc<T>(s: seq<T>, mask: seq<bool>, x: T, m: bool)
    requires |mask| == |s|
    ensures Select(s + [x], mask + [m]) == Select(s, mask) + (if m then [x] else [])
  {
    assert (s + [x])[..|s|] == s;
    assert (mask + [m])[..|s|] == mask;
  }

  /** Extending the input by one element extends the filtered list by at most that element. */
  lemma FilterSnoc<T>(s: seq<T>, x: T, keep: T -> bool)
    ensures Filter(s + [x], keep) == Filter(s, keep) + (if keep(x) then [x] else [])
  {
    assert (s + [x])[..|s|] == s;
  }
}
