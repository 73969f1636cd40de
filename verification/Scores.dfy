/** Outlier scores of a quote against the prior window (sensory-array/src/normalizer.rs), over exact
    reals. The square root is a parameter: nothing here depends on more than sqrt(0) = 0. */
module Scores {
  import opened Prelude

  const SCORE_CAP := 1000000.0
  const MAD_SCALE := 1.4826
  const MEAN_AD_SCALE := 1.253314137
  const RELATIVE_EPS := 0.000000001

  // ---------------------------------------------------------------- sorting and counting

  predicate Ascending(s: seq<real>) {
    forall i, j :: 0 <= i < j < |s| ==> s[i] <= s[j]
  }

  function Insert(s: seq<real>, x: real): seq<real> {
    if s == [] || s[|s| - 1] <= x then s + [x] else Insert(s[..|s| - 1], x) + [s[|s| - 1]]
  }

  lemma {:induction false} InsertPermutes(s: seq<real>, x: real)
    ensures multiset(Insert(s, x)) == multiset(s) + multiset{x}
    ensures |Insert(s, x)| == |s| + 1
    decreases |s|
  {
    if !(s == [] || s[|s| - 1] <= x) {
      InsertPermutes(s[..|s| - 1], x);
      assert s == s[..|s| - 1] + [s[|s| - 1]];
    }
  }

  predicate AllAtMost(s: seq<real>, top: real) {
    forall i :: 0 <= i < |s| ==> s[i] <= top
  }

  lemma {:induction false} InsertAtMost(s: seq<real>, x: real, top: real)
    requires AllAtMost(s, top) && x <= top
    ensures AllAtMost(Insert(s, x), top)
    decreases |s|
  {
    if !(s == [] || s[|s| - 1] <= x) {
      InsertAtMost(s[..|s| - 1], x, top);
    }
  }

  lemma {:induction false} InsertAscends(s: seq<real>, x: real)
    requires Ascending(s)
    ensures Ascending(Insert(s, x))
    decreases |s|
  {
    if !(s == [] || s[|s| - 1] <= x) {
      var front, top := s[..|s| - 1], s[|s| - 1];
      InsertAscends(front, x);
      InsertAtMost(front, x, top);
    }
  }

  /** The samples in ascending order. */
  function Sorted(s: seq<real>): (r: seq<real>)
    ensures |r| == |s|
  {
    if s == [] then []
    else
      InsertPermutes(Sorted(s[..|s| - 1]), s[|s| - 1]);
      Insert(Sorted(s[..|s| - 1]), s[|s| - 1])
  }

  lemma {:induction false} SortedSorts(s: seq<real>)
    ensures Ascending(Sorted(s)) && multiset(Sorted(s)) == multiset(s)
    decreases |s|
  {
    if s != [] {
      var front, x := s[..|s| - 1], s[|s| - 1];
      SortedSorts(front);
      InsertPermutes(Sorted(front), x);
      InsertAscends(Sorted(front), x);
      assert s == front + [x];
    }
  }

  predicate Within(x: real, lo: real, hi: real) {
    lo <= x <= hi
  }

  /** How many samples lie in [lo, hi]. */
  function CountWithin(s: seq<real>, lo: real, hi: real): nat {
    if s == [] then 0
    else CountWithin(s[..|s| - 1], lo, hi) + if Within(s[|s| - 1], lo, hi) then 1 else 0
  }

  lemma {:induction false} CountConcat(a: seq<real>, b: seq<real>, lo: real, hi: real)
    ensures CountWithin(a + b, lo, hi) == CountWithin(a, lo, hi) + CountWithin(b, lo, hi)
    decreases |b|
  {
    if b == [] {
      assert a + b == a;
    } else {
      CountConcat(a, b[..|b| - 1], lo, hi);
      assert (a + b)[..|a + b| - 1] == a + b[..|b| - 1];
    }
  }

  lemma {:induction false} CountInsert(s: seq<real>, x: real, lo: real, hi: real)
    ensures CountWithin(Insert(s, x), lo, hi) == CountWithin(s, lo, hi) + if Within(x, lo, hi) then 1 else 0
    decreases |s|
  {
    if s == [] || s[|s| - 1] <= x {
      assert (s + [x])[..|s|] == s;
    } else {
      CountInsert(s[..|s| - 1], x, lo, hi);
      var r := Insert(s[..|s| - 1], x);
      assert (r + [s[|s| - 1]])[..|r|] == r;
    }
  }

  lemma {:induction false} CountSorted(s: seq<real>, lo: real, hi: real)
    ensures CountWithin(Sorted(s), lo, hi) == CountWithin(s, lo, hi)
    decreases |s|
  {
    if s != [] {
      CountSorted(s[..|s| - 1], lo, hi);
      CountInsert(Sorted(s[..|s| - 1]), s[|s| - 1], lo, hi);
    }
  }

  lemma {:induction false} CountBounds(s: seq<real>, lo: real, hi: real)
    ensures CountWithin(s, lo, hi) <= |s|
    ensures (forall x :: x in s ==> !Within(x, lo, hi)) ==> CountWithin(s, lo, hi) == 0
    ensures (forall x :: x in s ==> Within(x, lo, hi)) ==> CountWithin(s, lo, hi) == |s|
    decreases |s|
  {
    if s != [] {
      CountBounds(s[..|s| - 1], lo, hi);
    }
  }

  lemma BelowBoundsCount(s: seq<real>, i: nat, lo: real, hi: real)
    requires Ascending(s) && i < |s| && s[i] < lo
    ensures CountWithin(s, lo, hi) <= |s| - 1 - i
  {
    assert s == s[..i + 1] + s[i + 1..];
    CountConcat(s[..i + 1], s[i + 1..], lo, hi);
    forall x | x in s[..i + 1] ensures !Within(x, lo, hi) {
      var k :| 0 <= k <= i && s[k] == x;
    }
    CountBounds(s[..i + 1], lo, hi);
    CountBounds(s[i + 1..], lo, hi);
  }

  lemma AboveBoundsCount(s: seq<real>, i: nat, lo: real, hi: real)
    requires Ascending(s) && i < |s| && s[i] > hi
    ensures CountWithin(s, lo, hi) <= i
  {
    assert s == s[..i] + s[i..];
    CountConcat(s[..i], s[i..], lo, hi);
    forall x | x in s[i..] ensures !Within(x, lo, hi) {
      var k :| i <= k < |s| && s[k] == x;
    }
    CountBounds(s[..i], lo, hi);
    CountBounds(s[i..], lo, hi);
  }

  /** A sample of an ascending window with too few others on either side of it for the count lies
      inside the bounds. */
  lemma SampleWithin(s: seq<real>, i: nat, lo: real, hi: real)
    requires Ascending(s) && i < |s| && CountWithin(s, lo, hi) > i && CountWithin(s, lo, hi) > |s| - 1 - i
    ensures lo <= s[i] <= hi
  {
    if s[i] < lo {
      BelowBoundsCount(s, i, lo, hi);
    } else if s[i] > hi {
      AboveBoundsCount(s, i, lo, hi);
    }
  }

  // ---------------------------------------------------------------- median and MAD

  /** median_sorted. */
  function MedianSorted(s: seq<real>): real
    requires s != []
  {
    var mid := |s| / 2;
    if |s| % 2 == 0 then (s[mid - 1] + s[mid]) / 2.0 else s[mid]
  }

  function Median(window: seq<real>): real
    requires window != []
  {
    MedianSorted(Sorted(window))
  }

  function Deviations(s: seq<real>, centre: real): (r: seq<real>)
    ensures |r| == |s|
  {
    seq(|s|, i requires 0 <= i < |s| => Abs(s[i] - centre))
  }

  function Mad(window: seq<real>): real
    requires window != []
  {
    Median(Deviations(Sorted(window), Median(window)))
  }

  predicate MostlyWithin(window: seq<real>, lo: real, hi: real) {
    2 * CountWithin(window, lo, hi) > |window|
  }

  lemma MiddleOfMajority(s: seq<real>, lo: real, hi: real)
    requires s != [] && Ascending(s) && MostlyWithin(s, lo, hi)
    ensures lo <= MedianSorted(s) <= hi
  {
    var mid := |s| / 2;
    SampleWithin(s, mid, lo, hi);
    if |s| % 2 == 0 {
      SampleWithin(s, mid - 1, lo, hi);
    }
  }

  lemma MedianOfMajority(window: seq<real>, lo: real, hi: real)
    requires window != [] && MostlyWithin(window, lo, hi)
    ensures lo <= Median(window) <= hi
  {
    CountSorted(window, lo, hi);
    SortedSorts(window);
    MiddleOfMajority(Sorted(window), lo, hi);
  }

  lemma {:induction false} DeviationsOfMajority(s: seq<real>, centre: real, lo: real, hi: real)
    requires lo <= centre <= hi
    ensures CountWithin(s, lo, hi) <= CountWithin(Deviations(s, centre), 0.0, hi - lo)
    decreases |s|
  {
    if s != [] {
      var front := s[..|s| - 1];
      DeviationsOfMajority(front, centre, lo, hi);
      assert Deviations(s, centre)[..|s| - 1] == Deviations(front, centre);
    }
  }

  lemma MadOfMajority(s: seq<real>, centre: real, lo: real, hi: real)
    requires s != [] && MostlyWithin(s, lo, hi) && lo <= centre <= hi
    ensures 0.0 <= Median(Deviations(s, centre)) <= hi - lo
  {
    DeviationsOfMajority(s, centre, lo, hi);
    MedianOfMajority(Deviations(s, centre), 0.0, hi - lo);
  }

  /** If strictly more than half of the window lies in [lo, hi], the median lies there too and the
      MAD is at most hi - lo, however extreme the other samples are. */
  lemma MedianAndMadAreRobust(window: seq<real>, lo: real, hi: real)
    requires window != [] && MostlyWithin(window, lo, hi)
    ensures lo <= Median(window) <= hi
    ensures 0.0 <= Mad(window) <= hi - lo
  {
    MedianOfMajority(window, lo, hi);
    CountSorted(window, lo, hi);
    MadOfMajority(Sorted(window), Median(window), lo, hi);
  }

  // ---------------------------------------------------------------- scores

  function Total(s: seq<real>): real {
    if s == [] then 0.0 else Total(s[..|s| - 1]) + s[|s| - 1]
  }

  function Mean(s: seq<real>): real
    requires s != []
  {
    Total(s) / (|s| as real)
  }

  function Square(x: real): real {
    x * x
  }

  function Squares(s: seq<real>, centre: real): seq<real> {
    seq(|s|, i requires 0 <= i < |s| => Square(s[i] - centre))
  }

  function Variance(s: seq<real>): real
    requires |s| >= 2
  {
    Total(Squares(s, Mean(s))) / ((|s| - 1) as real)
  }

  function Epsilon(centre: real): real {
    RELATIVE_EPS * Max(Abs(centre), 1.0)
  }

  function Clamp(x: real): real {
    Max(-SCORE_CAP, Min(SCORE_CAP, x))
  }

  /** flat_safe_score. */
  function FlatSafeScore(deviation: real, spread: real, scale: real, centre: real): real {
    Clamp(
      if spread * scale > Epsilon(centre) then deviation / (spread * scale)
      else if Abs(deviation) <= Epsilon(centre) then 0.0
      else if deviation > 0.0 then SCORE_CAP else -SCORE_CAP)
  }

  /** The window's MAD is large enough to score against. */
  predicate MadIsUsable(window: seq<real>)
    requires window != []
  {
    Mad(window) * MAD_SCALE > Epsilon(Median(window))
  }

  function MadScore(window: seq<real>, x: real): real
    requires window != []
  {
    var median := Median(window);
    if MadIsUsable(window) then FlatSafeScore(x - median, Mad(window), MAD_SCALE, median)
    else FlatSafeScore(x - median, Mean(Deviations(Sorted(window), median)), MEAN_AD_SCALE, median)
  }

  function ZScore(window: seq<real>, x: real, sqrt: real -> real): real
    requires |window| >= 2
  {
    FlatSafeScore(x - Mean(window), sqrt(Variance(window)), 1.0, Mean(window))
  }

  /** scores: (z, mad_score) of `x` against a window that does not contain it. */
  function ScoresOf(window: seq<real>, x: real, sqrt: real -> real): (r: (real, real))
    ensures -1000000.0 <= r.0 <= 1000000.0 && -1000000.0 <= r.1 <= 1000000.0
    ensures |window| < 2 ==> r == (0.0, 0.0)
  {
    if |window| < 2 then (0.0, 0.0) else (ZScore(window, x, sqrt), MadScore(window, x))
  }

  // ---------------------------------------------------------------- what the statistics are

  lemma MiddleIs(s: seq<real>)
    requires s != []
    ensures 2.0 * MedianSorted(s) == s[(|s| - 1) / 2] + s[|s| / 2]
  {
  }

  /** The median is half way between the two samples in the middle, which are one when the number is odd. */
  lemma MedianIs(window: seq<real>)
    requires window != []
    ensures |Sorted(window)| == |window| && Ascending(Sorted(window)) && multiset(Sorted(window)) == multiset(window)
    ensures 2.0 * Median(window) == Sorted(window)[(|window| - 1) / 2] + Sorted(window)[|window| / 2]
  {
    SortedSorts(window);
    assert |multiset(Sorted(window))| == |Sorted(window)| && |multiset(window)| == |window|;
    MiddleIs(Sorted(window));
  }

  function SumOfSquares(s: seq<real>): real {
    if s == [] then 0.0 else SumOfSquares(s[..|s| - 1]) + s[|s| - 1] * s[|s| - 1]
  }

  lemma SquaresPrefix(s: seq<real>, c: real)
    requires s != []
    ensures Squares(s, c) == Squares(s[..|s| - 1], c) + [Square(s[|s| - 1] - c)]
  {
    var front := s[..|s| - 1];
    forall i | 0 <= i < |front| ensures Squares(s, c)[i] == Squares(front, c)[i] {
      assert front[i] == s[i];
    }
  }

  /** The sum of squared distances from `c`, from the sum and the sum of squares. */
  function Around(n: real, c: real, total: real, squares: real): real {
    squares - 2.0 * (c * total) + n * (c * c)
  }

  lemma {:induction false} SquaresAround(s: seq<real>, c: real)
    ensures Total(Squares(s, c)) == Around(|s| as real, c, Total(s), SumOfSquares(s))
    decreases |s|
  {
    if s != [] {
      var front, x := s[..|s| - 1], s[|s| - 1];
      SquaresAround(front, c);
      SquaresPrefix(s, c);
      assert Squares(s, c)[..|s| - 1] == Squares(front, c);
      AroundOneMore(x, c, Total(front), |front| as real, SumOfSquares(front));
    }
  }

  lemma AroundOneMore(x: real, c: real, total: real, n: real, squares: real)
    ensures Around(n, c, total, squares) + Square(x - c) == Around(n + 1.0, c, total + x, squares + x * x)
  {
  }

  /** The mean and the sample variance by their sums: n means make the total, and n - 1 variances the sum of
      squared distances from the mean. */
  lemma VarianceIs(s: seq<real>)
    requires |s| >= 2
    ensures Mean(s) * (|s| as real) == Total(s)
    ensures Variance(s) * ((|s| - 1) as real) == Around(|s| as real, Mean(s), Total(s), SumOfSquares(s))
  {
    SquaresAround(s, Mean(s));
    MeanIs(s);
    VarianceOf(s);
  }

  lemma MeanIs(s: seq<real>)
    requires s != []
    ensures Mean(s) * (|s| as real) == Total(s)
  {
    MulDiv(Total(s), |s| as real);
  }

  lemma VarianceOf(s: seq<real>)
    requires |s| >= 2
    ensures Variance(s) * ((|s| - 1) as real) == Total(Squares(s, Mean(s)))
  {
    MulDiv(Total(Squares(s, Mean(s))), (|s| - 1) as real);
  }

  /** The deviation in widths, never beyond a million; with no width to speak of, zero or a million. */
  function ScoreOf(deviation: real, width: real, centre: real): real {
    var least := Least(centre);
    if width > least then
      if deviation / width > 1000000.0 then 1000000.0
      else if deviation / width < -1000000.0 then -1000000.0
      else deviation / width
    else if -least <= deviation <= least then 0.0
    else if deviation > 0.0 then 1000000.0 else -1000000.0
  }

  lemma ScoreIs(deviation: real, spread: real, scale: real, centre: real)
    ensures FlatSafeScore(deviation, spread, scale, centre) == ScoreOf(deviation, spread * scale, centre)
  {
  }

  /** A billionth of the centre, or of one if that is larger. */
  function Least(centre: real): real {
    0.000000001 * (if centre > 1.0 then centre else if centre < -1.0 then -centre else 1.0)
  }

  /** The z-score is in standard deviations. */
  lemma ZScoreIs(window: seq<real>, x: real, sqrt: real -> real)
    requires |window| >= 2
    ensures ScoresOf(window, x, sqrt).0 == ScoreOf(x - Mean(window), sqrt(Variance(window)), Mean(window))
  {
    ScoreIs(x - Mean(window), sqrt(Variance(window)), 1.0, Mean(window));
  }

  lemma UsableIs(window: seq<real>)
    requires window != []
    ensures MadIsUsable(window) <==> Mad(window) * 1.4826 > Least(Median(window))
  {
  }

  /** The MAD score is in widths of 1.4826 MADs where that is more than a billionth of the median (or of one),
      and else in widths of 1.253314137 mean absolute deviations. */
  lemma MadScoreIs(window: seq<real>, x: real)
    requires window != []
    ensures Mad(window) * 1.4826 > Least(Median(window)) ==>
      MadScore(window, x) == ScoreOf(x - Median(window), Mad(window) * 1.4826, Median(window))
    ensures Mad(window) * 1.4826 <= Least(Median(window)) ==>
      MadScore(window, x)
        == ScoreOf(x - Median(window), Mean(Deviations(Sorted(window), Median(window))) * 1.253314137, Median(window))
  {
    UsableIs(window);
    ScoreIs(x - Median(window), Mad(window), 1.4826, Median(window));
    ScoreIs(x - Median(window), Mean(Deviations(Sorted(window), Median(window))), 1.253314137, Median(window));
  }

  // ---------------------------------------------------------------- constant windows

  predicate Constant(s: seq<real>, c: real) {
    forall i :: 0 <= i < |s| ==> s[i] == c
  }

  lemma {:induction false} TotalOfConstant(s: seq<real>, c: real)
    requires Constant(s, c)
    ensures Total(s) == c * (|s| as real)
    decreases |s|
  {
    if s != [] {
      TotalOfConstant(s[..|s| - 1], c);
    }
  }

  lemma MeanOfConstant(s: seq<real>, c: real)
    requires s != [] && Constant(s, c)
    ensures Mean(s) == c
  {
    TotalOfConstant(s, c);
    MulDiv(c, |s| as real);
  }

  lemma SortedOfConstant(s: seq<real>, c: real)
    requires Constant(s, c)
    ensures Constant(Sorted(s), c)
  {
    SortedSorts(s);
    var t := Sorted(s);
    forall i | 0 <= i < |t| ensures t[i] == c {
      assert t[i] in multiset(t) && t[i] in s;
    }
  }

  lemma MedianOfConstant(s: seq<real>, c: real)
    requires s != [] && Constant(s, c)
    ensures Median(s) == c
  {
    SortedOfConstant(s, c);
  }

  /** Against a constant window any deviation beyond the epsilon saturates both scores, and anything
      within it scores zero. */
  lemma ConstantWindowSaturates(window: seq<real>, c: real, x: real, sqrt: real -> real)
    requires |window| >= 2 && Constant(window, c) && sqrt(0.0) == 0.0
    ensures var s := if Abs(x - c) <= Epsilon(c) then 0.0 else if x > c then SCORE_CAP else -SCORE_CAP;
      ScoresOf(window, x, sqrt) == (s, s)
  {
    MeanOfConstant(window, c);
    var squares := Squares(window, c);
    assert Constant(squares, 0.0);
    TotalOfConstant(squares, 0.0);
    MedianOfConstant(window, c);
    SortedOfConstant(window, c);
    var devs := Deviations(Sorted(window), c);
    MedianOfConstant(devs, 0.0);
    MeanOfConstant(devs, 0.0);
  }

  // ---------------------------------------------------------------- no move is hidden

  lemma ScoreHasTheSign(deviation: real, spread: real, scale: real, centre: real)
    requires Abs(deviation) > Epsilon(centre)
    ensures FlatSafeScore(deviation, spread, scale, centre) != 0.0
    ensures FlatSafeScore(deviation, spread, scale, centre) > 0.0 <==> deviation > 0.0
  {
    var width := spread * scale;
    if width > Epsilon(centre) {
      SignOfQuotient(deviation, width);
    }
  }

  lemma SignOfQuotient(a: real, b: real)
    requires b > 0.0
    ensures a / b > 0.0 <==> a > 0.0
    ensures a / b == 0.0 <==> a == 0.0
  {
    MulDiv(a, b);
  }

  /** A flat window never hides a move: whatever the window, a price further than the epsilon from
      its median, or its mean, gets a MAD score, or Z score, on the side it moved to. */
  lemma NoMoveIsHidden(window: seq<real>, x: real, sqrt: real -> real)
    requires window != []
    ensures Abs(x - Median(window)) > Epsilon(Median(window)) ==>
      MadScore(window, x) != 0.0 && (MadScore(window, x) > 0.0 <==> x > Median(window))
    ensures |window| >= 2 && Abs(x - Mean(window)) > Epsilon(Mean(window)) ==>
      ZScore(window, x, sqrt) != 0.0 && (ZScore(window, x, sqrt) > 0.0 <==> x > Mean(window))
  {
    var median := Median(window);
    if Abs(x - median) > Epsilon(median) {
      ScoreHasTheSign(x - median, Mad(window), MAD_SCALE, median);
      ScoreHasTheSign(x - median, Mean(Deviations(Sorted(window), median)), MEAN_AD_SCALE, median);
    }
    if |window| >= 2 && Abs(x - Mean(window)) > Epsilon(Mean(window)) {
      ScoreHasTheSign(x - Mean(window), sqrt(Variance(window)), 1.0, Mean(window));
    }
  }

  // ---------------------------------------------------------------- outliers

  lemma DivideByLess(a: real, small: real, large: real)
    requires a >= 0.0 && 0.0 < small <= large
    ensures a / large <= a / small
  {
    var q := a / large;
    MulDiv(a, large);
    MulMonotone(small, large, q);
    assert q * small <= a;
    MulDiv(q, small);
    assert (a - q * small) / small >= 0.0;
  }

  /** A deviation of at least `gap` over a spread of at most `width`. */
  lemma ScoreAtLeast(d: real, spread: real, gap: real, width: real, centre: real)
    requires 0.0 <= gap <= d && 0.0 <= spread <= width && spread * MAD_SCALE > Epsilon(centre)
    ensures width * MAD_SCALE > 0.0
    ensures FlatSafeScore(d, spread, MAD_SCALE, centre) >= Min(SCORE_CAP, gap / (width * MAD_SCALE))
  {
    var s, w := spread * MAD_SCALE, width * MAD_SCALE;
    DivideByLess(d, s, w);
    DivideUp(gap, d, w);
  }

  lemma DivideUp(a: real, b: real, w: real)
    requires a <= b && w > 0.0
    ensures a / w <= b / w
  {
  }

  /** While the MAD is usable, outliers in the window cannot mask a new one: when most of the window
      lies in [lo, hi], a price `x` above it scores at least as if the spread were hi - lo. */
  lemma OutliersDoNotMask(window: seq<real>, lo: real, hi: real, x: real)
    requires window != [] && MostlyWithin(window, lo, hi) && lo < hi < x && MadIsUsable(window)
    ensures (hi - lo) * MAD_SCALE > 0.0
    ensures MadScore(window, x) >= Min(SCORE_CAP, (x - hi) / ((hi - lo) * MAD_SCALE))
  {
    MedianAndMadAreRobust(window, lo, hi);
    ScoreAtLeast(x - Median(window), Mad(window), x - hi, hi - lo, Median(window));
  }

  lemma {:induction false} SortedOfAscending(s: seq<real>)
    requires Ascending(s)
    ensures Sorted(s) == s
    decreases |s|
  {
    if s != [] {
      SortedOfAscending(s[..|s| - 1]);
      assert s == s[..|s| - 1] + [s[|s| - 1]];
    }
  }

  lemma TotalSnoc(s: seq<real>, x: real)
    ensures Total(s + [x]) == Total(s) + x
  {
    assert (s + [x])[..|s|] == s;
  }

  lemma TotalOfFive(a: real, b: real)
    ensures Total([a, a, a, b, b]) == a + a + a + b + b
  {
    assert [a, a, a, b, b] == [a, a, a, b] + [b] && [a, a, a, b] == [a, a, a] + [b];
    assert [a, a, a] == [a, a] + [a] && [a, a] == [a] + [a] && [a] == [] + [a];
    TotalSnoc([a, a, a, b], b);
    TotalSnoc([a, a, a], b);
    TotalSnoc([a, a], a);
    TotalSnoc([a], a);
    TotalSnoc([], a);
  }

  lemma SwampedSpread(window: seq<real>)
    requires window == [100.0, 100.0, 100.0, 1000000.0, 1000000.0]
    ensures Median(window) == 100.0 && Mad(window) == 0.0
    ensures Mean(Deviations(Sorted(window), 100.0)) == 399960.0
  {
    SortedOfAscending(window);
    var devs := Deviations(window, 100.0);
    assert devs == [0.0, 0.0, 0.0, 999900.0, 999900.0];
    SortedOfAscending(devs);
    TotalOfFive(0.0, 999900.0);
  }

  // ---------------------------------------------------------------- the fallback

  /** Total distance of the samples from a centre; those that equal it add nothing. */
  function Distance(s: seq<real>, centre: real): real {
    if s == [] then 0.0 else Distance(s[..|s| - 1], centre) + Abs(s[|s| - 1] - centre)
  }

  /** How many samples equal the centre. */
  function Agreeing(s: seq<real>, centre: real): nat {
    CountWithin(s, centre, centre)
  }

  /** Average distance from the centre of the samples that do not equal it. */
  function FarOff(s: seq<real>, centre: real): real {
    if |s| - Agreeing(s, centre) == 0 then 0.0
    else Distance(s, centre) / ((|s| - Agreeing(s, centre)) as real)
  }

  lemma {:induction false} DistanceIsTotal(s: seq<real>, centre: real)
    ensures Total(Deviations(s, centre)) == Distance(s, centre)
    decreases |s|
  {
    if s != [] {
      DistanceIsTotal(s[..|s| - 1], centre);
      assert Deviations(s, centre)[..|s| - 1] == Deviations(s[..|s| - 1], centre);
    }
  }

  lemma {:induction false} DistanceOfInsert(s: seq<real>, x: real, centre: real)
    ensures Distance(Insert(s, x), centre) == Distance(s, centre) + Abs(x - centre)
    decreases |s|
  {
    if s == [] || s[|s| - 1] <= x {
      assert (s + [x])[..|s|] == s;
    } else {
      DistanceOfInsert(s[..|s| - 1], x, centre);
      var r := Insert(s[..|s| - 1], x);
      assert (r + [s[|s| - 1]])[..|r|] == r;
    }
  }

  lemma {:induction false} DistanceOfSorted(s: seq<real>, centre: real)
    ensures Distance(Sorted(s), centre) == Distance(s, centre)
    decreases |s|
  {
    if s != [] {
      DistanceOfSorted(s[..|s| - 1], centre);
      DistanceOfInsert(Sorted(s[..|s| - 1]), s[|s| - 1], centre);
    }
  }

  lemma {:induction false} AllAgreeIsClose(s: seq<real>, centre: real)
    ensures Agreeing(s, centre) <= |s|
    ensures Agreeing(s, centre) == |s| ==> Distance(s, centre) == 0.0
    decreases |s|
  {
    if s != [] {
      AllAgreeIsClose(s[..|s| - 1], centre);
    }
  }

  /** The share of samples that disagree with the centre times how far they lie from it on average. */
  function SpreadAround(s: seq<real>, centre: real): real
    requires s != []
  {
    ((|s| - Agreeing(s, centre)) as real) / (|s| as real) * FarOff(s, centre)
  }

  lemma SpreadIsMeanDeviation(s: seq<real>, centre: real)
    requires s != []
    ensures Mean(Deviations(Sorted(s), centre)) == SpreadAround(s, centre)
  {
    DistanceIsTotal(Sorted(s), centre);
    DistanceOfSorted(s, centre);
    SpreadIsShare(s, centre);
  }

  lemma SpreadIsShare(s: seq<real>, centre: real)
    requires s != []
    ensures SpreadAround(s, centre) == Distance(s, centre) / (|s| as real)
  {
    AllAgreeIsClose(s, centre);
    ShareOfCount(|s| - Agreeing(s, centre), |s|, Distance(s, centre));
  }

  lemma ShareOfCount(part: nat, whole: nat, total: real)
    requires whole > 0 && (part == 0 ==> total == 0.0)
    ensures (part as real) / (whole as real) * (if part == 0 then 0.0 else total / (part as real))
         == total / (whole as real)
  {
    ShareOfTotal(part as real, whole as real, total);
  }

  lemma ShareOfTotal(part: real, whole: real, total: real)
    requires part >= 0.0 && whole > 0.0 && (part == 0.0 ==> total == 0.0)
    ensures part / whole * (if part == 0.0 then 0.0 else total / part) == total / whole
  {
    if part != 0.0 {
      var q, r := part / whole, total / part;
      MulDiv(part, whole);
      MulDiv(total, part);
      assert q * r * whole == q * whole * r;
      assert q * r * whole == total;
      MulDiv(q * r, whole);
    }
  }

  predicate Below(score: real, t: real) {
    Abs(score) < t
  }

  /** The deviation is less than `t` widths, or within the epsilon when the width is. */
  predicate Short(deviation: real, width: real, centre: real, t: real) {
    if width > Epsilon(centre) then Abs(deviation) < t * width else Abs(deviation) <= Epsilon(centre)
  }

  /** A clamped quotient is below a threshold exactly when the numerator is below that many widths. */
  lemma BelowThreshold(deviation: real, spread: real, scale: real, centre: real, t: real)
    requires 0.0 < t <= SCORE_CAP
    ensures Below(FlatSafeScore(deviation, spread, scale, centre), t) <==> Short(deviation, spread * scale, centre, t)
  {
    var width := spread * scale;
    if width > Epsilon(centre) {
      QuotientBelow(deviation, width, t);
    }
  }

  lemma QuotientBelow(a: real, b: real, t: real)
    requires b > 0.0 && t > 0.0
    ensures Abs(a / b) < t <==> Abs(a) < t * b
  {
    var q := a / b;
    MulDiv(a, b);
    assert (t - q) * b == t * b - a && (t + q) * b == t * b + a;
    PositiveProduct(t - q, b);
    PositiveProduct(t + q, b);
  }

  lemma PositiveProduct(a: real, b: real)
    requires b > 0.0
    ensures a * b > 0.0 <==> a > 0.0
  {
  }

  /** When the MAD is not usable at least half of the window agrees with the median up to the epsilon. */
  lemma FallbackMeansAgreement(window: seq<real>)
    requires window != [] && !MadIsUsable(window)
    ensures 2 * CountWithin(Deviations(Sorted(window), Median(window)), 0.0, Closeness(Median(window))) >= |window|
  {
    MostlyClose(Sorted(window), Median(window));
  }

  /** Deviations of at most this much leave the MAD unusable. */
  function Closeness(centre: real): real {
    Epsilon(centre) / MAD_SCALE
  }

  lemma ClosenessIs(centre: real)
    ensures Closeness(centre) * 1.4826 == Least(centre)
  {
  }

  lemma MostlyClose(s: seq<real>, centre: real)
    requires s != [] && Median(Deviations(s, centre)) * MAD_SCALE <= Epsilon(centre)
    ensures 2 * CountWithin(Deviations(s, centre), 0.0, Closeness(centre)) >= |s|
  {
    BoundByQuotient(Median(Deviations(s, centre)), MAD_SCALE, Epsilon(centre));
    HalfOfDeviations(s, centre, Closeness(centre));
  }

  lemma HalfOfDeviations(s: seq<real>, centre: real, bound: real)
    requires s != [] && Median(Deviations(s, centre)) <= bound
    ensures 2 * CountWithin(Deviations(s, centre), 0.0, bound) >= |s|
  {
    var devs := Deviations(s, centre);
    assert forall i :: 0 <= i < |devs| ==> devs[i] == Abs(s[i] - centre) >= 0.0;
    HalfWithin(devs, bound);
  }

  lemma BoundByQuotient(a: real, b: real, c: real)
    requires b > 0.0 && a * b <= c
    ensures a <= c / b
  {
    MulDiv(c, b);
    PositiveProduct(a - c / b, b);
    assert (a - c / b) * b == a * b - c;
  }

  lemma HalfWithin(devs: seq<real>, bound: real)
    requires devs != [] && Median(devs) <= bound && forall i :: 0 <= i < |devs| ==> devs[i] >= 0.0
    ensures 2 * CountWithin(devs, 0.0, bound) >= |devs|
  {
    CountSorted(devs, 0.0, bound);
    SortedSorts(devs);
    AllNonNegative(devs);
    HalfBelowMedian(Sorted(devs), bound);
  }

  lemma HalfBelowMedian(s: seq<real>, bound: real)
    requires s != [] && Ascending(s) && MedianSorted(s) <= bound
    requires forall i :: 0 <= i < |s| ==> s[i] >= 0.0
    ensures 2 * CountWithin(s, 0.0, bound) >= |s|
  {
    var half := (|s| + 1) / 2;
    assert s[half - 1] <= MedianSorted(s);
    assert s == s[..half] + s[half..];
    CountConcat(s[..half], s[half..], 0.0, bound);
    forall x | x in s[..half] ensures Within(x, 0.0, bound) {
      var k :| 0 <= k < half && s[k] == x;
      assert k < half - 1 ==> s[k] <= s[half - 1];
    }
    CountBounds(s[..half], 0.0, bound);
  }

  lemma AllNonNegative(devs: seq<real>)
    requires forall i :: 0 <= i < |devs| ==> devs[i] >= 0.0
    ensures forall i :: 0 <= i < |devs| ==> Sorted(devs)[i] >= 0.0
  {
    SortedSorts(devs);
    forall i | 0 <= i < |devs| ensures Sorted(devs)[i] >= 0.0 {
      assert Sorted(devs)[i] in multiset(Sorted(devs)) && Sorted(devs)[i] in devs;
    }
  }

  lemma FallbackScore(window: seq<real>, x: real)
    requires window != [] && !MadIsUsable(window)
    ensures MadScore(window, x)
         == FlatSafeScore(x - Median(window), SpreadAround(window, Median(window)), MEAN_AD_SCALE, Median(window))
  {
    SpreadIsMeanDeviation(window, Median(window));
  }

  /** In the fallback, a move scores below a threshold exactly when it is shorter than that many times
      the share of disagreeing samples times how far they lie off, or stays within the epsilon when
      that is no more than the epsilon. */
  lemma FallbackMasksIff(window: seq<real>, x: real, t: real)
    requires window != [] && !MadIsUsable(window) && 0.0 < t <= SCORE_CAP
    ensures var median := Median(window);
      Below(MadScore(window, x), t) <==> Short(x - median, SpreadAround(window, median) * MEAN_AD_SCALE, median, t)
  {
    FallbackScore(window, x);
    BelowThreshold(x - Median(window), SpreadAround(window, Median(window)), MEAN_AD_SCALE, Median(window), t);
  }

  /** When the MAD is not usable the fallback can be swamped: three of five prices agree, yet twice
      their price scores below one because two far prices inflate the mean deviation. */
  lemma FallbackCanBeSwamped()
    ensures var window := [100.0, 100.0, 100.0, 1000000.0, 1000000.0];
      && MostlyWithin(window, 100.0, 100.0) && !MadIsUsable(window)
      && 0.0 <= MadScore(window, 200.0) < 1.0
  {
    var most, rest := [100.0, 100.0, 100.0], [1000000.0, 1000000.0];
    var window := [100.0, 100.0, 100.0, 1000000.0, 1000000.0];
    assert window == most + rest;
    CountBounds(most, 100.0, 100.0);
    CountConcat(most, rest, 100.0, 100.0);
    SwampedSpread(window);
  }
}
