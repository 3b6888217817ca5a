/** The summary statistics of `run_simulation` (src/simulator/mod.rs):
    population mean, variance and mean absolute deviation, the median with
    even-length averaging, index-based quartiles and the median absolute
    deviation, over exact reals. */
module Statistics {

  function Abs(x: real): (r: real)
    ensures r >= 0.0 && (r == x || r == -x)
  {
    if x < 0.0 then -x else x
  }

  function Sum(xs: seq<real>): real {
    if xs == [] then 0.0 else xs[0] + Sum(xs[1..])
  }

  /** Bounds on the elements bound the sum. */
  lemma {:induction false} SumBounds(xs: seq<real>, lo: real, hi: real)
    requires forall i :: 0 <= i < |xs| ==> lo <= xs[i] <= hi
    ensures lo * |xs| as real <= Sum(xs) <= hi * |xs| as real
  {
    if xs != [] {
      SumBounds(xs[1..], lo, hi);
    }
  }

  /** The sum depends only on the elements, not on their order. */
  lemma {:induction false} SumPermutation(xs: seq<real>, ys: seq<real>)
    requires multiset(xs) == multiset(ys)
    ensures Sum(xs) == Sum(ys)
    decreases |xs|
  {
    if xs != [] {
      var x := xs[0];
      assert x in multiset(ys);
      var j :| 0 <= j < |ys| && ys[j] == x;
      var ys' := ys[..j] + ys[j+1..];
      RemovedMultiset(ys, j, ys');
      TailMultiset(xs);
      SumPermutation(xs[1..], ys');
      SumRemove(ys, j);
    }
  }

  lemma RemovedMultiset(ys: seq<real>, j: nat, rest: seq<real>)
    requires j < |ys| && rest == ys[..j] + ys[j+1..]
    ensures multiset(rest) == multiset(ys) - multiset{ys[j]}
  {
    assert ys == ys[..j] + [ys[j]] + ys[j+1..];
  }

  /** Taking out the element at `j` takes its value out of the sum. */
  lemma {:induction false} SumRemove(ys: seq<real>, j: nat)
    requires j < |ys|
    ensures Sum(ys) == ys[j] + Sum(ys[..j] + ys[j+1..])
  {
    if j > 0 {
      SumRemove(ys[1..], j - 1);
      assert ys[1..][..j-1] + ys[1..][j..] == (ys[..j] + ys[j+1..])[1..];
    } else {
      assert ys[..j] + ys[j+1..] == ys[1..];
    }
  }

  function MinOf(xs: seq<real>): (m: real)
    requires |xs| > 0
    ensures forall i :: 0 <= i < |xs| ==> m <= xs[i]
    ensures exists i :: 0 <= i < |xs| && xs[i] == m
  {
    if |xs| == 1 then xs[0]
    else
      var rest := MinOf(xs[1..]);
      assert forall i :: 1 <= i < |xs| ==> xs[i] == xs[1..][i - 1];
      if xs[0] <= rest then xs[0] else rest
  }

  function MaxOf(xs: seq<real>): (m: real)
    requires |xs| > 0
    ensures forall i :: 0 <= i < |xs| ==> xs[i] <= m
    ensures exists i :: 0 <= i < |xs| && xs[i] == m
  {
    if |xs| == 1 then xs[0]
    else
      var rest := MaxOf(xs[1..]);
      assert forall i :: 1 <= i < |xs| ==> xs[i] == xs[1..][i - 1];
      if xs[0] >= rest then xs[0] else rest
  }

  /** `sum / len`: lies between the smallest and the largest element. */
  function Mean(xs: seq<real>): (m: real)
    requires |xs| > 0
    ensures MinOf(xs) <= m <= MaxOf(xs)
  {
    var n := |xs| as real;
    SumBounds(xs, MinOf(xs), MaxOf(xs));
    DivideBounds(MinOf(xs), Sum(xs), MaxOf(xs), n);
    Sum(xs) / n
  }

  /** The mean is the value whose `len` copies add up to the sum: for the
      mean `m`, the sum `s` and the length `n` of `xs`, `m * n == s`. */
  lemma MeanTimesLength(xs: seq<real>, m: real, s: real, n: real)
    requires |xs| > 0 && m == Mean(xs) && s == Sum(xs) && n == |xs| as real
    ensures m * n == s
  {
    MeanIsQuotient(xs);
    QuotientTimes(m, s, n);
  }

  lemma MeanIsQuotient(xs: seq<real>)
    requires |xs| > 0
    ensures Mean(xs) == Sum(xs) / |xs| as real
  {
  }

  lemma QuotientTimes(q: real, s: real, n: real)
    requires n > 0.0 && q == s / n
    ensures q * n == s
  {
  }

  lemma DivideBounds(lo: real, s: real, hi: real, n: real)
    requires n > 0.0 && lo * n <= s <= hi * n
    ensures lo <= s / n <= hi
  {
    assert s / n * n == s;
  }

  /** `powi(2)` */
  function Square(d: real): (r: real)
    ensures r >= 0.0
  {
    if d >= 0.0 then d * d else (-d) * (-d)
  }

  function SumSquaredDeviations(xs: seq<real>, mean: real): (r: real)
    ensures r >= 0.0
  {
    if xs == [] then 0.0
    else Square(xs[0] - mean) + SumSquaredDeviations(xs[1..], mean)
  }

  /** Population variance (divides by n), never negative. */
  function Variance(xs: seq<real>): (v: real)
    requires |xs| > 0
    ensures v >= 0.0
  {
    SumSquaredDeviations(xs, Mean(xs)) / |xs| as real
  }

  function SumAbsDeviations(xs: seq<real>, mean: real): (r: real)
    ensures r >= 0.0
  {
    if xs == [] then 0.0 else Abs(xs[0] - mean) + SumAbsDeviations(xs[1..], mean)
  }

  /** Mean absolute deviation from the mean (divides by n), never negative. */
  function Mad(xs: seq<real>): (d: real)
    requires |xs| > 0
    ensures d >= 0.0
  {
    SumAbsDeviations(xs, Mean(xs)) / |xs| as real
  }

  /** Balances that are all `c`: their mean is `c` and both measures of
      spread around it are zero. */
  lemma NoSpreadWhenConstant(xs: seq<real>, c: real)
    requires |xs| > 0 && forall i :: 0 <= i < |xs| ==> xs[i] == c
    ensures Mean(xs) == c && Variance(xs) == 0.0 && Mad(xs) == 0.0
  {
    assert MinOf(xs) == c && MaxOf(xs) == c;
    DeviationsVanish(xs, c);
  }

  /** Every element equal to the centre leaves no deviation to add up. */
  lemma {:induction false} DeviationsVanish(xs: seq<real>, c: real)
    requires forall i :: 0 <= i < |xs| ==> xs[i] == c
    ensures SumSquaredDeviations(xs, c) == 0.0 && SumAbsDeviations(xs, c) == 0.0
  {
    if xs != [] {
      DeviationsVanish(xs[1..], c);
    }
  }

  predicate Sorted(s: seq<real>) {
    forall i, j :: 0 <= i < j < |s| ==> s[i] <= s[j]
  }

  function Insert(x: real, s: seq<real>): (r: seq<real>)
    requires Sorted(s)
    ensures Sorted(r) && multiset(r) == multiset(s) + multiset{x}
    ensures forall i :: 0 <= i < |r| ==> r[i] == x || r[i] in s
  {
    if s == [] then [x]
    else if x <= s[0] then
      SortedCons(x, s);
      [x] + s
    else
      var rest := Insert(x, s[1..]);
      InsertStep(x, s, rest);
      [s[0]] + rest
  }

  /** Putting the head back in front of the tail with `x` inserted. */
  lemma InsertStep(x: real, s: seq<real>, rest: seq<real>)
    requires Sorted(s) && |s| > 0 && s[0] < x
    requires Sorted(rest) && multiset(rest) == multiset(s[1..]) + multiset{x}
    requires forall i :: 0 <= i < |rest| ==> rest[i] == x || rest[i] in s[1..]
    ensures Sorted([s[0]] + rest) && multiset([s[0]] + rest) == multiset(s) + multiset{x}
    ensures forall i :: 0 <= i < |[s[0]] + rest| ==> ([s[0]] + rest)[i] == x || ([s[0]] + rest)[i] in s
  {
    assert s == [s[0]] + s[1..];
    assert forall i :: 0 <= i < |rest| ==> s[0] <= rest[i] by {
      forall i | 0 <= i < |rest|
        ensures s[0] <= rest[i]
      {
        if rest[i] != x {
          LowerBoundOfSorted(s, rest[i]);
        }
      }
    }
    SortedCons(s[0], rest);
  }

  /** A head no larger than anything in a sorted tail keeps it sorted. */
  lemma SortedCons(h: real, t: seq<real>)
    requires Sorted(t) && forall i :: 0 <= i < |t| ==> h <= t[i]
    ensures Sorted([h] + t)
  {
  }

  /** The first element of a sorted sequence is at most any of its elements. */
  lemma LowerBoundOfSorted(s: seq<real>, v: real)
    requires Sorted(s) && |s| > 0 && v in s[1..]
    ensures s[0] <= v
  {
    var k :| 0 <= k < |s[1..]| && s[1..][k] == v;
    assert s[k + 1] == v;
  }

  /** `sort_by(partial_cmp)` on values that are never NaN: the ascending
      rearrangement of the input. */
  /** The sorted copy of the balances has their mean: sorting moves
      elements, and the sum depends only on which elements there are. */
  lemma SortedMean(xs: seq<real>)
    requires |xs| > 0
    ensures |SortAscending(xs)| == |xs| && Mean(SortAscending(xs)) == Mean(xs)
  {
    var s := SortAscending(xs);
    assert |s| == |multiset(s)| == |xs|;
    SumPermutation(s, xs);
  }

  function SortAscending(xs: seq<real>): (r: seq<real>)
    ensures Sorted(r) && multiset(r) == multiset(xs)
  {
    if xs == [] then []
    else
      assert xs == [xs[0]] + xs[1..];
      Insert(xs[0], SortAscending(xs[1..]))
  }

  /** A sorted rearrangement is unique, so whichever sorting algorithm the
      library uses gives the same sequence as `SortAscending`. */
  lemma {:induction false} SortedUnique(a: seq<real>, b: seq<real>)
    requires Sorted(a) && Sorted(b) && multiset(a) == multiset(b)
    ensures a == b
    decreases |a|
  {
    assert |a| == |multiset(a)| == |b|;
    if a != [] {
      HeadAtMost(b, a[0]);
      HeadAtMost(a, b[0]);
      assert a[0] == b[0];
      TailMultiset(a);
      TailMultiset(b);
      SortedUnique(a[1..], b[1..]);
    }
  }

  /** The head of a sorted sequence is at most anything it contains. */
  lemma HeadAtMost(s: seq<real>, v: real)
    requires Sorted(s) && v in multiset(s)
    ensures s[0] <= v
  {
    var j :| 0 <= j < |s| && s[j] == v;
  }

  lemma TailMultiset(s: seq<real>)
    requires |s| > 0
    ensures multiset(s[1..]) == multiset(s) - multiset{s[0]}
  {
    assert s == [s[0]] + s[1..];
  }

  /** The median of a sorted sequence: the middle element for odd lengths,
      the mean of the two middle elements for even lengths. Everything in
      the lower half is at most the median and everything in the upper half
      at least it. */
  function Median(s: seq<real>): (m: real)
    requires |s| > 0
    ensures Sorted(s) ==> s[(|s| - 1) / 2] <= m <= s[|s| / 2]
    ensures Sorted(s) ==> forall i :: 0 <= i <= (|s| - 1) / 2 ==> s[i] <= m
    ensures Sorted(s) ==> forall i :: |s| / 2 <= i < |s| ==> m <= s[i]
  {
    if |s| % 2 == 0 then
      var mid := |s| / 2;
      (s[mid - 1] + s[mid]) / 2.0
    else
      s[|s| / 2]
  }

  /** `sorted[n/4]` and `sorted[3n/4]`: both indices are in bounds for every
      non-empty input, and the quartiles bracket the median. */
  function Quartiles(s: seq<real>): (q: (real, real))
    requires |s| > 0
    ensures q.0 == s[|s| / 4] && q.1 == s[3 * |s| / 4]
    ensures Sorted(s) ==> q.0 <= Median(s) <= q.1
  {
    (s[|s| / 4], s[3 * |s| / 4])
  }

  /** `q3 - q1`, never negative on sorted data. */
  function Iqr(s: seq<real>): (r: real)
    requires |s| > 0
    ensures Sorted(s) ==> r >= 0.0
  {
    Quartiles(s).1 - Quartiles(s).0
  }

  function AbsDeviations(s: seq<real>, center: real): (d: seq<real>)
    ensures |d| == |s|
    ensures forall i :: 0 <= i < |s| ==> d[i] == Abs(s[i] - center)
  {
    seq(|s|, i requires 0 <= i < |s| => Abs(s[i] - center))
  }

  /** The median of the sorted absolute deviations from the median, never
      negative. */
  function MadMedian(sorted: seq<real>): (r: real)
    requires |sorted| > 0
    ensures r >= 0.0
  {
    var deviations := SortAscending(AbsDeviations(sorted, Median(sorted)));
    assert |deviations| == |multiset(deviations)| == |sorted|;
    assert deviations[(|deviations| - 1) / 2] in multiset(AbsDeviations(sorted, Median(sorted)));
    Median(deviations)
  }

  function CountPositive(xs: seq<real>): (n: nat)
    ensures n <= |xs|
  {
    if xs == [] then 0 else (if xs[0] > 0.0 then 1 else 0) + CountPositive(xs[1..])
  }

  /** Share of strictly positive values, as a percentage in [0, 100]. */
  function PositivePercentage(xs: seq<real>): (p: real)
    requires |xs| > 0
    ensures 0.0 <= p <= 100.0
  {
    (CountPositive(xs) as real / |xs| as real) * 100.0
  }

  lemma MeanExample()
    ensures Mean([-500.0, -100.0, 0.0, 200.0, 800.0]) == 80.0
  {
    assert Sum([-500.0, -100.0, 0.0, 200.0, 800.0]) == 400.0;
  }

  lemma OrderExample()
    ensures var xs := [-500.0, -100.0, 0.0, 200.0, 800.0];
      Median(xs) == 0.0 && Quartiles(xs) == (-100.0, 200.0) && Iqr(xs) == 300.0
  {
  }
}
