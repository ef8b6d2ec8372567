/** Date-window partitioning (`generate_date_partitions`): the creation instants
    [start, end) are cut into contiguous windows of at most `stepDays` days, so that each
    search stays under the remote API's per-query result ceiling. */
module Partitions {
  import opened Time
  import Calendar

  /** One query window: creation instants in [lower, upper). */
  datatype Window = Window(lower: Instant, upper: Instant)

  function Min(a: int, b: int): int {
    if a <= b then a else b
  }

  /** The length of `timedelta(days=stepDays)`, in microseconds. */
  function Step(stepDays: int): (step: int)
    ensures stepDays > 0 ==> step >= MicrosPerDay
  {
    MulMono(1, if stepDays > 0 then stepDays else 1, MicrosPerDay);
    stepDays * MicrosPerDay
  }

  /** The windows the generator walks through from `cur` on, for a step of `step`
      microseconds: each next bound is min(end, cur + step), and generation stops once
      cur >= end. The precondition excludes the steps the generator does not walk
      forward with: with step 0 it yields the first date forever, and with a negative
      step it walks backwards, yielding windows that end before they begin, until
      `cur + timedelta` falls below year 1 and raises OverflowError. This is the walk on unbounded instants: where
      `cur + timedelta` leaves `datetime`'s range is `Yielded`'s concern. */
  function Windows(cur: Instant, end: Instant, step: int): (ws: seq<Window>)
    requires step > 0
    ensures ws == [] <==> cur >= end
    ensures ws != [] ==> ws[0].lower == cur && ws[|ws| - 1].upper == end
    ensures forall i :: 0 <= i < |ws| ==> ws[i].lower < ws[i].upper <= ws[i].lower + step
    ensures forall i, j :: 0 <= i && j == i + 1 && j < |ws| ==> ws[i].upper == ws[j].lower
    ensures forall i :: 0 <= i < |ws| - 1 ==> ws[i].upper == ws[i].lower + step
    decreases if cur < end then end - cur else 0
  {
    if cur >= end then []
    else
      var next := Min(end, cur + step);
      [Window(cur, next)] + Windows(next, end, step)
  }

  /** The `(from, to)` labels the generator yields for a window: both ends truncated
      to their day (`.date()`) and written as ISO dates. */
  function Labels(w: Window): (l: (string, string))
    ensures forall i :: 0 <= i < |l.0| ==> Calendar.IsLabelChar(l.0[i])
    ensures forall i :: 0 <= i < |l.1| ==> Calendar.IsLabelChar(l.1[i])
  {
    (Calendar.IsoDate(DayOf(w.lower)), Calendar.IsoDate(DayOf(w.upper)))
  }

  /** How many windows of `ws` the generator yields before computing
      `cur + timedelta(days=stepDays)` leaves `datetime`'s range: the windows before the
      first one that starts less than a step before `MaxInstant`. */
  function Yielded(ws: seq<Window>, step: int): (n: nat)
    ensures n <= |ws|
    ensures forall i :: 0 <= i < n ==> ws[i].lower + step <= MaxInstant
    ensures n < |ws| ==> ws[n].lower + step > MaxInstant
    decreases |ws|
  {
    if ws == [] || ws[0].lower + step > MaxInstant then 0 else 1 + Yielded(ws[1..], step)
  }

  /** What iterating the generator gives: the label pairs it yields, and whether it then
      raises OverflowError instead of yielding the next one. */
  datatype Generated = Generated(labels: seq<(string, string)>, overflows: bool)

  /** `generate_date_partitions(start, end, stepDays)`: the labels of the windows, in
      order, up to the window whose `cur + timedelta` leaves `datetime`'s range. */
  function GenerateDatePartitions(start: Instant, end: Instant, stepDays: int): (g: Generated)
    requires stepDays > 0
    ensures |g.labels| <= |Windows(start, end, Step(stepDays))|
    ensures forall i :: 0 <= i < |g.labels| ==> g.labels[i] == Labels(Windows(start, end, Step(stepDays))[i])
    ensures g.overflows <==> |g.labels| < |Windows(start, end, Step(stepDays))|
    ensures forall i :: 0 <= i < |g.labels| ==> Windows(start, end, Step(stepDays))[i].lower + Step(stepDays) <= MaxInstant
    ensures g.overflows ==> Windows(start, end, Step(stepDays))[|g.labels|].lower + Step(stepDays) > MaxInstant
  {
    var ws := Windows(start, end, Step(stepDays));
    var n := Yielded(ws, Step(stepDays));
    Generated(seq(n, i requires 0 <= i < n => Labels(ws[i])), n < |ws|)
  }

  /** When the end lies at least a step before the end of `datetime`'s range, every
      window is yielded and the generator never raises. */
  lemma InRangeYieldsAll(start: Instant, end: Instant, stepDays: int)
    requires stepDays > 0
    requires end + Step(stepDays) <= MaxInstant + 1
    ensures !GenerateDatePartitions(start, end, stepDays).overflows
    ensures |GenerateDatePartitions(start, end, stepDays).labels| == |Windows(start, end, Step(stepDays))|
  {
    WindowsWithin(start, end, Step(stepDays));
  }

  /** A first window whose step reaches past `datetime`'s range makes the generator raise
      before it yields anything. */
  lemma HugeStepRaises(start: Instant, end: Instant, stepDays: int)
    requires stepDays > 0 && start < end
    requires start + Step(stepDays) > MaxInstant
    ensures GenerateDatePartitions(start, end, stepDays).overflows
    ensures GenerateDatePartitions(start, end, stepDays).labels == []
  {
  }

  /** Every window of `ws` lies inside [lo, hi). */
  predicate AllWithin(ws: seq<Window>, lo: int, hi: int) {
    forall i :: 0 <= i < |ws| ==> lo <= ws[i].lower && ws[i].upper <= hi
  }

  /** An earlier window ends no later than a later one starts. */
  predicate Ordered(ws: seq<Window>) {
    forall i, j :: 0 <= i < j < |ws| ==> ws[i].upper <= ws[j].lower
  }

  /** Some window of `ws` contains instant `t`. */
  predicate Covered(ws: seq<Window>, t: int) {
    exists i :: 0 <= i < |ws| && ws[i].lower <= t < ws[i].upper
  }

  /** At most one window of `ws` contains instant `t`. */
  predicate CoveredOnce(ws: seq<Window>, t: int) {
    forall i, j :: 0 <= i < |ws| && 0 <= j < |ws| && ws[i].lower <= t < ws[i].upper && ws[j].lower <= t < ws[j].upper ==> i == j
  }

  /** Every window lies inside [start, end). */
  lemma {:induction false} WindowsWithin(start: Instant, end: Instant, step: int)
    requires step > 0
    ensures AllWithin(Windows(start, end, step), start, end)
    decreases if start < end then end - start else 0
  {
    if start < end {
      var ws := Windows(start, end, step);
      var next := Min(end, start + step);
      var rest := Windows(next, end, step);
      assert ws == [Window(start, next)] + rest;
      WindowsWithin(next, end, step);
      forall i | 0 <= i < |ws|
        ensures start <= ws[i].lower && ws[i].upper <= end
      {
        if i > 0 {
          assert ws[i] == rest[i - 1];
        }
      }
    }
  }

  /** Windows come in increasing order. */
  lemma {:induction false} WindowsOrdered(start: Instant, end: Instant, step: int)
    requires step > 0
    ensures Ordered(Windows(start, end, step))
    decreases if start < end then end - start else 0
  {
    if start < end {
      var ws := Windows(start, end, step);
      var next := Min(end, start + step);
      var rest := Windows(next, end, step);
      assert ws == [Window(start, next)] + rest;
      WindowsOrdered(next, end, step);
      WindowsWithin(next, end, step);
      forall i, j | 0 <= i < j < |ws|
        ensures ws[i].upper <= ws[j].lower
      {
        assert ws[j] == rest[j - 1];
        if i > 0 {
          assert ws[i] == rest[i - 1];
        }
      }
    }
  }

  /** Every instant of [start, end) lies in some window, and only those do. */
  lemma WindowsCoverRange(start: Instant, end: Instant, step: int, t: int)
    requires step > 0
    ensures start <= t < end <==> Covered(Windows(start, end, step), t)
  {
    if start <= t < end {
      WindowsCoverInside(start, end, step, t);
    } else {
      WindowsMissOutside(start, end, step, t);
    }
  }

  lemma {:induction false} WindowsCoverInside(start: Instant, end: Instant, step: int, t: int)
    requires step > 0 && start <= t < end
    ensures Covered(Windows(start, end, step), t)
    decreases end - start
  {
    var ws := Windows(start, end, step);
    var next := Min(end, start + step);
    var rest := Windows(next, end, step);
    assert ws == [Window(start, next)] + rest;
    if t < next {
      assert ws[0].lower <= t < ws[0].upper;
    } else {
      WindowsCoverInside(next, end, step, t);
      var i :| 0 <= i < |rest| && rest[i].lower <= t < rest[i].upper;
      assert ws[i + 1] == rest[i];
    }
  }

  lemma WindowsMissOutside(start: Instant, end: Instant, step: int, t: int)
    requires step > 0 && !(start <= t < end)
    ensures !Covered(Windows(start, end, step), t)
  {
    WindowsWithin(start, end, step);
  }

  /** No instant lies in two windows: the windows do not overlap. */
  lemma WindowsDisjoint(start: Instant, end: Instant, step: int, t: int)
    requires step > 0
    ensures CoveredOnce(Windows(start, end, step), t)
  {
    WindowsOrdered(start, end, step);
  }

  /** The number of windows is the least n with n * step >= end - start, and there
      are none when start >= end. */
  lemma {:induction false} WindowCountBounds(start: Instant, end: Instant, step: int)
    requires step > 0
    ensures start >= end ==> |Windows(start, end, step)| == 0
    ensures var n := |Windows(start, end, step)|;
      start < end ==> (n - 1) * step < end - start <= n * step
    decreases if start < end then end - start else 0
  {
    if start < end {
      var next := Min(end, start + step);
      var n := |Windows(start, end, step)|;
      WindowCountBounds(next, end, step);
      var m := |Windows(next, end, step)|;
      assert n == m + 1;
      if next == end {
        assert m == 0;
        assert (n - 1) * step == 0;
        assert n * step == step;
      } else {
        MulSucc(m, step);
        MulSucc(m - 1, step);
      }
    }
  }

  /** For start < end there are exactly ceil((end - start) / step) windows. */
  lemma WindowCount(start: Instant, end: Instant, step: int)
    requires step > 0 && start < end
    ensures |Windows(start, end, step)| == CeilDiv(end - start, step)
  {
    WindowCountBounds(start, end, step);
    CeilDivUnique(end - start, step, |Windows(start, end, step)|);
  }

  /** Ceiling division for a positive divisor. */
  function CeilDiv(a: int, b: int): int
    requires b > 0
  {
    (a + b - 1) / b
  }

  lemma CeilDivUnique(a: int, b: int, n: int)
    requires b > 0
    requires (n - 1) * b < a <= n * b
    ensures CeilDiv(a, b) == n
  {
    assert (n - 1) * b + b == n * b;
    DivBetween(a + b - 1, b, n);
  }

  /** Euclidean division is pinned down by the interval its dividend falls in. */
  lemma DivBetween(x: int, b: int, n: int)
    requires b > 0
    requires n * b <= x < n * b + b
    ensures x / b == n
  {
    var q := x / b;
    assert x == q * b + x % b;
    MulStep(q, n, b);
    MulStep(n, q, b);
  }

  lemma MulSucc(x: int, b: int)
    ensures (x + 1) * b == x * b + b
  {
  }

  lemma MulStep(x: int, y: int, b: int)
    requires b > 0
    ensures x < y ==> x * b + b <= y * b
  {
    if x < y {
      assert y * b - x * b == (y - x) * b;
      MulMono(1, y - x, b);
    }
  }

  lemma MulMono(x: int, y: int, b: int)
    requires x <= y && b > 0
    ensures x * b <= y * b
  {
    assert y * b - x * b == (y - x) * b;
  }

  lemma DivMono(a: int, b: int, d: int)
    requires a <= b && d > 0
    ensures a / d <= b / d
  {
    assert a == (a / d) * d + a % d && b == (b / d) * d + b % d;
    MulStep(b / d, a / d, d);
  }

  lemma DivShift(a: int, n: int, d: int)
    requires d > 0
    ensures (a + n * d) / d == a / d + n
  {
    var q := a / d;
    assert a == q * d + a % d;
    assert (q + n) * d == q * d + n * d;
    DivBetween(a + n * d, d, q + n);
  }

  /** Label days never go backwards within a window, and every window but the last
      spans exactly `stepDays` label days: only the last one can be shorter. */
  lemma LabelDays(start: Instant, end: Instant, stepDays: int)
    requires stepDays > 0
    ensures forall w :: w in Windows(start, end, Step(stepDays)) ==> DayOf(w.lower) <= DayOf(w.upper)
    ensures forall i :: 0 <= i < |Windows(start, end, Step(stepDays))| - 1 ==>
      DayOf(Windows(start, end, Step(stepDays))[i].upper) == DayOf(Windows(start, end, Step(stepDays))[i].lower) + stepDays
  {
    var ws := Windows(start, end, Step(stepDays));
    forall w | w in ws
      ensures DayOf(w.lower) <= DayOf(w.upper)
    {
      DivMono(w.lower, w.upper, MicrosPerDay);
    }
    forall i | 0 <= i < |ws| - 1
      ensures DayOf(ws[i].upper) == DayOf(ws[i].lower) + stepDays
    {
      DivShift(ws[i].lower, stepDays, MicrosPerDay);
    }
  }

  /** Consecutive windows share their boundary label, so the yielded date ranges chain. */
  lemma LabelsChain(start: Instant, end: Instant, stepDays: int)
    requires stepDays > 0
    ensures forall i, j :: 0 <= i && j == i + 1 && j < |GenerateDatePartitions(start, end, stepDays).labels| ==>
      GenerateDatePartitions(start, end, stepDays).labels[i].1 == GenerateDatePartitions(start, end, stepDays).labels[j].0
  {
  }

  /** When the end falls on the same day as the last window's start, that window's two
      labels are the same date: a day-granular reading of them sees an empty range. */
  lemma FinalLabelsCanCoincide()
    ensures |GenerateDatePartitions(0, MicrosPerDay / 2, 7).labels| == 1
    ensures GenerateDatePartitions(0, MicrosPerDay / 2, 7).labels[0].0 == GenerateDatePartitions(0, MicrosPerDay / 2, 7).labels[0].1
  {
    InRangeYieldsAll(0, MicrosPerDay / 2, 7);
    var ws := Windows(0, MicrosPerDay / 2, Step(7));
    assert ws[0] == Window(0, MicrosPerDay / 2);
  }

  /** The two-window run 2020-01-01 .. 2020-01-10 with a 7-day step. */
  lemma TwoWindowScenario(s: Instant, e: Instant)
    requires s == 737424 * MicrosPerDay && e == 737433 * MicrosPerDay
    ensures !GenerateDatePartitions(s, e, 7).overflows
    ensures |GenerateDatePartitions(s, e, 7).labels| == 2
    ensures GenerateDatePartitions(s, e, 7).labels[0] == ("2020-01-01", "2020-01-08")
    ensures GenerateDatePartitions(s, e, 7).labels[1] == ("2020-01-08", "2020-01-10")
  {
    InRangeYieldsAll(s, e, 7);
    var mid := s + Step(7);
    ScenarioDays(s, mid, e);
    Jan1st2020(DayOf(s));
    Jan8th2020(DayOf(mid));
    Jan10th2020(DayOf(e));
    TwoWindows(s, e);
    var ls := GenerateDatePartitions(s, e, 7).labels;
    assert ls[0] == (Calendar.IsoDate(DayOf(s)), Calendar.IsoDate(DayOf(mid)));
    assert ls[1] == (Calendar.IsoDate(DayOf(mid)), Calendar.IsoDate(DayOf(e)));
  }

  lemma ScenarioDays(s: Instant, mid: Instant, e: Instant)
    requires s == 737424 * MicrosPerDay && mid == s + Step(7) && e == 737433 * MicrosPerDay
    ensures DayOf(s) == 737424 && DayOf(mid) == 737431 && DayOf(e) == 737433
  {
    assert Step(7) == 604_800_000_000;
  }

  lemma TwoWindows(s: Instant, e: Instant)
    requires s == 737424 * MicrosPerDay && e == 737433 * MicrosPerDay
    ensures Windows(s, e, Step(7)) == [Window(s, s + Step(7)), Window(s + Step(7), e)]
  {
    var mid := s + Step(7);
    assert Step(7) == 604_800_000_000;
    assert Min(e, mid + Step(7)) == e && Min(e, s + Step(7)) == mid;
    assert Windows(e, e, Step(7)) == [];
    assert Windows(mid, e, Step(7)) == [Window(mid, e)] + Windows(e, e, Step(7));
    assert Windows(s, e, Step(7)) == [Window(s, mid)] + Windows(mid, e, Step(7));
  }

  lemma Jan1st2020(day: nat)
    requires day == 737424
    ensures Calendar.IsoDate(day) == "2020-01-01"
  {
    CivilJan1st2020();
    Calendar.IsoDateOf(day, 2020, 1, 1);
    assert Calendar.Padded(2020, 4) == "2020";
    assert Calendar.Padded(1, 2) == "01";
  }

  lemma CivilJan1st2020()
    ensures Calendar.Civil(737424) == (2020, 1, 1)
  {
    assert 737730 / 146097 == 5;
    assert 7245 / 1460 == 4 && 7245 / 36524 == 0 && 7245 / 146096 == 0;
    assert 7241 / 365 == 19 && 19 / 4 == 4 && 19 / 100 == 0;
    assert 1532 / 153 == 10 && 1532 / 5 == 306;
  }

  lemma Jan8th2020(day: nat)
    requires day == 737431
    ensures Calendar.IsoDate(day) == "2020-01-08"
  {
    CivilJan8th2020();
    Calendar.IsoDateOf(day, 2020, 1, 8);
    assert Calendar.Padded(2020, 4) == "2020";
    assert Calendar.Padded(1, 2) == "01";
    assert Calendar.Padded(8, 2) == "08";
  }

  lemma CivilJan8th2020()
    ensures Calendar.Civil(737431) == (2020, 1, 8)
  {
    assert 737737 / 146097 == 5;
    assert 7252 / 1460 == 4 && 7252 / 36524 == 0 && 7252 / 146096 == 0;
    assert 7248 / 365 == 19 && 19 / 4 == 4 && 19 / 100 == 0;
    assert 1567 / 153 == 10 && 1532 / 5 == 306;
  }

  lemma Jan10th2020(day: nat)
    requires day == 737433
    ensures Calendar.IsoDate(day) == "2020-01-10"
  {
    CivilJan10th2020();
    Calendar.IsoDateOf(day, 2020, 1, 10);
    assert Calendar.Padded(2020, 4) == "2020";
    assert Calendar.Padded(1, 2) == "01";
    assert Calendar.Padded(10, 2) == "10";
  }

  lemma CivilJan10th2020()
    ensures Calendar.Civil(737433) == (2020, 1, 10)
  {
    assert 737739 / 146097 == 5;
    assert 7254 / 1460 == 4 && 7254 / 36524 == 0 && 7254 / 146096 == 0;
    assert 7250 / 365 == 19 && 19 / 4 == 4 && 19 / 100 == 0;
    assert 1577 / 153 == 10 && 1532 / 5 == 306;
  }
}
