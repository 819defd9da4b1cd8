/** The running performance figures of a scheduler, over the reals: sums, and
    Welford's online mean and second moment of the weighted turnaround. */
module Statistics {
  import opened Common

  datatype Perf = Perf(n: nat, sumWta: real, mean: real, m2: real,
                       sumWaiting: int, totalRuntime: int, finishTime: int)

  const INITIAL := Perf(0, 0.0, 0.0, 0.0, 0, 0, -1)

  /** Weighted turnaround of a finished process. */
  function Wta(c: Pcb): real {
    if c.runtime == 0 then 0.0 else (c.finish - c.arrival) as real / c.runtime as real
  }

  /** The accounting done when a process finishes. */
  function Record(perf: Perf, c: Pcb): Perf {
    var wta := Wta(c);
    var n := perf.n + 1;
    var delta := wta - perf.mean;
    var mean := perf.mean + delta / n as real;
    var delta2 := wta - mean;
    Perf(n, perf.sumWta + wta, mean, perf.m2 + delta * delta2,
         perf.sumWaiting + c.waiting, perf.totalRuntime + c.runtime, c.finish)
  }

  // ---- What the online figures are -------------------------------------------

  /** The figures after the given processes have finished, in this order. */
  function RecordAll(cs: seq<Pcb>): Perf {
    if cs == [] then INITIAL else Record(RecordAll(cs[..|cs| - 1]), cs[|cs| - 1])
  }

  function Wtas(cs: seq<Pcb>): (r: seq<real>)
    ensures |r| == |cs| && forall i :: 0 <= i < |cs| ==> r[i] == Wta(cs[i])
  {
    seq(|cs|, i requires 0 <= i < |cs| => Wta(cs[i]))
  }

  /** The weighted turnaround of a process is the number that gives, times its
      runtime, the time from its arrival to its finish. */
  predicate Weighted(xs: seq<real>, cs: seq<Pcb>) {
    && |xs| == |cs|
    && forall i :: 0 <= i < |cs| && cs[i].runtime > 0 ==>
         xs[i] * cs[i].runtime as real == (cs[i].finish - cs[i].arrival) as real
  }

  lemma WtasAreWeighted(cs: seq<Pcb>)
    ensures Weighted(Wtas(cs), cs)
  {
    forall i | 0 <= i < |cs| && cs[i].runtime > 0
      ensures Wtas(cs)[i] * cs[i].runtime as real == (cs[i].finish - cs[i].arrival) as real
    {
      Undivide((cs[i].finish - cs[i].arrival) as real, cs[i].runtime as real);
    }
  }

  /** For processes that are accounted for, it is what they have run and waited. */
  lemma WeightedAccounts(xs: seq<real>, cs: seq<Pcb>)
    requires Weighted(xs, cs) && forall c :: c in cs ==> Accounted(c)
    ensures forall i :: 0 <= i < |cs| && cs[i].runtime > 0 ==>
              xs[i] * cs[i].runtime as real == (cs[i].runtime + cs[i].waiting) as real
  {
    forall i | 0 <= i < |cs| && cs[i].runtime > 0
      ensures xs[i] * cs[i].runtime as real == (cs[i].runtime + cs[i].waiting) as real
    {
      assert Accounted(cs[i]);
    }
  }

  function Sum(xs: seq<real>): real {
    if xs == [] then 0.0 else Sum(xs[..|xs| - 1]) + xs[|xs| - 1]
  }

  /** The sum of squared deviations from m. */
  function SquaredDeviations(xs: seq<real>, m: real): real {
    if xs == [] then 0.0
    else SquaredDeviations(xs[..|xs| - 1], m) + (xs[|xs| - 1] - m) * (xs[|xs| - 1] - m)
  }

  function TotalWaiting(cs: seq<Pcb>): int {
    if cs == [] then 0 else TotalWaiting(cs[..|cs| - 1]) + cs[|cs| - 1].waiting
  }

  function TotalRuntime(cs: seq<Pcb>): int {
    if cs == [] then 0 else TotalRuntime(cs[..|cs| - 1]) + cs[|cs| - 1].runtime
  }

  /** Deviations from a shifted mean. */
  lemma {:induction false} Shift(xs: seq<real>, m: real, e: real, sum: real, n: real)
    requires n == |xs| as real && sum == Sum(xs)
    ensures SquaredDeviations(xs, m + e) == SquaredDeviations(xs, m) - 2.0 * e * (sum - n * m) + n * (e * e)
  {
    if xs != [] {
      var rest, x := xs[..|xs| - 1], xs[|xs| - 1];
      Shift(rest, m, e, Sum(rest), |rest| as real);
      ShiftStep(SquaredDeviations(rest, m), SquaredDeviations(rest, m + e), Sum(rest), Sum(xs),
                |rest| as real, |xs| as real, x, m, e);
    }
  }

  /** Deviations from a shift of the mean itself. */
  lemma ShiftFromMean(xs: seq<real>, m: real, e: real, n: real)
    requires n == |xs| as real && m * n == Sum(xs)
    ensures SquaredDeviations(xs, m + e) == SquaredDeviations(xs, m) + n * (e * e)
  {
    Shift(xs, m, e, Sum(xs), n);
    Vanishes(e, Sum(xs), n, m);
  }

  lemma Vanishes(e: real, sum: real, n: real, m: real)
    requires m * n == sum
    ensures 2.0 * e * (sum - n * m) == 0.0
  {
    assert sum - n * m == 0.0;
  }

  lemma ShiftStep(dev: real, dev': real, sum: real, sum': real, n: real, n': real, x: real, m: real, e: real)
    requires dev' == dev - 2.0 * e * (sum - n * m) + n * (e * e)
    requires sum' == sum + x && n' == n + 1.0
    ensures dev' + (x - (m + e)) * (x - (m + e))
         == dev + (x - m) * (x - m) - 2.0 * e * (sum' - n' * m) + n' * (e * e)
  {
    var d := x - m;
    assert x - (m + e) == d - e;
    SquareOfDifference(d, e);
    assert sum' - n' * m == (sum - n * m) + d;
    Distribute(2.0 * e, sum - n * m, d);
    assert n' * (e * e) == n * (e * e) + e * e;
  }

  lemma SquareOfDifference(d: real, e: real)
    ensures (d - e) * (d - e) == d * d - 2.0 * e * d + e * e
  {
  }

  lemma Distribute(a: real, b: real, c: real)
    ensures a * (b + c) == a * b + a * c
  {
  }

  /** The new mean: e is its shift. */
  lemma MeanStep(m: real, x: real, n: real, n': real, e: real, sum: real)
    requires n' == n + 1.0 && e * n' == x - m && m * n == sum
    ensures (m + e) * n' == sum + x
  {
    Distribute(n', m, e);
    assert m * n' == m * n + m;
  }

  /** What the new value adds to M2. */
  lemma MomentStep(m: real, x: real, n: real, n': real, e: real)
    requires n' == n + 1.0 && e * n' == x - m
    ensures (x - m) * (x - (m + e)) == n * (e * e) + (x - (m + e)) * (x - (m + e))
  {
    var d := x - m;
    assert x - (m + e) == d - e;
    assert d * (d - e) - (d - e) * (d - e) == e * (d - e);
    assert e * (d - e) == e * d - e * e;
    assert e * d == n' * (e * e);
    assert n' * (e * e) == n * (e * e) + e * e;
  }

  /** mean is the mean of xs and m2 the sum of squared deviations from it. */
  predicate Describes(p: Perf, xs: seq<real>) {
    p.n == |xs| && p.mean * p.n as real == Sum(xs) && p.m2 == SquaredDeviations(xs, p.mean)
  }

  /** q is p after the value x, without the division; e is the shift of the mean. */
  predicate Updated(p: Perf, q: Perf, x: real, e: real) {
    && q.n == p.n + 1 && e * q.n as real == x - p.mean && q.mean == p.mean + e
    && q.m2 == p.m2 + (x - p.mean) * (x - q.mean)
  }

  /** Welford's algorithm, over any number of finishes: the mean is the mean, and
      M2 is the sum of the squared deviations from it, as two passes over the
      weighted turnarounds would compute them. */
  lemma {:induction false} WelfordIsTwoPass(cs: seq<Pcb>)
    ensures Describes(RecordAll(cs), Wtas(cs)) && Weighted(Wtas(cs), cs)
  {
    WtasAreWeighted(cs);
    if cs != [] {
      var before := cs[..|cs| - 1];
      WelfordIsTwoPass(before);
      WtasStep(cs);
      RecordKeeps(RecordAll(before), Wtas(before), cs[|cs| - 1]);
    }
  }

  lemma RecordKeeps(p: Perf, xs: seq<real>, c: Pcb)
    requires Describes(p, xs)
    ensures Describes(Record(p, c), xs + [Wta(c)])
  {
    var e := RecordStep(p, c);
    Extends(p, Record(p, c), xs, Wta(c), e);
  }

  lemma Extends(p: Perf, q: Perf, xs: seq<real>, x: real, e: real)
    requires Describes(p, xs) && Updated(p, q, x, e)
    ensures Describes(q, xs + [x])
  {
    NewMean(p, q, xs, x, e);
    NewMoment(p, q, xs, x, e);
    DeviationsStep(xs, x, q.mean);
  }

  lemma NewMean(p: Perf, q: Perf, xs: seq<real>, x: real, e: real)
    requires Describes(p, xs) && Updated(p, q, x, e)
    ensures q.mean * q.n as real == Sum(xs) + x
  {
    MeanStep(p.mean, x, p.n as real, q.n as real, e, Sum(xs));
  }

  lemma NewMoment(p: Perf, q: Perf, xs: seq<real>, x: real, e: real)
    requires Describes(p, xs) && Updated(p, q, x, e)
    ensures q.m2 == SquaredDeviations(xs, q.mean) + (x - q.mean) * (x - q.mean)
  {
    OldMoment(p, q, xs, x, e);
    AddedMoment(p, q, x, e);
    Balance(p.m2, SquaredDeviations(xs, q.mean), p.n as real * (e * e), (x - p.mean) * (x - q.mean),
            (x - q.mean) * (x - q.mean), q.m2);
  }

  lemma OldMoment(p: Perf, q: Perf, xs: seq<real>, x: real, e: real)
    requires Describes(p, xs) && Updated(p, q, x, e)
    ensures SquaredDeviations(xs, q.mean) == p.m2 + p.n as real * (e * e)
  {
    ShiftFromMean(xs, p.mean, e, p.n as real);
  }

  lemma AddedMoment(p: Perf, q: Perf, x: real, e: real)
    requires Updated(p, q, x, e)
    ensures (x - p.mean) * (x - q.mean) == p.n as real * (e * e) + (x - q.mean) * (x - q.mean)
  {
    MomentStep(p.mean, x, p.n as real, q.n as real, e);
  }

  lemma Balance(m2: real, dev: real, shift: real, product: real, square: real, m2': real)
    requires dev == m2 + shift && product == shift + square && m2' == m2 + product
    ensures m2' == dev + square
  {
  }

  /** The other figures are plain sums, and the last finish. */
  lemma {:induction false} SumsOfFinished(cs: seq<Pcb>)
    ensures var perf := RecordAll(cs);
      && perf.n == |cs| && perf.sumWta == Sum(Wtas(cs)) && Weighted(Wtas(cs), cs)
      && perf.sumWaiting == TotalWaiting(cs) && perf.totalRuntime == TotalRuntime(cs)
      && perf.finishTime == (if cs == [] then -1 else cs[|cs| - 1].finish)
  {
    WtasAreWeighted(cs);
    if cs != [] {
      SumsOfFinished(cs[..|cs| - 1]);
      assert Wtas(cs)[..|cs| - 1] == Wtas(cs[..|cs| - 1]);
    }
  }

  lemma WtasStep(cs: seq<Pcb>)
    requires cs != []
    ensures Wtas(cs) == Wtas(cs[..|cs| - 1]) + [Wta(cs[|cs| - 1])]
  {
  }

  lemma RecordStep(p: Perf, c: Pcb) returns (e: real)
    ensures Updated(p, Record(p, c), Wta(c), e)
  {
    var n := (p.n + 1) as real;
    e := (Wta(c) - p.mean) / n;
    Undivide(Wta(c) - p.mean, n);
  }

  lemma Undivide(a: real, n: real)
    requires n > 0.0
    ensures (a / n) * n == a
  {
  }

  lemma DeviationsStep(xs: seq<real>, x: real, m: real)
    ensures SquaredDeviations(xs + [x], m) == SquaredDeviations(xs, m) + (x - m) * (x - m)
    ensures Sum(xs + [x]) == Sum(xs) + x
  {
    assert (xs + [x])[..|xs|] == xs;
  }

  /** At reporting the mean is the average of the recorded values, and M2 the
      sum of the squared deviations from that average. */
  lemma ReportedFigures(cs: seq<Pcb>)
    requires cs != []
    ensures RecordAll(cs).n > 0 && RecordAll(cs).mean == RecordAll(cs).sumWta / RecordAll(cs).n as real
  {
    WelfordIsTwoPass(cs);
    SumsOfFinished(cs);
    QuotientOf(RecordAll(cs).mean, RecordAll(cs).n as real, RecordAll(cs).sumWta);
  }

  lemma QuotientOf(mean: real, n: real, sum: real)
    requires n > 0.0 && mean * n == sum
    ensures mean == sum / n
  {
  }
}
