/** The fair-share scheduler on values: the piecewise budget and the sharing loop as
    functions, and the laws about them. Reals stand for the original's doubles. */
module Bandwidth {

  datatype BandwidthStep = BandwidthStep(afterMs: real, bytesPerSecond: real)

  datatype Job = Job(id: nat, remaining: real)

  // A body with at most this many bytes left is treated as delivered.
  const DONE_TOLERANCE: real := 0.0000001

  predicate ValidSchedule(steps: seq<BandwidthStep>) {
    && |steps| > 0
    && steps[0].afterMs == 0.0
    && (forall i | 0 <= i < |steps| :: steps[i].bytesPerSecond > 0.0)
    && (forall i | 1 <= i < |steps| :: steps[i - 1].afterMs < steps[i].afterMs)
  }

  function Max(x: real, y: real): real { if x < y then y else x }

  function Min(x: real, y: real): real { if y < x then y else x }

  // ---------------------------------------------------------------- budget

  /** Length of [from, to] that lies in segment i of the schedule; the last segment never ends. */
  function Overlap(steps: seq<BandwidthStep>, started: real, i: nat, from: real, to: real): real
    requires i < |steps|
  {
    var begin := Max(from, started + steps[i].afterMs);
    var end := if i + 1 < |steps| then Min(to, started + steps[i + 1].afterMs) else to;
    Max(0.0, end - begin)
  }

  /** Bytes earned in `ms` milliseconds at `rate` bytes per second. */
  function Earn(ms: real, rate: real): real { ms * rate / 1000.0 }

  lemma EarnAdds(x: real, y: real, rate: real)
    ensures Earn(x, rate) + Earn(y, rate) == Earn(x + y, rate)
    ensures Earn(0.0, rate) == 0.0
    ensures x >= 0.0 && rate >= 0.0 ==> Earn(x, rate) >= 0.0
  {}

  /** A thousand milliseconds earn the rate itself. */
  lemma EarnedPerSecond(ms: real, rate: real, bytes: real)
    ensures 1000.0 * Earn(ms, rate) == ms * rate
    ensures 1000.0 * bytes == ms * rate ==> bytes == Earn(ms, rate)
  {}

  /** Bytes earned in [from, to] by the first n segments. */
  function EarnedBy(steps: seq<BandwidthStep>, started: real, n: nat, from: real, to: real): real
    requires n <= |steps|
  {
    if n == 0 then 0.0
    else EarnedBy(steps, started, n - 1, from, to)
         + Earn(Overlap(steps, started, n - 1, from, to), steps[n - 1].bytesPerSecond)
  }

  function Budget(steps: seq<BandwidthStep>, started: real, from: real, to: real): real {
    EarnedBy(steps, started, |steps|, from, to)
  }

  lemma OverlapAdds(steps: seq<BandwidthStep>, started: real, i: nat, a: real, b: real, c: real)
    requires ValidSchedule(steps) && i < |steps| && a <= b <= c
    ensures Overlap(steps, started, i, a, b) + Overlap(steps, started, i, b, c) == Overlap(steps, started, i, a, c)
  {}

  lemma {:induction false} EarnedByAdds(steps: seq<BandwidthStep>, started: real, n: nat, a: real, b: real, c: real)
    requires ValidSchedule(steps) && n <= |steps| && a <= b <= c
    ensures EarnedBy(steps, started, n, a, b) + EarnedBy(steps, started, n, b, c) == EarnedBy(steps, started, n, a, c)
  {
    hide Earn;
    if n > 0 {
      EarnedByAdds(steps, started, n - 1, a, b, c);
      OverlapAdds(steps, started, n - 1, a, b, c);
      EarnAdds(Overlap(steps, started, n - 1, a, b), Overlap(steps, started, n - 1, b, c), steps[n - 1].bytesPerSecond);
    }
  }

  lemma {:induction false} EarnedByIsNonNegative(steps: seq<BandwidthStep>, started: real, n: nat, a: real, b: real)
    requires ValidSchedule(steps) && n <= |steps|
    ensures EarnedBy(steps, started, n, a, b) >= 0.0
  {
    hide Earn;
    if n > 0 {
      EarnedByIsNonNegative(steps, started, n - 1, a, b);
      EarnAdds(Overlap(steps, started, n - 1, a, b), 0.0, steps[n - 1].bytesPerSecond);
    }
  }

  /** Budgets of adjacent intervals add up. */
  lemma BudgetAdds(steps: seq<BandwidthStep>, started: real, a: real, b: real, c: real)
    requires ValidSchedule(steps) && a <= b <= c
    ensures Budget(steps, started, a, b) + Budget(steps, started, b, c) == Budget(steps, started, a, c)
  {
    EarnedByAdds(steps, started, |steps|, a, b, c);
  }

  /** [a, b] lies inside segment i. */
  predicate InSegment(steps: seq<BandwidthStep>, started: real, i: nat, a: real, b: real)
    requires i < |steps|
  {
    && started + steps[i].afterMs <= a <= b
    && (i + 1 < |steps| ==> b <= started + steps[i + 1].afterMs)
  }

  /** What it means for F to integrate the schedule's rate: it is additive over adjacent
      intervals and, inside every segment, a thousandth of its rate for each millisecond. */
  ghost predicate IntegratesRate(steps: seq<BandwidthStep>, started: real, F: (real, real) -> real) {
    && (forall a, b, c :: a <= b <= c ==> F(a, b) + F(b, c) == F(a, c))
    && (forall i: nat, a, b :: i < |steps| && InSegment(steps, started, i, a, b)
         ==> 1000.0 * F(a, b) == (b - a) * steps[i].bytesPerSecond)
  }

  function Clamp(x: real, low: real, high: real): real { Max(low, Min(x, high)) }

  /** Where segment n begins, clamped into [a, b]; past the last segment this is b. */
  function Cut(steps: seq<BandwidthStep>, started: real, n: nat, a: real, b: real): real
    requires n <= |steps|
  {
    if n < |steps| then Clamp(started + steps[n].afterMs, a, b) else b
  }

  lemma IntegralJoins(steps: seq<BandwidthStep>, started: real, a: real, b: real, c: real, F: (real, real) -> real)
    requires IntegratesRate(steps, started, F) && a <= b <= c
    ensures F(a, b) + F(b, c) == F(a, c)
  {}

  lemma IntegralInside(steps: seq<BandwidthStep>, started: real, i: nat, a: real, b: real, F: (real, real) -> real)
    requires IntegratesRate(steps, started, F) && i < |steps| && started + steps[i].afterMs <= a <= b
    requires i + 1 < |steps| ==> b <= started + steps[i + 1].afterMs
    ensures F(a, b) == Earn(b - a, steps[i].bytesPerSecond)
  {
    hide Earn;
    assert InSegment(steps, started, i, a, b);
    EarnedPerSecond(b - a, steps[i].bytesPerSecond, F(a, b));
  }

  lemma {:induction false} IntegralUpToCut(steps: seq<BandwidthStep>, started: real, n: nat, a: real, b: real,
                                          F: (real, real) -> real)
    requires ValidSchedule(steps) && n <= |steps| && started <= a <= b
    requires IntegratesRate(steps, started, F)
    ensures a <= Cut(steps, started, n, a, b) <= b
    ensures F(a, Cut(steps, started, n, a, b)) == EarnedBy(steps, started, n, a, b)
  {
    hide Earn, IntegratesRate, InSegment;
    IntegralJoins(steps, started, a, a, a, F);
    if n > 0 {
      IntegralUpToCut(steps, started, n - 1, a, b, F);
      var p, q := Cut(steps, started, n - 1, a, b), Cut(steps, started, n, a, b);
      assert p <= q;
      IntegralJoins(steps, started, a, p, q, F);
      assert q - p == Overlap(steps, started, n - 1, a, b);
      if p < q {
        IntegralInside(steps, started, n - 1, p, q, F);
      } else {
        IntegralJoins(steps, started, p, p, p, F);
        EarnAdds(0.0, 0.0, steps[n - 1].bytesPerSecond);
      }
    }
  }

  /** The per-step budget sum is the integral of the piecewise-constant rate: it is the only
      function that is additive and earns each segment's own rate inside that segment. */
  lemma BudgetIsTheIntegral(steps: seq<BandwidthStep>, started: real, a: real, b: real, F: (real, real) -> real)
    requires ValidSchedule(steps) && started <= a <= b
    requires IntegratesRate(steps, started, F)
    ensures Budget(steps, started, a, b) == F(a, b)
  {
    IntegralUpToCut(steps, started, |steps|, a, b, F);
  }

  lemma {:induction false} Ascending(steps: seq<BandwidthStep>, i: nat, j: nat)
    requires ValidSchedule(steps) && i <= j < |steps|
    ensures steps[i].afterMs <= steps[j].afterMs
  {
    if i < j {
      Ascending(steps, i, j - 1);
    }
  }

  lemma {:induction false} EarnedInSegment(steps: seq<BandwidthStep>, started: real, n: nat, i: nat, a: real, b: real)
    requires ValidSchedule(steps) && n <= |steps| && i < |steps| && InSegment(steps, started, i, a, b)
    ensures EarnedBy(steps, started, n, a, b)
         == if n <= i then 0.0 else (b - a) * steps[i].bytesPerSecond / 1000.0
  {
    hide Earn;
    if n > 0 {
      EarnAdds(0.0, 0.0, steps[n - 1].bytesPerSecond);
      EarnedInSegment(steps, started, n - 1, i, a, b);
      if n - 1 < i {
        Ascending(steps, n, i);
        assert Overlap(steps, started, n - 1, a, b) == 0.0;
      } else if n - 1 > i {
        Ascending(steps, i + 1, n - 1);
        assert Overlap(steps, started, n - 1, a, b) == 0.0;
      } else {
        assert Overlap(steps, started, i, a, b) == b - a;
        EarnedPerSecond(b - a, steps[i].bytesPerSecond, (b - a) * steps[i].bytesPerSecond / 1000.0);
      }
    }
  }

  /** One second inside a segment earns exactly that segment's rate. */
  lemma OneSecondEarnsTheRate(steps: seq<BandwidthStep>, started: real, i: nat, a: real)
    requires ValidSchedule(steps) && i < |steps| && InSegment(steps, started, i, a, a + 1000.0)
    ensures Budget(steps, started, a, a + 1000.0) == steps[i].bytesPerSecond
  {
    EarnedInSegment(steps, started, |steps|, i, a, a + 1000.0);
  }

  /** ... and the budget itself is such a function, so the characterisation is not vacuous. */
  lemma BudgetIntegratesRate(steps: seq<BandwidthStep>, started: real)
    requires ValidSchedule(steps)
    ensures IntegratesRate(steps, started, (a, b) => Budget(steps, started, a, b))
  {
    forall a, b, c | a <= b <= c
      ensures Budget(steps, started, a, b) + Budget(steps, started, b, c) == Budget(steps, started, a, c)
    {
      BudgetAdds(steps, started, a, b, c);
    }
    forall i: nat, a, b | i < |steps| && InSegment(steps, started, i, a, b)
      ensures 1000.0 * Budget(steps, started, a, b) == (b - a) * steps[i].bytesPerSecond
    {
      EarnedInSegment(steps, started, |steps|, i, a, b);
    }
  }

  // ---------------------------------------------------------- sharing loop

  predicate AllAbove(jobs: seq<Job>, bound: real) {
    forall i | 0 <= i < |jobs| :: jobs[i].remaining > bound
  }

  function MinRemaining(jobs: seq<Job>): (least: real)
    requires |jobs| > 0
    ensures forall i | 0 <= i < |jobs| :: least <= jobs[i].remaining
    ensures exists i | 0 <= i < |jobs| :: least == jobs[i].remaining
  {
    if |jobs| == 1 then jobs[0].remaining
    else
      var rest := MinRemaining(jobs[1..]);
      assert forall i | 1 <= i < |jobs| :: jobs[i] == jobs[1..][i - 1];
      assert exists i | 0 <= i < |jobs| :: Min(jobs[0].remaining, rest) == jobs[i].remaining by {
        var k :| 0 <= k < |jobs[1..]| && rest == jobs[1..][k].remaining;
        assert jobs[k + 1].remaining == rest && jobs[0].remaining == jobs[0].remaining;
      }
      Min(jobs[0].remaining, rest)
  }

  /** n bodies with x bytes each; a sum, so that the solver need not multiply. */
  function Times(x: real, n: nat): real { if n == 0 then 0.0 else Times(x, n - 1) + x }

  lemma {:induction false} TimesIsProduct(x: real, n: nat)
    ensures Times(x, n) == x * n as real
  {
    if n > 0 {
      TimesIsProduct(x, n - 1);
      assert x * n as real == x * (n - 1) as real + x;
    }
  }

  lemma {:induction false} TimesLaws(x: real, y: real, m: nat, n: nat)
    ensures Times(x, 0) == 0.0 && Times(x, 1) == x
    ensures Times(x, m) + Times(x, n) == Times(x, m + n)
    ensures x <= y ==> Times(x, n) <= Times(y, n)
    ensures x >= 0.0 ==> Times(x, n) >= 0.0
  {
    if n > 0 {
      TimesLaws(x, y, m, n - 1);
    }
  }

  /** The budget divided equally among n bodies. */
  function EqualShare(budget: real, n: nat): real
    requires n > 0
  {
    budget / n as real
  }

  lemma EqualSharesSpendTheBudget(budget: real, n: nat)
    requires n > 0
    ensures Times(EqualShare(budget, n), n) == budget
    ensures budget > 0.0 ==> EqualShare(budget, n) > 0.0
  {
    TimesIsProduct(EqualShare(budget, n), n);
  }

  /** What each job receives in one round of the loop. */
  function Share(jobs: seq<Job>, budget: real): (share: real)
    requires |jobs| > 0
  {
    Min(EqualShare(budget, |jobs|), MinRemaining(jobs))
  }

  /** Pours `level` bytes into every job, and drops each job this leaves with at most `tolerance`. */
  function Drain(jobs: seq<Job>, level: real, tolerance: real): (left: seq<Job>)
    ensures |left| <= |jobs|
    ensures AllAbove(left, tolerance)
  {
    if jobs == [] then []
    else
      var rest := Drain(jobs[1..], level, tolerance);
      if jobs[0].remaining - level > tolerance
      then [jobs[0].(remaining := jobs[0].remaining - level)] + rest
      else rest
  }

  lemma {:induction false} DrainDrops(jobs: seq<Job>, level: real, tolerance: real, k: nat)
    requires k < |jobs| && jobs[k].remaining - level <= tolerance
    ensures |Drain(jobs, level, tolerance)| < |jobs|
  {
    if k > 0 {
      DrainDrops(jobs[1..], level, tolerance, k - 1);
    }
  }

  /** A round either exhausts the budget or finishes a job, so the loop ends. */
  lemma RoundProgress(jobs: seq<Job>, budget: real, tolerance: real)
    requires |jobs| > 0 && budget > 0.0 && tolerance >= 0.0 && AllAbove(jobs, 0.0)
    ensures 0.0 < Share(jobs, budget) <= MinRemaining(jobs)
    ensures budget - Times(Share(jobs, budget), |jobs|) >= 0.0
    ensures || |Drain(jobs, Share(jobs, budget), tolerance)| < |jobs|
            || budget - Times(Share(jobs, budget), |jobs|) == 0.0
  {
    hide Times, EqualShare;
    var share := Share(jobs, budget);
    EqualSharesSpendTheBudget(budget, |jobs|);
    TimesLaws(share, EqualShare(budget, |jobs|), 0, |jobs|);
    if share == MinRemaining(jobs) {
      var k :| 0 <= k < |jobs| && share == jobs[k].remaining;
      DrainDrops(jobs, share, tolerance, k);
    }
  }

  /** The bodies still pending after the loop has spent `budget` on `jobs`. */
  function Spend(jobs: seq<Job>, budget: real, tolerance: real): (left: seq<Job>)
    requires tolerance >= 0.0 && AllAbove(jobs, 0.0)
    ensures AllAbove(left, 0.0)
    decreases |jobs|, if budget > 0.0 then 1 else 0
  {
    if budget <= 0.0 || jobs == [] then jobs
    else
      RoundProgress(jobs, budget, tolerance);
      var share := Share(jobs, budget);
      Spend(Drain(jobs, share, tolerance), budget - Times(share, |jobs|), tolerance)
  }

  /** The bytes received by a body that is pending through every round. */
  function Level(jobs: seq<Job>, budget: real, tolerance: real): (level: real)
    requires tolerance >= 0.0 && AllAbove(jobs, 0.0)
    ensures level >= 0.0
    decreases |jobs|, if budget > 0.0 then 1 else 0
  {
    if budget <= 0.0 || jobs == [] then 0.0
    else
      RoundProgress(jobs, budget, tolerance);
      var share := Share(jobs, budget);
      share + Level(Drain(jobs, share, tolerance), budget - Times(share, |jobs|), tolerance)
  }

  /** The part of the budget that the loop hands out. */
  function Spent(jobs: seq<Job>, budget: real, tolerance: real): (spent: real)
    requires tolerance >= 0.0 && AllAbove(jobs, 0.0)
    decreases |jobs|, if budget > 0.0 then 1 else 0
  {
    if budget <= 0.0 || jobs == [] then 0.0
    else
      RoundProgress(jobs, budget, tolerance);
      var share := Share(jobs, budget);
      Times(share, |jobs|) + Spent(Drain(jobs, share, tolerance), budget - Times(share, |jobs|), tolerance)
  }

  function Total(jobs: seq<Job>): (sum: real)
    ensures AllAbove(jobs, 0.0) ==> sum >= 0.0
    ensures AllAbove(jobs, 0.0) && jobs != [] ==> sum > 0.0
  {
    if jobs == [] then 0.0
    else
      assert AllAbove(jobs, 0.0) ==> AllAbove(jobs[1..], 0.0);
      jobs[0].remaining + Total(jobs[1..])
  }

  /** The water-filling allocation: every body receives the level, or all it needs if that is less. */
  function Poured(jobs: seq<Job>, level: real): real {
    if jobs == [] then 0.0 else Min(jobs[0].remaining, level) + Poured(jobs[1..], level)
  }

  lemma {:induction false} DrainTwice(jobs: seq<Job>, a: real, b: real, tolerance: real)
    requires a >= 0.0 && b >= 0.0 && tolerance >= 0.0
    ensures Drain(Drain(jobs, a, tolerance), b, tolerance) == Drain(jobs, a + b, tolerance)
  {
    if jobs != [] {
      DrainTwice(jobs[1..], a, b, tolerance);
      var rest := Drain(jobs[1..], a, tolerance);
      if jobs[0].remaining - a > tolerance {
        var head := jobs[0].(remaining := jobs[0].remaining - a);
        assert ([head] + rest)[1..] == rest;
      }
    }
  }

  lemma {:induction false} DrainNothing(jobs: seq<Job>, tolerance: real)
    requires AllAbove(jobs, tolerance)
    ensures Drain(jobs, 0.0, tolerance) == jobs
  {
    if jobs != [] {
      DrainNothing(jobs[1..], tolerance);
    }
  }

  /** Water-filling: whatever the rounds were, the loop leaves exactly what pouring one common
      level into every body leaves. Survivors keep their order and have received equal bytes. */
  lemma {:induction false} SpendIsWaterFilling(jobs: seq<Job>, budget: real, tolerance: real)
    requires tolerance >= 0.0 && AllAbove(jobs, 0.0)
    requires budget > 0.0 || AllAbove(jobs, tolerance)
    ensures Spend(jobs, budget, tolerance) == Drain(jobs, Level(jobs, budget, tolerance), tolerance)
    decreases |jobs|, if budget > 0.0 then 1 else 0
  {
    hide Times, Share, Drain;
    if budget <= 0.0 || jobs == [] {
      DrainNothing(jobs, tolerance);
    } else {
      RoundProgress(jobs, budget, tolerance);
      var share := Share(jobs, budget);
      var rest, left := Drain(jobs, share, tolerance), budget - Times(share, |jobs|);
      SpendIsWaterFilling(rest, left, tolerance);
      DrainTwice(jobs, share, Level(rest, left, tolerance), tolerance);
    }
  }

  lemma {:induction false} DrainAccounts(jobs: seq<Job>, level: real, tolerance: real)
    requires tolerance >= 0.0 && level >= 0.0
    requires forall i | 0 <= i < |jobs| :: level <= jobs[i].remaining
    ensures var left := Drain(jobs, level, tolerance);
            var slack := Total(jobs) - Times(level, |jobs|) - Total(left);
            0.0 <= slack <= Times(tolerance, |jobs| - |left|)
  {
    hide Times;
    TimesLaws(level, level, 0, 0);
    TimesLaws(tolerance, tolerance, 0, 0);
    if jobs != [] {
      DrainAccounts(jobs[1..], level, tolerance);
      TimesLaws(level, level, |jobs| - 1, 1);
      TimesLaws(tolerance, tolerance, |jobs[1..]| - |Drain(jobs[1..], level, tolerance)|, 1);
      var left, rest := Drain(jobs, level, tolerance), Drain(jobs[1..], level, tolerance);
      if jobs[0].remaining - level > tolerance {
        assert left[1..] == rest;
      }
    }
  }

  /** Bytes are conserved up to the tolerance of each finished body, the loop never overspends,
      and it leaves budget over only when nothing is pending. */
  lemma {:induction false} SpendAccounts(jobs: seq<Job>, budget: real, tolerance: real)
    requires tolerance >= 0.0 && AllAbove(jobs, 0.0) && budget >= 0.0
    ensures var left := Spend(jobs, budget, tolerance);
            var spent := Spent(jobs, budget, tolerance);
            && 0.0 <= spent <= budget
            && (left != [] ==> spent == budget)
            && |left| <= |jobs|
            && 0.0 <= Total(jobs) - spent - Total(left) <= Times(tolerance, |jobs| - |left|)
    decreases |jobs|, if budget > 0.0 then 1 else 0
  {
    hide Times, Share, Drain;
    TimesLaws(tolerance, tolerance, 0, 0);
    if budget > 0.0 && jobs != [] {
      RoundProgress(jobs, budget, tolerance);
      var share := Share(jobs, budget);
      var rest := Drain(jobs, share, tolerance);
      TimesLaws(share, share, 0, |jobs|);
      SpendAccounts(rest, budget - Times(share, |jobs|), tolerance);
      DrainAccounts(jobs, share, tolerance);
      var left := Spend(jobs, budget, tolerance);
      TimesLaws(tolerance, tolerance, |jobs| - |rest|, |rest| - |left|);
    }
  }

  lemma {:induction false} PouredAndLeft(jobs: seq<Job>, level: real)
    requires level >= 0.0 && AllAbove(jobs, 0.0)
    ensures Poured(jobs, level) + Total(Drain(jobs, level, 0.0)) == Total(jobs)
  {
    if jobs != [] {
      PouredAndLeft(jobs[1..], level);
      var rest := Drain(jobs[1..], level, 0.0);
      if jobs[0].remaining - level > 0.0 {
        var head := jobs[0].(remaining := jobs[0].remaining - level);
        assert ([head] + rest)[1..] == rest;
      }
    }
  }

  /** With an exact finish, the level is the max-min fair one: it hands out min(budget, demand). */
  lemma LevelPoursTheBudget(jobs: seq<Job>, budget: real)
    requires AllAbove(jobs, 0.0) && budget >= 0.0
    ensures Poured(jobs, Level(jobs, budget, 0.0)) == Spent(jobs, budget, 0.0) == Min(budget, Total(jobs))
  {
    hide Spend, Spent, Level, Drain, Times, Poured;
    SpendIsWaterFilling(jobs, budget, 0.0);
    SpendAccounts(jobs, budget, 0.0);
    TimesIsProduct(0.0, |jobs| - |Spend(jobs, budget, 0.0)|);
    PouredAndLeft(jobs, Level(jobs, budget, 0.0));
  }

  lemma {:induction false} PouredIsMonotone(jobs: seq<Job>, low: real, high: real)
    requires low <= high
    ensures Poured(jobs, low) <= Poured(jobs, high)
  {
    if jobs != [] {
      PouredIsMonotone(jobs[1..], low, high);
    }
  }

  lemma {:induction false} EqualPoursLeaveTheSame(jobs: seq<Job>, low: real, high: real)
    requires 0.0 <= low <= high && Poured(jobs, low) == Poured(jobs, high)
    ensures Drain(jobs, low, 0.0) == Drain(jobs, high, 0.0)
  {
    if jobs != [] {
      PouredIsMonotone(jobs[1..], low, high);
      EqualPoursLeaveTheSame(jobs[1..], low, high);
    }
  }

  /** The max-min fair outcome is unique: any level that pours min(budget, demand) leaves what
      the loop leaves. */
  lemma FairOutcomeIsUnique(jobs: seq<Job>, budget: real, level: real)
    requires AllAbove(jobs, 0.0) && budget >= 0.0 && level >= 0.0
    requires Poured(jobs, level) == Min(budget, Total(jobs))
    ensures Spend(jobs, budget, 0.0) == Drain(jobs, level, 0.0)
  {
    LevelPoursTheBudget(jobs, budget);
    SpendIsWaterFilling(jobs, budget, 0.0);
    var own := Level(jobs, budget, 0.0);
    if own <= level {
      EqualPoursLeaveTheSame(jobs, own, level);
    } else {
      EqualPoursLeaveTheSame(jobs, level, own);
    }
  }

  /** Spending two budgets in turn leaves what spending their sum leaves. */
  lemma SpendTwice(jobs: seq<Job>, b1: real, b2: real)
    requires AllAbove(jobs, 0.0) && b1 >= 0.0 && b2 >= 0.0
    ensures Spend(Spend(jobs, b1, 0.0), b2, 0.0) == Spend(jobs, b1 + b2, 0.0)
  {
    hide Spend, Level, Drain, Poured, Total;
    var middle := Spend(jobs, b1, 0.0);
    var l1, l2 := Level(jobs, b1, 0.0), Level(middle, b2, 0.0);
    SpendIsWaterFilling(jobs, b1, 0.0);
    SpendIsWaterFilling(middle, b2, 0.0);
    DrainTwice(jobs, l1, l2, 0.0);
    PouredAndLeft(jobs, l1);
    PouredAndLeft(middle, l2);
    PouredAndLeft(jobs, l1 + l2);
    LevelPoursTheBudget(jobs, b1);
    LevelPoursTheBudget(middle, b2);
    FairOutcomeIsUnique(jobs, b1 + b2, l1 + l2);
  }

  // ------------------------------------------------------------ completion

  /** Bodies finished by one round, in the order they are resolved: last in the queue first. */
  function Finished(jobs: seq<Job>, level: real, tolerance: real): seq<nat> {
    if jobs == [] then []
    else Finished(jobs[1..], level, tolerance)
         + (if jobs[0].remaining - level > tolerance then [] else [jobs[0].id])
  }

  /** Bodies finished while `budget` is spent, in the order they are resolved. */
  function Resolved(jobs: seq<Job>, budget: real, tolerance: real): seq<nat>
    requires tolerance >= 0.0 && AllAbove(jobs, 0.0)
    decreases |jobs|, if budget > 0.0 then 1 else 0
  {
    if budget <= 0.0 || jobs == [] then []
    else
      RoundProgress(jobs, budget, tolerance);
      var share := Share(jobs, budget);
      Finished(jobs, share, tolerance)
      + Resolved(Drain(jobs, share, tolerance), budget - Times(share, |jobs|), tolerance)
  }

  /** One iteration of the loop. */
  lemma OneRound(jobs: seq<Job>, budget: real, tolerance: real)
    requires tolerance >= 0.0 && AllAbove(jobs, 0.0) && budget > 0.0 && jobs != []
    ensures var share := Share(jobs, budget);
            var left, budget' := Drain(jobs, share, tolerance), budget - Times(share, |jobs|);
            && budget' >= 0.0
            && (|left| < |jobs| || budget' == 0.0)
            && Spend(jobs, budget, tolerance) == Spend(left, budget', tolerance)
            && Resolved(jobs, budget, tolerance) == Finished(jobs, share, tolerance) + Resolved(left, budget', tolerance)
  {
    RoundProgress(jobs, budget, tolerance);
  }

  lemma NoRound(jobs: seq<Job>, budget: real, tolerance: real)
    requires tolerance >= 0.0 && AllAbove(jobs, 0.0) && (budget <= 0.0 || jobs == [])
    ensures Spend(jobs, budget, tolerance) == jobs && Resolved(jobs, budget, tolerance) == []
  {}

  function Ids(jobs: seq<Job>): multiset<nat> {
    if jobs == [] then multiset{} else multiset{jobs[0].id} + Ids(jobs[1..])
  }

  lemma {:induction false} DrainResolvesTheRest(jobs: seq<Job>, level: real, tolerance: real)
    ensures Ids(jobs) == Ids(Drain(jobs, level, tolerance)) + multiset(Finished(jobs, level, tolerance))
  {
    if jobs != [] {
      DrainResolvesTheRest(jobs[1..], level, tolerance);
      var rest := Drain(jobs[1..], level, tolerance);
      if jobs[0].remaining - level > tolerance {
        assert Drain(jobs, level, tolerance)[1..] == rest;
      }
    }
  }

  /** Every body is resolved exactly once, when it leaves the queue. */
  lemma {:induction false} ResolvedExactlyOnce(jobs: seq<Job>, budget: real, tolerance: real)
    requires tolerance >= 0.0 && AllAbove(jobs, 0.0)
    ensures Ids(jobs) == Ids(Spend(jobs, budget, tolerance)) + multiset(Resolved(jobs, budget, tolerance))
    decreases |jobs|, if budget > 0.0 then 1 else 0
  {
    hide Times, Share, Drain, Finished, Ids;
    if budget > 0.0 && jobs != [] {
      RoundProgress(jobs, budget, tolerance);
      var share := Share(jobs, budget);
      var left, budget' := Drain(jobs, share, tolerance), budget - Times(share, |jobs|);
      DrainResolvesTheRest(jobs, share, tolerance);
      ResolvedExactlyOnce(left, budget', tolerance);
      OneRound(jobs, budget, tolerance);
      hide Spend, Resolved;
    }
  }

  // ------------------------------------------------------------------ runs

  datatype Link = Link(steps: seq<BandwidthStep>, started: real, last: real, pending: seq<Job>, nextId: nat)
  {
    predicate Valid() {
      ValidSchedule(steps) && AllAbove(pending, 0.0)
    }
  }

  /** What the link earns between its last accounting and `now`. */
  function Earned(link: Link, now: real): (budget: real)
    requires link.Valid()
    ensures budget >= 0.0
  {
    EarnedByIsNonNegative(link.steps, link.started, |link.steps|, link.last, now);
    Budget(link.steps, link.started, link.last, now)
  }

  function Advance(link: Link, now: real, tolerance: real): (after: Link)
    requires link.Valid() && tolerance >= 0.0
    ensures after.Valid()
  {
    link.(last := now, pending := Spend(link.pending, Earned(link, now), tolerance))
  }

  /** Admits a body: existing bodies are accounted for first; an empty body never waits. */
  function Admit(link: Link, now: real, bytes: real, tolerance: real): (after: Link)
    requires link.Valid() && tolerance >= 0.0
    ensures after.Valid()
  {
    if bytes <= 0.0 then link
    else
      var caughtUp := Advance(link, now, tolerance);
      caughtUp.(pending := caughtUp.pending + [Job(link.nextId, bytes)], nextId := link.nextId + 1)
  }

  datatype Event = Tick(at: real) | Transfer(at: real, bytes: real)

  function Apply(link: Link, event: Event, tolerance: real): (after: Link)
    requires link.Valid() && tolerance >= 0.0
    ensures after.Valid()
  {
    match event
    case Tick(at) => Advance(link, at, tolerance)
    case Transfer(at, bytes) => Admit(link, at, bytes, tolerance)
  }

  function Run(link: Link, events: seq<Event>, tolerance: real): (after: Link)
    requires link.Valid() && tolerance >= 0.0
    ensures after.Valid()
    decreases |events|
  {
    hide Advance, Admit;
    if events == [] then link else Run(Apply(link, events[0], tolerance), events[1..], tolerance)
  }

  /** An event does any accounting at all: refused and empty bodies do not. */
  predicate Accounts(event: Event) { event.Transfer? ==> event.bytes > 0.0 }

  /** The clock never runs backwards over the events. */
  predicate Monotone(last: real, events: seq<Event>)
    decreases |events|
  {
    events == [] || (last <= events[0].at && Monotone(events[0].at, events[1..]))
  }

  /** Bytes handed to pending bodies over a run. */
  function Delivered(link: Link, events: seq<Event>, tolerance: real): real
    requires link.Valid() && tolerance >= 0.0
    decreases |events|
  {
    if events == [] then 0.0
    else
      (if Accounts(events[0]) then Spent(link.pending, Earned(link, events[0].at), tolerance) else 0.0)
      + Delivered(Apply(link, events[0], tolerance), events[1..], tolerance)
  }

  function Admitted(events: seq<Event>): real
    decreases |events|
  {
    if events == [] then 0.0
    else (if events[0].Transfer? && events[0].bytes > 0.0 then events[0].bytes else 0.0) + Admitted(events[1..])
  }

  function Admissions(events: seq<Event>): nat
    decreases |events|
  {
    if events == [] then 0
    else (if events[0].Transfer? && events[0].bytes > 0.0 then 1 else 0) + Admissions(events[1..])
  }

  /** Bodies resolved over a run, in order. */
  function ResolvedOver(link: Link, events: seq<Event>, tolerance: real): seq<nat>
    requires link.Valid() && tolerance >= 0.0
    decreases |events|
  {
    if events == [] then []
    else
      ResolvedBy(link, events[0], tolerance)
      + ResolvedOver(Apply(link, events[0], tolerance), events[1..], tolerance)
  }

  lemma {:induction false} IdsAppend(jobs: seq<Job>, job: Job)
    ensures Ids(jobs + [job]) == Ids(jobs) + multiset{job.id}
  {
    if jobs != [] {
      assert (jobs + [job])[1..] == jobs[1..] + [job];
      IdsAppend(jobs[1..], job);
    }
  }

  /** Bodies resolved by one event's accounting. */
  function ResolvedBy(link: Link, event: Event, tolerance: real): seq<nat>
    requires link.Valid() && tolerance >= 0.0
  {
    if Accounts(event) then Resolved(link.pending, Earned(link, event.at), tolerance) else []
  }

  /** One if the identifier is among the `count` given out from `n` on. */
  function GivenOut(id: nat, n: nat, count: nat): nat {
    if n <= id < n + count then 1 else 0
  }

  lemma EventKeepsIds(link: Link, event: Event, tolerance: real, id: nat)
    requires link.Valid() && tolerance >= 0.0
    ensures var next := Apply(link, event, tolerance);
            && next.nextId == link.nextId + Admissions([event])
            && multiset(ResolvedBy(link, event, tolerance))[id] + Ids(next.pending)[id]
               == Ids(link.pending)[id] + GivenOut(id, link.nextId, Admissions([event]))
  {
    hide Spend, Resolved, Earned, Ids;
    assert [event][1..] == [];
    if Accounts(event) {
      ResolvedExactlyOnce(link.pending, Earned(link, event.at), tolerance);
    }
    if event.Transfer? && event.bytes > 0.0 {
      IdsAppend(Spend(link.pending, Earned(link, event.at), tolerance), Job(link.nextId, event.bytes));
    }
  }

  lemma {:induction false} RunKeepsIds(link: Link, events: seq<Event>, tolerance: real, id: nat)
    requires link.Valid() && tolerance >= 0.0
    ensures multiset(ResolvedOver(link, events, tolerance))[id] + Ids(Run(link, events, tolerance).pending)[id]
         == Ids(link.pending)[id] + GivenOut(id, link.nextId, Admissions(events))
    decreases |events|
  {
    if events != [] {
      var next := Apply(link, events[0], tolerance);
      assert [events[0]][1..] == [];
      assert Admissions(events) == Admissions([events[0]]) + Admissions(events[1..]);
      hide Apply, ResolvedBy, Ids, Admissions;
      EventKeepsIds(link, events[0], tolerance, id);
      RunKeepsIds(next, events[1..], tolerance, id);
      var first, rest := ResolvedBy(link, events[0], tolerance), ResolvedOver(next, events[1..], tolerance);
      assert multiset(first + rest) == multiset(first) + multiset(rest);
    }
  }

  /** Over any run of a new link, each admitted body is resolved once or still pending, never both and
      never twice. */
  lemma EveryTransferResolvesOnce(link: Link, events: seq<Event>, tolerance: real, id: nat)
    requires link.Valid() && tolerance >= 0.0 && link.pending == [] && link.nextId == 0
    ensures multiset(ResolvedOver(link, events, tolerance))[id] + Ids(Run(link, events, tolerance).pending)[id]
         == if id < Admissions(events) then 1 else 0
  {
    RunKeepsIds(link, events, tolerance, id);
    assert Ids(link.pending) == multiset{};
  }

  /** Every accounting of the run left some body pending. */
  predicate AlwaysBusy(link: Link, events: seq<Event>, tolerance: real)
    requires link.Valid() && tolerance >= 0.0
    decreases |events|
  {
    events == [] ||
    (&& (Accounts(events[0]) ==> Advance(link, events[0].at, tolerance).pending != [])
     && AlwaysBusy(Apply(link, events[0], tolerance), events[1..], tolerance))
  }

  /** The time of the last accounting of a run. */
  function LastAt(last: real, events: seq<Event>): real
    decreases |events|
  {
    if events == [] then last else LastAt(if Accounts(events[0]) then events[0].at else last, events[1..])
  }

  lemma {:induction false} RunKeepsLast(link: Link, events: seq<Event>, tolerance: real)
    requires link.Valid() && tolerance >= 0.0
    ensures Run(link, events, tolerance).last == LastAt(link.last, events)
    ensures Monotone(link.last, events) ==> link.last <= LastAt(link.last, events)
    decreases |events|
  {
    if events != [] {
      RunKeepsLast(Apply(link, events[0], tolerance), events[1..], tolerance);
      if link.last <= events[0].at {
        MonotoneWeakens(link.last, events[0].at, events[1..]);
      }
    }
  }

  lemma MonotoneWeakens(earlier: real, last: real, events: seq<Event>)
    requires earlier <= last
    ensures Monotone(last, events) ==> Monotone(earlier, events)
    decreases |events|
  {}

  /** Over any run the bytes delivered never exceed the integral of the rate, and they equal it
      when every accounting left a body pending. */
  lemma {:induction false} DeliveredIsBounded(link: Link, events: seq<Event>, tolerance: real)
    requires link.Valid() && tolerance >= 0.0 && Monotone(link.last, events)
    ensures var earned := Budget(link.steps, link.started, link.last, LastAt(link.last, events));
            && 0.0 <= Delivered(link, events, tolerance) <= earned
            && (AlwaysBusy(link, events, tolerance) ==> Delivered(link, events, tolerance) == earned)
    decreases |events|
  {
    hide Budget, Spend, Spent;
    if events == [] {
      BudgetAdds(link.steps, link.started, link.last, link.last, link.last);
    } else {
      var event := events[0];
      var next := Apply(link, event, tolerance);
      MonotoneWeakens(link.last, event.at, events[1..]);
      DeliveredIsBounded(next, events[1..], tolerance);
      if Accounts(event) {
        RunKeepsLast(next, events[1..], tolerance);
        SpendAccounts(link.pending, Earned(link, event.at), tolerance);
        EarnedIsBudget(link, event.at);
        BudgetAdds(link.steps, link.started, link.last, event.at, LastAt(event.at, events[1..]));
      }
    }
  }

  lemma EarnedIsBudget(link: Link, now: real)
    requires link.Valid()
    ensures Earned(link, now) == Budget(link.steps, link.started, link.last, now)
  {}

  lemma {:induction false} TotalAppend(jobs: seq<Job>, job: Job)
    ensures Total(jobs + [job]) == Total(jobs) + job.remaining
  {
    if jobs == [] {
      assert jobs + [job] == [job];
    } else {
      TotalAppend(jobs[1..], job);
      assert (jobs + [job])[1..] == jobs[1..] + [job];
    }
  }

  lemma EventConservesBytes(link: Link, event: Event, tolerance: real)
    requires link.Valid() && tolerance >= 0.0 && Accounts(event)
    ensures var after := Apply(link, event, tolerance);
            var finished := |link.pending| + Admissions([event]) - |after.pending|;
            && 0 <= finished
            && 0.0 <= Total(link.pending) + Admitted([event]) - Spent(link.pending, Earned(link, event.at), tolerance)
                      - Total(after.pending)
                   <= Times(tolerance, finished)
  {
    hide Times, Budget, Spend, Spent, Total;
    var budget := Earned(link, event.at);
    SpendAccounts(link.pending, budget, tolerance);
    if event.Transfer? {
      TotalAppend(Spend(link.pending, budget, tolerance), Job(link.nextId, event.bytes));
    }
  }

  /** Conservation over any run: what was admitted is delivered or still pending, except for the
      tolerance that each finished body may have left. */
  lemma {:induction false} RunConservesBytes(link: Link, events: seq<Event>, tolerance: real)
    requires link.Valid() && tolerance >= 0.0
    ensures var after := Run(link, events, tolerance);
            var finished := |link.pending| + Admissions(events) - |after.pending|;
            && 0 <= finished
            && 0.0 <= Total(link.pending) + Admitted(events) - Delivered(link, events, tolerance) - Total(after.pending)
                   <= Times(tolerance, finished)
    decreases |events|
  {
    hide Times, Earned, Advance, Spent, Total;
    TimesLaws(tolerance, tolerance, 0, 0);
    if events != [] {
      var event := events[0];
      var next := Apply(link, event, tolerance);
      RunConservesBytes(next, events[1..], tolerance);
      if Accounts(event) {
        EventConservesBytes(link, event, tolerance);
        var after := Run(link, events, tolerance);
        TimesLaws(tolerance, tolerance, |link.pending| + Admissions([event]) - |next.pending|,
                  |next.pending| + Admissions(events[1..]) - |after.pending|);
      }
    }
  }

  /** With an exact finish nothing is lost: admitted = delivered + pending. */
  lemma ExactRunsLoseNothing(link: Link, events: seq<Event>)
    requires link.Valid()
    ensures Total(link.pending) + Admitted(events)
         == Delivered(link, events, 0.0) + Total(Run(link, events, 0.0).pending)
    decreases |events|
  {
    hide Run, Delivered, Admitted, Total, Times;
    RunConservesBytes(link, events, 0.0);
    TimesIsProduct(0.0, |link.pending| + Admissions(events) - |Run(link, events, 0.0).pending|);
  }

  /** What the link earns over the stretches that end in an accounting and begin with a body pending. */
  function BusyEarned(link: Link, events: seq<Event>, tolerance: real): real
    requires link.Valid() && tolerance >= 0.0
    decreases |events|
  {
    if events == [] then 0.0
    else
      (if Accounts(events[0]) && link.pending != [] then Budget(link.steps, link.started, link.last, events[0].at) else 0.0)
      + BusyEarned(Apply(link, events[0], tolerance), events[1..], tolerance)
  }

  /** No accounting finished the last body. */
  predicate NeverRunsDry(link: Link, events: seq<Event>, tolerance: real)
    requires link.Valid() && tolerance >= 0.0
    decreases |events|
  {
    events == [] ||
    (&& (Accounts(events[0]) && link.pending != [] ==> Advance(link, events[0].at, tolerance).pending != [])
     && NeverRunsDry(Apply(link, events[0], tolerance), events[1..], tolerance))
  }

  lemma NothingPendingSpendsNothing(budget: real, tolerance: real)
    requires tolerance >= 0.0
    ensures Spent([], budget, tolerance) == 0.0
  {
  }

  /** Only busy time delivers: over any run the bytes delivered are at most what the rate earns over
      the busy stretches, and exactly that unless an accounting finished the last body. */
  lemma {:induction false} OnlyBusyTimeDelivers(link: Link, events: seq<Event>, tolerance: real)
    requires link.Valid() && tolerance >= 0.0 && Monotone(link.last, events)
    ensures 0.0 <= Delivered(link, events, tolerance) <= BusyEarned(link, events, tolerance)
    ensures BusyEarned(link, events, tolerance) <= Budget(link.steps, link.started, link.last, LastAt(link.last, events))
    ensures NeverRunsDry(link, events, tolerance) ==> Delivered(link, events, tolerance) == BusyEarned(link, events, tolerance)
    decreases |events|
  {
    hide Budget, Spend, Spent;
    if events == [] {
      BudgetAdds(link.steps, link.started, link.last, link.last, link.last);
    } else {
      var event := events[0];
      var next := Apply(link, event, tolerance);
      MonotoneWeakens(link.last, event.at, events[1..]);
      OnlyBusyTimeDelivers(next, events[1..], tolerance);
      if Accounts(event) {
        RunKeepsLast(next, events[1..], tolerance);
        NothingPendingSpendsNothing(Earned(link, event.at), tolerance);
        SpendAccounts(link.pending, Earned(link, event.at), tolerance);
        EarnedIsBudget(link, event.at);
        BudgetAdds(link.steps, link.started, link.last, event.at, LastAt(event.at, events[1..]));
      }
    }
  }

  /** Idle time earns no credit: the transfer that ends an idle stretch and everything after it get at
      most what the rate earns from then on, and find the link as if its clock had stood at that time. */
  lemma IdleEarnsNoCredit(link: Link, now: real, bytes: real, events: seq<Event>, tolerance: real)
    requires link.Valid() && tolerance >= 0.0 && link.pending == [] && bytes > 0.0
    requires link.last <= now && Monotone(now, events)
    ensures var run := [Transfer(now, bytes)] + events;
            && Delivered(link, run, tolerance) <= Budget(link.steps, link.started, now, LastAt(now, events))
            && Run(link, run, tolerance) == Run(link.(last := now), run, tolerance)
  {
    var run := [Transfer(now, bytes)] + events;
    assert run[1..] == events;
    var admitted := Apply(link, Transfer(now, bytes), tolerance);
    assert admitted == Apply(link.(last := now), Transfer(now, bytes), tolerance);
    NothingPendingSpendsNothing(Earned(link, now), tolerance);
    DeliveredIsBounded(admitted, events, tolerance);
  }

  /** Tick independence: accounting at t1 and then at t2 is accounting once at t2. */
  lemma TickIndependence(link: Link, t1: real, t2: real)
    requires link.Valid() && link.last <= t1 <= t2
    ensures Advance(Advance(link, t1, 0.0), t2, 0.0) == Advance(link, t2, 0.0)
  {
    hide Budget, Spend;
    BudgetAdds(link.steps, link.started, link.last, t1, t2);
    SpendTwice(link.pending, Earned(link, t1), Earned(Advance(link, t1, 0.0), t2));
  }

  function Transfers(events: seq<Event>): seq<Event>
    decreases |events|
  {
    if events == [] then []
    else (if events[0].Transfer? then [events[0]] else []) + Transfers(events[1..])
  }

  lemma ApplyAfterTick(link: Link, t: real, event: Event)
    requires link.Valid() && link.last <= t <= event.at
    ensures Accounts(event) ==> Apply(Advance(link, t, 0.0), event, 0.0) == Apply(link, event, 0.0)
    ensures !Accounts(event) ==> Apply(Advance(link, t, 0.0), event, 0.0) == Advance(link, t, 0.0)
  {
    if Accounts(event) {
      TickIndependence(link, t, event.at);
    }
  }

  lemma {:induction false} TickFirst(link: Link, t: real, events: seq<Event>, end: real)
    requires link.Valid() && link.last <= t && Monotone(t, events) && LastEventAt(t, events) <= end
    ensures Advance(Run(Advance(link, t, 0.0), events, 0.0), end, 0.0) == Advance(Run(link, events, 0.0), end, 0.0)
    decreases |events|
  {
    if events == [] {
      TickIndependence(link, t, end);
    } else {
      ApplyAfterTick(link, t, events[0]);
      if !Accounts(events[0]) {
        MonotoneWeakens(t, events[0].at, events[1..]);
        TickFirst(link, t, events[1..], end);
      }
    }
  }

  function LastEventAt(last: real, events: seq<Event>): real
    decreases |events|
  {
    if events == [] then last else LastEventAt(events[0].at, events[1..])
  }

  lemma {:induction false} LastEventBounds(last: real, events: seq<Event>)
    requires Monotone(last, events)
    ensures last <= LastEventAt(last, events)
    decreases |events|
  {
    if events != [] {
      LastEventBounds(events[0].at, events[1..]);
    }
  }

  /** The timer is invisible: however many ticks fall between the admissions of a run, the
      bodies pending at its end are those of the run that only admits. */
  lemma {:induction false} TicksAreInvisible(link: Link, events: seq<Event>, end: real)
    requires link.Valid() && Monotone(link.last, events) && LastEventAt(link.last, events) <= end
    ensures Advance(Run(link, events, 0.0), end, 0.0) == Advance(Run(link, Transfers(events), 0.0), end, 0.0)
    decreases |events|
  {
    if events != [] {
      var event, rest := events[0], events[1..];
      var next := Apply(link, event, 0.0);
      if !Accounts(event) {
        MonotoneWeakens(link.last, event.at, rest);
        LastEventWeakens(link.last, event.at, rest);
      }
      TicksAreInvisible(next, rest, end);
      TransfersAreMonotone(event.at, rest);
      if event.Tick? {
        assert Transfers(events) == Transfers(rest);
        TickFirst(link, event.at, Transfers(rest), end);
      } else {
        assert Transfers(events)[0] == event && Transfers(events)[1..] == Transfers(rest);
      }
    }
  }

  lemma {:induction false} TransfersAreMonotone(last: real, events: seq<Event>)
    requires Monotone(last, events)
    ensures Monotone(last, Transfers(events))
    ensures LastEventAt(last, Transfers(events)) <= LastEventAt(last, events)
    decreases |events|
  {
    if events != [] {
      TransfersAreMonotone(events[0].at, events[1..]);
      if events[0].Tick? {
        assert Transfers(events) == Transfers(events[1..]);
        MonotoneWeakens(last, events[0].at, Transfers(events));
        LastEventWeakens(last, events[0].at, Transfers(events));
      } else {
        assert Transfers(events)[0] == events[0] && Transfers(events)[1..] == Transfers(events[1..]);
      }
    }
  }

  lemma LastEventWeakens(earlier: real, last: real, events: seq<Event>)
    requires earlier <= last
    ensures LastEventAt(earlier, events) <= LastEventAt(last, events)
    decreases |events|
  {}
}
