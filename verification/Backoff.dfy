/** Sleep-time backoff between suspend attempts, and the suspend statistics kept with it
    (SystemSuspend::updateSleepTime). */
module Backoff {

  // ----- configuration and state

  /** SleepTimeConfig.  Times are milliseconds; the scale factor, a double in the service, is a real. */
  datatype Config = Config(
    base: nat,
    max: nat,
    scale: real,
    threshold: nat,
    shortThreshold: int,
    failedBackoff: bool,
    shortBackoff: bool)

  /** What one suspend attempt reports: whether the write of "mem" succeeded, and the
      suspend time and overhead in nanoseconds. */
  datatype Outcome = Outcome(success: bool, suspendTime: int, overhead: int)

  datatype SuspendInfo = SuspendInfo(
    attempts: nat,
    failed: nat,
    shortSuspends: nat,
    suspendMillis: int,
    shortSuspendMillis: int,
    overheadMillis: int,
    failedOverheadMillis: int,
    newBackoffs: nat,
    continuedBackoffs: nat,
    sleepMillis: int)

  datatype Sleeper = Sleeper(sleepTime: int, badRun: nat, info: SuspendInfo)

  const NANOS_PER_MILLI := 1000000

  // ----- rounding

  /** std::chrono::round: to nearest, ties to even. */
  function RoundHalfEven(x: real): (r: int)
    ensures -0.5 <= r as real - x <= 0.5
    ensures x - r as real == 0.5 || r as real - x == 0.5 ==> r % 2 == 0
  {
    var f := x.Floor;
    var d := x - f as real;
    if d < 0.5 then f
    else if d > 0.5 then f + 1
    else if f % 2 == 0 then f else f + 1
  }

  lemma RoundOfInteger(n: int)
    ensures RoundHalfEven(n as real) == n
  {
  }

  /** Rounding never crosses an integer. */
  lemma RoundAbove(x: real, n: int)
    requires x >= n as real
    ensures RoundHalfEven(x) >= n
  {
  }

  /** ms is a nearest whole number of milliseconds to ns nanoseconds, the even one of two. */
  predicate NearestMillis(ns: int, ms: int) {
    -500000 <= ns - 1000000 * ms <= 500000 &&
    (ns - 1000000 * ms == 500000 || ns - 1000000 * ms == -500000 ==> ms % 2 == 0)
  }

  function NanosToMillis(ns: int): (ms: int)
    ensures NearestMillis(ns, ms)
  {
    var x := ns as real / NANOS_PER_MILLI as real;
    assert x * 1000000.0 == ns as real;
    RoundHalfEven(x)
  }

  lemma NearestMillisIsUnique(ns: int, a: int, b: int)
    requires NearestMillis(ns, a) && NearestMillis(ns, b)
    ensures a == b
  {
  }

  // ----- one attempt

  function Min(a: int, b: int): int {
    if a <= b then a else b
  }

  predicate ShortSuspend(c: Config, o: Outcome) {
    o.success && o.suspendTime > 0 && o.suspendTime < c.shortThreshold * NANOS_PER_MILLI
  }

  /** An attempt is bad if it failed, or succeeded only briefly, and that kind counts. */
  predicate Bad(c: Config, o: Outcome) {
    (c.failedBackoff && !o.success) || (c.shortBackoff && ShortSuspend(c, o))
  }

  function Times(x: real, y: real): real {
    x * y
  }

  function Rounded(c: Config, t: int): int {
    RoundHalfEven(Times(t as real, c.scale))
  }

  /** One backoff step: scale, round, cap. */
  function Scaled(c: Config, t: int): int {
    Min(Rounded(c, t), c.max)
  }

  function Initial(c: Config): Sleeper {
    Sleeper(c.base, 0, SuspendInfo(0, 0, 0, 0, 0, 0, 0, 0, 0, 0))
  }

  /** The statistics after an attempt that started with sleeper s. */
  function UpdatedInfo(c: Config, s: Sleeper, o: Outcome): SuspendInfo {
    var i := s.info;
    var suspendMillis := NanosToMillis(o.suspendTime);
    var overheadMillis := NanosToMillis(o.overhead);
    var backoff := Bad(c, o) && s.badRun >= c.threshold;
    SuspendInfo(
      i.attempts + 1,
      i.failed + (if o.success then 0 else 1),
      i.shortSuspends + (if ShortSuspend(c, o) then 1 else 0),
      i.suspendMillis + (if o.success then suspendMillis else 0),
      i.shortSuspendMillis + (if ShortSuspend(c, o) then suspendMillis else 0),
      i.overheadMillis + (if o.success then overheadMillis else 0),
      i.failedOverheadMillis + (if o.success then 0 else overheadMillis),
      i.newBackoffs + (if backoff && s.badRun == c.threshold then 1 else 0),
      i.continuedBackoffs + (if backoff && s.badRun != c.threshold then 1 else 0),
      i.sleepMillis + s.sleepTime)
  }

  function Update(c: Config, s: Sleeper, o: Outcome): Sleeper {
    if !Bad(c, o) then
      Sleeper(c.base, 0, UpdatedInfo(c, s, o))
    else
      Sleeper(if s.badRun >= c.threshold then Scaled(c, s.sleepTime) else s.sleepTime,
              s.badRun + 1,
              UpdatedInfo(c, s, o))
  }

  /** The fields updateSleepTime works on, updated in place. */
  class SleepTimer {
    const config: Config
    var info: SuspendInfo
    var sleepTime: int
    var numConsecutiveBadSuspends: nat

    ghost function View(): Sleeper
      reads this
    {
      Sleeper(sleepTime, numConsecutiveBadSuspends, info)
    }

    constructor (config: Config)
      ensures this.config == config && View() == Initial(config)
    {
      this.config := config;
      this.sleepTime := config.base;
      this.numConsecutiveBadSuspends := 0;
      this.info := SuspendInfo(0, 0, 0, 0, 0, 0, 0, 0, 0, 0);
    }

    method UpdateSleepTime(success: bool, suspendTime: int, suspendOverhead: int)
      modifies this
      ensures View() == Update(config, old(View()), Outcome(success, suspendTime, suspendOverhead))
    {
      info := info.(attempts := info.attempts + 1);
      info := info.(sleepMillis := info.sleepMillis + sleepTime);

      var shortSuspend := success && suspendTime > 0 &&
                          suspendTime < config.shortThreshold * NANOS_PER_MILLI;
      var badSuspend := (config.failedBackoff && !success) || (config.shortBackoff && shortSuspend);
      var suspendMillis := NanosToMillis(suspendTime);
      var overheadMillis := NanosToMillis(suspendOverhead);

      if success {
        info := info.(overheadMillis := info.overheadMillis + overheadMillis);
        info := info.(suspendMillis := info.suspendMillis + suspendMillis);
      } else {
        info := info.(failed := info.failed + 1);
        info := info.(failedOverheadMillis := info.failedOverheadMillis + overheadMillis);
      }

      if shortSuspend {
        info := info.(shortSuspends := info.shortSuspends + 1);
        info := info.(shortSuspendMillis := info.shortSuspendMillis + suspendMillis);
      }

      if !badSuspend {
        numConsecutiveBadSuspends := 0;
        sleepTime := config.base;
        return;
      }

      if numConsecutiveBadSuspends >= config.threshold {
        if numConsecutiveBadSuspends == config.threshold {
          info := info.(newBackoffs := info.newBackoffs + 1);
        } else {
          info := info.(continuedBackoffs := info.continuedBackoffs + 1);
        }
        sleepTime := Min(Rounded(config, sleepTime), config.max);
      }
      numConsecutiveBadSuspends := numConsecutiveBadSuspends + 1;
    }
  }

  // ----- histories

  /** The state after a whole history of attempts. */
  function Replay(c: Config, h: seq<Outcome>): Sleeper {
    if h == [] then Initial(c)
    else Update(c, Replay(c, h[..|h| - 1]), h[|h| - 1])
  }

  /** Which attempts of a history were bad. */
  function Flags(c: Config, h: seq<Outcome>): seq<bool> {
    seq(|h|, i requires 0 <= i < |h| => Bad(c, h[i]))
  }

  function TrailingTrue(b: seq<bool>): (n: nat)
    ensures n <= |b|
    ensures forall i :: |b| - n <= i < |b| ==> b[i]
    ensures n < |b| ==> !b[|b| - 1 - n]
  {
    if b == [] || !b[|b| - 1] then 0 else 1 + TrailingTrue(b[..|b| - 1])
  }

  /** The number n of the design comment: bad attempts since the last good one. */
  function BadSuffix(c: Config, h: seq<Outcome>): nat {
    TrailingTrue(Flags(c, h))
  }

  lemma FlagsOfLast(c: Config, h: seq<Outcome>)
    requires h != []
    ensures Flags(c, h)[..|h| - 1] == Flags(c, h[..|h| - 1])
    ensures Flags(c, h)[|h| - 1] == Bad(c, h[|h| - 1])
    ensures Flags(c, h) == Flags(c, h[..|h| - 1]) + [Bad(c, h[|h| - 1])]
  {
  }

  /** The sleep time after k backoff steps. */
  function Iterated(c: Config, k: nat): int {
    if k == 0 then c.base else Scaled(c, Iterated(c, k - 1))
  }

  /** Backoff steps taken in a run of n bad attempts. */
  function Steps(c: Config, n: nat): nat {
    if n <= c.threshold then 0 else n - c.threshold
  }

  lemma {:induction false} ReplayIsIterated(c: Config, h: seq<Outcome>)
    ensures Replay(c, h).badRun == BadSuffix(c, h)
    ensures Replay(c, h).sleepTime == Iterated(c, Steps(c, BadSuffix(c, h)))
  {
    if h != [] {
      FlagsOfLast(c, h);
      ReplayIsIterated(c, h[..|h| - 1]);
    }
  }

  // ----- the closed formula

  function Pow(s: real, k: nat): real {
    if k == 0 then 1.0 else Times(s, Pow(s, k - 1))
  }

  function RealMin(x: real, y: real): real {
    if x <= y then x else y
  }

  /** The formula of the design comment: B for n <= N, min(B * S^(n-N), M) above. */
  function ClosedForm(c: Config, n: nat): real {
    if n <= c.threshold then c.base as real
    else RealMin(Times(c.base as real, Pow(c.scale, n - c.threshold)), c.max as real)
  }

  predicate Integral(x: real) {
    x == x.Floor as real
  }

  lemma {:induction false} PowAtLeastOne(s: real, k: nat)
    requires s >= 1.0
    ensures Pow(s, k) >= 1.0
  {
    if k > 0 { PowAtLeastOne(s, k - 1); MulMonotone(1.0, s, 1.0, Pow(s, k - 1)); }
  }

  lemma MulMonotone(a: real, b: real, x: real, y: real)
    requires 0.0 <= a <= b && 0.0 <= x <= y
    ensures 0.0 <= a * x <= b * y
  {
    assert a * x <= b * x;
    assert b * x <= b * y;
  }

  lemma ScaleGrows(s: real, x: real)
    requires s >= 1.0 && x >= 0.0
    ensures Times(x, s) >= x
  {
    assert x * (s - 1.0) >= 0.0;
  }

  lemma TimesAssociates(b: real, s: real, p: real)
    ensures Times(b, Times(s, p)) == Times(Times(b, p), s)
  {
  }

  /** The formula as a capped recurrence. */
  function CappedPower(c: Config, k: nat): real {
    if k == 0 then c.base as real
    else RealMin(Times(CappedPower(c, k - 1), c.scale), c.max as real)
  }

  lemma CapCommutes(b: real, p: real, s: real, m: real, f: real)
    requires s >= 1.0 && m >= 0.0 && b >= 0.0 && p >= 1.0 && f == RealMin(Times(b, p), m)
    ensures RealMin(Times(f, s), m) == RealMin(Times(b, Times(s, p)), m)
  {
    var x := Times(b, p);
    MulMonotone(0.0, b, 0.0, p);
    TimesAssociates(b, s, p);
    if x > m {
      ScaleGrows(s, m);
      ScaleGrows(s, x);
    }
  }

  lemma {:induction false} CappedPowerIsMin(c: Config, k: nat)
    requires c.scale >= 1.0 && k >= 1
    ensures CappedPower(c, k) == RealMin(Times(c.base as real, Pow(c.scale, k)), c.max as real)
  {
    if k == 1 {
      assert Pow(c.scale, 0) == 1.0;
      assert Pow(c.scale, 1) == c.scale;
      assert CappedPower(c, 0) == c.base as real;
    } else {
      CappedPowerIsMin(c, k - 1);
      PowAtLeastOne(c.scale, k - 1);
      CapCommutes(c.base as real, Pow(c.scale, k - 1), c.scale, c.max as real, CappedPower(c, k - 1));
    }
  }

  lemma ClosedFormIsCappedPower(c: Config, n: nat)
    requires c.scale >= 1.0
    ensures ClosedForm(c, n) == CappedPower(c, Steps(c, n))
  {
    if n > c.threshold { CappedPowerIsMin(c, n - c.threshold); }
  }

  /** Capping a rounded product equals capping the product, when the latter is whole. */
  lemma CapOfRound(x: real, m: int)
    requires Integral(RealMin(x, m as real))
    ensures Min(RoundHalfEven(x), m) as real == RealMin(x, m as real)
  {
    if x <= m as real { RoundOfInteger(x.Floor); } else { RoundAbove(x, m); }
  }

  lemma {:induction false} IteratedWhileIntegral(c: Config, k: nat)
    requires forall j :: 0 <= j <= k ==> Integral(CappedPower(c, j))
    ensures Iterated(c, k) as real == CappedPower(c, k)
  {
    if k > 0 {
      IteratedWhileIntegral(c, k - 1);
      assert Integral(CappedPower(c, k));
      CapOfRound(Times(CappedPower(c, k - 1), c.scale), c.max);
    }
  }

  /** Along a run of n bad attempts code and formula agree iff every value of the formula on that run is
      a whole number of milliseconds. */
  lemma RunExactIff(c: Config, n: nat)
    requires c.scale >= 1.0
    ensures (forall m :: 0 <= m <= n ==> Iterated(c, Steps(c, m)) as real == ClosedForm(c, m))
       <==> (forall m :: 0 <= m <= n ==> Integral(ClosedForm(c, m)))
  {
    if forall m :: 0 <= m <= n ==> Integral(ClosedForm(c, m)) {
      forall m | 0 <= m <= n
        ensures Iterated(c, Steps(c, m)) as real == ClosedForm(c, m)
      {
        FormulaWhileIntegral(c, m);
      }
    }
    if forall m :: 0 <= m <= n ==> Iterated(c, Steps(c, m)) as real == ClosedForm(c, m) {
      forall m | 0 <= m <= n
        ensures Integral(ClosedForm(c, m))
      {
        assert ClosedForm(c, m) == Iterated(c, Steps(c, m)) as real;
      }
    }
  }

  lemma FormulaWhileIntegral(c: Config, n: nat)
    requires c.scale >= 1.0
    requires forall m :: 0 <= m <= n ==> Integral(ClosedForm(c, m))
    ensures Iterated(c, Steps(c, n)) as real == ClosedForm(c, n)
  {
    forall j | 0 <= j <= Steps(c, n)
      ensures Integral(CappedPower(c, j))
    {
      if j > 0 {
        assert Steps(c, c.threshold + j) == j;
        ClosedFormIsCappedPower(c, c.threshold + j);
        assert Integral(ClosedForm(c, c.threshold + j));
      }
    }
    IteratedWhileIntegral(c, Steps(c, n));
    ClosedFormIsCappedPower(c, n);
  }

  /** Dropping the last attempt of a bad suffix shortens it by one. */
  lemma ShorterSuffix(c: Config, h: seq<Outcome>)
    requires BadSuffix(c, h) > 0
    ensures h != [] && BadSuffix(c, h[..|h| - 1]) == BadSuffix(c, h) - 1
  {
    FlagsOfLast(c, h);
  }

  /** Every shorter bad suffix was that of an earlier moment. */
  lemma {:induction false} EarlierSuffix(c: Config, h: seq<Outcome>, m: nat) returns (i: nat)
    requires m <= BadSuffix(c, h)
    ensures i <= |h| && BadSuffix(c, h[..i]) == m
  {
    i := |h|;
    assert h[..|h|] == h;
    if m < BadSuffix(c, h) {
      ShorterSuffix(c, h);
      i := EarlierSuffix(c, h[..|h| - 1], m);
      assert h[..|h| - 1][..i] == h[..i];
    }
  }

  predicate MeetsFormula(c: Config, h: seq<Outcome>) {
    Replay(c, h).sleepTime as real == ClosedForm(c, BadSuffix(c, h))
  }

  predicate WholeMillis(c: Config, h: seq<Outcome>) {
    Integral(ClosedForm(c, BadSuffix(c, h)))
  }

  /** Exactly when the code meets the commented formula: throughout a history of attempts the two agree
      if and only if every value of the formula on the way is a whole number of milliseconds. */
  lemma FormulaExactIff(c: Config, h: seq<Outcome>)
    requires c.scale >= 1.0
    ensures (forall i :: 0 <= i <= |h| ==> MeetsFormula(c, h[..i]))
       <==> (forall i :: 0 <= i <= |h| ==> WholeMillis(c, h[..i]))
  {
    if forall i :: 0 <= i <= |h| ==> WholeMillis(c, h[..i]) {
      forall i | 0 <= i <= |h| ensures MeetsFormula(c, h[..i]) {
        MeetsWhileWhole(c, h, i);
      }
    }
    forall i | 0 <= i <= |h| && MeetsFormula(c, h[..i]) ensures WholeMillis(c, h[..i]) {
      assert ClosedForm(c, BadSuffix(c, h[..i])) == Replay(c, h[..i]).sleepTime as real;
    }
  }

  lemma MeetsWhileWhole(c: Config, h: seq<Outcome>, i: nat)
    requires c.scale >= 1.0 && i <= |h| && forall j :: 0 <= j <= |h| ==> WholeMillis(c, h[..j])
    ensures MeetsFormula(c, h[..i])
  {
    var n := BadSuffix(c, h[..i]);
    forall m | 0 <= m <= n ensures Integral(ClosedForm(c, m)) {
      var j := EarlierSuffix(c, h[..i], m);
      assert h[..i][..j] == h[..j];
      assert WholeMillis(c, h[..j]);
    }
    FormulaWhileIntegral(c, n);
    ReplayIsIterated(c, h[..i]);
  }

  /** A configuration and a history where the code departs from the comment. */
  lemma FormulaFailsOffIntegers()
    ensures var c := Config(1, 100, 1.5, 0, 0, true, true);
            var h := [Outcome(false, 0, 0), Outcome(false, 0, 0)];
            Replay(c, h).sleepTime == 3 && ClosedForm(c, BadSuffix(c, h)) == 2.25
  {
    var c := Config(1, 100, 1.5, 0, 0, true, true);
    var h := [Outcome(false, 0, 0), Outcome(false, 0, 0)];
    ReplayIsIterated(c, h);
    assert Flags(c, h) == [true, true];
    assert TrailingTrue([true, true]) == 2;
    assert Iterated(c, 0) == 1;
    assert Iterated(c, 1) == 2;
    assert Iterated(c, 2) == 3;
    assert Pow(1.5, 0) == 1.0;
    assert Pow(1.5, 1) == 1.5;
    assert Pow(1.5, 2) == 2.25;
  }

  lemma {:induction false} PowOfInteger(s: nat, k: nat) returns (p: nat)
    ensures Pow(s as real, k) == p as real
  {
    if k == 0 {
      p := 1;
    } else {
      var q := PowOfInteger(s, k - 1);
      p := s * q;
      assert (s * q) as real == s as real * q as real;
    }
  }

  lemma IntegralProduct(a: int, b: int, m: int)
    ensures Integral(RealMin(Times(a as real, b as real), m as real))
  {
    assert (a * b) as real == a as real * b as real;
  }

  lemma WholeFormula(c: Config, s: nat, n: nat)
    requires c.scale == s as real
    ensures Integral(ClosedForm(c, n))
  {
    if n > c.threshold {
      var p := PowOfInteger(s, n - c.threshold);
      IntegralProduct(c.base, p, c.max);
    }
  }

  /** For a whole scale factor the commented formula is exact after every history. */
  lemma ExactBackoff(c: Config, s: nat, h: seq<Outcome>)
    requires s >= 1 && c.scale == s as real
    ensures Replay(c, h).sleepTime as real == ClosedForm(c, BadSuffix(c, h))
  {
    var n := BadSuffix(c, h);
    ReplayIsIterated(c, h);
    forall m | 0 <= m <= n
      ensures Integral(ClosedForm(c, m))
    {
      WholeFormula(c, s, m);
    }
    FormulaWhileIntegral(c, n);
  }

  // ----- how far rounding can drift

  function Abs(x: real): real {
    if x >= 0.0 then x else -x
  }

  lemma AbsScale(s: real, x: real, y: real)
    requires s >= 0.0
    ensures Abs(Times(x, s) - Times(y, s)) == Times(Abs(x - y), s)
  {
    if x >= y { OrderedDifference(s, x, y); } else { OrderedDifference(s, y, x); }
  }

  lemma OrderedDifference(s: real, x: real, y: real)
    requires s >= 0.0 && x >= y
    ensures x * s - y * s == (x - y) * s >= 0.0
  {
    MulMonotone(0.0, x - y, 0.0, s);
  }

  lemma MinIsNonExpanding(a: int, x: real, m: int)
    ensures Abs(Min(a, m) as real - RealMin(x, m as real)) <= Abs(a as real - x)
  {
  }

  lemma DivideBound(x: real, d: real, y: real)
    requires d > 0.0 && Times(d, x) <= y
    ensures x <= y / d
  {
    assert x == (d * x) / d;
  }

  lemma DriftArithmetic(d: real, s: real, e: real, e': real, p: real)
    requires s > 1.0 && d == 2.0 * (s - 1.0) && Times(d, e) <= p - 1.0 && e' <= 0.5 + Times(e, s)
    ensures Times(d, e') <= Times(s, p) - 1.0
  {
    calc {
      d * e';
    <=
      d * (0.5 + e * s);
    ==
      0.5 * d + (d * e) * s;
    <=  { assert (d * e) * s <= (p - 1.0) * s; }
      0.5 * d + (p - 1.0) * s;
    ==
      s * p - 1.0;
    }
  }

  /** Rounding and capping move the error from e to at most 1/2 + e * S. */
  lemma ErrorStep(s: real, t: int, f: real, m: int)
    requires s >= 0.0
    ensures Abs(Min(RoundHalfEven(Times(t as real, s)), m) as real - RealMin(Times(f, s), m as real))
            <= 0.5 + Times(Abs(t as real - f), s)
  {
    AbsScale(s, t as real, f);
    ErrorOfRound(Times(t as real, s), Times(f, s), m);
  }

  lemma ErrorOfRound(x: real, y: real, m: int)
    ensures Abs(Min(RoundHalfEven(x), m) as real - RealMin(y, m as real)) <= 0.5 + Abs(x - y)
  {
    MinIsNonExpanding(RoundHalfEven(x), y, m);
  }

  lemma {:induction false} IteratedDrift(c: Config, k: nat, d: real)
    requires c.scale > 1.0 && d == 2.0 * (c.scale - 1.0)
    ensures Times(d, Abs(Iterated(c, k) as real - CappedPower(c, k))) <= Pow(c.scale, k) - 1.0
  {
    if k > 0 {
      IteratedDrift(c, k - 1, d);
      var t, f := Iterated(c, k - 1), CappedPower(c, k - 1);
      ErrorStep(c.scale, t, f, c.max);
      DriftArithmetic(d, c.scale, Abs(t as real - f),
                      Abs(Iterated(c, k) as real - CappedPower(c, k)), Pow(c.scale, k - 1));
    }
  }

  /** After any history, capped or not, the sleep time is within (S^k - 1) / (2 (S - 1)) of the formula. */
  lemma RoundingDrift(c: Config, h: seq<Outcome>)
    requires c.scale > 1.0
    ensures var n := BadSuffix(c, h);
            Abs(Replay(c, h).sleepTime as real - ClosedForm(c, n))
            <= (Pow(c.scale, Steps(c, n)) - 1.0) / (2.0 * (c.scale - 1.0))
  {
    ReplayIsIterated(c, h);
    var n := BadSuffix(c, h);
    var d := 2.0 * (c.scale - 1.0);
    ClosedFormIsCappedPower(c, n);
    IteratedDrift(c, Steps(c, n), d);
    DivideBound(Abs(Iterated(c, Steps(c, n)) as real - CappedPower(c, Steps(c, n))),
                d, Pow(c.scale, Steps(c, n)) - 1.0);
  }

  // ----- growth to the cap

  lemma RoundedGrows(c: Config, t: nat)
    requires c.scale >= 1.0
    ensures Rounded(c, t) >= t
  {
    ScaleGrows(c.scale, t as real);
    RoundAbove(t as real * c.scale, t);
  }

  lemma {:induction false} IteratedInRange(c: Config, k: nat)
    requires c.scale >= 1.0 && c.base <= c.max
    ensures c.base <= Iterated(c, k) <= Iterated(c, k + 1) <= c.max
  {
    if k > 0 { IteratedInRange(c, k - 1); }
    RoundedGrows(c, Iterated(c, k));
  }

  /** With B <= M and S >= 1 the sleep time stays in [B, M] after every history and never shrinks
      on a bad attempt. */
  lemma SleepTimeInRange(c: Config, h: seq<Outcome>, o: Outcome)
    requires c.scale >= 1.0 && c.base <= c.max
    ensures c.base <= Replay(c, h).sleepTime <= c.max
    ensures Bad(c, o) ==> Replay(c, h).sleepTime <= Update(c, Replay(c, h), o).sleepTime
  {
    ReplayIsIterated(c, h);
    IteratedInRange(c, Steps(c, BadSuffix(c, h)));
  }

  lemma {:induction false} IteratedStuck(c: Config, k: nat)
    requires c.base <= c.max && Rounded(c, c.base) == c.base
    ensures Iterated(c, k) == c.base
  {
    if k > 0 { IteratedStuck(c, k - 1); }
  }

  lemma ProductGap(b: real, t: real, s: real)
    requires t > b >= 0.0 && Times(b, s) >= b + 0.5
    ensures Times(t, s) > t + 0.5
  {
    var g := s - 1.0;
    assert b * g >= 0.5;
    assert g > 0.0;
    assert (t - b) * g > 0.0;
    assert t * s == t + b * g + (t - b) * g;
  }

  lemma RoundStrictlyAbove(t: int, x: real)
    requires x > t as real + 0.5
    ensures RoundHalfEven(x) >= t + 1
  {
  }

  /** If the base grows in one step, everything above it grows too. */
  lemma StrictGrowth(c: Config, t: int)
    requires t > c.base && Rounded(c, c.base) > c.base
    ensures Rounded(c, t) >= t + 1
  {
    var s := c.scale;
    ProductGap(c.base as real, t as real, s);
    RoundStrictlyAbove(t, Times(t as real, s));
  }

  lemma {:induction false} IteratedClimbs(c: Config, k: nat)
    requires c.scale >= 1.0 && c.base <= c.max && Rounded(c, c.base) > c.base
    ensures Iterated(c, k) >= Min(c.base + k, c.max)
  {
    if k > 0 {
      IteratedClimbs(c, k - 1);
      IteratedInRange(c, k - 1);
      var t := Iterated(c, k - 1);
      if t > c.base { StrictGrowth(c, t); }
    }
  }

  /** The base is the cap, or one step already grows it. */
  predicate Climbs(c: Config) {
    c.base == c.max || Rounded(c, c.base) > c.base
  }

  lemma StaysAtCap(c: Config, k: nat)
    requires c.scale >= 1.0 && c.base <= c.max && Climbs(c) && k >= c.max - c.base
    ensures Iterated(c, k) == c.max
  {
    IteratedInRange(c, k);
    if c.base != c.max { IteratedClimbs(c, k); }
  }

  lemma NeverAtCap(c: Config, k: nat)
    requires c.scale >= 1.0 && c.base <= c.max && !Climbs(c)
    ensures Iterated(c, k) != c.max
  {
    RoundedGrows(c, c.base);
    IteratedStuck(c, k);
  }

  /** Repeated steps reach the cap at all iff the base already grows in one step (or is the cap), and
      then M - B steps are enough and it stays there. */
  lemma StepsReachCapIff(c: Config)
    requires c.scale >= 1.0 && c.base <= c.max
    ensures (exists k: nat :: Iterated(c, k) == c.max) <==> Climbs(c)
    ensures Climbs(c) ==> forall k: nat :: k >= c.max - c.base ==> Iterated(c, k) == c.max
  {
    forall k: nat
      ensures Climbs(c) && k >= c.max - c.base ==> Iterated(c, k) == c.max
      ensures !Climbs(c) ==> Iterated(c, k) != c.max
    {
      if !Climbs(c) { NeverAtCap(c, k); } else if k >= c.max - c.base { StaysAtCap(c, k); }
    }
    if Climbs(c) { assert Iterated(c, c.max - c.base) == c.max; }
  }

  /** Without growth in the first step the sleep time is the base, below the cap, for good. */
  lemma StaysBelowCap(c: Config, h: seq<Outcome>)
    requires c.scale >= 1.0 && c.base <= c.max && !Climbs(c)
    ensures Replay(c, h).sleepTime == c.base < c.max
  {
    RoundedGrows(c, c.base);
    ReplayIsIterated(c, h);
    IteratedStuck(c, Steps(c, BadSuffix(c, h)));
  }

  /** Some outcome counts as bad. */
  predicate CanBackOff(c: Config) {
    c.failedBackoff || (c.shortBackoff && c.shortThreshold > 0)
  }

  lemma BadOutcome(c: Config) returns (o: Outcome)
    ensures Bad(c, o) <==> CanBackOff(c)
  {
    o := if c.failedBackoff then Outcome(false, 0, 0) else Outcome(true, 1, 0);
  }

  lemma NeverBad(c: Config, o: Outcome)
    requires !CanBackOff(c)
    ensures !Bad(c, o)
  {
  }

  /** n bad attempts in a row, from the start. */
  lemma BadHistory(c: Config, n: nat) returns (h: seq<Outcome>)
    requires CanBackOff(c)
    ensures BadSuffix(c, h) == n
  {
    var o := BadOutcome(c);
    h := seq(n, _ => o);
    assert forall i :: 0 <= i < n ==> Flags(c, h)[i];
  }

  /** After N + (M - B) bad attempts in a row, or more, a backoff that climbs is at the cap. */
  lemma AtCapAfter(c: Config, h: seq<Outcome>)
    requires c.scale >= 1.0 && c.base <= c.max && Climbs(c)
    requires BadSuffix(c, h) >= c.threshold + (c.max - c.base)
    ensures Replay(c, h).sleepTime == c.max
  {
    StaysAtCap(c, Steps(c, BadSuffix(c, h)));
    ReplayIsIterated(c, h);
  }

  lemma OnlyIfClimbs(c: Config, h: seq<Outcome>)
    requires c.scale >= 1.0 && c.base <= c.max && Replay(c, h).sleepTime == c.max
    ensures c.base == c.max || (CanBackOff(c) && Rounded(c, c.base) > c.base)
  {
    if !Climbs(c) { StaysBelowCap(c, h); }
    if !CanBackOff(c) {
      if h != [] { NeverBad(c, h[|h| - 1]); }
    }
  }

  /** Some history brings the sleep time to the cap iff the base is the cap, or an attempt can be bad and
      the base already grows in one step; and then any history does that ends in N + (M - B) bad
      attempts or more. */
  lemma ReachesCapIff(c: Config)
    requires c.scale >= 1.0 && c.base <= c.max
    ensures (exists h: seq<Outcome> :: Replay(c, h).sleepTime == c.max) <==>
            c.base == c.max || (CanBackOff(c) && Rounded(c, c.base) > c.base)
    ensures Climbs(c) ==> forall h: seq<Outcome> ::
              BadSuffix(c, h) >= c.threshold + (c.max - c.base) ==> Replay(c, h).sleepTime == c.max
  {
    forall h: seq<Outcome> | Replay(c, h).sleepTime == c.max
      ensures c.base == c.max || (CanBackOff(c) && Rounded(c, c.base) > c.base)
    {
      OnlyIfClimbs(c, h);
    }
    if c.base == c.max {
      assert Replay(c, []).sleepTime == c.max;
    } else if CanBackOff(c) && Rounded(c, c.base) > c.base {
      var h := BadHistory(c, c.threshold + (c.max - c.base));
      AtCapAfter(c, h);
    }
    if Climbs(c) {
      forall h: seq<Outcome> | BadSuffix(c, h) >= c.threshold + (c.max - c.base)
        ensures Replay(c, h).sleepTime == c.max
      {
        AtCapAfter(c, h);
      }
    }
  }

  /** A configuration with B < M and S > 1 whose backoff never leaves the base: all attempts fail,
      however many, and the sleep time stays 1 ms of at most 100. */
  lemma CapOutOfReach(h: seq<Outcome>)
    requires forall i :: 0 <= i < |h| ==> !h[i].success
    ensures var c := Config(1, 100, 1.4, 0, 0, true, true);
            BadSuffix(c, h) == |h| && Replay(c, h).sleepTime == 1
  {
    var c := Config(1, 100, 1.4, 0, 0, true, true);
    assert forall i :: 0 <= i < |h| ==> Flags(c, h)[i];
    assert Times(1.0, 1.4) == 1.4;
    StaysBelowCap(c, h);
  }

  lemma HalfStepGrows(b: int, s: real)
    requires b as real * (s - 1.0) > 0.5
    ensures RoundHalfEven(Times(b as real, s)) > b
  {
    assert b as real * (s - 1.0) == b as real * s - b as real;
    RoundStrictlyAbove(b, b as real * s);
  }

  /** B (S - 1) > 1/2 is enough: after any history ending in N + (M - B) bad attempts or more, the
      sleep time is the cap. */
  lemma HalfStepIsEnough(c: Config, h: seq<Outcome>)
    requires c.scale >= 1.0 && c.base <= c.max
    requires c.base as real * (c.scale - 1.0) > 0.5
    requires BadSuffix(c, h) >= c.threshold + (c.max - c.base)
    ensures Replay(c, h).sleepTime == c.max
  {
    HalfStepGrows(c.base, c.scale);
    AtCapAfter(c, h);
  }

  // ----- statistics over whole histories

  /** The lengths of the maximal runs of true, oldest first: a true extends the run before it,
      or opens a run of its own. */
  function Runs(b: seq<bool>): (r: seq<nat>)
    ensures b != [] && b[|b| - 1] ==> r != [] && r[|r| - 1] == TrailingTrue(b)
  {
    if b == [] then []
    else
      var p := b[..|b| - 1];
      if !b[|b| - 1] then Runs(p)
      else if p != [] && p[|p| - 1] then Runs(p)[..|Runs(p)| - 1] + [Runs(p)[|Runs(p)| - 1] + 1]
      else Runs(p) + [1]
  }

  function LongerThan(runs: seq<nat>, n: nat): nat {
    if runs == [] then 0
    else LongerThan(runs[..|runs| - 1], n) + (if runs[|runs| - 1] > n then 1 else 0)
  }

  function Excess(runs: seq<nat>, n: nat): nat {
    if runs == [] then 0
    else Excess(runs[..|runs| - 1], n) +
         (if runs[|runs| - 1] > n + 1 then runs[|runs| - 1] - n - 1 else 0)
  }

  lemma AppendRun(runs: seq<nat>, k: nat, n: nat)
    ensures LongerThan(runs + [k], n) == LongerThan(runs, n) + (if k > n then 1 else 0)
    ensures Excess(runs + [k], n) == Excess(runs, n) + (if k > n + 1 then k - n - 1 else 0)
  {
    assert (runs + [k])[..|runs|] == runs;
  }

  /** What one more true adds to the two sums over runs. */
  lemma RunCounts(b: seq<bool>, n: nat)
    ensures var k := TrailingTrue(b);
            LongerThan(Runs(b + [true]), n) == LongerThan(Runs(b), n) + (if k == n then 1 else 0)
            && Excess(Runs(b + [true]), n) == Excess(Runs(b), n) + (if k > n then 1 else 0)
  {
    var r := Runs(b);
    assert (b + [true])[..|b|] == b;
    if b != [] && b[|b| - 1] {
      var q, k := r[..|r| - 1], r[|r| - 1];
      assert r == q + [k];
      AppendRun(q, k, n);
      AppendRun(q, k + 1, n);
    } else {
      AppendRun(r, 1, n);
    }
  }

  /** newBackoffCount counts the bad runs longer than N; backoffContinueCount sums what each has
      beyond N + 1. */
  lemma {:induction false} BackoffCounts(c: Config, h: seq<Outcome>)
    ensures Replay(c, h).info.newBackoffs == LongerThan(Runs(Flags(c, h)), c.threshold)
    ensures Replay(c, h).info.continuedBackoffs == Excess(Runs(Flags(c, h)), c.threshold)
  {
    if h != [] {
      var p := h[..|h| - 1];
      var b := Flags(c, p);
      BackoffCounts(c, p);
      ReplayIsIterated(c, p);
      FlagsOfLast(c, h);
      assert Flags(c, h)[..|h| - 1] == b;
      if Bad(c, h[|h| - 1]) {
        RunCounts(b, c.threshold);
      }
    }
  }

  // Which attempts of a history succeeded, failed, and were short suspends.

  function Successes(h: seq<Outcome>): seq<bool> {
    seq(|h|, i requires 0 <= i < |h| => h[i].success)
  }

  function Failures(h: seq<Outcome>): seq<bool> {
    seq(|h|, i requires 0 <= i < |h| => !h[i].success)
  }

  function Shorts(c: Config, h: seq<Outcome>): seq<bool> {
    seq(|h|, i requires 0 <= i < |h| => h[i].success && 0 < h[i].suspendTime < 1000000 * c.shortThreshold)
  }

  function Count(keep: seq<bool>): nat {
    if keep == [] then 0 else Count(keep[..|keep| - 1]) + (if keep[|keep| - 1] then 1 else 0)
  }

  /** The sum of the numbers kept. */
  function Total(xs: seq<int>, keep: seq<bool>): int
    requires |xs| == |keep|
  {
    var n := |xs| - 1;
    if xs == [] then 0 else Total(xs[..n], keep[..n]) + (if keep[n] then xs[n] else 0)
  }

  lemma KindsOfLast(c: Config, h: seq<Outcome>)
    requires h != []
    ensures var p, n := h[..|h| - 1], |h| - 1;
            Successes(h)[..n] == Successes(p) && Failures(h)[..n] == Failures(p) && Shorts(c, h)[..n] == Shorts(c, p)
  {
  }

  /** Attempts are counted one each; failures, successes and short suspends are the attempts that failed,
      succeeded, and succeeded for less than the threshold. */
  lemma {:induction false} AttemptsSplit(c: Config, h: seq<Outcome>)
    ensures Replay(c, h).info.attempts == |h|
    ensures Replay(c, h).info.failed == Count(Failures(h))
    ensures Replay(c, h).info.failed + Count(Successes(h)) == |h|
    ensures Replay(c, h).info.shortSuspends == Count(Shorts(c, h)) <= Count(Successes(h))
  {
    if h != [] {
      KindsOfLast(c, h);
      AttemptsSplit(c, h[..|h| - 1]);
    }
  }

  lemma TotalMore(xs: seq<int>, keep: seq<bool>, x: int)
    requires |keep| == |xs| + 1
    ensures Total(xs + [x], keep) == Total(xs, keep[..|xs|]) + (if keep[|xs|] then x else 0)
  {
    assert (xs + [x])[..|xs|] == xs;
  }

  lemma TotalsMore(c: Config, h: seq<Outcome>, ts: seq<int>, os: seq<int>, x: int, y: int)
    requires h != [] && |ts| == |os| == |h| - 1
    ensures var p, o := h[..|h| - 1], h[|h| - 1];
            && Total(ts + [x], Successes(h)) == Total(ts, Successes(p)) + (if o.success then x else 0)
            && Total(ts + [x], Shorts(c, h)) == Total(ts, Shorts(c, p)) + (if ShortSuspend(c, o) then x else 0)
            && Total(os + [y], Successes(h)) == Total(os, Successes(p)) + (if o.success then y else 0)
            && Total(os + [y], Failures(h)) == Total(os, Failures(p)) + (if o.success then 0 else y)
  {
    KindsOfLast(c, h);
    TotalMore(ts, Successes(h), x);
    TotalMore(ts, Shorts(c, h), x);
    TotalMore(os, Successes(h), y);
    TotalMore(os, Failures(h), y);
  }

  /** Suspend time and overhead are charged to successes, short time to short suspends, failed overhead
      to failures, each attempt by its own time rounded to milliseconds. */
  lemma {:induction false} TotalsAreSums(c: Config, h: seq<Outcome>) returns (times: seq<int>, overheads: seq<int>)
    ensures |times| == |overheads| == |h|
    ensures forall i :: 0 <= i < |h| ==> NearestMillis(h[i].suspendTime, times[i])
    ensures forall i :: 0 <= i < |h| ==> NearestMillis(h[i].overhead, overheads[i])
    ensures Replay(c, h).info.suspendMillis == Total(times, Successes(h))
    ensures Replay(c, h).info.shortSuspendMillis == Total(times, Shorts(c, h))
    ensures Replay(c, h).info.overheadMillis == Total(overheads, Successes(h))
    ensures Replay(c, h).info.failedOverheadMillis == Total(overheads, Failures(h))
  {
    if h == [] {
      times, overheads := [], [];
    } else {
      var p, o := h[..|h| - 1], h[|h| - 1];
      var ts, os := TotalsAreSums(c, p);
      var x, y := NanosToMillis(o.suspendTime), NanosToMillis(o.overhead);
      times, overheads := ts + [x], os + [y];
      TotalsMore(c, h, ts, os, x, y);
    }
  }

  lemma {:induction false} ShortTimeWithinSuspendTime(c: Config, h: seq<Outcome>)
    requires forall i :: 0 <= i < |h| ==> h[i].suspendTime >= 0
    ensures 0 <= Replay(c, h).info.shortSuspendMillis <= Replay(c, h).info.suspendMillis
  {
    if h != [] { ShortTimeWithinSuspendTime(c, h[..|h| - 1]); }
  }

  /** The sleep times in effect before each attempt, summed from the history alone. */
  function SleepsBefore(c: Config, h: seq<Outcome>): int {
    if h == [] then 0
    else SleepsBefore(c, h[..|h| - 1]) +
         Iterated(c, Steps(c, BadSuffix(c, h[..|h| - 1])))
  }

  lemma {:induction false} SleepMillisIsSum(c: Config, h: seq<Outcome>)
    ensures Replay(c, h).info.sleepMillis == SleepsBefore(c, h)
  {
    if h != [] {
      SleepMillisIsSum(c, h[..|h| - 1]);
      ReplayIsIterated(c, h[..|h| - 1]);
    }
  }
}
