/** Exponential backoff with equal jitter, over the reals. */
module Backoff {

  function Pow2(n: nat): nat { if n == 0 then 1 else 2 * Pow2(n - 1) }

  // base * 2^n
  function Uncapped(n: nat, base: real): real { base * Pow2(n) as real }

  function Ceiling(attempt: nat, base: real, cap: real): real
    requires attempt >= 1
  {
    if cap <= Uncapped(attempt - 1, base) then cap else Uncapped(attempt - 1, base)
  }

  datatype Delay = Delay(seconds: real) | NotOneBased

  function Jittered(ceiling: real, draw: real): real { ceiling / 2.0 + draw * (ceiling / 2.0) }

  /** `draw` is the random fraction in 0..1 of the jittered half. */
  function BackoffDelay(attempt: int, base: real, cap: real, draw: real): Delay {
    if attempt < 1 then NotOneBased
    else Delay(Jittered(Ceiling(attempt, base, cap), draw))
  }

  predicate IsDraw(u: real) { 0.0 <= u <= 1.0 }

  lemma HalfToWhole(ceiling: real, draw: real)
    requires ceiling >= 0.0 && IsDraw(draw)
    ensures ceiling / 2.0 <= Jittered(ceiling, draw) <= ceiling
  {
    var half := ceiling / 2.0;
    assert draw * half >= 0.0;
    assert (1.0 - draw) * half >= 0.0;
    assert (1.0 - draw) * half == half - draw * half;
  }

  lemma UncappedDoubles(n: nat, base: real)
    ensures Uncapped(n + 1, base) == 2.0 * Uncapped(n, base)
  {
    var p := Pow2(n) as real;
    assert Pow2(n + 1) as real == 2.0 * p;
    assert base * (2.0 * p) == 2.0 * (base * p);
  }

  lemma {:induction false} UncappedPositive(n: nat, base: real)
    requires base >= 0.0
    ensures Uncapped(n, base) >= 0.0
    ensures Uncapped(n, base) == 0.0 <==> base == 0.0
  {
    if n == 0 {
      assert Pow2(0) as real == 1.0;
    } else {
      UncappedPositive(n - 1, base);
      UncappedDoubles(n - 1, base);
    }
  }

  /** For every draw, the delay lies between half the ceiling and the ceiling. */
  lemma DelayWithinCeiling(attempt: nat, base: real, cap: real, draw: real)
    requires attempt >= 1 && base >= 0.0 && cap >= 0.0 && IsDraw(draw)
    ensures BackoffDelay(attempt, base, cap, draw).Delay?
    ensures var d, whole := BackoffDelay(attempt, base, cap, draw).seconds, base * Pow2(attempt - 1) as real;
            if cap < whole then cap / 2.0 <= d <= cap else whole / 2.0 <= d <= whole
    ensures Ceiling(attempt, base, cap) / 2.0
            <= BackoffDelay(attempt, base, cap, draw).seconds
            <= Ceiling(attempt, base, cap)
  {
    UncappedPositive(attempt - 1, base);
    HalfToWhole(Ceiling(attempt, base, cap), draw);
  }

  // Whatever the two draws, attempt n+1 waits at least as long as attempt n.
  ghost predicate AlwaysGrows(n: nat, base: real, cap: real)
    requires n >= 1
  {
    forall u, v :: IsDraw(u) && IsDraw(v) ==>
      BackoffDelay(n, base, cap, u).seconds <= BackoffDelay(n + 1, base, cap, v).seconds
  }

  // The longest wait after attempt n against the shortest after attempt n+1.
  lemma GrowsIffCeilingsDouble(n: nat, base: real, cap: real)
    requires n >= 1 && base >= 0.0 && cap >= 0.0
    ensures AlwaysGrows(n, base, cap) <==> Ceiling(n, base, cap) <= Ceiling(n + 1, base, cap) / 2.0
  {
    if AlwaysGrows(n, base, cap) {
      assert IsDraw(1.0) && IsDraw(0.0);
      var longest, shortest := BackoffDelay(n, base, cap, 1.0).seconds, BackoffDelay(n + 1, base, cap, 0.0).seconds;
      assert longest <= shortest;
      assert longest == Ceiling(n, base, cap);
      assert shortest == Ceiling(n + 1, base, cap) / 2.0;
    } else {
      var u, v :| IsDraw(u) && IsDraw(v)
                  && !(BackoffDelay(n, base, cap, u).seconds <= BackoffDelay(n + 1, base, cap, v).seconds);
      DelayWithinCeiling(n, base, cap, u);
      DelayWithinCeiling(n + 1, base, cap, v);
    }
  }

  /** Delays grow from attempt n to n+1, for all draws, exactly as long as the next ceiling is
      not capped (or there is no delay at all). */
  lemma GrowsExactlyUntilCapped(n: nat, base: real, cap: real)
    requires n >= 1 && base >= 0.0 && cap >= 0.0
    ensures AlwaysGrows(n, base, cap) <==> Uncapped(n, base) <= cap || base == 0.0 || cap == 0.0
  {
    GrowsIffCeilingsDouble(n, base, cap);
    UncappedDoubles(n - 1, base);
    UncappedPositive(n - 1, base);
  }

  lemma {:induction false} Pow2Grows(m: nat, n: nat)
    requires m <= n
    ensures Pow2(m) <= Pow2(n)
  {
    if m < n {
      Pow2Grows(m, n - 1);
    }
  }

  /** With the default settings (2 s, capped at 300 s) delays grow up to attempt 8 and no further:
      the wait after attempt 9 can be shorter than the wait after attempt 8. */
  lemma DefaultsGrowUpToTheEighth(n: nat)
    requires n >= 1
    ensures AlwaysGrows(n, 2.0, 300.0) <==> n <= 7
  {
    GrowsExactlyUntilCapped(n, 2.0, 300.0);
    assert Pow2(4) == 16 && Pow2(7) == 8 * Pow2(4) && Pow2(8) == 256;
    if n <= 7 {
      Pow2Grows(n, 7);
    } else {
      Pow2Grows(8, n);
    }
  }

  // The total wait of the first |draws| retries.
  function TotalWait(base: real, cap: real, draws: seq<real>): real {
    if draws == [] then 0.0
    else
      var n := |draws|;
      var d := BackoffDelay(n, base, cap, draws[n - 1]);
      TotalWait(base, cap, draws[..n - 1]) + (if d.Delay? then d.seconds else 0.0)
  }

  /** k retries that the cap does not touch wait between base*(2^k - 1)/2 and base*(2^k - 1) in
      total. */
  lemma {:induction false} TotalWaitBounds(base: real, cap: real, draws: seq<real>)
    requires base >= 0.0 && cap >= 0.0 && (forall i :: 0 <= i < |draws| ==> IsDraw(draws[i]))
    requires draws != [] ==> Uncapped(|draws| - 1, base) <= cap
    ensures var whole := Uncapped(|draws|, base) - base;
            whole / 2.0 <= TotalWait(base, cap, draws) <= whole
  {
    if draws == [] {
      assert Pow2(0) as real == 1.0;
    } else {
      var k := |draws|;
      UncappedDoubles(k - 1, base);
      if k >= 2 {
        UncappedDoubles(k - 2, base);
        UncappedPositive(k - 2, base);
      }
      TotalWaitBounds(base, cap, draws[..k - 1]);
      DelayWithinCeiling(k, base, cap, draws[k - 1]);
      assert Ceiling(k, base, cap) == Uncapped(k - 1, base);
    }
  }
}
