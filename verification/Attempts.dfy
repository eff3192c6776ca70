/** The guard on guessing passwords: failures counted, and lockouts that double. */
module Attempts {

  // Durations and instants are in nanoseconds, as time.Duration counts them.
  const SECOND := 1_000_000_000
  const FREE_ATTEMPTS := 5
  const FIRST_LOCKOUT := 15 * SECOND
  const MAX_LOCKOUT := 300 * SECOND

  // The zero time.Time: before every instant the clock can show.
  const ZERO_TIME := 0

  function Pow2(k: nat): nat {
    if k == 0 then 1 else 2 * Pow2(k - 1)
  }

  /** Two's complement: what remains of a product in 64 bits. */
  function Wrap64(x: int): int {
    (x + 0x8000_0000_0000_0000) % 0x1_0000_0000_0000_0000 - 0x8000_0000_0000_0000
  }

  /** Go's << on a time.Duration. */
  function ShiftLeft64(x: int, k: nat): int {
    if k >= 64 then 0 else Wrap64(x * Pow2(k))
  }

  function Lockout(failures: nat): int
    requires failures > FREE_ATTEMPTS
  {
    var shifted := ShiftLeft64(FIRST_LOCKOUT, failures - FREE_ATTEMPTS - 1);
    if shifted > MAX_LOCKOUT || shifted <= 0 then MAX_LOCKOUT else shifted
  }

  function Min(a: int, b: int): int { if a <= b then a else b }

  lemma {:induction false} Pow2Adds(a: nat, b: nat)
    ensures Pow2(a + b) == Pow2(a) * Pow2(b)
  {
    if b > 0 { Pow2Adds(a, b - 1); }
  }

  lemma Pow2Values()
    ensures Pow2(5) == 32 && Pow2(24) == 0x100_0000 && Pow2(29) == 0x2000_0000
    ensures Pow2(30) == 0x4000_0000
  {
    Pow2Adds(5, 5);
    Pow2Adds(10, 10);
    Pow2Adds(20, 4);
    Pow2Adds(24, 5);
    Pow2Adds(24, 6);
  }

  lemma {:induction false} Pow2Grows(a: nat, b: nat)
    requires a <= b
    ensures 1 <= Pow2(a) <= Pow2(b)
  {
    if a < b {
      Pow2Grows(a, b - 1);
    } else if a > 0 {
      Pow2Grows(a - 1, a - 1);
    }
  }

  /** What 64 bits keep of a multiple of 2^39 is a multiple of 2^39. */
  lemma WrapKeepsDivisor(n: int) returns (z: int)
    ensures Wrap64(0x80_0000_0000 * n) == 0x80_0000_0000 * z
  {
    var shifted := 0x80_0000_0000 * n + 0x8000_0000_0000_0000;
    z := n - 0x200_0000 * (shifted / 0x1_0000_0000_0000_0000);
  }

  /** From the thirtieth doubling on the product is a multiple of 2^39, and so
      is what the 64 bits keep of it: nothing between zero and nine minutes. */
  lemma WrappedIsLongOrNegative(k: nat)
    requires 30 <= k
    ensures ShiftLeft64(FIRST_LOCKOUT, k) <= 0 || ShiftLeft64(FIRST_LOCKOUT, k) > MAX_LOCKOUT
  {
    if k < 64 {
      var p := Pow2(k - 30);
      assert Pow2(k) == 0x4000_0000 * p by {
        Pow2Values();
        Pow2Adds(30, k - 30);
      }
      assert FIRST_LOCKOUT * Pow2(k) == 0x80_0000_0000 * (29_296_875 * p);
      var z := WrapKeepsDivisor(29_296_875 * p);
    }
  }

  lemma WrapKeepsSmall(x: int)
    requires 0 <= x < 0x8000_0000_0000_0000
    ensures Wrap64(x) == x
  {}

  lemma SmallLockout(p: nat)
    requires 1 <= p <= 0x2000_0000
    ensures Wrap64(FIRST_LOCKOUT * p) == FIRST_LOCKOUT * p > 0
  {
    WrapKeepsSmall(FIRST_LOCKOUT * p);
  }

  lemma ShortShift(k: nat)
    requires k < 30
    ensures ShiftLeft64(FIRST_LOCKOUT, k) == FIRST_LOCKOUT * Pow2(k) > 0
  {
    var p := Pow2(k);
    assert 1 <= p <= 0x2000_0000 by {
      Pow2Values();
      Pow2Grows(k, 29);
    }
    SmallLockout(p);
  }

  lemma FifthIsTheCap(k: nat)
    requires k >= 5
    ensures FIRST_LOCKOUT * Pow2(k) > MAX_LOCKOUT
  {
    Pow2Values();
    Pow2Grows(5, k);
  }

  /** The shift with its two guards is exactly a capped doubling, for every
      number of failures. */
  lemma LockoutIsCappedDoubling(failures: nat)
    requires failures > FREE_ATTEMPTS
    ensures Lockout(failures) == Min(FIRST_LOCKOUT * Pow2(failures - FREE_ATTEMPTS - 1), MAX_LOCKOUT)
  {
    var k: nat := failures - FREE_ATTEMPTS - 1;
    if k < 30 {
      ShortShift(k);
    } else {
      WrappedIsLongOrNegative(k);
      FifthIsTheCap(k);
    }
  }

  lemma LockoutsNeverShrink(failures: nat)
    requires failures > FREE_ATTEMPTS
    ensures FIRST_LOCKOUT <= Lockout(failures) <= Lockout(failures + 1) <= MAX_LOCKOUT
  {
    LockoutIsCappedDoubling(failures);
    LockoutIsCappedDoubling(failures + 1);
  }

  datatype Guard = Guard(failures: nat, until: nat)

  const FRESH := Guard(0, ZERO_TIME)

  function Recorded(s: Guard, correct: bool, now: nat): Guard {
    if correct then FRESH
    else if s.failures + 1 <= FREE_ATTEMPTS then s.(failures := s.failures + 1)
    else
      LockoutsNeverShrink(s.failures + 1);
      Guard(s.failures + 1, now + Lockout(s.failures + 1))
  }

  function Waiting(s: Guard, now: nat): nat {
    if s.until <= now then 0 else s.until - now
  }

  class AttemptGuard {
    var failures: nat
    var until: nat

    function Books(): Guard reads this { Guard(failures, until) }

    constructor ()
      ensures Books() == FRESH
    {
      failures, until := 0, ZERO_TIME;
    }

    method Wait(now: nat) returns (remaining: nat)
      ensures remaining == Waiting(Books(), now)
      ensures remaining == 0 <==> until <= now
    {
      if until <= now {
        return 0;
      }
      remaining := until - now;
    }

    method Record(correct: bool, now: nat)
      modifies this
      ensures Books() == Recorded(old(Books()), correct, now)
    {
      if correct {
        failures := 0;
        until := ZERO_TIME;
        return;
      }
      failures := failures + 1;
      if failures <= FREE_ATTEMPTS {
        return;
      }
      var lockout := ShiftLeft64(FIRST_LOCKOUT, failures - FREE_ATTEMPTS - 1);
      if lockout > MAX_LOCKOUT || lockout <= 0 {
        lockout := MAX_LOCKOUT;
      }
      until := now + lockout;
    }
  }

  /** A guard after wrong passwords at these times, starting from s. */
  function AfterFailures(s: Guard, times: seq<nat>): Guard {
    if times == [] then s
    else Recorded(AfterFailures(s, times[..|times| - 1]), false, times[|times| - 1])
  }

  /** Each attempt is made no earlier than the one before and only when the
      guard says to wait no longer. */
  ghost predicate Patient(times: seq<nat>) {
    times != [] ==>
      var before := times[..|times| - 1];
      var now := times[|times| - 1];
      && Patient(before)
      && (before != [] ==> before[|before| - 1] <= now)
      && Waiting(AfterFailures(FRESH, before), now) == 0
  }

  /** Everything the first so many failures cost in lockouts. */
  function TotalLockout(failures: nat): int {
    if failures <= FREE_ATTEMPTS then 0 else TotalLockout(failures - 1) + Lockout(failures)
  }

  lemma {:induction false} GuardCounts(times: seq<nat>)
    ensures var s := AfterFailures(FRESH, times);
            && s.failures == |times|
            && s.until == if |times| <= FREE_ATTEMPTS then ZERO_TIME
                          else times[|times| - 1] + Lockout(|times|)
  {
    if times != [] { GuardCounts(times[..|times| - 1]); }
  }

  /** Guessing is as slow as the lockouts add up to. */
  lemma {:induction false} GuessingTakes(times: seq<nat>)
    requires Patient(times) && times != []
    ensures times[|times| - 1] - times[0] >= TotalLockout(|times| - 1)
  {
    var before := times[..|times| - 1];
    if before != [] {
      GuessingTakes(before);
      GuardCounts(before);
    }
  }

  /** And no slower: somebody who comes back the moment they may meets the
      bound exactly. */
  lemma {:induction false} GuessingAsFastAsAllowed(n: nat, start: nat) returns (times: seq<nat>)
    ensures |times| == n + 1 && Patient(times) && times[0] == start
    ensures times[n] - start == TotalLockout(n)
  {
    if n == 0 {
      times := [start];
      assert times[..0] == [];
    } else {
      var before := GuessingAsFastAsAllowed(n - 1, start);
      GuardCounts(before);
      if n > FREE_ATTEMPTS { LockoutsNeverShrink(n); }
      times := before + [before[n - 1] + (if n > FREE_ATTEMPTS then Lockout(n) else 0)];
      assert times[..n] == before;
    }
  }

  lemma FirstLockouts()
    ensures Lockout(6) == 15 * SECOND && Lockout(7) == 30 * SECOND && Lockout(8) == 60 * SECOND
    ensures Lockout(9) == 120 * SECOND && Lockout(10) == 240 * SECOND
  {
    LockoutIsCappedDoubling(6);
    LockoutIsCappedDoubling(7);
    LockoutIsCappedDoubling(8);
    LockoutIsCappedDoubling(9);
    LockoutIsCappedDoubling(10);
    assert Pow2(2) == 4;
    assert Pow2(4) == 16;
  }

  lemma LaterLockouts(failures: nat)
    requires failures > 10
    ensures Lockout(failures) == MAX_LOCKOUT
  {
    LockoutIsCappedDoubling(failures);
    Pow2Grows(5, failures - FREE_ATTEMPTS - 1);
    assert Pow2(5) == 32;
  }

  lemma {:induction false} TotalGrows(failures: nat)
    requires failures >= FREE_ATTEMPTS
    ensures TotalLockout(failures + 1) == TotalLockout(failures) + Lockout(failures + 1)
  {}

  lemma TotalGrowsLater(failures: nat)
    requires failures >= 10
    ensures TotalLockout(failures + 1) == TotalLockout(failures) + MAX_LOCKOUT
  {
    TotalGrows(failures);
    LaterLockouts(failures + 1);
  }

  lemma TotalOfTen()
    ensures TotalLockout(10) == 465 * SECOND
  {
    FirstLockouts();
    assert TotalLockout(7) == 45 * SECOND by {
      assert TotalLockout(5) == 0;
      TotalGrows(5);
      TotalGrows(6);
    }
    TotalGrows(7);
    TotalGrows(8);
    TotalGrows(9);
  }

  /** Ten failures cost 465 seconds and every one after that five minutes. */
  lemma {:induction false} TotalLockoutClosedForm(extra: nat)
    ensures TotalLockout(10 + extra) == 465 * SECOND + extra * MAX_LOCKOUT
  {
    if extra == 0 {
      TotalOfTen();
    } else {
      TotalLockoutClosedForm(extra - 1);
      TotalGrowsLater(9 + extra);
    }
  }
}
