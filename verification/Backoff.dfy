/** Backoff delays and the failure count packed into a timestamp (broken_endpoints.rs). */
module Backoff {
  import opened Types

  const NANOS_PER_SEC: int := 1_000_000_000
  const NANO_LIMIT: nat := 2_000_000_000  // chrono keeps a leap second in [10^9, 2*10^9)
  const CLEAR_BYTE: nat := 0xFFFF_FF00

  // ---------- Bitwise operators on naturals ----------

  function BitAnd(a: nat, b: nat): nat {
    if a == 0 || b == 0 then 0
    else (if a % 2 == 1 && b % 2 == 1 then 1 else 0) + 2 * BitAnd(a / 2, b / 2)
  }

  function BitOr(a: nat, b: nat): nat {
    if a == 0 then b else if b == 0 then a
    else (if a % 2 == 1 || b % 2 == 1 then 1 else 0) + 2 * BitOr(a / 2, b / 2)
  }

  function Pow2(k: nat): (p: nat)
    ensures p > 0
  {
    if k == 0 then 1 else 2 * Pow2(k - 1)
  }

  function Shl(m: nat, k: nat): nat { if k == 0 then m else 2 * Shl(m, k - 1) }

  function Shr(a: nat, k: nat): nat { if k == 0 then a else Shr(a / 2, k - 1) }

  /** A mask ending in k zero bits drops the k low bits. */
  lemma {:induction false} AndHigh(a: nat, m: nat, k: nat)
    ensures BitAnd(a, Shl(m, k)) == Shl(BitAnd(Shr(a, k), m), k)
    decreases k
  {
    if k > 0 {
      AndHigh(a / 2, m, k - 1);
      if a == 0 || Shl(m, k - 1) == 0 {
        assert BitAnd(a / 2, Shl(m, k - 1)) == 0;
      }
    }
  }

  /** A mask of k one bits keeps exactly the k low bits. */
  lemma {:induction false} AndLow(a: nat, k: nat)
    ensures BitAnd(a, Pow2(k) - 1) == a - Shl(Shr(a, k), k)
    decreases k
  {
    if k > 0 {
      AndLow(a / 2, k - 1);
      assert (Pow2(k) - 1) / 2 == Pow2(k - 1) - 1 && (Pow2(k) - 1) % 2 == 1;
    }
  }

  lemma ShiftPair(a: nat, k: nat)
    ensures Shl(a, k + 2) == 4 * Shl(a, k)
    ensures Shr(a, k + 2) == Shr(a / 4, k)
  {
    assert Shr(a, k + 2) == Shr(a / 2, k + 1) == Shr(a / 2 / 2, k);
    assert Shl(a, k + 2) == 2 * Shl(a, k + 1);
  }

  lemma ShiftByte(a: nat)
    ensures Shl(a, 8) == 256 * a && Shr(a, 8) == a / 256
  {
    ShiftPair(a, 6); ShiftPair(a, 4); ShiftPair(a, 2); ShiftPair(a, 0);
    var a1 := a / 4;
    var a2 := a1 / 4;
    var a3 := a2 / 4;
    ShiftPair(a1, 4); ShiftPair(a2, 2); ShiftPair(a3, 0);
    FourQuarters(a);
  }

  lemma FourQuarters(a: nat)
    ensures a / 4 / 4 / 4 / 4 == a / 256
  {
    var b := a / 16;
    assert a / 4 / 4 == b;
    assert b / 4 / 4 == b / 16 == a / 256;
  }

  lemma {:induction false} AndOnes(a: nat, k: nat)
    requires a < Pow2(k)
    ensures BitAnd(a, Pow2(k) - 1) == a
    decreases k
  {
    if k > 0 && a > 0 {
      AndOnes(a / 2, k - 1);
      assert (Pow2(k) - 1) / 2 == Pow2(k - 1) - 1;
      assert (Pow2(k) - 1) % 2 == 1;
    }
  }

  lemma {:induction false} OrDisjoint(a: nat, c: nat, k: nat)
    requires c < Pow2(k)
    ensures BitOr(a * Pow2(k), c) == a * Pow2(k) + c
    decreases k
  {
    if k > 0 && a > 0 && c > 0 {
      var p := Pow2(k - 1);
      assert a * Pow2(k) == 2 * (a * p) by { assert a * (2 * p) == 2 * (a * p); }
      OrDisjoint(a, c / 2, k - 1);
    }
  }

  /** Masking a 32-bit word with 0xFFFFFF00 and or-ing a byte in replaces its low byte. */
  lemma PackedWord(nanos: nat, count: U8)
    requires nanos < 0x1_0000_0000
    ensures BitOr(BitAnd(nanos, CLEAR_BYTE), count) == nanos - nanos % 256 + count
    ensures BitAnd(nanos, 0xFF) == nanos % 256
  {
    assert Pow2(8) == 256;
    assert Pow2(24) == 0x100_0000 by { assert Pow2(16) == 0x1_0000; }
    AndHigh(nanos, 0xFF_FFFF, 8);
    AndLow(nanos, 8);
    ShiftByte(nanos);
    ShiftByte(0xFF_FFFF);
    ShiftByte(nanos / 256);
    AndOnes(nanos / 256, 24);
    OrDisjoint(nanos / 256, count, 8);
  }

  // ---------- Timestamps ----------

  /** chrono's `DateTime<Utc>`: whole seconds, and nanoseconds that exceed 10^9 in a leap second. */
  datatype Timestamp = Timestamp(secs: int, nanos: nat) {
    predicate Valid() { nanos < NANO_LIMIT }

    predicate LeapSecond() { nanos >= NANOS_PER_SEC }

    predicate Before(other: Timestamp) {
      secs < other.secs || (secs == other.secs && nanos < other.nanos)
    }

    /** `with_nanosecond`: refused from 2*10^9 on. */
    function WithNanos(n: nat): Option<Timestamp> {
      if n < NANO_LIMIT then Some(this.(nanos := n)) else None
    }

    function ToInstant(): Instant { secs * NANOS_PER_SEC + nanos }
  }

  /** 1_999_999_999 is the largest nanosecond value chrono takes. */
  lemma LargestNanos(t: Timestamp, n: nat)
    ensures t.WithNanos(n).Some? <==> n <= 1_999_999_999
    ensures t.WithNanos(n).Some? ==> t.WithNanos(n).value == Timestamp(t.secs, n)
  {}

  /** None would be the panic of `expect("couldn't failed to set nanos")`. */
  function SetRetries(t: Timestamp, count: U8): Option<Timestamp> {
    t.WithNanos(BitOr(BitAnd(t.nanos, CLEAR_BYTE), count))
  }

  function GetRetries(t: Timestamp): nat { BitAnd(t.nanos, 0xFF) }

  /** Packing never panics, is undone by `GetRetries`, and moves the instant by less than 256 ns
      within the same second and the same leap-second region. */
  lemma PackRoundTrip(t: Timestamp, count: U8)
    requires t.Valid()
    ensures SetRetries(t, count).Some?
    ensures var p := SetRetries(t, count).value;
            && GetRetries(p) == count
            && p.Valid() && p.secs == t.secs
            && (p.LeapSecond() <==> t.LeapSecond())
            && -255 <= p.nanos - t.nanos <= 255
  {
    LowByteReplaced(t.nanos, count);
    PackedWord(t.nanos, count);
    PackedWord(t.nanos - t.nanos % 256 + count, count);
  }

  /** 10^9 and 2*10^9 are multiples of 256, so the last bucket below each is full. */
  lemma LowByteReplaced(n: nat, count: U8)
    requires n < NANO_LIMIT
    ensures var p := n - n % 256 + count;
            && 0 <= p < NANO_LIMIT && p % 256 == count
            && (p >= NANOS_PER_SEC <==> n >= NANOS_PER_SEC)
            && -255 <= p - n <= 255
  {
    var q, r := n / 256, n % 256;
    assert n == 256 * q + r;
    assert q < 7_812_500;
    assert q >= 3_906_250 <==> n >= NANOS_PER_SEC;
  }

  /** The 256 ns bucket of a timestamp. */
  function Bucket(t: Timestamp): (int, int) { (t.secs, t.nanos / 256) }

  /** Timestamps in different buckets keep their order whatever counts are packed into them, and
      inside one bucket the packed count alone decides. */
  lemma PackOrder(a: Timestamp, m: U8, b: Timestamp, n: U8)
    requires a.Valid() && b.Valid()
    ensures SetRetries(a, m).Some? && SetRetries(b, n).Some?
    ensures Bucket(a) != Bucket(b)
            ==> (SetRetries(a, m).value.Before(SetRetries(b, n).value) <==> a.Before(b))
    ensures Bucket(a) == Bucket(b)
            ==> (SetRetries(a, m).value.Before(SetRetries(b, n).value) <==> m < n)
  {
    PackRoundTrip(a, m);
    PackRoundTrip(b, n);
    PackedWord(a.nanos, m);
    PackedWord(b.nanos, n);
    PackLess(a.nanos, m, b.nanos, n);
  }

  lemma PackLess(x: nat, m: U8, y: nat, n: U8)
    ensures x / 256 != y / 256 ==> (x - x % 256 + m < y - y % 256 + n <==> x < y)
    ensures x / 256 == y / 256 ==> (x - x % 256 + m < y - y % 256 + n <==> m < n)
  {}

  // ---------- Instants, as the pool uses them ----------

  function Pack(t: Instant, count: U8): (p: Instant)
    ensures p % 256 == count && p / 256 == t / 256
  {
    t - t % 256 + count
  }

  /** On readings outside a leap second, nanosecond arithmetic is exactly timestamp arithmetic. */
  lemma InstantsAreTimestamps(a: Timestamp, b: Timestamp, count: U8)
    requires a.Valid() && b.Valid() && !a.LeapSecond() && !b.LeapSecond()
    ensures a.Before(b) <==> a.ToInstant() < b.ToInstant()
    ensures SetRetries(a, count).Some?
    ensures SetRetries(a, count).value.ToInstant() == Pack(a.ToInstant(), count)
    ensures GetRetries(a) == a.ToInstant() % 256
  {
    PackRoundTrip(a, count);
    PackedWord(a.nanos, count);
    assert a.ToInstant() % 256 == a.nanos % 256 by { SecondsHaveNoLowByte(a.secs, a.nanos); }
  }

  lemma SecondsHaveNoLowByte(secs: int, nanos: nat)
    ensures (secs * NANOS_PER_SEC + nanos) % 256 == nanos % 256
  {
    var q := secs * 3_906_250;
    assert secs * NANOS_PER_SEC == 256 * q;
  }

  /** `calculate_backoff`, in seconds: 2^(min(saturating_sub(count, 1), 6)). */
  function BackoffSecs(count: U8): nat {
    var less := if count == 0 then 0 else count - 1;
    Pow2(if less < 6 then less else 6)
  }

  /** `BackoffTracker::from_failed_times` at clock reading `now`. */
  function NextTest(now: Instant, count: U8): Instant {
    Pack(now + BackoffSecs(count) * NANOS_PER_SEC, count)
  }

  function FailedTimes(e: Delayed): U8 { e.time % 256 }

  /** `failed_times() + 1` as a release build computes it. */
  function Bumped(count: U8): U8 { (count + 1) % 256 }

  function FirstFailure(now: Instant, ip: Ip): Delayed { Delayed(NextTest(now, 1), ip) }

  function NextFailure(now: Instant, e: Delayed): Delayed {
    Delayed(NextTest(now, Bumped(FailedTimes(e))), e.ip)
  }

  lemma BackoffValues(count: U8)
    ensures 1 <= BackoffSecs(count) <= 64
    ensures count >= 7 ==> BackoffSecs(count) == 64
    ensures 1 <= count <= 7 ==> BackoffSecs(count) == Pow2(count - 1)
    ensures count == 0 ==> BackoffSecs(count) == 1
  {
    assert Pow2(6) == 64 && Pow2(5) == 32 && Pow2(4) == 16 && Pow2(3) == 8;
    assert Pow2(2) == 4 && Pow2(1) == 2 && Pow2(0) == 1;
  }

  /** The scheduled instant is within 255 ns of now + delay, and carries the count. */
  lemma NextTestBounds(now: Instant, count: U8)
    ensures -255 <= NextTest(now, count) - (now + BackoffSecs(count) * NANOS_PER_SEC) <= 255
    ensures NextTest(now, count) % 256 == count
    ensures NextTest(now, count) > now
  {
    BackoffValues(count);
  }

  /** A further failure never shortens the delay, except exactly when the `u8` count wraps. */
  lemma DelayGrowsUnlessWrapped(count: U8)
    ensures BackoffSecs(Bumped(count)) >= BackoffSecs(count) <==> count != 255
    ensures 1 <= count <= 6 ==> BackoffSecs(Bumped(count)) == 2 * BackoffSecs(count)
  {
    BackoffValues(count);
    BackoffValues(Bumped(count));
  }

  // ---------- A run of failures ----------

  /** The entry stored after a first failure at clocks[0] and a failed recheck at each later reading. */
  function Failures(ip: Ip, clocks: seq<Instant>): Delayed
    requires |clocks| > 0
  {
    if |clocks| == 1 then FirstFailure(clocks[0], ip)
    else NextFailure(clocks[|clocks| - 1], Failures(ip, clocks[..|clocks| - 1]))
  }

  /** Sum, over the failures of the run, of the delays actually stored (test time minus reading). */
  function Scheduled(ip: Ip, clocks: seq<Instant>): int {
    if |clocks| == 0 then 0
    else Scheduled(ip, clocks[..|clocks| - 1]) + Failures(ip, clocks).time - clocks[|clocks| - 1]
  }

  function ExpectedTotalSecs(rounds: nat): int {
    if rounds <= 7 then Pow2(rounds) - 1 else 127 + 64 * (rounds - 7)
  }

  lemma ExpectedStep(rounds: U8)
    requires rounds > 0
    ensures ExpectedTotalSecs(rounds) == ExpectedTotalSecs(rounds - 1) + BackoffSecs(rounds)
  {
    BackoffValues(rounds);
    assert Pow2(7) == 128;
  }

  /** After a first failure and k failed rechecks the entry counts k+1 failures, for as long as
      the byte holds it, and waits the delay for that count. */
  lemma {:induction false} FailureCount(ip: Ip, clocks: seq<Instant>)
    requires 1 <= |clocks| <= 255
    ensures Failures(ip, clocks) == Delayed(NextTest(clocks[|clocks| - 1], |clocks|), ip)
    ensures FailedTimes(Failures(ip, clocks)) == |clocks|
  {
    var n := |clocks|;
    if n == 1 {
      NextTestBounds(clocks[0], 1);
    } else {
      FailureCount(ip, clocks[..n - 1]);
      FailureAgain(clocks[n - 1], Failures(ip, clocks[..n - 1]), n);
    }
  }

  lemma FailureAgain(now: Instant, e: Delayed, n: U8)
    requires n > 0 && FailedTimes(e) == n - 1
    ensures NextFailure(now, e) == Delayed(NextTest(now, n), e.ip)
    ensures FailedTimes(NextFailure(now, e)) == n
  {
    NextTestBounds(now, n);
  }

  lemma {:induction false} ScheduledStep(ip: Ip, clocks: seq<Instant>)
    requires 1 <= |clocks| <= 255
    ensures var delay := Scheduled(ip, clocks) - Scheduled(ip, clocks[..|clocks| - 1]);
            -255 <= delay - BackoffSecs(|clocks|) * NANOS_PER_SEC <= 255
  {
    FailureCount(ip, clocks);
    NextTestBounds(clocks[|clocks| - 1], |clocks|);
  }

  /** Whatever the readings, the delays scheduled by a run of n <= 255 failures add up to
      2^n - 1 seconds, and from the eighth on to 64 s more for each, within 255 ns a round. */
  lemma {:induction false} FailureRun(ip: Ip, clocks: seq<Instant>)
    requires |clocks| <= 255
    ensures var error := Scheduled(ip, clocks) - ExpectedTotalSecs(|clocks|) * NANOS_PER_SEC;
            -255 * |clocks| <= error <= 255 * |clocks|
  {
    if |clocks| > 0 {
      FailureRun(ip, clocks[..|clocks| - 1]);
      ScheduledStep(ip, clocks);
      ExpectedStep(|clocks|);
    }
  }

  /** One failure more than the byte can count starts the backoff over. */
  lemma WrapRestartsBackoff(ip: Ip, clocks: seq<Instant>)
    requires |clocks| == 256
    ensures FailedTimes(Failures(ip, clocks)) == 0
    ensures -255 <= Failures(ip, clocks).time - (clocks[255] + NANOS_PER_SEC) <= 255
  {
    FailureCount(ip, clocks[..255]);
    NextTestBounds(clocks[255], 0);
    BackoffValues(0);
  }
}
