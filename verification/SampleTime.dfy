/** The sample time estimated from the controller's clock, in 64-bit unsigned arithmetic. */
module SampleTime {
  import opened Numeric

  const WRAP: int := 0x1_0000_0000_0000_0000

  const S_TO_US: int := 1000000

  /** A clock message; both fields are optional uint64. */
  datatype Clock = Clock(sec: Option<nat>, usec: Option<nat>) {
    predicate Valid() { (sec.Some? ==> sec.value < WRAP) && (usec.Some? ==> usec.value < WRAP) }
    predicate Complete() { sec.Some? && usec.Some? }
  }

  function Wrapped(x: int): nat { x % WRAP }

  /** The microseconds a complete clock shows. */
  function Microseconds(c: Clock): int
    requires c.Complete()
  {
    c.sec.value * S_TO_US + c.usec.value
  }

  /** Whole milliseconds of x microseconds, in seconds. */
  function FlooredSeconds(x: int): real { ((x as real) * 0.001).Floor as real * 0.001 }

  /** estimateSampleTime. An absent clock, or one lacking a field, leaves the estimate at its lowest. */
  method EstimateSampleTime(current: Option<Clock>, previous: Option<Clock>) returns (estimate: real)
    requires current.Some? ==> current.value.Valid()
    requires previous.Some? ==> previous.value.Valid()
    ensures estimate >= LOWEST_SAMPLE_TIME
    ensures current.Some? && previous.Some? && current.value.Complete() && previous.value.Complete() ==>
              estimate == Max(FlooredSeconds(Wrapped(Microseconds(current.value) - Microseconds(previous.value))),
                              LOWEST_SAMPLE_TIME)
    ensures !(current.Some? && previous.Some? && current.value.Complete() && previous.value.Complete()) ==>
              estimate == LOWEST_SAMPLE_TIME
  {
    estimate := 0.0;
    if current.Some? && previous.Some? && current.value.Complete() && previous.value.Complete() {
      var now, before := current.value, previous.value;
      var diffS := Wrapped(now.sec.value - before.sec.value);
      var diffUs := Wrapped(now.usec.value - before.usec.value);
      if diffS > 0 {
        diffUs := Wrapped(diffUs + Wrapped(diffS * S_TO_US));
      }
      BorrowIsRepaid(now.sec.value - before.sec.value, now.usec.value - before.usec.value);
      assert Microseconds(now) - Microseconds(before)
          == (now.sec.value - before.sec.value) * S_TO_US + (now.usec.value - before.usec.value);
      estimate := ((diffUs as real) * 0.001).Floor as real * 0.001;
    }
    if estimate < LOWEST_SAMPLE_TIME {
      estimate := LOWEST_SAMPLE_TIME;
    }
  }

  /** Subtracting the fields separately and adding the seconds, all modulo 2^64, is subtracting the
      clocks modulo 2^64, whatever borrows occur. */
  lemma BorrowIsRepaid(s: int, u: int)
    requires -WRAP < s < WRAP && -WRAP < u < WRAP
    ensures var ds, du := Wrapped(s), Wrapped(u);
            (if ds > 0 then Wrapped(du + Wrapped(ds * S_TO_US)) else du) == Wrapped(s * S_TO_US + u)
  {
    var ds, du := Wrapped(s), Wrapped(u);
    var x := s * S_TO_US + u;
    if ds > 0 {
      var w := Wrapped(ds * S_TO_US);
      var q := (ds * S_TO_US) / WRAP;
      assert ds * S_TO_US == WRAP * q + w;
      var bs, bu := if s < 0 then 1 else 0, if u < 0 then 1 else 0;
      assert ds == s + WRAP * bs && du == u + WRAP * bu;
      assert du + w == x + WRAP * (bs * S_TO_US + bu - q);
      WholeTurns(x, bs * S_TO_US + bu - q);
    } else {
      assert s == 0;
    }
  }

  lemma WholeTurns(x: int, n: int)
    ensures Wrapped(x + WRAP * n) == Wrapped(x)
  {
  }

  /** The estimate is the elapsed time, floored to milliseconds and kept above its minimum, exactly
      if the clock has not gone backwards (nor forward by 2^64 microseconds). */
  lemma ElapsedIff(now: Clock, before: Clock)
    requires now.Valid() && before.Valid() && now.Complete() && before.Complete()
    ensures var elapsed := Microseconds(now) - Microseconds(before);
            Wrapped(elapsed) == elapsed <==> 0 <= elapsed < WRAP
  {
  }

  /** A clock one microsecond back makes the estimate longer than a hundred thousand years. */
  lemma BackwardsClock(before: Clock, now: Clock)
    requires now.Valid() && before.Valid() && now.Complete() && before.Complete()
    requires Microseconds(now) == Microseconds(before) - 1
    ensures FlooredSeconds(Wrapped(Microseconds(now) - Microseconds(before))) > 18446744073709.0
  {
    assert Wrapped(-1) == WRAP - 1;
    assert ((WRAP - 1) as real) * 0.001 >= 18446744073709551.0;
  }
}
