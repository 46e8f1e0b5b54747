// The conversion of hours, minutes, seconds and milliseconds to ticks (os_time.c, OSTimeDlyHMSM).

module TimeHmsm {
  import opened Ticks

  datatype Hmsm = Hmsm(hours: nat, minutes: nat, seconds: nat, milli: nat)

  // The widths of the parameters.
  ghost predicate Fits(d: Hmsm) {
    d.hours < 0x1_0000 && d.minutes < 0x1_0000 && d.seconds < 0x1_0000 && d.milli < MODULUS
  }

  datatype Outcome = Delay(ticks: Tick) | ZeroDly | InvalidMilli | InvalidSeconds | InvalidMinutes | InvalidHours

  // a * b as the C expression on OS_TICK computes it.
  function Times(a: Tick, b: Tick): Tick {
    (a * b) % MODULUS
  }

  function Seconds(d: Hmsm): (s: nat)
    ensures Fits(d) ==> s < 0x1_0000 * 3661
  {
    3600 * d.hours + 60 * d.minutes + d.seconds
  }

  // Lines 301 and 302, every operation in 32 bits.
  function Ticks32(d: Hmsm, rate: Tick): Tick
    requires Fits(d) && rate > 0
  {
    var whole := Plus(Plus(Times(d.hours, 3600), Times(d.minutes, 60)), d.seconds);
    var milli := Times(rate, Plus(d.milli, 500 / rate)) / 1000;
    Plus(Times(whole, rate), milli)
  }

  // The same formula over unbounded integers.
  function MilliProduct(milli: nat, rate: nat): (p: nat)
    requires rate > 0
  {
    rate * (milli + 500 / rate)
  }

  function Exact(d: Hmsm, rate: nat): nat
    requires rate > 0
  {
    Seconds(d) * rate + MilliProduct(d.milli, rate) / 1000
  }

  // OSTimeDlyHMSM up to the insertion into the tick wheel; relative is false with
  // OS_OPT_TIME_MATCH, which allows a time of all zeros.
  method ToTicks(d: Hmsm, strict: bool, relative: bool, rate: Tick) returns (r: Outcome)
    requires Fits(d) && rate > 0
    ensures r == ZeroDly <==> (InRange(d, strict) && Ticks32(d, rate) == 0) || (relative && d == Hmsm(0, 0, 0, 0))
    ensures r.Delay? <==> InRange(d, strict) && Ticks32(d, rate) > 0 && !(relative && d == Hmsm(0, 0, 0, 0))
    ensures r.Delay? ==> r.ticks == Ticks32(d, rate)
    ensures r.InvalidMilli? <==> strict && d.milli > 999
    ensures r.InvalidSeconds? <==> strict && d.milli <= 999 && d.seconds > 59
    ensures r.InvalidMinutes? <==>
      d.minutes > (if strict then 59 else 9999) && (strict ==> d.milli <= 999 && d.seconds <= 59)
    ensures r.InvalidHours? <==>
      && d.hours > (if strict then 99 else 999) && d.minutes <= (if strict then 59 else 9999)
      && (strict ==> d.milli <= 999 && d.seconds <= 59)
  {
    if relative {
      if d.milli == 0 {
        if d.seconds == 0 {
          if d.minutes == 0 {
            if d.hours == 0 {
              return ZeroDly;
            }
          }
        }
      }
    }
    if strict {
      if d.milli > 999 {
        return InvalidMilli;
      }
      if d.seconds > 59 {
        return InvalidSeconds;
      }
      if d.minutes > 59 {
        return InvalidMinutes;
      }
      if d.hours > 99 {
        return InvalidHours;
      }
    } else {
      if d.minutes > 9999 {
        return InvalidMinutes;
      }
      if d.hours > 999 {
        return InvalidHours;
      }
    }
    var ticks := Ticks32(d, rate);
    if ticks > 0 {
      r := Delay(ticks);
    } else {
      r := ZeroDly;
    }
  }

  ghost predicate InRange(d: Hmsm, strict: bool) {
    if strict then d.hours <= 99 && d.minutes <= 59 && d.seconds <= 59 && d.milli <= 999
    else d.hours <= 999 && d.minutes <= 9999
  }

  // The seconds alone never overflow.
  lemma WholeSeconds(d: Hmsm)
    requires Fits(d)
    ensures Plus(Plus(Times(d.hours, 3600), Times(d.minutes, 60)), d.seconds) == Seconds(d)
  {
  }

  lemma SmallProduct(a: Tick, b: Tick)
    requires a * b < MODULUS
    ensures Times(a, b) == a * b
  {
  }

  lemma MilliPart(milli: Tick, rate: Tick)
    requires rate > 0 && milli + 500 / rate < MODULUS
    ensures Times(rate, Plus(milli, 500 / rate)) == MilliProduct(milli, rate) % MODULUS
  {
  }

  // Without overflow in the two products and in their sum, the formula is exact.
  lemma NoOverflow(d: Hmsm, rate: Tick)
    requires Fits(d) && rate > 0 && MilliProduct(d.milli, rate) < MODULUS && Exact(d, rate) < MODULUS
    ensures Ticks32(d, rate) == Exact(d, rate)
  {
    hide Times, MilliProduct, Seconds;
    WholeSeconds(d);
    MilliFits(d.milli, rate);
    MilliPart(d.milli, rate);
    SmallProduct(Seconds(d), rate);
  }

  lemma MilliFits(milli: Tick, rate: Tick)
    requires rate > 0 && MilliProduct(milli, rate) < MODULUS
    ensures milli + 500 / rate < MODULUS
  {
    Factor(rate, milli + 500 / rate);
  }

  lemma Factor(a: nat, b: nat)
    requires a > 0
    ensures b <= a * b
  {
    assert a * b == b + (a - 1) * b;
    assert (a - 1) * b >= 0;
  }

  lemma Monotone(a: nat, b: nat, c: nat, d: nat)
    requires a <= b && c <= d
    ensures a * c <= b * d
  {
    assert b * d - a * c == (b - a) * d + a * (d - c);
    assert (b - a) * d >= 0 && a * (d - c) >= 0;
  }

  // With strict arguments the computation is exact for every delay at rates up to 11930 Hz,
  // and at no rate above.
  lemma StrictExact(rate: Tick)
    requires rate > 0
    ensures (forall d | InRange(d, true) :: Ticks32(d, rate) == Exact(d, rate)) <==> rate <= 11930
  {
    var top := Hmsm(99, 59, 59, 999);
    assert InRange(top, true) && Seconds(top) == 359999;
    if rate <= 11930 {
      forall d | InRange(d, true)
        ensures Ticks32(d, rate) == Exact(d, rate)
      {
        StrictBound(d, rate);
        NoOverflow(d, rate);
      }
    } else {
      assert Exact(top, rate) >= MODULUS by {
        Monotone(359999, 359999, 11931, rate);
        StrictTop(rate);
      }
      assert Ticks32(top, rate) != Exact(top, rate);
    }
  }

  lemma StrictBound(d: Hmsm, rate: nat)
    requires InRange(d, true) && 0 < rate <= 11930
    ensures MilliProduct(d.milli, rate) < MODULUS && Exact(d, rate) < MODULUS
  {
    Monotone(Seconds(d), 359999, rate, 11930);
    HalfUp(d.milli, rate);
    Monotone(rate, 11930, d.milli, 999);
  }

  lemma StrictTop(rate: nat)
    requires rate > 11930
    ensures 359999 * rate >= MODULUS
  {
  }

  // What is added before the division: as near to 500 as a multiple of the rate comes from below.
  lemma HalfUp(milli: nat, rate: nat)
    requires rate > 0
    ensures MilliProduct(milli, rate) == rate * milli + 500 - 500 % rate
    ensures rate * milli <= MilliProduct(milli, rate) <= rate * milli + 500
  {
    assert rate * (milli + 500 / rate) == rate * milli + rate * (500 / rate);
    assert 500 == rate * (500 / rate) + 500 % rate;
    assert 500 % rate <= 500;
  }

  // The delay is the time asked for, in thousandths of a tick, rounded after adding what is left of
  // 500: at most half a tick above it and less than one tick below.
  lemma WithinOneTick(d: Hmsm, rate: nat)
    requires rate > 0
    ensures var asked := rate * (3_600_000 * d.hours + 60_000 * d.minutes + 1000 * d.seconds + d.milli);
      && Exact(d, rate) == (asked + 500 - 500 % rate) / 1000
      && asked - 1000 < 1000 * Exact(d, rate) <= asked + 500
  {
    HalfUp(d.milli, rate);
    assert 3_600_000 * d.hours + 60_000 * d.minutes + 1000 * d.seconds + d.milli == 1000 * Seconds(d) + d.milli;
    assert rate * (1000 * Seconds(d) + d.milli) == 1000 * (Seconds(d) * rate) + rate * d.milli;
    hide Seconds, MilliProduct;
    Thousandths(Seconds(d) * rate, MilliProduct(d.milli, rate));
  }

  lemma Thousandths(n: nat, p: nat)
    ensures (1000 * n + p) / 1000 == n + p / 1000
  {
  }

  // Rounding to the nearest tick, as the comment at line 185 has it, holds exactly when the
  // fraction is not lost with what the division 500 / rate leaves over.
  lemma Nearest(milli: nat, rate: nat)
    requires rate > 0
    ensures MilliProduct(milli, rate) / 1000 == (rate * milli + 500) / 1000
      <==> (rate * milli + 500) % 1000 >= 500 % rate
  {
    HalfUp(milli, rate);
  }

  lemma NearestWhenDividing(milli: nat, rate: nat)
    requires rate > 0 && (500 % rate == 0 || rate % 1000 == 0)
    ensures MilliProduct(milli, rate) / 1000 == (rate * milli + 500) / 1000
  {
    hide MilliProduct;
    Nearest(milli, rate);
    if 500 % rate == 0 {
      assert (rate * milli + 500) % 1000 >= 0;
    } else {
      HalfOver(rate, milli);
    }
  }

  lemma HalfOver(rate: nat, milli: nat)
    requires rate > 0 && rate % 1000 == 0
    ensures (rate * milli + 500) % 1000 == 500 && 500 % rate == 500
  {
    var x := Thousands(rate / 1000, rate, milli);
    Residue(x);
    assert rate > 500;
  }

  lemma {:induction false} Thousands(k: nat, rate: nat, milli: nat) returns (x: nat)
    requires rate == 1000 * k
    ensures rate * milli == 1000 * x
  {
    if milli == 0 {
      x := 0;
    } else {
      var y := Thousands(k, rate, milli - 1);
      assert rate * milli == rate * (milli - 1) + rate;
      x := y + k;
    }
  }

  lemma Residue(x: int)
    ensures (1000 * x + 500) % 1000 == 500
  {
  }

  // At 600 Hz one millisecond is 0.6 ticks and becomes 0.
  lemma NotNearest()
    ensures MilliProduct(1, 600) / 1000 == 0 && (600 * 1 + 500) / 1000 == 1
  {
  }

  // For all arguments and rates, whatever the checks let pass: the 32-bit computation is exact
  // if and only if neither the millisecond product nor the total needs more than 32 bits.
  lemma ExactIff(d: Hmsm, rate: Tick)
    requires Fits(d) && rate > 0
    ensures Ticks32(d, rate) == Exact(d, rate) <==> MilliProduct(d.milli, rate) < MODULUS && Exact(d, rate) < MODULUS
  {
    hide Times, MilliProduct, Seconds;
    var p := MilliProduct(d.milli, rate);
    if p < MODULUS && Exact(d, rate) < MODULUS {
      NoOverflow(d, rate);
    } else if p >= MODULUS && Exact(d, rate) < MODULUS {
      WholeSeconds(d);
      MilliWraps(d.milli, rate);
      SmallProduct(Seconds(d), rate);
      Wrapped(Seconds(d) * rate, p);
    }
  }

  lemma MilliWraps(milli: Tick, rate: Tick)
    requires rate > 0
    ensures Times(rate, Plus(milli, 500 / rate)) == MilliProduct(milli, rate) % MODULUS
  {
    var x := milli + 500 / rate;
    if x < MODULUS {
      MilliPart(milli, rate);
    } else {
      TurnLess(rate, x);
    }
  }

  // A factor one turn smaller gives the same product in 32 bits.
  lemma TurnLess(rate: nat, x: int)
    ensures (rate * (x - MODULUS)) % MODULUS == (rate * x) % MODULUS
  {
    assert rate * (x - MODULUS) == rate * x - rate * MODULUS;
    TurnsLess(rate * x, rate);
  }

  lemma {:induction false} TurnsLess(a: int, n: nat)
    ensures (a - n * MODULUS) % MODULUS == a % MODULUS
  {
    if n > 0 {
      TurnsLess(a, n - 1);
      assert a - n * MODULUS == (a - (n - 1) * MODULUS) - MODULUS;
    }
  }

  lemma Wrapped(s: nat, p: nat)
    requires p >= MODULUS && s + p / 1000 < MODULUS
    ensures Plus(s, (p % MODULUS) / 1000) != s + p / 1000
  {
    assert p % MODULUS <= p - MODULUS;
  }

  // In particular without strict checking, at rates up to 1000 Hz only the milliseconds can
  // overflow.
  lemma LooseExact(d: Hmsm, rate: Tick)
    requires Fits(d) && InRange(d, false) && 0 < rate <= 1000
    ensures Ticks32(d, rate) == Exact(d, rate) <==> MilliProduct(d.milli, rate) < MODULUS
  {
    hide MilliProduct;
    ExactIff(d, rate);
    assert Seconds(d) <= 4261875;
    Monotone(Seconds(d), 4261875, rate, 1000);
  }
}
