/** The number of ticks in a delay given in hours, minutes, seconds and milliseconds. */
module DelayTime {
  import opened KernelState

  const TICKS_PER_SEC := 200

  // Unsigned arithmetic is modulo the word.
  function Wrap32(x: nat): nat {
    x % WORD
  }

  // The term added before the division by 1000 rounds up by half a tick, as far as the rate divides 500.
  function Half(rate: nat): nat
    requires rate > 0
  {
    rate * (500 / rate)
  }

  function MsProduct(rate: nat, ms: nat): nat
    requires rate > 0
  {
    rate * (ms + 500 / rate)
  }

  function MsTicks(rate: nat, ms: nat): nat
    requires rate > 0
  {
    MsProduct(rate, ms) / 1000
  }

  function SecTicks(rate: nat, hours: nat, minutes: nat, seconds: nat): nat {
    (hours * 3600 + minutes * 60 + seconds) * rate
  }

  function Sum32(secTicks: nat, msProduct: nat): nat {
    Wrap32(Wrap32(secTicks) + Wrap32(msProduct) / 1000)
  }

  // The computation as it is done, in 32-bit words.
  function DelayTicks(rate: nat, hours: nat, minutes: nat, seconds: nat, ms: nat): nat
    requires rate > 0
  {
    Sum32(SecTicks(rate, hours, minutes, seconds), MsProduct(rate, ms))
  }

  lemma HalfBounds(rate: nat)
    requires rate > 0
    ensures Half(rate) <= 500
  {
  }

  // For any tick rate the milliseconds are converted to within one tick.
  lemma WithinOneTick(rate: nat, ms: nat)
    requires rate > 0
    ensures -1000 < 1000 * MsTicks(rate, ms) - rate * ms <= 500
  {
    HalfBounds(rate);
    Distribute(rate, ms);
  }

  lemma Distribute(rate: nat, ms: nat)
    requires rate > 0
    ensures MsProduct(rate, ms) == rate * ms + Half(rate)
  {
  }

  ghost predicate Nearest(rate: nat, ms: nat)
    requires rate > 0
  {
    -500 <= 1000 * MsTicks(rate, ms) - rate * ms <= 500
  }

  // The documentation promises the nearest tick. That is so exactly when the division does not lose too much.
  lemma NearestExactly(rate: nat, ms: nat)
    requires rate > 0
    ensures Nearest(rate, ms) <==> (rate * ms + Half(rate)) % 1000 <= 500 + Half(rate)
  {
    HalfBounds(rate);
    Distribute(rate, ms);
    var x := rate * ms + Half(rate);
    assert x == 1000 * (x / 1000) + x % 1000;
  }

  // ---------- which tick rates keep the promise for every argument ----------

  function Gcd(a: nat, b: nat): nat
    decreases b
  {
    if b == 0 then a else Gcd(b, a % b)
  }

  lemma {:induction false} Bezout(a: nat, b: nat) returns (x: int, y: int)
    ensures a * x + b * y == Gcd(a, b)
    decreases b
  {
    if b == 0 {
      x, y := 1, 0;
    } else {
      var u, v := Bezout(b, a % b);
      x, y := v, u - a / b * v;
      Combine(a, b, a / b, a % b, u, v);
    }
  }

  lemma Combine(a: int, b: int, q: int, r: int, u: int, v: int)
    requires a == b * q + r
    ensures a * v + b * (u - q * v) == b * u + r * v
  {
    assert a * v == b * q * v + r * v;
    assert b * (u - q * v) == b * u - b * q * v;
  }

  lemma {:induction false} GcdDivides(a: nat, b: nat) returns (k: nat, l: nat)
    requires a > 0
    ensures Gcd(a, b) > 0 && a == k * Gcd(a, b) && b == l * Gcd(a, b)
    decreases b
  {
    if b == 0 {
      k, l := 1, 0;
    } else {
      var m, n := GcdDivides(b, a % b);
      var g := Gcd(a, b);
      k, l := a / b * m + n, m;
      Regroup(a / b, m, n, g);
    }
  }

  lemma Regroup(q: int, m: int, n: int, g: int)
    ensures q * (m * g) + n * g == (q * m + n) * g
  {
    assert q * (m * g) == q * m * g;
  }

  // What is a multiple of `g` and positive is at least `g`.
  lemma PositiveMultiple(g: nat, z: int)
    requires g * z > 0
    ensures g * z >= g
  {
  }

  // Every value is converted to the nearest tick if and only if the rate alone says so: the rounding term is within the
  // greatest common divisor of the rate and 1000 of the half.
  lemma AlwaysNearest(rate: nat)
    requires rate > 0
    ensures (forall ms: nat :: Nearest(rate, ms)) <==> Half(rate) + Gcd(rate, 1000) >= 500
  {
    if Half(rate) + Gcd(rate, 1000) >= 500 {
      forall ms: nat
        ensures Nearest(rate, ms)
      {
        NearestWhenFine(rate, ms);
      }
    } else {
      var ms := WorstCase(rate);
    }
  }

  lemma Gather(g: int, k: int, l: int, q: int, ms: int, h: int)
    ensures g * (l + l * q - k * ms - k * h) == l * g + l * g * q - k * g * ms - k * g * h
  {
    assert g * (l + l * q - k * ms - k * h) == g * l + g * (l * q) - g * (k * ms) - g * (k * h);
    assert g * (l * q) == l * g * q && g * (k * ms) == k * g * ms && g * (k * h) == k * g * h;
  }

  lemma NearestWhenFine(rate: nat, ms: nat)
    requires rate > 0 && Half(rate) + Gcd(rate, 1000) >= 500
    ensures Nearest(rate, ms)
  {
    NearestExactly(rate, ms);
    var g, k, l := Gcd(rate, 1000), 0, 0;
    k, l := GcdDivides(rate, 1000);
    var q, m := (rate * ms + Half(rate)) / 1000, (rate * ms + Half(rate)) % 1000;
    Gather(g, k, l, q, ms, 500 / rate);
    assert g * (l + l * q - k * ms - k * (500 / rate)) == 1000 - m;
    PositiveMultiple(g, l + l * q - k * ms - k * (500 / rate));
  }

  // The milliseconds that are furthest from their tick.
  lemma WorstCase(rate: nat) returns (ms: nat)
    requires rate > 0 && Half(rate) + Gcd(rate, 1000) < 500
    ensures !Nearest(rate, ms)
  {
    var x, y := Bezout(rate, 1000);
    var _, _ := GcdDivides(rate, 1000);
    var h := 500 / rate;
    var d := (-x - h) / 1000;
    ms := (-x - h) % 1000;
    Spread(rate, x, h, d, ms);
    Residue(rate * ms + Half(rate), y - rate * d - 1, 1000 - Gcd(rate, 1000));
    NearestExactly(rate, ms);
  }

  lemma Spread(rate: int, x: int, h: int, d: int, ms: int)
    requires ms == -x - h - 1000 * d
    ensures rate * ms + rate * h == -(rate * x) - 1000 * (rate * d)
  {
    assert rate * ms == rate * (-x) - rate * h - rate * (1000 * d);
    assert rate * (1000 * d) == 1000 * (rate * d) && rate * (-x) == -(rate * x);
  }

  lemma Residue(n: nat, q: int, m: nat)
    requires n == 1000 * q + m && m < 1000
    ensures n % 1000 == m
  {
  }

  // At 300 ticks a second, two milliseconds are 0.6 ticks, and the result is 0.
  lemma NotAlwaysNearest()
    ensures MsTicks(300, 2) == 0 && !Nearest(300, 2)
  {
  }

  // At the configured rate the result is the nearest tick.
  lemma ConfiguredRateIsNearest(ms: nat)
    ensures Nearest(TICKS_PER_SEC, ms)
    ensures MsTicks(TICKS_PER_SEC, ms) == (ms + 2) / 5
  {
  }

  lemma Monotone(a: nat, b: nat, c: nat)
    requires a <= b
    ensures a * c <= b * c && c * a <= c * b
  {
  }

  lemma SecBound(rate: nat, hours: nat, minutes: nat, seconds: nat)
    requires rate <= 4590 && hours < 256 && minutes < 256 && seconds < 256
    ensures SecTicks(rate, hours, minutes, seconds) <= 4_285_017_450
  {
    var secs := hours * 3600 + minutes * 60 + seconds;
    Monotone(secs, 933555, rate);
    Monotone(rate, 4590, 933555);
  }

  lemma MsBound(rate: nat, ms: nat)
    requires 0 < rate <= 4590 && ms < 65536
    ensures MsProduct(rate, ms) <= 300_806_150
  {
    Distribute(rate, ms);
    HalfBounds(rate);
    Monotone(ms, 65535, rate);
    Monotone(rate, 4590, 65535);
  }

  // Whatever the arguments, up to 4590 ticks a second nothing overflows a word.
  lemma NoOverflow(rate: nat, hours: nat, minutes: nat, seconds: nat, ms: nat)
    requires 0 < rate <= 4590 && hours < 256 && minutes < 256 && seconds < 256 && ms < 65536
    ensures DelayTicks(rate, hours, minutes, seconds, ms) == SecTicks(rate, hours, minutes, seconds) + MsTicks(rate, ms)
  {
    SecBound(rate, hours, minutes, seconds);
    MsBound(rate, ms);
    NothingWraps(SecTicks(rate, hours, minutes, seconds), MsProduct(rate, ms));
  }

  lemma NothingWraps(a: nat, b: nat)
    requires a <= 4_285_017_450 && b <= 300_806_150
    ensures Sum32(a, b) == a + b / 1000
  {
  }

  function Milliseconds(hours: nat, minutes: nat, seconds: nat, ms: nat): nat {
    1000 * (60 * (60 * hours + minutes) + seconds) + ms
  }

  // At the configured rate of a tick every five milliseconds, this is the tick nearest to the time.
  predicate NearestTick(ticks: nat, time: nat) {
    -2 <= 5 * ticks - time <= 2
  }

  // At the configured rate the delay is the requested time, of hours, minutes, seconds and milliseconds together, to the
  // nearest tick.
  lemma ConfiguredDelay(hours: nat, minutes: nat, seconds: nat, ms: nat)
    requires hours < 256 && minutes < 256 && seconds < 256 && ms < 65536
    ensures NearestTick(DelayTicks(TICKS_PER_SEC, hours, minutes, seconds, ms), Milliseconds(hours, minutes, seconds, ms))
  {
    NoOverflow(TICKS_PER_SEC, hours, minutes, seconds, ms);
    ConfiguredRateIsNearest(ms);
  }

  method TicksOf(hours: nat, minutes: nat, seconds: nat, ms: nat) returns (ticks: nat)
    ensures ticks == DelayTicks(TICKS_PER_SEC, hours, minutes, seconds, ms)
    ensures hours < 256 && minutes < 256 && seconds < 256 && ms < 65536 ==>
              NearestTick(ticks, Milliseconds(hours, minutes, seconds, ms))
  {
    if hours < 256 && minutes < 256 && seconds < 256 && ms < 65536 {
      ConfiguredDelay(hours, minutes, seconds, ms);
    }
    ticks := DelayTicks(TICKS_PER_SEC, hours, minutes, seconds, ms);
  }

  // At this rate, the ticks are within one tick of the time.
  predicate WithinTick(rate: nat, ticks: nat, time: nat) {
    -1000 < 1000 * ticks - rate * time <= 500
  }

  // At any rate, and whatever the arguments, the delay is within one tick of the requested time.
  lemma DelayWithinOneTick(rate: nat, hours: nat, minutes: nat, seconds: nat, ms: nat)
    requires 0 < rate <= 4590 && hours < 256 && minutes < 256 && seconds < 256 && ms < 65536
    ensures WithinTick(rate, DelayTicks(rate, hours, minutes, seconds, ms), Milliseconds(hours, minutes, seconds, ms))
  {
    var secs, msTicks := DelayParts(rate, hours, minutes, seconds, ms);
    TicksAddUp(rate, secs, ms, msTicks);
  }

  lemma DelayParts(rate: nat, hours: nat, minutes: nat, seconds: nat, ms: nat) returns (secs: nat, msTicks: nat)
    requires 0 < rate <= 4590 && hours < 256 && minutes < 256 && seconds < 256 && ms < 65536
    ensures Milliseconds(hours, minutes, seconds, ms) == 1000 * secs + ms
    ensures DelayTicks(rate, hours, minutes, seconds, ms) == secs * rate + msTicks
    ensures -1000 < 1000 * msTicks - rate * ms <= 500
  {
    secs, msTicks := hours * 3600 + minutes * 60 + seconds, MsTicks(rate, ms);
    NoOverflow(rate, hours, minutes, seconds, ms);
    WithinOneTick(rate, ms);
  }

  lemma TicksAddUp(rate: nat, secs: nat, ms: nat, ticks: nat)
    requires -1000 < 1000 * ticks - rate * ms <= 500
    ensures WithinTick(rate, secs * rate + ticks, 1000 * secs + ms)
  {
    assert rate * (1000 * secs) == 1000 * (secs * rate);
  }
}
