/** The wrapping 64-bit counters of grid_queue_t: step_counter and diff_counter. */
module Counter {

  const WORD := 0x1_0000_0000_0000_0000 // 2^64

  function Pow2(n: nat): (p: nat)
    ensures p >= 1
  {
    if n == 0 then 1 else 2 * Pow2(n - 1)
  }

  /** grid_log2 */
  function Log2(n: nat): nat {
    if n / 2 == 0 then 0 else 1 + Log2(n / 2)
  }

  /** element_count_pow_two */
  predicate PowTwo(e: nat) {
    Pow2(Log2(e)) == e
  }

  /** counter_limit */
  function Limit(e: nat): nat {
    if Log2(e) <= 63 then e * Pow2(63 - Log2(e)) else 0
  }

  /** Element counts as the queues have them: at most a 32-bit number of elements in a block. */
  predicate Count(e: nat) {
    0 < e < 0x1_0000_0000
  }

  function StepCounter(e: nat, count: nat, delta: nat): nat {
    Step(PowTwo(e), Limit(e), count, delta)
  }

  function Step(powTwo: bool, limit: nat, count: nat, delta: nat): nat {
    var result := (count + delta) % WORD;
    if !powTwo && result >= limit then result - limit else result
  }

  /** A 64-bit pattern read as a signed number. */
  function Signed(x: int): int {
    var y := x % WORD;
    if y >= WORD / 2 then y - WORD else y
  }

  /** Signed subtraction is taken to wrap around. In the other case the comparison of the signed diff
      with the unsigned limit is an unsigned one. */
  function DiffCounter(e: nat, lhs: nat, rhs: nat): int {
    Diff(PowTwo(e), Limit(e), lhs, rhs)
  }

  function Diff(powTwo: bool, limit: nat, lhs: nat, rhs: nat): int {
    if powTwo then Signed(Signed(lhs) - Signed(rhs))
    else
      var diff := (lhs + limit - rhs) % WORD;
      Signed(if diff >= limit then diff - limit else diff)
  }

  // ---------------------------------------------------------------- the range of the counters

  /** Counters run through 0 .. Modulus - 1. */
  function Modulus(e: nat): nat {
    if PowTwo(e) then WORD else Limit(e)
  }

  lemma {:induction false} Log2Bounds(n: nat)
    requires n > 0
    ensures Pow2(Log2(n)) <= n < 2 * Pow2(Log2(n))
  {
    if n / 2 > 0 {
      Log2Bounds(n / 2);
    }
  }

  lemma {:induction false} Pow2Add(a: nat, b: nat)
    ensures Pow2(a + b) == Pow2(a) * Pow2(b)
  {
    if a > 0 {
      Pow2Add(a - 1, b);
    }
  }

  lemma {:induction false} Pow2Monotone(a: nat, b: nat)
    requires a <= b
    ensures Pow2(a) <= Pow2(b)
  {
    if a < b {
      Pow2Monotone(a, b - 1);
    }
  }

  lemma Pow2Values()
    ensures Pow2(32) == 0x1_0000_0000 && Pow2(63) == WORD / 2 && Pow2(64) == WORD
  {
    assert Pow2(8) == 256;
    Pow2Add(8, 8);
    Pow2Add(16, 16);
    assert Pow2(32) == 0x1_0000_0000;
    Pow2Add(32, 32);
  }

  lemma LogBelow32(e: nat)
    requires Count(e)
    ensures Log2(e) <= 31
  {
    Log2Bounds(e);
    Pow2Values();
    if Log2(e) >= 32 {
      Pow2Monotone(32, Log2(e));
    }
  }

  /** The top bit of the limit is set, and a step never overflows a word before it is reduced. */
  lemma LimitBounds(e: nat)
    requires Count(e)
    ensures WORD / 2 <= Limit(e) && (!PowTwo(e) ==> Limit(e) + e < WORD) && (PowTwo(e) ==> Limit(e) == WORD / 2)
    ensures Limit(e) % e == 0
  {
    var l := Log2(e);
    LogBelow32(e);
    Log2Bounds(e);
    Pow2Values();
    Pow2Add(l, 63 - l);
    Pow2Monotone(32, 63 - l);
    LimitNumbers(e, Pow2(l), Pow2(63 - l), WORD / 2);
    Multiple(e, Pow2(63 - l));
  }

  lemma LimitNumbers(e: nat, p: nat, q: nat, half: nat)
    requires p <= e < 2 * p && e < q && p * q == half
    ensures half <= e * q && (e != p ==> e * q + e < 2 * half)
  {
    Grow(p, e, q);
    Grow(e + 1, 2 * p, q);
    assert (e + 1) * q == e * q + q;
    assert 2 * p * q == 2 * (p * q);
  }

  lemma Grow(a: int, b: int, q: nat)
    requires a <= b
    ensures a * q <= b * q
  {
  }

  lemma Multiple(e: nat, q: nat)
    requires e > 0
    ensures e * q % e == 0
  {
    ModUnique(e * q, e, q, 0);
  }

  /** Division with remainder is unique. */
  lemma ModUnique(x: int, e: nat, q: int, r: int)
    requires e > 0 && x == e * q + r && 0 <= r < e
    ensures x % e == r && x / e == q
  {
    var k := q - x / e;
    Distribute(e, q, x / e);
    assert e * k == x % e - r;
    NoSmallMultiple(e, k);
  }

  lemma Distribute(e: int, a: int, b: int)
    ensures e * (a - b) == e * a - e * b
  {
  }

  lemma NoSmallMultiple(e: int, k: int)
    requires 0 < e && -e < e * k < e
    ensures k == 0
  {
    Outgrows(e, k);
    Outgrows(e, -k);
    assert e * (-k) == -(e * k);
  }

  lemma Outgrows(e: int, k: int)
    requires e > 0
    ensures k > 0 ==> e * k >= e
  {
    if k > 0 {
      Grow(1, k, e);
      assert k * e == e * k;
    }
  }

  /** Reducing by a multiple of e first changes nothing. */
  lemma ModTwice(x: int, m: nat, e: nat)
    requires e > 0 && m > 0 && m % e == 0
    ensures (x % m) % e == x % e
  {
    var q, c := x / m, m / e;
    var r := (x % m) % e;
    var d := (x % m) / e;
    assert m * q == (e * c) * q == e * (c * q) by {
      assert m == e * c;
    }
    assert x == m * q + (e * d + r);
    assert e * (c * q + d) == e * (c * q) + e * d;
    ModUnique(x, e, c * q + d, r);
  }

  // ---------------------------------------------------------------- counters count

  lemma ModulusFacts(e: nat)
    requires Count(e)
    ensures WORD / 2 <= Modulus(e) <= WORD && Modulus(e) % e == 0
    ensures !PowTwo(e) ==> Modulus(e) + e < WORD
  {
    LimitBounds(e);
    if PowTwo(e) {
      DoubleMultiple(WORD / 2, e);
    }
  }

  lemma DoubleMultiple(x: nat, e: nat)
    requires e > 0 && x % e == 0
    ensures 2 * x % e == 0
  {
    assert e * (2 * (x / e)) == 2 * (e * (x / e));
    ModUnique(2 * x, e, 2 * (x / e), 0);
  }

  /** One turn at most around a modulus. */
  lemma ModTurn(x: int, m: int)
    requires m > 0 && -m <= x < 2 * m
    ensures x % m == if x < 0 then x + m else if x < m then x else x - m
  {
    if x < 0 {
      ModUnique(x, m, -1, x + m);
    } else if x < m {
      ModUnique(x, m, 0, x);
    } else {
      ModUnique(x, m, 1, x - m);
    }
  }

  lemma ModShift(x: nat, d: nat, e: nat)
    requires e > 0
    ensures (x + d) % e == (x % e + d) % e
  {
    var r, q := (x % e + d) % e, (x % e + d) / e;
    assert e * (x / e + q) == e * (x / e) + e * q;
    assert 0 <= r < e;
    ModUnique(x + d, e, x / e + q, r);
  }

  /** Whether or not e is a power of two, a step is a step in the numbers modulo Modulus(e), and the
      slot moves on by as much modulo e. */
  lemma StepCounts(e: nat, count: nat, delta: nat)
    requires Count(e) && count < Modulus(e) && delta <= e
    ensures StepCounter(e, count, delta) == (count + delta) % Modulus(e)
    ensures StepCounter(e, count, delta) % e == (count % e + delta) % e
  {
    ModulusFacts(e);
    StepNumbers(PowTwo(e), Limit(e), Modulus(e), e, count, delta);
    ModTwice(count + delta, Modulus(e), e);
    ModShift(count, delta, e);
  }

  lemma StepNumbers(powTwo: bool, limit: nat, m: nat, e: nat, count: nat, delta: nat)
    requires m == (if powTwo then WORD else limit) && WORD / 2 <= m <= WORD && (!powTwo ==> m + e < WORD)
    requires count < m && delta <= e < 0x1_0000_0000
    ensures Step(powTwo, limit, count, delta) == (count + delta) % m
  {
    ModTurn(count + delta, m);
  }

  /** diff_counter undoes step_counter, also where the counter or the sum inside it wraps around. */
  lemma DiffUndoesStep(e: nat, count: nat, delta: nat)
    requires Count(e) && count < Modulus(e) && delta <= e
    ensures DiffCounter(e, StepCounter(e, count, delta), count) == delta
  {
    ModulusFacts(e);
    DiffNumbers(PowTwo(e), Limit(e), Modulus(e), e, count, delta);
  }

  lemma DiffNumbers(powTwo: bool, limit: nat, m: nat, e: nat, count: nat, delta: nat)
    requires m == (if powTwo then WORD else limit) && WORD / 2 <= m <= WORD && (!powTwo ==> m + e < WORD)
    requires count < m && delta <= e < 0x1_0000_0000
    ensures Diff(powTwo, limit, Step(powTwo, limit, count, delta), count) == delta
  {
    StepNumbers(powTwo, limit, m, e, count, delta);
    ModTurn(count + delta, m);
    if powTwo {
      DiffWraps(count + delta, count, delta);
    } else {
      DiffSettles(limit, if count + delta < m then count + delta else count + delta - m, count, delta);
    }
  }

  lemma SignedOf(x: int)
    requires -WORD <= x < 2 * WORD
    ensures Signed(x) == x || Signed(x) == x - WORD || Signed(x) == x + WORD || Signed(x) == x - 2 * WORD
    ensures -(WORD / 2) <= Signed(x) < WORD / 2
  {
  }

  lemma DiffWraps(lhs: nat, rhs: nat, delta: nat)
    requires lhs == rhs + delta && rhs < WORD && delta < WORD / 2
    ensures Signed(Signed(lhs % WORD) - Signed(rhs)) == delta
  {
    SignedOf(lhs % WORD);
    SignedOf(rhs);
    SignedOf(Signed(lhs % WORD) - Signed(rhs));
  }

  lemma DiffSettles(m: nat, lhs: nat, rhs: nat, delta: nat)
    requires WORD / 2 <= m && m + delta < WORD && delta < WORD / 2 && (lhs == rhs + delta || lhs == rhs + delta - m)
    ensures Diff(false, m, lhs, rhs) == delta
  {
    assert lhs == rhs + delta ==> lhs + m - rhs == m + delta;
    assert lhs == rhs + delta - m ==> lhs + m - rhs == delta;
  }

  /** Off a power of two, diff_counter gives the distance modulo counter_limit exactly for those
      pairs whose sum does not lose its carry. */
  lemma DiffExact(e: nat, lhs: nat, rhs: nat)
    requires Count(e) && !PowTwo(e) && lhs < Modulus(e) && rhs < Modulus(e)
    ensures DiffCounter(e, lhs, rhs) == Signed((lhs - rhs) % Modulus(e)) <==> lhs < rhs || lhs - rhs < WORD - Modulus(e)
  {
    ModulusFacts(e);
    ModTurn(lhs - rhs, Modulus(e));
    DiffExactNumbers(Limit(e), lhs, rhs);
  }

  lemma DiffExactNumbers(m: nat, lhs: nat, rhs: nat)
    requires WORD / 2 <= m < WORD && lhs < m && rhs < m
    ensures var distance := if lhs < rhs then lhs - rhs + m else lhs - rhs;
            Diff(false, m, lhs, rhs) == Signed(distance) <==> lhs < rhs || lhs - rhs < WORD - m
  {
  }
}
