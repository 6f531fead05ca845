/** Exponential backoff arithmetic shared by the two retry loops
    (internal/worker/processor.go sendWithRetry, internal/worker/webhook_worker.go process).

    The delay before a retry is base * Duration(2^(attempt-1)), computed in 64-bit signed
    integers of nanoseconds. */
module Backoff {

  const INT64_LIMIT: int := 0x8000_0000_0000_0000

  function Pow2(n: nat): (p: nat)
    ensures p >= 1
  {
    if n == 0 then 1 else 2 * Pow2(n - 1)
  }

  /** math.Pow(2, attempt-1) converted to an integer: below one it truncates to zero. */
  function Factor(attempt: int): nat {
    if attempt >= 1 then Pow2(attempt - 1) else 0
  }

  function Wrap64(x: int): int {
    (x + INT64_LIMIT) % (2 * INT64_LIMIT) - INT64_LIMIT
  }

  function Delay(base: nat, attempt: int): int {
    Wrap64(base * Factor(attempt))
  }

  /** A timer with a delay of zero or less fires at once. */
  function Wait(base: nat, attempt: int): nat {
    if Delay(base, attempt) > 0 then Delay(base, attempt) else 0
  }

  /** Time spent waiting over k retries that started at the given attempt. */
  function TotalWait(base: nat, attempt: int, k: nat): nat {
    if k == 0 then 0 else TotalWait(base, attempt, k - 1) + Wait(base, attempt + k - 1)
  }

  lemma {:induction false} Pow2Monotone(a: nat, b: nat)
    requires a <= b
    ensures Pow2(a) <= Pow2(b)
    decreases b
  {
    if a < b {
      Pow2Monotone(a, b - 1);
    }
  }

  lemma {:induction false} Pow2Add(a: nat, b: nat)
    ensures Pow2(a + b) == Pow2(a) * Pow2(b)
  {
    if b == 0 {
    } else {
      Pow2Add(a, b - 1);
      assert Pow2(a) * (2 * Pow2(b - 1)) == 2 * (Pow2(a) * Pow2(b - 1));
    }
  }

  lemma MulMonotone(base: nat, a: nat, b: nat)
    requires a <= b
    ensures base * a <= base * b
  {
  }

  lemma WrapExact(x: int)
    ensures Wrap64(x) == x <==> -INT64_LIMIT <= x < INT64_LIMIT
  {
  }

  /** Every delay: base times two to the attempt before, and nothing below the first attempt, as a
      64-bit signed integer; one that wraps around to zero or below is not waited for. */
  lemma DelayIs(base: nat, attempt: int)
    ensures -0x8000_0000_0000_0000 <= Delay(base, attempt) < 0x8000_0000_0000_0000
    ensures (Delay(base, attempt) - (if attempt >= 1 then base * Pow2(attempt - 1) else 0)) % 0x1_0000_0000_0000_0000 == 0
    ensures Wait(base, attempt) == if Delay(base, attempt) > 0 then Delay(base, attempt) else 0
  {
    WrapModular(base * Factor(attempt));
  }

  lemma WrapModular(x: int)
    ensures (Wrap64(x) - x) % (2 * INT64_LIMIT) == 0
  {
    var y, m := x + INT64_LIMIT, 2 * INT64_LIMIT;
    assert y == y / m * m + y % m;
    assert Wrap64(x) - x == -(y / m) * m;
    assert (-(y / m) * m) % m == 0;
  }

  /** No delay of a message with first attempt a >= 1 and attempt budget m overflows, for any
      outcome of the sends, exactly if the last one does not. */
  lemma NoOverflowIff(base: nat, first: int, max: int)
    requires 1 <= first < max
    ensures (forall a :: first <= a < max ==> Delay(base, a) == base * Factor(a))
       <==> base * Pow2(max - 2) < 0x8000_0000_0000_0000
  {
    if base * Pow2(max - 2) < INT64_LIMIT {
      forall a | first <= a < max ensures Delay(base, a) == base * Factor(a) {
        Pow2Monotone(a - 1, max - 2);
        MulMonotone(base, Pow2(a - 1), Pow2(max - 2));
        WrapExact(base * Factor(a));
      }
    } else {
      WrapExact(base * Factor(max - 1));
      assert Delay(base, max - 1) != base * Factor(max - 1);
    }
  }

  /** Without overflow, the wait of the k-th retry is base * 2^(a-1) * 2^(k-1). */
  lemma WaitTerm(base: nat, first: int, max: int, k: nat)
    requires 1 <= first && 1 <= k && first + k <= max && base * Pow2(max - 2) < INT64_LIMIT
    ensures Wait(base, first + k - 1) == base * Pow2(first - 1) * Pow2(k - 1)
  {
    NoOverflowIff(base, first, max);
    Pow2Add(first - 1, k - 1);
    MulAssociative(base, Pow2(first - 1), Pow2(k - 1));
    assert Delay(base, first + k - 1) == base * Factor(first + k - 1);
  }

  lemma MulAssociative(a: nat, b: nat, c: nat)
    ensures a * (b * c) == a * b * c
  {
  }

  lemma GeometricStep(unit: nat, prev: nat)
    ensures unit * (prev - 1) + unit * prev == unit * (2 * prev - 1)
  {
  }

  /** Without overflow, k retries from attempt a wait base * 2^(a-1) * (2^k - 1) in total. */
  lemma {:induction false} GeometricWait(base: nat, first: int, max: int, k: nat)
    requires 1 <= first && first + k <= max && (k > 0 ==> base * Pow2(max - 2) < INT64_LIMIT)
    ensures TotalWait(base, first, k) == base * Pow2(first - 1) * (Pow2(k) - 1)
  {
    if k == 0 {
      assert base * Pow2(first - 1) * 0 == 0;
    } else {
      GeometricWait(base, first, max, k - 1);
      WaitTerm(base, first, max, k);
      GeometricStep(base * Pow2(first - 1), Pow2(k - 1));
    }
  }
}
