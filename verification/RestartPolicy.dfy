/** The crash back-off of the supervisor (RestartPolicy.java). */
module RestartPolicy {
  const MIN_DELAY_MS := 1000
  const MAX_DELAY_MS := 30000

  function Min(a: int, b: int): int {
    if a < b then a else b
  }

  /** `value << shift` for operands that do not overflow. */
  function ShiftLeft(value: nat, shift: nat): (r: nat) {
    if shift == 0 then value else 2 * ShiftLeft(value, shift - 1)
  }

  /** The delay returned after `failures` earlier failures. */
  function DelayMs(failures: nat): int {
    Min(ShiftLeft(MIN_DELAY_MS, Min(failures, 5)), MAX_DELAY_MS)
  }

  class RestartPolicy {
    var failures: nat

    constructor ()
      ensures failures == 0
    {
      failures := 0;
    }

    method NextDelayMs() returns (delay: int)
      modifies this
      ensures failures == old(failures) + 1
      ensures delay == DelayMs(old(failures))
      ensures MIN_DELAY_MS <= delay <= MAX_DELAY_MS
    {
      var shift := Min(failures, 5);
      DelayIsMonotone(0, failures);
      DelayTable();
      failures := failures + 1;
      delay := Min(ShiftLeft(MIN_DELAY_MS, shift), MAX_DELAY_MS);
    }

    method Reset()
      modifies this
      ensures failures == 0
    {
      failures := 0;
    }
  }

  lemma DelayTable()
    ensures DelayMs(0) == 1000 && DelayMs(1) == 2000 && DelayMs(2) == 4000
    ensures DelayMs(3) == 8000 && DelayMs(4) == 16000
    ensures forall f: nat :: f >= 5 ==> DelayMs(f) == 30000
  {
    assert ShiftLeft(MIN_DELAY_MS, 3) == 8000;
    assert ShiftLeft(MIN_DELAY_MS, 5) == 32000;
  }

  /** Later failures never wait less, and every delay lies between the two bounds. */
  lemma DelayIsMonotone(f: nat, g: nat)
    requires f <= g
    ensures MIN_DELAY_MS <= DelayMs(f) <= DelayMs(g) <= MAX_DELAY_MS
  {
    DelayTable();
  }

  /** Time spent waiting over the first n failures after a reset. */
  function TotalDelayMs(n: nat): int {
    if n == 0 then 0 else TotalDelayMs(n - 1) + DelayMs(n - 1)
  }

  /** Exponential up to the fifth failure, then thirty more seconds for each one. */
  lemma {:induction false} TotalDelayClosedForm(n: nat)
    ensures n <= 5 ==> TotalDelayMs(n) == 1000 * (ShiftLeft(1, n) - 1)
    ensures n > 5 ==> TotalDelayMs(n) == 31000 + 30000 * (n - 5)
  {
    DelayTable();
    if n > 0 {
      TotalDelayClosedForm(n - 1);
    }
    assert ShiftLeft(1, 3) == 8;
    assert ShiftLeft(1, 5) == 32;
  }
}
