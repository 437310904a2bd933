/**
 * Software postscaling, the rule shared by the Timer1 tick interrupt and the
 * two TMR2 (SCCP1) interrupts: each hardware period match increments a 16-bit
 * counter, and when the counter reaches the configured maximum it is reset
 * and the user callback is called once.
 */
module Postscale {
  import opened Common

  /**
   * One period match: `counter++; if (counter >= countmax) { counter = 0; fire }`.
   * The counter is a 16-bit uint_fast16_t, so the increment wraps.
   */
  function Tick(counter: u16, countmax: u16): (r: (u16, bool))
    ensures r.1 ==> r.0 == 0
    ensures countmax > 0 ==> r.0 < countmax
    ensures counter + 1 < countmax ==> r == (counter + 1, false)
    ensures counter + 1 == countmax ==> r == (0, true)
    ensures countmax <= counter < 0xFFFF ==> r == (0, true)
    ensures counter == 0xFFFF ==> r == (0, countmax == 0)
  {
    var next := (counter + 1) % TwoTo16;
    if next >= countmax then (0, true) else (next, false)
  }

  /** The counter after n period matches, and how many times the callback fired. */
  function Run(counter: u16, countmax: u16, n: nat): (u16, nat)
  {
    if n == 0 then (counter, 0)
    else
      var (c, fired) := Run(counter, countmax, n - 1);
      var (c', fire) := Tick(c, countmax);
      (c', fired + if fire then 1 else 0)
  }

  /**
   * After n period matches from a counter below a maximum k >= 1, the counter
   * and the number of callbacks are the remainder and quotient of counter + n
   * by k, stated without division.
   */
  lemma {:induction false} RunQuotient(counter: u16, k: u16, n: nat) returns (q: nat, r: u16)
    requires 1 <= k && counter < k
    ensures Run(counter, k, n) == (r, q)
    ensures counter + n == q * k + r && r < k
  {
    if n == 0 {
      q, r := 0, counter;
    } else {
      var q', r' := RunQuotient(counter, k, n - 1);
      assert Run(counter, k, n) == (Tick(r', k).0, q' + if Tick(r', k).1 then 1 else 0);
      if r' + 1 == k {
        q, r := q' + 1, 0;
        assert (q' + 1) * k == q' * k + k;
      } else {
        q, r := q', r' + 1;
      }
    }
  }

  /**
   * From a counter below a maximum k >= 1, n period matches leave the counter
   * at (counter + n) mod k and fire the callback (counter + n) div k times.
   */
  lemma RunClosedForm(counter: u16, k: u16, n: nat)
    requires 1 <= k && counter < k
    ensures Run(counter, k, n) == ((counter + n) % k, (counter + n) / k)
  {
    var q, r := RunQuotient(counter, k, n);
    DivModUnique(counter + n, k, q, r);
  }

  /** From a reset counter, N period matches give floor(N / k) callbacks and leave the counter at N mod k. */
  lemma RunFromReset(k: u16, n: nat)
    requires 1 <= k
    ensures Run(0, k, n) == (n % k, n / k)
  {
    RunClosedForm(0, k, n);
  }
}
