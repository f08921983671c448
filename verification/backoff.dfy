/** The exponential backoff policy of the error-recovery action, in whole
    seconds: the wait before retry number `attempt` is
    `min(maxSeconds, minSeconds * factor^attempt)`, without jitter. */
module Backoff {

  datatype Policy = Policy(minSeconds: nat, maxSeconds: nat, factor: nat)

  /** The policy the error-recovery action is built with: 5 s minimum,
      one minute maximum, factor 2, no jitter. */
  const Default: Policy := Policy(5, 60, 2)

  function Pow(base: nat, exp: nat): nat
  {
    if exp == 0 then 1 else base * Pow(base, exp - 1)
  }

  function Min(a: int, b: int): int
  {
    if a <= b then a else b
  }

  /** The least number of seconds that must elapse before retry `attempt`. */
  function Wait(p: Policy, attempt: nat): (w: nat)
    ensures w <= p.maxSeconds
    ensures w <= p.minSeconds * Pow(p.factor, attempt)
  {
    Min(p.maxSeconds, p.minSeconds * Pow(p.factor, attempt))
  }

  /** The default policy gives 5, 10, 20, 40 and 60 seconds for the first
      five attempts. */
  lemma DefaultSchedule()
    ensures Wait(Default, 0) == 5
    ensures Wait(Default, 1) == 10
    ensures Wait(Default, 2) == 20
    ensures Wait(Default, 3) == 40
    ensures Wait(Default, 4) == 60
  {
  }

  lemma {:induction false} PowMonotone(base: nat, a: nat, b: nat)
    requires base >= 1
    requires a <= b
    ensures Pow(base, a) <= Pow(base, b)
  {
    if a < b {
      PowMonotone(base, a, b - 1);
      assert Pow(base, b) == base * Pow(base, b - 1);
    }
  }

  /** From the fifth attempt on, the default policy waits the full minute. */
  lemma DefaultCapped(attempt: nat)
    requires attempt >= 4
    ensures Wait(Default, attempt) == 60
  {
    PowMonotone(2, 4, attempt);
    assert Pow(2, 4) == 16;
  }

  /** A policy whose factor is at least one never waits less for a later
      attempt than for an earlier one. */
  lemma WaitMonotone(p: Policy, a: nat, b: nat)
    requires p.factor >= 1
    requires a <= b
    ensures Wait(p, a) <= Wait(p, b)
  {
    PowMonotone(p.factor, a, b);
    MulMonotone(p.minSeconds, Pow(p.factor, a), Pow(p.factor, b));
  }

  lemma MulMonotone(m: nat, x: nat, y: nat)
    requires x <= y
    ensures m * x <= m * y
  {
  }

  /** Every wait of a policy whose factor is at least one lies between the
      policy's minimum and maximum (the maximum wins when it is the smaller). */
  lemma WaitBounds(p: Policy, attempt: nat)
    requires p.factor >= 1
    ensures Min(p.minSeconds, p.maxSeconds) <= Wait(p, attempt) <= p.maxSeconds
  {
    PowMonotone(p.factor, 0, attempt);
    MulMonotone(p.minSeconds, 1, Pow(p.factor, attempt));
  }
}
