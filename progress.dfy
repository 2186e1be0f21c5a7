/** The simulated progress bars of the planner. Both flows keep a local counter that a
    `setInterval` callback raises by a fixed step; the callback clears the interval on the
    tick on which the counter reaches 100, so no later tick happens. */
module Progress {

  /** The counter reaches or passes this value on its last tick. */
  const Complete: nat := 100
  /** `progress += 20` in the creation flow. */
  const CreateStep: nat := 20
  /** `progress += 25` in the upload flow. */
  const UploadStep: nat := 25

  /** One call of the interval callback: it fires only while the counter is below 100. */
  function Tick(p: nat, step: nat): nat {
    if p < Complete then p + step else p
  }

  /** The value of the counter after `k` ticks of the interval, starting from 0: it rises
      by at most `step` per tick and never overshoots 100 by a whole step. */
  function AfterTicks(step: nat, k: nat): (r: nat)
    ensures r <= step * k
    ensures r < Complete + step
  {
    if k == 0 then 0
    else
      assert step * (k - 1) + step == step * k;
      Tick(AfterTicks(step, k - 1), step)
  }

  /** The number of ticks until the counter reaches 100: the ceiling of 100 / step. */
  function TicksNeeded(step: nat): (n: nat)
    requires step > 0
    ensures step * (n - 1) < Complete <= step * n
  {
    var n := (Complete + step - 1) / step;
    assert n * step <= Complete + step - 1 < (n + 1) * step;
    n
  }

  /** Multiplication by a natural number is monotone. */
  lemma MulMonotone(m: nat, a: nat, b: nat)
    ensures a <= b ==> m * a <= m * b
  {
  }

  /** The counter rises by exactly `step` per tick until the tick that reaches 100, then stays. */
  lemma {:induction false} AfterTicksValue(step: nat, k: nat)
    requires step > 0
    ensures k <= TicksNeeded(step) ==> AfterTicks(step, k) == step * k
    ensures k >= TicksNeeded(step) ==> AfterTicks(step, k) == step * TicksNeeded(step)
  {
    var n := TicksNeeded(step);
    if k > 0 {
      AfterTicksValue(step, k - 1);
      if k <= n {
        MulMonotone(step, k - 1, n - 1);
        assert AfterTicks(step, k - 1) == step * (k - 1) < Complete;
        assert step * (k - 1) + step == step * k;
      } else {
        assert AfterTicks(step, k - 1) == step * n >= Complete;
      }
    }
  }

  /** The interval is still running after `k` ticks exactly when fewer than the needed ticks fired. */
  lemma RunningIff(step: nat, k: nat)
    requires step > 0
    ensures AfterTicks(step, k) < Complete <==> k < TicksNeeded(step)
  {
    var n := TicksNeeded(step);
    AfterTicksValue(step, k);
    if k < n {
      MulMonotone(step, k, n - 1);
    }
  }

  /** The creation counter: 0, 20, 40, 60, 80, 100, finished after the fifth tick. */
  lemma CreationFinishesAfterFiveTicks(k: nat)
    ensures TicksNeeded(CreateStep) == 5
    ensures AfterTicks(CreateStep, k) == CreateStep * (if k <= 5 then k else 5)
    ensures AfterTicks(CreateStep, k) <= Complete
    ensures AfterTicks(CreateStep, k) == Complete <==> k >= 5
  {
    AfterTicksValue(CreateStep, k);
    RunningIff(CreateStep, k);
  }

  /** The upload counter: 0, 25, 50, 75, 100, finished after the fourth tick. */
  lemma UploadFinishesAfterFourTicks(k: nat)
    ensures TicksNeeded(UploadStep) == 4
    ensures AfterTicks(UploadStep, k) == UploadStep * (if k <= 4 then k else 4)
    ensures AfterTicks(UploadStep, k) <= Complete
    ensures AfterTicks(UploadStep, k) == Complete <==> k >= 4
  {
    AfterTicksValue(UploadStep, k);
    RunningIff(UploadStep, k);
  }
}
