/**
  The bounded step counter behind both wizards: `handleNext` moves up only
  below the last step and `handlePrevious` moves down only above step 1.
*/
module Stepper {

  /** `if (step < total) step + 1`. */
  function Next(step: int, total: int): int {
    if step < total then step + 1 else step
  }

  /** `if (step > 1) step - 1`. */
  function Previous(step: int): int {
    if step > 1 then step - 1 else step
  }

  /** The button beside Previous: Next below the last step, Submit at it. */
  datatype Primary = NextButton | SubmitButton

  datatype Move = Forward | Back

  function Apply(step: int, total: int, m: Move): int {
    match m
    case Forward => Next(step, total)
    case Back => Previous(step)
  }

  /** The step reached after a run of button presses. */
  function Run(step: int, total: int, moves: seq<Move>): int
    decreases |moves|
  {
    if moves == [] then step else Run(Apply(step, total, moves[0]), total, moves[1..])
  }

  /** One press moves by at most one step and never leaves [1, total]. */
  lemma {:induction false} ApplyInRange(step: int, total: int, m: Move)
    requires 1 <= step <= total
    ensures 1 <= Apply(step, total, m) <= total
    ensures Apply(step, total, m) - step in {-1, 0, 1}
  {
  }

  /** A wizard that starts inside [1, total] stays there, whatever is pressed. */
  lemma {:induction false} RunInRange(step: int, total: int, moves: seq<Move>)
    requires 1 <= step <= total
    ensures 1 <= Run(step, total, moves) <= total
    decreases |moves|
  {
    if moves != [] {
      ApplyInRange(step, total, moves[0]);
      RunInRange(Apply(step, total, moves[0]), total, moves[1..]);
    }
  }

  /** Previous undoes Next below the last step, and Next undoes Previous above the first. */
  lemma NextPreviousInverse(step: int, total: int)
    requires 1 <= step <= total
    ensures step < total ==> Previous(Next(step, total)) == step
    ensures step > 1 ==> Next(Previous(step), total) == step
  {
  }

  /** Next is stuck exactly at the last step, Previous exactly at the first. */
  lemma Fixpoints(step: int, total: int)
    requires 1 <= step <= total
    ensures Next(step, total) == step <==> step == total
    ensures Previous(step) == step <==> step == 1
  {
  }

  function Forwards(n: nat): (r: seq<Move>)
    ensures |r| == n
    ensures forall i :: 0 <= i < n ==> r[i] == Forward
  {
    seq(n, _ => Forward)
  }

  /** Pressing Next `total - 1` times from step 1 reaches the last step. */
  lemma {:induction false} ForwardsReachLast(step: int, total: int)
    requires 1 <= step <= total
    ensures Run(step, total, Forwards(total - step)) == total
    decreases total - step
  {
    if step < total {
      var moves := Forwards(total - step);
      assert moves[1..] == Forwards(total - (step + 1));
      ForwardsReachLast(step + 1, total);
    }
  }
}
