/**
 * The clamped four-step counter shared, with identical code, by the
 * integration wizard and the channel configuration page.
 */
module WizardSteps {

  const TotalSteps := 4

  predicate InRange(step: int)
  {
    1 <= step <= TotalSteps
  }

  /** `s => Math.min(s + 1, totalSteps)`. */
  function Next(step: int): (r: int)
    ensures step < TotalSteps ==> r == step + 1
    ensures step >= TotalSteps ==> r == TotalSteps
  {
    if step + 1 < TotalSteps then step + 1 else TotalSteps
  }

  /** `s => Math.max(s - 1, 1)`. */
  function Prev(step: int): (r: int)
    ensures step > 1 ==> r == step - 1
    ensures step <= 1 ==> r == 1
  {
    if step - 1 > 1 then step - 1 else 1
  }

  /** Both moves keep the step in [1, 4]; next at 4 and back at 1 change nothing. */
  lemma MovesStayInRange(step: int)
    requires InRange(step)
    ensures InRange(Next(step)) && InRange(Prev(step))
    ensures step == TotalSteps ==> Next(step) == step
    ensures step == 1 ==> Prev(step) == step
  {
  }

  /** Back undoes next below the last step, and next undoes back above the first. */
  lemma NextPrevUndo(step: int)
    requires InRange(step)
    ensures step < TotalSteps ==> Prev(Next(step)) == step
    ensures step > 1 ==> Next(Prev(step)) == step
  {
  }

  /** A button press on the footer: `true` is next, `false` is back. */
  function Run(step: int, moves: seq<bool>): int
    decreases |moves|
  {
    if moves == [] then step else Run(if moves[0] then Next(step) else Prev(step), moves[1..])
  }

  /** Any run of presses from a step in range ends in range. */
  lemma {:induction false} RunStaysInRange(step: int, moves: seq<bool>)
    requires InRange(step)
    ensures InRange(Run(step, moves))
    decreases |moves|
  {
    if moves != [] {
      MovesStayInRange(step);
      RunStaysInRange(if moves[0] then Next(step) else Prev(step), moves[1..]);
    }
  }

  /** Pressing next three times from the first step reaches the last one, and more presses stay there. */
  lemma {:induction false} ThreeNextsReachTheEnd(extra: nat)
    ensures Run(1, seq(3 + extra, i => true)) == TotalSteps
  {
    var moves := seq(3 + extra, i => true);
    assert moves[1..] == seq(2 + extra, i => true);
    assert moves[1..][1..] == seq(1 + extra, i => true);
    assert moves[1..][1..][1..] == seq(extra, i => true);
    assert Run(1, moves) == Run(2, moves[1..]);
    assert Run(2, moves[1..]) == Run(3, moves[1..][1..]);
    assert Run(3, moves[1..][1..]) == Run(TotalSteps, seq(extra, i => true));
    NextsStayAtTheEnd(extra);
  }

  lemma {:induction false} NextsStayAtTheEnd(n: nat)
    ensures Run(TotalSteps, seq(n, i => true)) == TotalSteps
  {
    if n > 0 {
      assert seq(n, i => true)[1..] == seq(n - 1, i => true);
      NextsStayAtTheEnd(n - 1);
    }
  }

  /** The back button is disabled exactly on the first step. */
  predicate BackDisabled(step: int)
  {
    step == 1
  }

  /** The last step shows Finish in place of Next. */
  predicate ShowsFinish(step: int)
  {
    !(step < TotalSteps)
  }

  /** Within range, Finish shows exactly on step 4. */
  lemma FinishOnlyAtTheEnd(step: int)
    requires InRange(step)
    ensures ShowsFinish(step) <==> step == TotalSteps
    ensures BackDisabled(step) ==> !ShowsFinish(step)
  {
  }
}
