/**
 Every state the page can reach is valid: each event keeps the invariant,
 so any sequence of events from the first screen does.
 */
module Reachable {
  import opened World
  import opened Engine
  import opened Game
  import opened Invariant

  /** Every event keeps the state invariant. */
  lemma StepPreservesValid(s: GameState, e: Event)
    requires Valid(s)
    ensures Valid(Step(s, e))
  {
    match e
    case KeyDown(k) =>
      StepKeyDown(s, k);
      OnKeyPreservesValid(s, k);
    case Click =>
      StepClick(s);
      ClickPreservesValid(s);
    case DayTick =>
      StepDayTick(s);
      DayTickPreservesValid(s);
    case RerollSeed(n) =>
      StepReroll(s, n);
      RerollPreservesValid(s, n);
    case NewRun(n) =>
      StepNewRun(s, n);
      if s.started {
        ResetPreservesValid(s, n);
      }
    case Choice(share) =>
      StepChoice(s, share);
      if s.moralOpen {
        ChoicePreservesValid(s, share);
      }
    case _ =>
      StepUi(s, e);
      SameLayoutValid(s, Step(s, e));
  }

  /** Every state reached from a valid state by any events is valid. */
  lemma {:induction false} RunPreservesValid(s: GameState, es: seq<Event>)
    requires Valid(s)
    ensures Valid(Run(s, es))
    decreases |es|
  {
    if es != [] {
      StepPreservesValid(s, es[0]);
      RunPreservesValid(Step(s, es[0]), es[1..]);
    }
  }

  /** Every state the page can reach keeps its buildings apart on floor, its counters non-negative and its player and meters in range. */
  lemma ReachableValid(n: EntropySeed, es: seq<Event>)
    ensures Valid(Run(Initial(n), es))
  {
    InitialValid(n);
    RunPreservesValid(Initial(n), es);
  }
}
