/**
 The daily-yield effect re-runs on every change of the building list, not
 only on a new day: once the day counter is past 0, each placement and each
 dismantling pays the farm and raincatcher yields again. `StepAsWritten`
 models the page with that re-run; `Step` keeps the yield on the day tick
 only, which is what the effect's own comment says it is for.
 */
module YieldOnRebuild {
  import opened Opt
  import opened Tiles
  import opened Buildings
  import opened World
  import opened Engine
  import opened Game
  import opened Invariant
  import opened Reachable

  /**
   One event followed, when the building list changed, by the re-run of the
   daily-yield effect. (The effect also watches the started flag, but a run
   starts on day 0, where the effect pays nothing.)
   */
  function StepAsWritten(s: GameState, e: Event): (r: GameState)
    ensures Step(s, e).placed == s.placed ==> r == Step(s, e)
    ensures Step(s, e).placed != s.placed && Step(s, e).started && Step(s, e).days > 0 ==>
      && r.resources.food == Step(s, e).resources.food + CountKind(Step(s, e).placed, Farm)
      && r.resources.water == Step(s, e).resources.water + CountKind(Step(s, e).placed, Raincatcher)
    ensures !(Step(s, e).started && Step(s, e).days > 0) ==> r == Step(s, e)
    ensures r.(resources := Step(s, e).resources) == Step(s, e)
    ensures r.resources.(food := Step(s, e).resources.food, water := Step(s, e).resources.water) == Step(s, e).resources
  {
    var t := Step(s, e);
    if t.placed != s.placed then DailyYield(t) else t
  }

  /** The page as written keeps the state invariant: the extra yield only adds to food and water. */
  lemma StepAsWrittenPreservesValid(s: GameState, e: Event)
    requires Valid(s)
    ensures Valid(StepAsWritten(s, e))
  {
    StepPreservesValid(s, e);
    YieldPreservesValid(Step(s, e));
  }

  /** The events applied in order, each one by the page as written. */
  function RunAsWritten(s: GameState, es: seq<Event>): GameState
    decreases |es|
  {
    if es == [] then s else RunAsWritten(StepAsWritten(s, es[0]), es[1..])
  }

  /** Every state the page as written reaches from a valid state is valid too. */
  lemma {:induction false} RunAsWrittenPreservesValid(s: GameState, es: seq<Event>)
    requires Valid(s)
    ensures Valid(RunAsWritten(s, es))
    decreases |es|
  {
    if es != [] {
      StepAsWrittenPreservesValid(s, es[0]);
      RunAsWrittenPreservesValid(StepAsWritten(s, es[0]), es[1..]);
    }
  }

  /** Every state the page as written can reach keeps the invariant as well. */
  lemma ReachableAsWrittenValid(n: EntropySeed, es: seq<Event>)
    ensures Valid(RunAsWritten(Initial(n), es))
  {
    InitialValid(n);
    RunAsWrittenPreservesValid(Initial(n), es);
  }

  /** A run on day 1 with one farm, build mode on, a wall selected and the ghost on free floor at (0, 0). */
  function FarmOnDayOne(): (s: GameState)
    ensures s.started && s.days == 1 && s.resources.food == 10
  {
    var seed := WorldSeed("Aliens", "Runners", "Dentist", 0, Resources(10, 10, 10, 5, 5), 50, 50, 0);
    GameState(seed, true, 50, 50, Resources(10, 10, 10, 5, 5), 1, false,
              true, Some(Buildings.Wall), [PlacedBuilding(0, Farm, 5, 5, 0)], Some(Pos(0, 0)), 0,
              seq(MapH, _ => seq(MapW, _ => Floor)), Pos(2, 2), 1)
  }

  /** As written, placing a wall on day 1 pays the farm's food a second time that day. */
  lemma PlacingPaysYieldAsWritten()
    ensures StepAsWritten(FarmOnDayOne(), Click).resources.food == FarmOnDayOne().resources.food + 1
    ensures Step(FarmOnDayOne(), Click).resources.food == FarmOnDayOne().resources.food
  {
    var s := FarmOnDayOne();
    assert PlacementSucceeds(s, 0, 0);
    var t := Step(s, Click);
    assert t.placed == s.placed + [PlacedBuilding(1, Buildings.Wall, 0, 0, 0)];
    assert t.placed != s.placed by {
      assert |t.placed| != |s.placed|;
    }
    assert t.placed[1..][1..] == [];
    assert CountKind(t.placed, Farm) == 1;
  }

  /**
   In the model, food and water change only through a day tick, a movement
   key (a pickup), a choice or a new run; building and dismantling never
   touch them.
   */
  lemma FoodAndWaterOnlyFromTicksPickupsAndChoices(s: GameState, e: Event)
    requires !e.DayTick? && !e.Choice? && !e.NewRun?
    requires !(e.KeyDown? && DirOf(e.key).Some?)
    ensures Step(s, e).resources.food == s.resources.food
    ensures Step(s, e).resources.water == s.resources.water
  {
    match e
    case KeyDown(k) =>
      StepKeyDown(s, k);
      if s.started && s.buildMode && k == KeyX && s.ghostCell.Some? {
        var g := s.ghostCell.value;
        var r := DismantleAt(s, g.x, g.y);
        assert r.resources.food == s.resources.food;
      }
    case Click =>
      StepClick(s);
      if s.started && s.buildMode && s.ghostCell.Some? {
        var g := s.ghostCell.value;
        var r := PlaceSelectedAt(s, g.x, g.y);
        assert r.resources.food == s.resources.food;
      }
    case RerollSeed(n) =>
      StepReroll(s, n);
      var r := Step(s, e);
      assert r.(seed := s.seed, grid := s.grid) == s;
    case _ =>
      StepUi(s, e);
  }
}
