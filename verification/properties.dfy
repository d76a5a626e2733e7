/** Properties of the game rules that relate several calls. */
module Properties {
  import opened Tiles
  import opened Buildings
  import opened Engine
  import opened Game
  import opened Invariant

  // ---------------------------------------------------------------------------
  // Building: placing and dismantling

  /**
   Dismantling what was just placed restores the building list and leaves
   the player out of pocket: the refund is below the cost.
   */
  lemma PlaceThenDismantle(s: GameState, x: int, y: int)
    requires Valid(s) && PlacementSucceeds(s, x, y)
    ensures var r := DismantleAt(PlaceSelectedAt(s, x, y), x, y);
      && r.placed == s.placed
      && r.resources.scrap == s.resources.scrap - Cost(s.selected.value) + Refund(Cost(s.selected.value))
      && r.resources.scrap < s.resources.scrap
  {
    var p := PlaceSelectedAt(s, x, y);
    var n := |s.placed|;
    var k := FindBuilding(p.placed, x, y).value;
    assert k == n;
    assert DistinctIds(p.placed) by {
      forall i, j | 0 <= i < j < |p.placed|
        ensures p.placed[i].id != p.placed[j].id
      {
        if j == n {
          assert p.placed[i] == s.placed[i];
        }
      }
    }
    assert p.placed[..n] + p.placed[n + 1..] == s.placed;
    RefundBelowCost(s.selected.value);
  }

  /** With no building at a cell, dismantling there changes nothing, whatever the state. */
  lemma DismantleEmptyCell(s: GameState, x: int, y: int)
    requires forall i :: 0 <= i < |s.placed| ==> !IsAt(s.placed[i], x, y)
    ensures DismantleAt(s, x, y) == s
  {
  }

  // ---------------------------------------------------------------------------
  // Movement: the one-shot pickup

  /** Events that stay inside one run: everything except a reroll and a new run. */
  predicate WithinRun(e: Event) {
    !e.RerollSeed? && !e.NewRun?
  }

  ghost predicate FloorKept(g: Grid, g': Grid) {
    forall y, x :: InBounds(x, y) && g[y][x] == Floor ==> g'[y][x] == Floor
  }

  /** Within a run no event turns a floor cell into anything else. */
  lemma StepKeepsFloor(s: GameState, e: Event)
    requires WithinRun(e)
    ensures FloorKept(s.grid, Step(s, e).grid)
  {
    match e
    case KeyDown(k) =>
      StepKeyDown(s, k);
      if s.started && k != KeyB && !s.buildMode && DirOf(k).Some? {
        assert FloorKept(s.grid, Move(s, DirOf(k).value).grid);
      }
    case Click => StepClick(s);
    case DayTick => StepDayTick(s);
    case Choice(share) => StepChoice(s, share);
    case _ => StepUi(s, e);
  }

  lemma {:induction false} RunKeepsFloor(s: GameState, es: seq<Event>)
    requires forall i :: 0 <= i < |es| ==> WithinRun(es[i])
    ensures FloorKept(s.grid, Run(s, es).grid)
    decreases |es|
  {
    if es != [] {
      StepKeepsFloor(s, es[0]);
      RunKeepsFloor(Step(s, es[0]), es[1..]);
    }
  }

  /**
   Entering a resource cell turns it into floor and pays +1 food, water and
   scrap; however the run goes on, entering that cell again pays nothing.
   */
  lemma PickupIsOneShot(s: GameState, d: Dir, es: seq<Event>, d2: Dir)
    requires var t := Target(s.player, d); !Blocked(s, t) && s.grid[t.y][t.x] == Resource
    requires forall i :: 0 <= i < |es| ==> WithinRun(es[i])
    ensures var t := Target(s.player, d);
      var s1 := Move(s, d);
      && s1.grid[t.y][t.x] == Floor
      && s1.resources.food == s.resources.food + 1
      && s1.resources.water == s.resources.water + 1
      && s1.resources.scrap == s.resources.scrap + 1
    ensures var t := Target(s.player, d);
      var s2 := Run(Move(s, d), es);
      Target(s2.player, d2) == t ==> Move(s2, d2).resources == s2.resources
  {
    var t := Target(s.player, d);
    var s1 := Move(s, d);
    RunKeepsFloor(s1, es);
  }

  /** In build mode no key moves the player or collects anything. */
  lemma BuildModeIgnoresMovement(s: GameState, k: Key)
    requires s.buildMode && k != KeyB
    ensures OnKey(s, k).player == s.player
    ensures OnKey(s, k).grid == s.grid
  {
  }

  // ---------------------------------------------------------------------------
  // Meters and the moral choice

  /** Meters in [0, 100] stay there under every event, not only under choices. */
  lemma StepKeepsMeters(s: GameState, e: Event)
    requires MetersInRange(s)
    ensures MetersInRange(Step(s, e))
  {
    match e
    case KeyDown(k) =>
      StepKeyDown(s, k);
      if s.started && k != KeyB && s.buildMode && k == KeyX && s.ghostCell.Some? {
        var g := s.ghostCell.value;
        assert DismantleAt(s, g.x, g.y).morality == s.morality;
      }
    case Click =>
      StepClick(s);
      if s.started && s.buildMode && s.ghostCell.Some? {
        var g := s.ghostCell.value;
        assert PlaceSelectedAt(s, g.x, g.y).(placed := s.placed, resources := s.resources, nextId := s.nextId) == s;
      }
    case DayTick =>
      StepDayTick(s);
      if s.started {
        var t := s.(days := s.days + 1);
        assert DailyYield(t).(resources := t.resources) == t;
      }
    case RerollSeed(n) =>
      StepReroll(s, n);
    case NewRun(n) =>
      StepNewRun(s, n);
      if s.started {
        var r := ResetRun(s, n);
        assert MetersInRange(r);
      }
    case Choice(share) =>
      StepChoice(s, share);
    case _ =>
      StepUi(s, e);
  }

  /** Any number of events, for instance a thousand "share" choices in a row, keeps the meters in [0, 100]. */
  lemma {:induction false} MetersStayInRange(s: GameState, es: seq<Event>)
    requires MetersInRange(s)
    ensures MetersInRange(Run(s, es))
    decreases |es|
  {
    if es != [] {
      StepKeepsMeters(s, es[0]);
      MetersStayInRange(Step(s, es[0]), es[1..]);
    }
  }

  /** The worked example: from (50, 50, 10 food, 10 water), sharing gives (56, 47, 8, 9) and refusing (44, 54, 10, 10). */
  lemma ChoiceExamples(s: GameState)
    requires s.morality == 50 && s.survival == 50 && s.resources.food == 10 && s.resources.water == 10
    ensures var r := Choose(s, true);
      r.morality == 56 && r.survival == 47 && r.resources.food == 8 && r.resources.water == 9
    ensures var r := Choose(s, false);
      r.morality == 44 && r.survival == 54 && r.resources.food == 10 && r.resources.water == 10
  {
  }

  // ---------------------------------------------------------------------------
  // Daily yield

  /** Two farms and a raincatcher: a day tick pays 2 food and 1 water. */
  lemma DayTickExample(s: GameState)
    requires s.started && |s.placed| == 3
    requires s.placed[0].buildingId == Farm && s.placed[1].buildingId == Farm && s.placed[2].buildingId == Raincatcher
    ensures Step(s, DayTick).resources.food == s.resources.food + 2
    ensures Step(s, DayTick).resources.water == s.resources.water + 1
  {
    var bs := s.placed;
    assert bs[1..][1..] == [bs[2]] && [bs[2]][1..] == [];
    assert CountKind([bs[2]], Farm) == 0 && CountKind([bs[2]], Raincatcher) == 1;
    assert CountKind(bs[1..], Farm) == 1 && CountKind(bs[1..], Raincatcher) == 1;
    assert CountKind(bs, Farm) == 2 && CountKind(bs, Raincatcher) == 1;
  }
}
