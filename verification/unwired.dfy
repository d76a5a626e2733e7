/**
 The page hands `onMouseMove`, `onClick` and `onContextMenu` to the map
 canvas, but the canvas component declares no such properties and attaches
 no listener to its canvas element. As shipped, hover, click and right
 click never reach the page's handlers, so the ghost cell is never set and
 nothing can ever be built or dismantled. `StepShipped` models the page with
 the pointer events dropped; `Step` models it with the handlers wired, as
 the page's code evidently intends.
 */
module CanvasUnwired {
  import opened Opt
  import opened Buildings
  import opened World
  import opened Engine
  import opened Game

  /** The events the canvas would have to forward. */
  predicate PointerEvent(e: Event) {
    e.Hover? || e.Click? || e.RightClick?
  }

  /** One event as the shipped page sees it: pointer events are lost, every other event is handled. */
  function StepShipped(s: GameState, e: Event): (r: GameState)
    ensures PointerEvent(e) ==> r == s
    ensures !PointerEvent(e) ==> r == Step(s, e)
  {
    if PointerEvent(e) then s else Step(s, e)
  }

  /** The events applied in order by the shipped page. */
  function RunShipped(s: GameState, es: seq<Event>): GameState
    decreases |es|
  {
    if es == [] then s else RunShipped(StepShipped(s, es[0]), es[1..])
  }

  /** No ghost on the map and no building on it. */
  predicate NothingBuilt(s: GameState) {
    s.ghostCell == None && s.placed == []
  }

  /** Without pointer events no event sets a ghost, so none places or removes a building. */
  lemma StepShippedNothingBuilt(s: GameState, e: Event)
    requires NothingBuilt(s)
    ensures NothingBuilt(StepShipped(s, e))
  {
    if !PointerEvent(e) {
      match e
      case KeyDown(k) =>
        StepKeyDown(s, k);
      case DayTick =>
        StepDayTick(s);
      case Choice(share) =>
        StepChoice(s, share);
      case RerollSeed(n) =>
        StepReroll(s, n);
        assert OnReroll(s, n).(seed := s.seed, grid := s.grid) == s;
      case NewRun(n) =>
        StepNewRun(s, n);
      case _ =>
    }
  }

  /** Any run of the shipped page from a state with nothing built keeps nothing built. */
  lemma {:induction false} RunShippedNothingBuilt(s: GameState, es: seq<Event>)
    requires NothingBuilt(s)
    ensures NothingBuilt(RunShipped(s, es))
    decreases |es|
  {
    if es != [] {
      StepShippedNothingBuilt(s, es[0]);
      RunShippedNothingBuilt(StepShipped(s, es[0]), es[1..]);
    }
  }

  /** As shipped, no sequence of events from the first screen ever places a building. */
  lemma ShippedNeverBuilds(n: EntropySeed, es: seq<Event>)
    ensures RunShipped(Initial(n), es).placed == []
  {
    RunShippedNothingBuilt(Initial(n), es);
  }

  /**
   With the handlers wired, hovering a placeable cell in build mode and
   clicking places the selected building there. The shipped page ignores
   the same two events.
   */
  lemma HoverThenClickPlaces(s: GameState, x: int, y: int)
    requires s.started && s.buildMode
    requires PlacementSucceeds(s, x, y)
    ensures Run(s, [Hover(x, y), Click]).placed == s.placed + [PlacedBuilding(s.nextId, s.selected.value, x, y, s.rotation)]
    ensures RunShipped(s, [Hover(x, y), Click]) == s
  {
    var h := Step(s, Hover(x, y));
    assert h == s.(ghostCell := Some(Pos(x, y)));
    assert PlacementSucceeds(h, x, y);
    StepClick(h);
    var r := PlaceSelectedAt(h, x, y);
    assert r.placed == r.placed[..|h.placed|] + [r.placed[|h.placed|]];
    assert [Hover(x, y), Click][1..] == [Click];
    assert [Click][1..] == [];
  }
}
