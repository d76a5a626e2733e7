/**
 The game page as a state machine: every key press, pointer action, button,
 timer tick and dialog choice is an `Event`, and `Step` applies one of them.
 Timers and UI callbacks of the page become events sent by the caller.
 */
module Game {
  import opened Opt
  import opened Tiles
  import opened Buildings
  import opened World
  import opened MapGen
  import opened Engine

  /** The key codes the keydown handler distinguishes. */
  datatype Key =
    | KeyB | Escape | KeyR | KeyX
    | ArrowUp | KeyW | ArrowDown | KeyS | ArrowLeft | KeyA | ArrowRight | KeyD
    | OtherKey

  datatype Event =
    | KeyDown(key: Key)
    | Hover(x: int, y: int)        // pointer over the canvas, already converted to a cell
    | Click                        // left click on the canvas
    | RightClick                   // context menu on the canvas
    | ToolbarToggle                // the toolbar's Enter/Exit button
    | ToolbarSelect(id: BuildingId)
    | DayTick                      // the 15-second day timer
    | DilemmaTick                  // the 25-second dilemma timer
    | TriggerDilemma               // the "Trigger Dilemma" button
    | Choice(share: bool)          // one of the dialog's two buttons
    | DismissDialog                // the dialog closed without a choice
    | StartRun
    | RerollSeed(seed: EntropySeed)
    | NewRun(seed: EntropySeed)

  const PlayerStart: Pos := Pos(2, 2)

  /** The direction bound to a key: arrows and WASD. */
  function DirOf(k: Key): (d: Option<Dir>)
    ensures d == Some(Up) <==> k == ArrowUp || k == KeyW
    ensures d == Some(Down) <==> k == ArrowDown || k == KeyS
    ensures d == Some(Left) <==> k == ArrowLeft || k == KeyA
    ensures d == Some(Right) <==> k == ArrowRight || k == KeyD
  {
    match k
    case ArrowUp => Some(Up)
    case KeyW => Some(Up)
    case ArrowDown => Some(Down)
    case KeyS => Some(Down)
    case ArrowLeft => Some(Left)
    case KeyA => Some(Left)
    case ArrowRight => Some(Right)
    case KeyD => Some(Right)
    case _ => None
  }

  /** The page as first shown for an entropy draw: the seed's resources and meters, its map, nothing built. */
  function Initial(n: EntropySeed): (s: GameState)
    ensures !s.started && s.days == 0 && s.placed == [] && !s.buildMode
    ensures s.seed == GenerateWorldSeed(n) && s.resources == s.seed.startingResources
    ensures s.morality == s.seed.baseMorality && s.survival == s.seed.baseSurvival
    ensures s.grid == GameMap(n) && s.player == PlayerStart
    ensures !s.moralOpen && s.selected == None && s.ghostCell == None && s.rotation == 0
  {
    var w := GenerateWorldSeed(n);
    GameState(w, false, w.baseMorality, w.baseSurvival, w.startingResources, 0, false,
              false, None, [], None, 0, GameMap(n), PlayerStart, 0)
  }

  /** The map memo: rebuilt only when the world-seed number changes, so a repeated number keeps the collected map. */
  function MapFor(s: GameState, n: EntropySeed): Grid {
    if n == s.seed.worldSeed then s.grid else GameMap(n)
  }

  /** resetRun: a fresh seed, its resources and meters, day 0, the start cell, no buildings, build mode off. */
  function ResetRun(s: GameState, n: EntropySeed): (r: GameState)
    ensures !r.started && r.days == 0 && r.placed == [] && !r.buildMode && r.player == PlayerStart
    ensures r.seed == GenerateWorldSeed(n) && r.resources == r.seed.startingResources
    ensures r.morality == r.seed.baseMorality && r.survival == r.seed.baseSurvival
    ensures r.selected == None && r.ghostCell == None && r.rotation == 0
    ensures r.grid == MapFor(s, n)
    ensures r.moralOpen == s.moralOpen && r.nextId == s.nextId
  {
    var w := GenerateWorldSeed(n);
    s.(seed := w, morality := w.baseMorality, survival := w.baseSurvival, resources := w.startingResources,
       days := 0, player := PlayerStart, placed := [], buildMode := false, selected := None,
       ghostCell := None, rotation := 0, started := false, grid := MapFor(s, n))
  }

  /**
   The keydown handler, registered only while a run is started. B toggles
   build mode (selecting a wall when nothing is selected, dropping the ghost
   when leaving); in build mode Escape leaves, R rotates, X dismantles under
   the ghost and every other key is ignored; otherwise a direction key moves.
   */
  function OnKey(s: GameState, k: Key): (r: GameState)
    ensures !s.started ==> r == s
    ensures s.started && k == KeyB ==>
      && r.buildMode == !s.buildMode
      && (r.buildMode && s.selected == None ==> r.selected == Some(Buildings.Wall))
      && (!r.buildMode ==> r.ghostCell == None && r.selected == s.selected)
      && r.placed == s.placed && r.player == s.player
    ensures s.started && k == KeyB ==> r.(buildMode := s.buildMode, selected := s.selected, ghostCell := s.ghostCell) == s
    ensures s.started && k == KeyB && !s.buildMode ==> r.ghostCell == s.ghostCell && (s.selected.Some? ==> r.selected == s.selected)
    ensures s.started && s.buildMode && k != KeyB ==> r.player == s.player && r.grid == s.grid && r.resources.food == s.resources.food
    ensures s.started && s.buildMode && k == Escape ==>
      !r.buildMode && r.ghostCell == None && r.(buildMode := s.buildMode, ghostCell := s.ghostCell) == s
    ensures s.started && s.buildMode && k == KeyR ==> r.rotation == Rotate(s.rotation) && r.(rotation := s.rotation) == s
    ensures s.started && s.buildMode && k == KeyX ==>
      r == (if s.ghostCell.Some? then DismantleAt(s, s.ghostCell.value.x, s.ghostCell.value.y) else s)
    ensures s.started && s.buildMode && k !in {KeyB, Escape, KeyR, KeyX} ==> r == s
    ensures s.started && !s.buildMode && k != KeyB && DirOf(k).Some? ==> r == Move(s, DirOf(k).value)
    ensures s.started && !s.buildMode && k != KeyB && DirOf(k) == None ==> r == s
  {
    if !s.started then s
    else if k == KeyB then
      var next := !s.buildMode;
      s.(buildMode := next,
         selected := if next && s.selected.None? then Some(Buildings.Wall) else s.selected,
         ghostCell := if !next then None else s.ghostCell)
    else if s.buildMode then
      match k
      case Escape => s.(buildMode := false, ghostCell := None)
      case KeyR => s.(rotation := Rotate(s.rotation))
      case KeyX =>
        (match s.ghostCell
         case Some(g) => DismantleAt(s, g.x, g.y)
         case None => s)
      case _ => s
    else
      match DirOf(k)
      case Some(d) => Move(s, d)
      case None => s
  }

  /** handleMouseMove: in build mode the ghost follows the pointer's cell. */
  function OnHover(s: GameState, x: int, y: int): (r: GameState)
    ensures s.started && s.buildMode ==> r == s.(ghostCell := Some(Pos(x, y)))
    ensures !(s.started && s.buildMode) ==> r == s
  {
    if s.started && s.buildMode then s.(ghostCell := Some(Pos(x, y))) else s
  }

  /** handleCanvasClick: in build mode, with a ghost and a selection, try to place at the ghost. */
  function OnCanvasClick(s: GameState): (r: GameState)
    ensures s.started && s.buildMode && s.ghostCell.Some? ==>
      r == PlaceSelectedAt(s, s.ghostCell.value.x, s.ghostCell.value.y)
    ensures !(s.started && s.buildMode && s.ghostCell.Some?) ==> r == s
  {
    if !s.started || !s.buildMode then s
    else
      match s.ghostCell
      case None => s
      case Some(g) => if s.selected.Some? then PlaceSelectedAt(s, g.x, g.y) else s
  }

  /** handleContextMenu: in build mode a right click clears the selection and nothing else. */
  function OnContextMenu(s: GameState): (r: GameState)
    ensures s.started && s.buildMode ==> r.selected == None && r.(selected := s.selected) == s
    ensures !(s.started && s.buildMode) ==> r == s
  {
    if s.started && s.buildMode then s.(selected := None) else s
  }

  /** The toolbar's select button: disabled while the scrap does not cover the cost; otherwise select and enter build mode. */
  function OnToolbarSelect(s: GameState, id: BuildingId): (r: GameState)
    ensures s.started && s.resources.scrap >= Cost(id) ==> r.selected == Some(id) && r.buildMode
    ensures !(s.started && s.resources.scrap >= Cost(id)) ==> r == s
    ensures r.(selected := s.selected, buildMode := s.buildMode) == s
  {
    if s.started && s.resources.scrap >= Cost(id) then s.(selected := Some(id), buildMode := true) else s
  }

  /** The day timer: one more day, then the daily-yield effect. */
  function OnDayTick(s: GameState): (r: GameState)
    ensures s.started ==> r.days == s.days + 1
    ensures s.started ==>
      && r.resources.food == s.resources.food + CountKind(s.placed, Farm)
      && r.resources.water == s.resources.water + CountKind(s.placed, Raincatcher)
      && r.resources.(food := s.resources.food, water := s.resources.water) == s.resources
      && r.(days := s.days, resources := s.resources) == s
    ensures !s.started ==> r == s
  {
    if s.started then DailyYield(s.(days := s.days + 1)) else s
  }

  /** Reroll Seed (before the run starts): only the seed and its map are replaced; resources and meters stay. */
  function OnReroll(s: GameState, n: EntropySeed): (r: GameState)
    ensures !s.started ==> r.seed == GenerateWorldSeed(n) && r.(seed := s.seed, grid := s.grid) == s
    ensures !s.started ==> r.grid == MapFor(s, n)
    ensures s.started ==> r == s
  {
    if !s.started then s.(seed := GenerateWorldSeed(n), grid := MapFor(s, n)) else s
  }

  /** The toolbar's build-mode button, shown only while a run is started. */
  function OnToolbarToggle(s: GameState): (r: GameState)
    ensures s.started ==> r.buildMode != s.buildMode
    ensures !s.started ==> r == s
    ensures r.(buildMode := s.buildMode) == s
  {
    if s.started then s.(buildMode := !s.buildMode) else s
  }

  /** The dilemma timer and the trigger button: both open the moral dialog, and only during a run. */
  function OnDilemma(s: GameState): (r: GameState)
    ensures r.moralOpen <==> s.moralOpen || s.started
    ensures r.(moralOpen := s.moralOpen) == s
  {
    if s.started then s.(moralOpen := true) else s
  }

  /** Closing the dialog without choosing. */
  function OnDismiss(s: GameState): (r: GameState)
    ensures !r.moralOpen && r.(moralOpen := s.moralOpen) == s
  {
    s.(moralOpen := false)
  }

  /** The start button on the seed screen: enters the run with the seed's state as it stands. */
  function OnStart(s: GameState): (r: GameState)
    ensures r.started
    ensures r.(started := s.started) == s
  {
    if !s.started then s.(started := true) else s
  }

  /** The dialog's two buttons: they exist only while the dialog is open. */
  function OnChoice(s: GameState, share: bool): (r: GameState)
    ensures s.moralOpen ==> r == Choose(s, share)
    ensures !s.moralOpen ==> r == s
  {
    if s.moralOpen then Choose(s, share) else s
  }

  /** The New Run button, shown only during a run: a reset to a freshly drawn seed. */
  function OnNewRun(s: GameState, n: EntropySeed): (r: GameState)
    ensures !s.started ==> r == s
    ensures s.started ==> !r.started && r.placed == [] && r.days == 0 && r.seed == GenerateWorldSeed(n)
    ensures s.started ==> r.player == PlayerStart && r.resources == r.seed.startingResources
    ensures s.started ==> r.morality == r.seed.baseMorality && r.survival == r.seed.baseSurvival
    ensures s.started ==> !r.buildMode && r.selected == None && r.ghostCell == None && r.rotation == 0
    ensures s.started ==> r.grid == MapFor(s, n) && r.moralOpen == s.moralOpen && r.nextId == s.nextId
  {
    if s.started then ResetRun(s, n) else s
  }

  /** One event applied to the state; events the page cannot deliver in the current screen change nothing. */
  function Step(s: GameState, e: Event): GameState
  {
    match e
    case KeyDown(k) => OnKey(s, k)
    case Hover(x, y) => OnHover(s, x, y)
    case Click => OnCanvasClick(s)
    case RightClick => OnContextMenu(s)
    case ToolbarToggle => OnToolbarToggle(s)
    case ToolbarSelect(id) => OnToolbarSelect(s, id)
    case DayTick => OnDayTick(s)
    case DilemmaTick => OnDilemma(s)
    case TriggerDilemma => OnDilemma(s)
    case Choice(share) => OnChoice(s, share)
    case DismissDialog => OnDismiss(s)
    case StartRun => OnStart(s)
    case RerollSeed(n) => OnReroll(s, n)
    case NewRun(n) => OnNewRun(s, n)
  }

  /** The events of a sequence applied in order. */
  function Run(s: GameState, es: seq<Event>): GameState
    decreases |es|
  {
    if es == [] then s else Run(Step(s, es[0]), es[1..])
  }

  // ---------------------------------------------------------------------------
  // Which handler each event reaches, one event at a time, so that a proof
  // about one event need not unfold the whole dispatch.

  lemma StepKeyDown(s: GameState, k: Key)
    ensures Step(s, KeyDown(k)) == OnKey(s, k)
  {
  }

  lemma StepClick(s: GameState)
    ensures Step(s, Click) == OnCanvasClick(s)
  {
  }

  lemma StepDayTick(s: GameState)
    ensures Step(s, DayTick) == OnDayTick(s)
  {
  }

  lemma StepReroll(s: GameState, n: EntropySeed)
    ensures Step(s, RerollSeed(n)) == OnReroll(s, n)
  {
  }

  lemma StepNewRun(s: GameState, n: EntropySeed)
    ensures Step(s, NewRun(n)) == OnNewRun(s, n)
  {
    var e := NewRun(n);
    assert e.NewRun? && e.seed == n;
  }

  lemma StepChoice(s: GameState, share: bool)
    ensures Step(s, Choice(share)) == OnChoice(s, share)
  {
  }

  /** The events that only touch modes, selection, ghost, dialog and the started flag. */
  predicate UiEvent(e: Event) {
    e.Hover? || e.RightClick? || e.ToolbarToggle? || e.ToolbarSelect? || e.DilemmaTick?
    || e.TriggerDilemma? || e.DismissDialog? || e.StartRun?
  }

  /** A UI event keeps the buildings, map, player, counters, ledger and meters, and never leaves a started run. */
  lemma StepUi(s: GameState, e: Event)
    requires UiEvent(e)
    ensures var r := Step(s, e);
      && r.placed == s.placed && r.grid == s.grid && r.player == s.player && r.nextId == s.nextId
      && r.resources == s.resources && r.morality == s.morality && r.survival == s.survival
      && r.days == s.days && (s.started ==> r.started)
  {
  }
}
