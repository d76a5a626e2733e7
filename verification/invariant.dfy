/**
 The state invariant of the page: where buildings may stand, how their ids
 relate to the counter, what the ledger and the meters hold, and the proof
 that every event keeps it.
 */
module Invariant {
  import opened Tiles
  import opened Buildings
  import opened World
  import opened Engine
  import opened Game

  // ---------------------------------------------------------------------------
  // The state invariant

  /** Every building is on an in-bounds floor cell. */
  predicate BuildingsOnFloor(s: GameState) {
    forall i :: 0 <= i < |s.placed| ==>
      InBounds(s.placed[i].x, s.placed[i].y) && s.grid[s.placed[i].y][s.placed[i].x] == Floor
  }

  /** No two buildings share a cell. */
  predicate NoStacking(bs: seq<PlacedBuilding>) {
    forall i, j :: 0 <= i < j < |bs| ==> !IsAt(bs[i], bs[j].x, bs[j].y)
  }

  /** Building ids are distinct and all below the next fresh id. */
  predicate FreshIds(s: GameState) {
    DistinctIds(s.placed) && forall i :: 0 <= i < |s.placed| ==> s.placed[i].id < s.nextId
  }

  predicate LedgerNonNegative(r: Resources) {
    r.food >= 0 && r.water >= 0 && r.scrap >= 0 && r.med >= 0 && r.ammo >= 0
  }

  predicate Valid(s: GameState) {
    && InBounds(s.player.x, s.player.y)
    && BuildingsOnFloor(s)
    && NoStacking(s.placed)
    && FreshIds(s)
    && LedgerNonNegative(s.resources)
    && MetersInRange(s)
    && (!s.started ==> s.placed == [])
  }

  lemma InitialValid(n: EntropySeed)
    ensures Valid(Initial(n))
  {
    var s := Initial(n);
    assert LedgerNonNegative(s.resources);
    assert MetersInRange(s);
  }

  /** A successful placement keeps the invariant: the new cell is free floor and the new id is fresh. */
  lemma PlacePreservesValid(s: GameState, x: int, y: int)
    requires Valid(s) && s.started
    ensures Valid(PlaceSelectedAt(s, x, y))
  {
    var r := PlaceSelectedAt(s, x, y);
    if PlacementSucceeds(s, x, y) {
      assert r.placed == s.placed + [r.placed[|s.placed|]];
      forall i, j | 0 <= i < j < |r.placed|
        ensures !IsAt(r.placed[i], r.placed[j].x, r.placed[j].y) && r.placed[i].id != r.placed[j].id
      {
        if j == |s.placed| {
          assert r.placed[i] == s.placed[i];
        }
      }
    }
  }

  /** Dropping building k keeps the others in bounds on floor, apart, and with fresh distinct ids. */
  lemma DropKeepsLayout(s: GameState, k: nat)
    requires BuildingsOnFloor(s) && NoStacking(s.placed) && FreshIds(s) && k < |s.placed|
    ensures var t := s.(placed := s.placed[..k] + s.placed[k + 1..]);
      BuildingsOnFloor(t) && NoStacking(t.placed) && FreshIds(t)
  {
    var rest := s.placed[..k] + s.placed[k + 1..];
    forall i | 0 <= i < |rest|
      ensures rest[i] == s.placed[if i < k then i else i + 1]
    {
    }
  }

  /** Removing one building keeps the invariant of the rest. */
  lemma DismantlePreservesValid(s: GameState, x: int, y: int)
    requires Valid(s)
    ensures Valid(DismantleAt(s, x, y))
  {
    match FindBuilding(s.placed, x, y)
    case None =>
    case Some(k) =>
      var r := DismantleAt(s, x, y);
      DropKeepsLayout(s, k);
      assert r == s.(placed := s.placed[..k] + s.placed[k + 1..]).(resources := r.resources);
  }

  /** A move keeps the invariant: the target is clamped, and only resource cells change (to floor). */
  lemma MovePreservesValid(s: GameState, d: Dir)
    requires Valid(s)
    ensures Valid(Move(s, d))
  {
    var r := Move(s, d);
    forall i | 0 <= i < |r.placed|
      ensures s.grid[r.placed[i].y][r.placed[i].x] == Floor
    {
    }
  }

  lemma OnKeyPreservesValid(s: GameState, k: Key)
    requires Valid(s)
    ensures Valid(OnKey(s, k))
  {
    if s.started && k != KeyB {
      if s.buildMode {
        if k == KeyX && s.ghostCell.Some? {
          DismantlePreservesValid(s, s.ghostCell.value.x, s.ghostCell.value.y);
        }
      } else if DirOf(k).Some? {
        MovePreservesValid(s, DirOf(k).value);
      }
    }
  }

  lemma ClickPreservesValid(s: GameState)
    requires Valid(s)
    ensures Valid(OnCanvasClick(s))
  {
    if s.started && s.buildMode && s.ghostCell.Some? {
      PlacePreservesValid(s, s.ghostCell.value.x, s.ghostCell.value.y);
    }
  }

  /** A new run starts from the fresh seed's in-range resources and meters with no buildings. */
  lemma ResetPreservesValid(s: GameState, n: EntropySeed)
    requires Valid(s)
    ensures Valid(ResetRun(s, n))
  {
    var r := ResetRun(s, n);
    assert LedgerNonNegative(r.resources);
    assert MetersInRange(r);
  }

  /** Rerolling happens before the run starts, so there is no building to strand on the new map. */
  lemma RerollPreservesValid(s: GameState, n: EntropySeed)
    requires Valid(s)
    ensures Valid(OnReroll(s, n))
  {
    var r := OnReroll(s, n);
    if !s.started {
      assert r.placed == [] && r.resources == s.resources && r.player == s.player;
      assert MetersInRange(r);
    }
  }

  lemma DayTickPreservesValid(s: GameState)
    requires Valid(s)
    ensures Valid(OnDayTick(s))
  {
    if s.started {
      var t := s.(days := s.days + 1);
      assert Valid(t);
      assert DailyYield(t).(resources := t.resources) == t;
    }
  }

  /** The daily-yield effect keeps the invariant whenever it runs: it only adds to food and water. */
  lemma YieldPreservesValid(s: GameState)
    requires Valid(s)
    ensures Valid(DailyYield(s))
  {
    var r := DailyYield(s);
    assert r.(resources := s.resources) == s;
    assert LedgerNonNegative(r.resources);
  }

  lemma ChoicePreservesValid(s: GameState, share: bool)
    requires Valid(s)
    ensures Valid(Choose(s, share))
  {
    var r := Choose(s, share);
    assert r.placed == s.placed && r.grid == s.grid && r.player == s.player && r.nextId == s.nextId;
  }

  /** A state that keeps the valid state's buildings, map, player, counters and meters is valid too. */
  lemma SameLayoutValid(s: GameState, r: GameState)
    requires Valid(s)
    requires r.placed == s.placed && r.grid == s.grid && r.player == s.player && r.nextId == s.nextId
    requires r.resources == s.resources && r.morality == s.morality && r.survival == s.survival
    requires s.started ==> r.started
    ensures Valid(r)
  {
  }
}
