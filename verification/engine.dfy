/**
 The game state and the rule handlers of the game page: placement and
 dismantling, the movement step, the daily yield and the moral choice.
 */
module Engine {
  import opened Opt
  import opened Tiles
  import opened Buildings
  import opened World

  datatype Pos = Pos(x: int, y: int)

  datatype Dir = Up | Down | Left | Right

  /**
   Everything the page keeps as state while a run is shown. `nextId` is the
   counter that stands in for the source's clock-and-random building ids.
   */
  datatype GameState = GameState(
    seed: WorldSeed,
    started: bool,
    morality: int,
    survival: int,
    resources: Resources,
    days: nat,
    moralOpen: bool,
    buildMode: bool,
    selected: Option<BuildingId>,
    placed: seq<PlacedBuilding>,
    ghostCell: Option<Pos>,
    rotation: Rotation,
    grid: Grid,
    player: Pos,
    nextId: nat)

  predicate IsAt(b: PlacedBuilding, x: int, y: int) {
    b.x == x && b.y == y
  }

  // ---------------------------------------------------------------------------
  // Placement engine

  /** Index of the first building at (x, y), as `placedBuildings.find` would return it. */
  function FindBuilding(bs: seq<PlacedBuilding>, x: int, y: int): (r: Option<nat>)
    ensures r.None? <==> forall i :: 0 <= i < |bs| ==> !IsAt(bs[i], x, y)
    ensures r.Some? ==> r.value < |bs| && IsAt(bs[r.value], x, y)
    ensures r.Some? ==> forall j :: 0 <= j < r.value ==> !IsAt(bs[j], x, y)
  {
    if bs == [] then None
    else if IsAt(bs[0], x, y) then Some(0)
    else
      match FindBuilding(bs[1..], x, y)
      case None => None
      case Some(i) => Some(i + 1)
  }

  /** canPlaceAt: in bounds, on a floor tile, and no building there. */
  function CanPlaceAt(s: GameState, x: int, y: int): (ok: bool)
    ensures ok <==> InBounds(x, y) && s.grid[y][x] == Floor && forall i :: 0 <= i < |s.placed| ==> !IsAt(s.placed[i], x, y)
  {
    if !InBounds(x, y) then false
    else if s.grid[y][x] != Floor then false
    else FindBuilding(s.placed, x, y).None?
  }

  /** The conditions under which placeSelectedAt builds anything. */
  predicate PlacementSucceeds(s: GameState, x: int, y: int) {
    && s.selected.Some?
    && InBounds(x, y)
    && s.grid[y][x] == Floor
    && (forall i :: 0 <= i < |s.placed| ==> !IsAt(s.placed[i], x, y))
    && s.resources.scrap >= Cost(s.selected.value)
  }

  /**
   placeSelectedAt: with a kind selected, a placeable cell and enough scrap,
   append one building of that kind and debit its cost; otherwise nothing.
   */
  function PlaceSelectedAt(s: GameState, x: int, y: int): (r: GameState)
    ensures !PlacementSucceeds(s, x, y) ==> r == s
    ensures PlacementSucceeds(s, x, y) ==>
      && |r.placed| == |s.placed| + 1
      && r.placed[..|s.placed|] == s.placed
      && r.placed[|s.placed|] == PlacedBuilding(s.nextId, s.selected.value, x, y, s.rotation)
      && r.resources == s.resources.(scrap := s.resources.scrap - Cost(s.selected.value))
      && r.nextId > s.nextId
      && r.(placed := s.placed, resources := s.resources, nextId := s.nextId) == s
  {
    match s.selected
    case None => s
    case Some(kind) =>
      var cost := Cost(kind);
      if !CanPlaceAt(s, x, y) || s.resources.scrap < cost then s
      else
        var b := PlacedBuilding(s.nextId, kind, x, y, s.rotation);
        s.(placed := s.placed + [b],
           resources := s.resources.(scrap := s.resources.scrap - cost),
           nextId := s.nextId + 1)
  }

  /** `prev.filter(b => b.id !== id)`. */
  function RemoveId(bs: seq<PlacedBuilding>, id: nat): (r: seq<PlacedBuilding>)
    ensures |r| <= |bs|
    ensures forall i :: 0 <= i < |r| ==> r[i].id != id && r[i] in bs
    ensures forall i :: 0 <= i < |bs| && bs[i].id != id ==> bs[i] in r
  {
    if bs == [] then []
    else if bs[0].id == id then RemoveId(bs[1..], id)
    else [bs[0]] + RemoveId(bs[1..], id)
  }

  /** The filter works piecewise, so it keeps the survivors in their order: filtering a + b filters a, then b. */
  lemma {:induction false} RemoveIdAppend(a: seq<PlacedBuilding>, b: seq<PlacedBuilding>, id: nat)
    ensures RemoveId(a + b, id) == RemoveId(a, id) + RemoveId(b, id)
  {
    if a == [] {
      assert a + b == b;
    } else {
      assert (a + b)[0] == a[0] && (a + b)[1..] == a[1..] + b;
      RemoveIdAppend(a[1..], b, id);
    }
  }

  predicate DistinctIds(bs: seq<PlacedBuilding>) {
    forall i, j :: 0 <= i < j < |bs| ==> bs[i].id != bs[j].id
  }

  /** Filtering out an id nobody carries keeps the list as it is. */
  lemma {:induction false} RemoveAbsentId(bs: seq<PlacedBuilding>, id: nat)
    requires forall i :: 0 <= i < |bs| ==> bs[i].id != id
    ensures RemoveId(bs, id) == bs
  {
    if bs != [] {
      RemoveAbsentId(bs[1..], id);
    }
  }

  /** With distinct ids, filtering out the id of building k removes exactly that building and keeps the order of the rest. */
  lemma {:induction false} RemoveIdAt(bs: seq<PlacedBuilding>, k: nat)
    requires DistinctIds(bs) && k < |bs|
    ensures RemoveId(bs, bs[k].id) == bs[..k] + bs[k + 1..]
  {
    var id := bs[k].id;
    assert bs == bs[..k] + ([bs[k]] + bs[k + 1..]);
    RemoveIdAppend(bs[..k], [bs[k]] + bs[k + 1..], id);
    RemoveIdAppend([bs[k]], bs[k + 1..], id);
    assert [bs[k]][1..] == [];
    RemoveAbsentId(bs[..k], id);
    RemoveAbsentId(bs[k + 1..], id);
  }

  /** The removal dismantleAt performs, stated for the case where ids are distinct. */
  lemma RemoveFound(bs: seq<PlacedBuilding>, k: nat)
    requires k < |bs|
    ensures DistinctIds(bs) ==> RemoveId(bs, bs[k].id) == bs[..k] + bs[k + 1..]
  {
    if DistinctIds(bs) {
      RemoveIdAt(bs, k);
    }
  }

  /**
   dismantleAt: remove the first building at (x, y) (by filtering out its id)
   and refund half its cost, rounded down; nothing when the cell is empty.
   */
  function DismantleAt(s: GameState, x: int, y: int): (r: GameState)
    ensures FindBuilding(s.placed, x, y).None? ==> r == s
    ensures FindBuilding(s.placed, x, y).Some? ==>
      var k := FindBuilding(s.placed, x, y).value;
      && r.resources == s.resources.(scrap := s.resources.scrap + Refund(Cost(s.placed[k].buildingId)))
      && (DistinctIds(s.placed) ==> r.placed == s.placed[..k] + s.placed[k + 1..])
      && r.(placed := s.placed, resources := s.resources) == s
  {
    match FindBuilding(s.placed, x, y)
    case None => s
    case Some(k) =>
      var b := s.placed[k];
      RemoveFound(s.placed, k);
      s.(placed := RemoveId(s.placed, b.id),
         resources := s.resources.(scrap := s.resources.scrap + Refund(Cost(b.buildingId))))
  }

  // ---------------------------------------------------------------------------
  // Movement

  function Clamp(v: int, lo: int, hi: int): (r: int)
    requires lo <= hi
    ensures lo <= r <= hi
    ensures lo <= v <= hi ==> r == v
  {
    if v < lo then lo else if v > hi then hi else v
  }

  /** One step in direction d from p, clamped to the grid. */
  function Target(p: Pos, d: Dir): (t: Pos)
    ensures InBounds(t.x, t.y)
    ensures InBounds(p.x, p.y) ==> -1 <= t.x - p.x <= 1 && -1 <= t.y - p.y <= 1
    ensures InBounds(p.x, p.y) && d == Up ==> t == Pos(p.x, if p.y == 0 then 0 else p.y - 1)
    ensures InBounds(p.x, p.y) && d == Down ==> t == Pos(p.x, if p.y == MapH - 1 then p.y else p.y + 1)
    ensures InBounds(p.x, p.y) && d == Left ==> t == Pos(if p.x == 0 then 0 else p.x - 1, p.y)
    ensures InBounds(p.x, p.y) && d == Right ==> t == Pos(if p.x == MapW - 1 then p.x else p.x + 1, p.y)
  {
    var (dx, dy) := match d
      case Up => (0, -1)
      case Down => (0, 1)
      case Left => (-1, 0)
      case Right => (1, 0);
    Pos(Clamp(p.x + dx, 0, MapW - 1), Clamp(p.y + dy, 0, MapH - 1))
  }

  /** The move is refused: a wall or a building stands on the target. */
  predicate Blocked(s: GameState, t: Pos)
    requires InBounds(t.x, t.y)
  {
    s.grid[t.y][t.x] == Tile.Wall || exists i :: 0 <= i < |s.placed| && IsAt(s.placed[i], t.x, t.y)
  }

  /**
   The movement step: clamp the target, refuse walls and buildings, collect a
   resource (the tile becomes floor, +1 food, water and scrap) and open the
   moral prompt on a terminal.
   */
  function Move(s: GameState, d: Dir): (r: GameState)
    ensures var t := Target(s.player, d);
      && (Blocked(s, t) ==> r == s)
      && (!Blocked(s, t) ==> r.player == t)
      && (!Blocked(s, t) && s.grid[t.y][t.x] == Resource ==>
            && r.grid == Write(s.grid, t.x, t.y, Floor)
            && r.resources == s.resources.(food := s.resources.food + 1, water := s.resources.water + 1, scrap := s.resources.scrap + 1))
      && (s.grid[t.y][t.x] != Resource ==> r.resources == s.resources && r.grid == s.grid)
      && (!Blocked(s, t) && s.grid[t.y][t.x] == Terminal ==> r.moralOpen)
      && (Blocked(s, t) || s.grid[t.y][t.x] != Terminal ==> r.moralOpen == s.moralOpen)
    ensures forall y, x :: InBounds(x, y) ==> r.grid[y][x] == s.grid[y][x] || (s.grid[y][x] == Resource && r.grid[y][x] == Floor)
    ensures r.(player := s.player, grid := s.grid, resources := s.resources, moralOpen := s.moralOpen) == s
  {
    var t := Target(s.player, d);
    if s.grid[t.y][t.x] == Tile.Wall then s
    else if FindBuilding(s.placed, t.x, t.y).Some? then s
    else
      var s1 :=
        if s.grid[t.y][t.x] == Resource then
          s.(grid := Write(s.grid, t.x, t.y, Floor),
             resources := s.resources.(food := s.resources.food + 1, water := s.resources.water + 1, scrap := s.resources.scrap + 1))
        else s;
      var s2 := if s1.grid[t.y][t.x] == Terminal then s1.(moralOpen := true) else s1;
      s2.(player := t)
  }

  // ---------------------------------------------------------------------------
  // Daily yield

  /** Number of placed buildings of one kind (`filter(...).length`). */
  function CountKind(bs: seq<PlacedBuilding>, kind: BuildingId): (n: nat)
    ensures n <= |bs|
    ensures n == 0 <==> forall i :: 0 <= i < |bs| ==> bs[i].buildingId != kind
  {
    if bs == [] then 0
    else (if bs[0].buildingId == kind then 1 else 0) + CountKind(bs[1..], kind)
  }

  /** Counting over a concatenation adds the counts of the parts. */
  lemma {:induction false} CountKindAppend(a: seq<PlacedBuilding>, b: seq<PlacedBuilding>, kind: BuildingId)
    ensures CountKind(a + b, kind) == CountKind(a, kind) + CountKind(b, kind)
  {
    if a != [] {
      assert (a + b)[0] == a[0] && (a + b)[1..] == a[1..] + b;
      CountKindAppend(a[1..], b, kind);
    } else {
      assert a + b == b;
    }
  }

  /**
   The daily-yield effect: nothing before the run starts or on day 0;
   otherwise food grows by the number of farms and water by the number of
   raincatchers (the ids are hard-coded, the catalogue effects are not read).
   */
  function DailyYield(s: GameState): (r: GameState)
    ensures !s.started || s.days == 0 ==> r == s
    ensures s.started && s.days > 0 ==>
      && r.resources.food - s.resources.food == CountKind(s.placed, Farm)
      && r.resources.water - s.resources.water == CountKind(s.placed, Raincatcher)
      && r.resources.(food := s.resources.food, water := s.resources.water) == s.resources
    ensures r.(resources := s.resources) == s
  {
    if !s.started || s.days == 0 then s
    else
      var farms := CountKind(s.placed, Farm);
      var rains := CountKind(s.placed, Raincatcher);
      if farms != 0 || rains != 0 then
        s.(resources := s.resources.(food := s.resources.food + farms, water := s.resources.water + rains))
      else s
  }

  // ---------------------------------------------------------------------------
  // Moral choice

  /** Morality and survival both in [0, 100]. */
  predicate MetersInRange(s: GameState) {
    0 <= s.morality <= 100 && 0 <= s.survival <= 100
  }

  function Min(a: int, b: int): int { if a <= b then a else b }
  function Max(a: int, b: int): int { if a >= b then a else b }

  /**
   handleChoice: close the prompt; sharing raises morality by 6 (at most 100)
   and costs 3 survival, 2 food and 1 water (none below 0); refusing lowers
   morality by 6 (not below 0) and raises survival by 4 (at most 100).
   */
  function Choose(s: GameState, share: bool): (r: GameState)
    ensures !r.moralOpen
    ensures MetersInRange(s) ==> MetersInRange(r)
    ensures s.resources.food >= 0 && s.resources.water >= 0 ==> r.resources.food >= 0 && r.resources.water >= 0
    ensures share && MetersInRange(s) ==>
      && r.morality >= s.morality && (r.morality > s.morality <==> s.morality < 100)
      && r.survival <= s.survival && (r.survival < s.survival <==> s.survival > 0)
    ensures share && s.resources.food >= 0 && s.resources.water >= 0 ==>
      && s.resources.food - 2 <= r.resources.food <= s.resources.food
      && s.resources.water - 1 <= r.resources.water <= s.resources.water
    ensures share ==> r.resources.(food := s.resources.food, water := s.resources.water) == s.resources
    ensures !share && MetersInRange(s) ==>
      && r.morality <= s.morality && (r.morality < s.morality <==> s.morality > 0)
      && r.survival >= s.survival && (r.survival > s.survival <==> s.survival < 100)
    ensures !share ==> r.resources == s.resources
    ensures share ==>
      && r.morality == (if s.morality <= 94 then s.morality + 6 else 100)
      && r.survival == (if s.survival >= 3 then s.survival - 3 else 0)
      && r.resources.food == (if s.resources.food >= 2 then s.resources.food - 2 else 0)
      && r.resources.water == (if s.resources.water >= 1 then s.resources.water - 1 else 0)
    ensures !share ==>
      && r.morality == (if s.morality >= 6 then s.morality - 6 else 0)
      && r.survival == (if s.survival <= 96 then s.survival + 4 else 100)
    ensures r.(moralOpen := s.moralOpen, morality := s.morality, survival := s.survival, resources := s.resources) == s
  {
    var s' := s.(moralOpen := false);
    if share then
      s'.(morality := Min(100, s.morality + 6),
          survival := Max(0, s.survival - 3),
          resources := s.resources.(food := Max(0, s.resources.food - 2), water := Max(0, s.resources.water - 1)))
    else
      s'.(morality := Max(0, s.morality - 6),
          survival := Min(100, s.survival + 4))
  }
}
