/** The static building catalogue and the record of a placed building. */
module Buildings {
  import opened Opt

  /** The kinds of building the player can construct. */
  datatype BuildingId = Wall | Farm | Raincatcher | Turret

  /** The per-day deltas a building kind declares; an absent field declares nothing. */
  datatype Effect = Effect(food: Option<int>, water: Option<int>, defense: Option<int>)

  /** One catalogue entry: its own id, display name, scrap cost and optional effect. */
  datatype CatalogEntry = CatalogEntry(id: BuildingId, name: string, cost: nat, effect: Option<Effect>)

  /** Rotation of a placed building: a quarter-turn count, stored for display only. */
  type Rotation = r: int | 0 <= r < 4

  /**
   A building on the map. The source builds a unique string id from the clock
   and a random suffix; the model uses a fresh natural number instead.
   */
  datatype PlacedBuilding = PlacedBuilding(id: nat, buildingId: BuildingId, x: int, y: int, rotation: Rotation)

  /** The catalogue, keyed by building id. */
  function Catalog(id: BuildingId): (e: CatalogEntry)
    ensures e.id == id
    ensures e.cost > 0
  {
    match id
    case Wall => CatalogEntry(Wall, "Wall", 1, None)
    case Farm => CatalogEntry(Farm, "Farm", 3, Some(Effect(Some(1), None, None)))
    case Raincatcher => CatalogEntry(Raincatcher, "Raincatcher", 3, Some(Effect(None, Some(1), None)))
    case Turret => CatalogEntry(Turret, "Turret", 5, Some(Effect(None, None, Some(2))))
  }

  function Cost(id: BuildingId): nat {
    Catalog(id).cost
  }

  /** The catalogue's values in declaration order. */
  const BuildingList: seq<CatalogEntry> := [Catalog(Wall), Catalog(Farm), Catalog(Raincatcher), Catalog(Turret)]

  /** The position of an id in `BuildingList`. */
  function ListIndex(id: BuildingId): (i: nat)
    ensures i < |BuildingList|
    ensures BuildingList[i].id == id
  {
    match id
    case Wall => 0
    case Farm => 1
    case Raincatcher => 2
    case Turret => 3
  }

  /** The list holds exactly the catalogue entries, one per id, in the order wall, farm, raincatcher, turret. */
  lemma BuildingListIsCatalog()
    ensures |BuildingList| == 4
    ensures forall i :: 0 <= i < |BuildingList| ==> BuildingList[i] == Catalog(BuildingList[i].id)
    ensures forall i :: 0 <= i < |BuildingList| ==> ListIndex(BuildingList[i].id) == i
    ensures forall id :: BuildingList[ListIndex(id)] == Catalog(id)
  {
  }

  /** The exact costs of the four kinds. */
  lemma CatalogCosts()
    ensures Cost(Wall) == 1 && Cost(Farm) == 3 && Cost(Raincatcher) == 3 && Cost(Turret) == 5
  {
  }

  /** A farm yields food only, a raincatcher water only, a turret defense only, and a wall declares no effect. */
  lemma CatalogEffects()
    ensures Catalog(Wall).effect == None
    ensures Catalog(Farm).effect == Some(Effect(Some(1), None, None))
    ensures Catalog(Raincatcher).effect == Some(Effect(None, Some(1), None))
    ensures Catalog(Turret).effect == Some(Effect(None, None, Some(2)))
  {
  }

  /** Math.floor(cost * 0.5): half the cost, rounded down. */
  function Refund(cost: nat): (r: nat)
    ensures 2 * r <= cost < 2 * r + 2
  {
    cost / 2
  }

  /** Dismantling never returns the full price of a catalogue building: the refunds are 0, 1, 1 and 2. */
  lemma RefundBelowCost(id: BuildingId)
    ensures Refund(Cost(id)) < Cost(id)
    ensures Refund(Cost(id)) == match id case Wall => 0 case Farm => 1 case Raincatcher => 1 case Turret => 2
  {
  }

  /** The R key's rotation step, (r + 1) mod 4. */
  function Rotate(r: Rotation): (n: Rotation)
    ensures r < 3 ==> n == r + 1
    ensures n == 0 <==> r == 3
  {
    (r + 1) % 4
  }

  /** Four rotations return to the start, and no fewer do. */
  lemma RotateCycle(r: Rotation)
    ensures Rotate(Rotate(Rotate(Rotate(r)))) == r
    ensures Rotate(Rotate(r)) != r && Rotate(Rotate(Rotate(r))) != r
  {
  }
}
