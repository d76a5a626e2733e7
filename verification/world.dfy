/** The world seed: narrative picks, starting resources and meter baselines drawn from one generator. */
module World {
  import opened Rng

  /** The five resource counters. */
  datatype Resources = Resources(food: int, water: int, scrap: int, med: int, ammo: int)

  /** The top-level seed: Math.floor(Math.random() * 2147483647), an integer below 2^31 - 1. */
  type EntropySeed = n: nat | n < 2147483647

  /**
   One run's seed bundle. `densityDraw` is the raw draw behind the zombie
   density, which nothing consumes; its float formatting is not modelled.
   */
  datatype WorldSeed = WorldSeed(
    causeOfCollapse: string,
    zombieType: string,
    formerJob: string,
    worldSeed: EntropySeed,
    startingResources: Resources,
    baseMorality: int,
    baseSurvival: int,
    densityDraw: Draw)

  const Causes: seq<string> := ["Aliens", "Corporate AI meltdown", "Climate disaster", "Capitalist cannibalism"]
  const Zombies: seq<string> := ["Hive mind", "Runners", "Smart", "Cute-but-deadly"]
  const Jobs: seq<string> := ["Dentist", "Influencer", "Retired hitman", "Barista", "Sysadmin", "Paramedic"]

  /** arr[Math.floor(rnd() * arr.length)]. */
  function Pick(arr: seq<string>, u: Draw): (s: string)
    requires |arr| > 0
    ensures s in arr
  {
    arr[Scaled(u, |arr|)]
  }

  /** `base + Math.floor(rnd() * span)`: an integer in [base, base + span). */
  function Range(base: int, span: nat, u: Draw): (v: int)
    requires span > 0
    ensures base <= v < base + span
  {
    base + Scaled(u, span)
  }

  /**
   The world seed derived from the draws of the generator seeded with `seed`,
   in the source's evaluation order: food, water, scrap, med, ammo, morality,
   survival, density, then the three narrative picks.
   */
  function DeriveWorld(seed: EntropySeed, draws: Stream): (w: WorldSeed)
    ensures w.worldSeed == seed
    ensures 15 <= w.startingResources.food <= 34 && 15 <= w.startingResources.water <= 34
    ensures 5 <= w.startingResources.scrap <= 29
    ensures 2 <= w.startingResources.med <= 9
    ensures 8 <= w.startingResources.ammo <= 37
    ensures 40 <= w.baseMorality <= 60 && 40 <= w.baseSurvival <= 60
    ensures w.causeOfCollapse in Causes && w.zombieType in Zombies && w.formerJob in Jobs
  {
    var resources := Resources(
      Range(15, 20, draws(0)),
      Range(15, 20, draws(1)),
      Range(5, 25, draws(2)),
      Range(2, 8, draws(3)),
      Range(8, 30, draws(4)));
    WorldSeed(
      Pick(Causes, draws(8)),
      Pick(Zombies, draws(9)),
      Pick(Jobs, draws(10)),
      seed,
      resources,
      Range(40, 21, draws(5)),
      Range(40, 21, draws(6)),
      draws(7))
  }

  /** generateWorldSeed with the entropy draw supplied as a parameter. */
  function GenerateWorldSeed(seed: EntropySeed): (w: WorldSeed)
    ensures w.worldSeed == seed
    ensures w.startingResources.food >= 0 && w.startingResources.water >= 0 && w.startingResources.scrap >= 0
    ensures w.startingResources.med >= 0 && w.startingResources.ammo >= 0
    ensures 0 <= w.baseMorality <= 100 && 0 <= w.baseSurvival <= 100
  {
    DeriveWorld(seed, Mulberry32(seed))
  }

  /** Every draw value is reachable at the bounds: a draw of 0 gives the lowest values and the top draw the highest. */
  lemma RangeBoundsAttained()
    ensures Range(15, 20, 0) == 15 && Range(15, 20, TwoPow32 - 1) == 34
    ensures Range(5, 25, TwoPow32 - 1) == 29 && Range(2, 8, TwoPow32 - 1) == 9
    ensures Range(8, 30, TwoPow32 - 1) == 37 && Range(40, 21, TwoPow32 - 1) == 60
  {
  }
}
