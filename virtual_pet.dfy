/** The virtual pet: three percentage stats that play, food, rest and
    neglect move within fixed bounds, a level derived from growth, and the
    life stage shown for the level. */
module VirtualPet {
  import opened Lists

  /** `lastInteraction` is kept as milliseconds since the epoch. */
  datatype Stats = Stats(happiness: int, energy: int, growth: int, lastInteraction: int)

  /** Every stat is a percentage. */
  predicate InRange(s: Stats) {
    0 <= s.happiness <= 100 && 0 <= s.energy <= 100 && 0 <= s.growth <= 100
  }

  /** `defaultStats`; `createdAt` is the moment the module was loaded. */
  function DefaultStats(createdAt: int): (s: Stats)
    ensures InRange(s) && s.lastInteraction == createdAt
  {
    Stats(70, 80, 10, createdAt)
  }

  /** Playing needs at least this much energy. */
  const PlayEnergyThreshold := 20

  /** The stats after a game: happiness +15, energy -10, growth +2, each
      clamped to the percentage range, and `now` as the last interaction. */
  function PlayStats(s: Stats, now: int): (r: Stats)
    ensures InRange(s) ==> InRange(r)
    ensures r.happiness == Min(s.happiness + 15, 100) && r.energy == Max(s.energy - 10, 0)
    ensures r.growth == Min(s.growth + 2, 100) && r.lastInteraction == now
  {
    Stats(Min(s.happiness + 15, 100), Max(s.energy - 10, 0), Min(s.growth + 2, 100), now)
  }

  /** The stats after a meal: happiness +5, energy +20, growth +1, clamped. */
  function FeedStats(s: Stats, now: int): (r: Stats)
    ensures InRange(s) ==> InRange(r)
    ensures r.happiness == Min(s.happiness + 5, 100) && r.energy == Min(s.energy + 20, 100)
    ensures r.growth == Min(s.growth + 1, 100) && r.lastInteraction == now
  {
    Stats(Min(s.happiness + 5, 100), Min(s.energy + 20, 100), Min(s.growth + 1, 100), now)
  }

  /** The stats after a rest: full energy, nothing else changes but the
      timestamp. */
  function RestStats(s: Stats, now: int): (r: Stats)
    ensures InRange(s) ==> InRange(r)
    ensures r.energy == 100 && r.happiness == s.happiness && r.growth == s.growth
    ensures r.lastInteraction == now
  {
    s.(energy := 100, lastInteraction := now)
  }

  /** The neglect rule: after more than six whole hours happiness and energy
      each lose one point per hour but never drop below 10; growth is kept. */
  function DecayStats(s: Stats, hours: int, now: int): (r: Stats)
    ensures hours <= 6 ==> r == s
    ensures hours > 6 ==>
              r.happiness == Max(s.happiness - hours, 10) && r.energy == Max(s.energy - hours, 10)
              && r.growth == s.growth && r.lastInteraction == now
    ensures InRange(s) ==> InRange(r)
  {
    if hours > 6 then
      s.(happiness := Max(s.happiness - hours, 10), energy := Max(s.energy - hours, 10),
         lastInteraction := now)
    else s
  }

  /** Decay never raises a stat above its old value, unless it was already
      below the floor of 10. */
  lemma DecayOnlyLowers(s: Stats, hours: int, now: int)
    requires InRange(s) && s.happiness >= 10 && s.energy >= 10
    ensures var r := DecayStats(s, hours, now);
            10 <= r.happiness <= s.happiness && 10 <= r.energy <= s.energy
  {
  }

  /** `Math.floor(growth / 10) + 1`. */
  function LevelOf(growth: int): (l: int)
    ensures 0 <= growth <= 100 ==> 1 <= l <= 11
  {
    growth / 10 + 1
  }

  /** More growth never means a lower level. */
  lemma LevelOfMonotone(g1: int, g2: int)
    requires g1 <= g2
    ensures LevelOf(g1) <= LevelOf(g2)
  {
    var q1, q2 := g1 / 10, g2 / 10;
    assert g1 == 10 * q1 + g1 % 10 && g2 == 10 * q2 + g2 % 10;
  }

  /** The four life stages of `getPetEmoji`. */
  datatype Stage = Baby | Young | Teen | Adult

  function StageOf(level: int): (st: Stage)
    ensures st == Baby <==> level < 3
    ensures st == Young <==> 3 <= level < 6
    ensures st == Teen <==> 6 <= level < 8
    ensures st == Adult <==> 8 <= level
  {
    if level < 3 then Baby
    else if level < 6 then Young
    else if level < 8 then Teen
    else Adult
  }

  function StageRank(st: Stage): nat {
    match st
    case Baby => 0
    case Young => 1
    case Teen => 2
    case Adult => 3
  }

  /** A higher level never shows a younger stage. */
  lemma StageMonotone(l1: int, l2: int)
    requires l1 <= l2
    ensures StageRank(StageOf(l1)) <= StageRank(StageOf(l2))
  {
  }

  class Pet {
    var petName: string
    var stats: Stats
    var level: int

    /** The level never runs ahead of growth and never drops below 1. It
        can lag behind: `updateLevel` reads the growth from before the
        update it follows, and a fresh pet starts at level 1 with growth 10. */
    predicate Valid()
      reads this
    {
      InRange(stats) && 1 <= level <= LevelOf(stats.growth)
    }

    /** The first render, with the module's default stats. */
    constructor (createdAt: int)
      ensures Valid()
      ensures petName == "Biscuit" && stats == DefaultStats(createdAt) && level == 1
    {
      petName := "Biscuit";
      stats := DefaultStats(createdAt);
      level := 1;
    }

    /** The two mount effects in order: a saved pet (when there is one)
        replaces the stats and sets the level from its growth, a saved name
        replaces the name, and then the decay rule runs on the stats with
        `hours` whole hours elapsed. */
    method Mount(saved: Option<Stats>, savedName: Option<string>, hours: int, now: int)
      modifies this
      ensures petName == (if savedName.Some? && savedName.value != "" then savedName.value else old(petName))
      ensures saved.Some? ==> stats == DecayStats(saved.value, hours, now) && level == LevelOf(saved.value.growth)
      ensures saved.None? ==> stats == DecayStats(old(stats), hours, now) && level == old(level)
      ensures saved.Some? && InRange(saved.value) ==> Valid()
      ensures saved.None? && old(Valid()) ==> Valid()
    {
      if saved.Some? {
        stats := saved.value;
      }
      if savedName.Some? && savedName.value != "" {
        petName := savedName.value;
      }
      if saved.Some? {
        level := LevelOf(saved.value.growth);
      }
      stats := DecayStats(stats, hours, now);
    }

    /** `updateLevel`: the level computed from the growth the handler saw
        before its own update; it only ever goes up. */
    method UpdateLevel(seenGrowth: int)
      modifies this
      ensures level == Max(old(level), LevelOf(seenGrowth))
      ensures stats == old(stats) && petName == old(petName)
    {
      var newLevel := LevelOf(seenGrowth);
      if newLevel > level {
        level := newLevel;
      }
    }

    /** `playWithPet`: refused below 20 energy; otherwise the play update
        and a level check against the growth from before it. */
    method Play(now: int)
      modifies this
      ensures old(stats).energy < PlayEnergyThreshold ==> stats == old(stats) && level == old(level)
      ensures old(stats).energy >= PlayEnergyThreshold ==>
                stats == PlayStats(old(stats), now)
                && level == Max(old(level), LevelOf(old(stats).growth))
      ensures level >= old(level) && petName == old(petName)
      ensures old(Valid()) ==> Valid()
    {
      if stats.energy < PlayEnergyThreshold {
        return;
      }
      var seen := stats.growth;
      stats := PlayStats(stats, now);
      if seen <= stats.growth { LevelOfMonotone(seen, stats.growth); }
      UpdateLevel(seen);
    }

    /** `feedPet`: the feed update and a level check against the growth from
        before it. */
    method Feed(now: int)
      modifies this
      ensures stats == FeedStats(old(stats), now)
      ensures level == Max(old(level), LevelOf(old(stats).growth))
      ensures petName == old(petName)
      ensures old(Valid()) ==> Valid()
    {
      var seen := stats.growth;
      stats := FeedStats(stats, now);
      if seen <= stats.growth { LevelOfMonotone(seen, stats.growth); }
      UpdateLevel(seen);
    }

    /** `restPet`: full energy; the level is not checked. */
    method Rest(now: int)
      modifies this
      ensures stats == RestStats(old(stats), now)
      ensures level == old(level) && petName == old(petName)
      ensures old(Valid()) ==> Valid()
    {
      stats := RestStats(stats, now);
    }

    function PetStage(): Stage
      reads this
    {
      StageOf(level)
    }
  }
}
