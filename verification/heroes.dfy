/**
 A hero: its kind, its progress (level and experience), its energy rod and
 whether it is ready to act this turn (lib/engine/hero.rs). The source has one
 enum variant per kind, all with the same four fields; here they are one
 record tagged by kind, and every capability is a table keyed by kind and
 level.
 */
module Heroes {
  import opened Base

  const MAX_LEVEL: U8 := 2
  /** Experience that triggers a level-up; experience itself stays below it. */
  const MAX_EXP: U8 := 6

  datatype HeroKind = Warrior | Mage | Archer | Engineer | Assassin | Priest

  /** `act` is the readiness flag: set when the energy rod fills, cleared
      when the hero's action runs. */
  datatype Hero = Hero(kind: HeroKind, level: U8, exp: U8, energy: U8, act: bool)

  /** A fresh hero of the given kind. */
  function New(kind: HeroKind): (h: Hero)
    ensures h.kind == kind && h.level == 0 && h.exp == 0 && h.energy == 0 && !h.act
    ensures Valid(h)
  {
    Hero(kind, 0, 0, 0, false)
  }

  // -------------------------------------------------------- capabilities

  /** Damage dealt to the opposing crown. Only the Priest deals none. */
  function CrownDmg(kind: HeroKind, level: U8): (r: U8)
    requires level <= MAX_LEVEL
    ensures r <= 7
    ensures r == 0 <==> kind == Priest
  {
    match kind
    case Warrior => [3, 5, 7][level]
    case Mage => [2, 3, 3][level]
    case Archer => [3, 4, 6][level]
    case Engineer => [1, 2, 4][level]
    case Assassin => [1, 2, 2][level]
    case Priest => 0
  }

  /** Damage dealt to the opposing bulwark. The Assassin and the Priest
      never attack the bulwark. */
  function BulwarkDmg(kind: HeroKind, level: U8): (r: U8)
    requires level <= MAX_LEVEL
    ensures r <= 5
    ensures r == 0 <==> kind == Assassin || kind == Priest
  {
    match kind
    case Warrior => [3, 5, 5][level]
    case Mage => [2, 3, 5][level]
    case Archer => [1, 2, 3][level]
    case Engineer => [3, 5, 5][level]
    case Assassin => 0
    case Priest => 0
  }

  /** Crown healed for the hero's own player; only the Priest heals. */
  function CrownHeal(kind: HeroKind, level: U8): (r: U8)
    requires level <= MAX_LEVEL
    ensures r <= 2
    ensures r > 0 <==> kind == Priest
  {
    match kind
    case Priest => [1, 2, 2][level]
    case _ => 0
  }

  /** Energy removed from an opposing hero; only the Assassin delays. */
  function Delay(kind: HeroKind, level: U8): (r: U8)
    requires level <= MAX_LEVEL
    ensures r <= 2
    ensures r > 0 <==> kind == Assassin
  {
    match kind
    case Assassin => [1, 1, 2][level]
    case _ => 0
  }

  /** Energy given to the ally hero; only the Priest generates energy. */
  function EnergyGen(kind: HeroKind, level: U8): (r: U8)
    requires level <= MAX_LEVEL
    ensures r <= 3
    ensures r > 0 <==> kind == Priest
  {
    match kind
    case Priest => [2, 2, 3][level]
    case _ => 0
  }

  /** The length of the energy rod: the energy at which the hero becomes ready. */
  function RodLen(kind: HeroKind, level: U8): (r: U8)
    requires level <= MAX_LEVEL
    ensures 3 <= r <= 5
  {
    match kind
    case Warrior => 3
    case Mage => [5, 4, 4][level]
    case Archer => [4, 3, 3][level]
    case Engineer => [4, 4, 3][level]
    case Assassin => 3
    case Priest => [4, 3, 3][level]
  }

  /** Levelling up never weakens a hero: every effect grows or stays, and the
      rod shrinks, by at most one over the whole level range. */
  lemma LevellingNeverWeakens(kind: HeroKind, lo: U8, hi: U8)
    requires lo <= hi <= MAX_LEVEL
    ensures CrownDmg(kind, lo) <= CrownDmg(kind, hi)
    ensures BulwarkDmg(kind, lo) <= BulwarkDmg(kind, hi)
    ensures CrownHeal(kind, lo) <= CrownHeal(kind, hi)
    ensures Delay(kind, lo) <= Delay(kind, hi)
    ensures EnergyGen(kind, lo) <= EnergyGen(kind, hi)
    ensures RodLen(kind, hi) <= RodLen(kind, lo) <= RodLen(kind, hi) + 1
  {
  }

  // ----------------------------------------------------------- invariant

  /** The bounds every hero keeps. Energy is bounded by the rod at the top
      level, which is the shortest rod of the kind; this is what survives a
      level-up that shrinks the rod. */
  predicate Valid(h: Hero) {
    && h.level <= MAX_LEVEL
    && h.exp < MAX_EXP
    && h.energy <= RodLen(h.kind, MAX_LEVEL)
  }

  /** Energy left before the rod fills. The byte subtraction underflows if
      energy is past the rod. */
  function EnergyLeft(h: Hero): (r: U8)
    requires h.level <= MAX_LEVEL && h.energy <= RodLen(h.kind, h.level)
    ensures r <= RodLen(h.kind, h.level)
    ensures r == 0 <==> h.energy == RodLen(h.kind, h.level)
  {
    RodLen(h.kind, h.level) - h.energy
  }

  /** A valid hero never has energy past its current rod, so `EnergyLeft`
      never underflows. */
  lemma ValidEnergyWithinRod(h: Hero)
    requires Valid(h)
    ensures h.energy <= RodLen(h.kind, h.level)
  {
    LevellingNeverWeakens(h.kind, h.level, MAX_LEVEL);
  }

  // ------------------------------------------------------------ mutators

  function SetAct(h: Hero, act: bool): (r: Hero)
    ensures r.act == act
    ensures r.kind == h.kind && r.level == h.level && r.exp == h.exp && r.energy == h.energy
  {
    h.(act := act)
  }

  /** Raise the level by one unless it is already at the maximum. The flag is
      true when the hero was ALREADY at the maximum (nothing happened) and
      false when it really levelled up. */
  function LevelInc(h: Hero): (r: (Hero, bool))
    ensures r.1 <==> h.level >= MAX_LEVEL
    ensures r.0.level == if h.level < MAX_LEVEL then h.level + 1 else h.level
    ensures r.0.kind == h.kind && r.0.exp == h.exp && r.0.energy == h.energy && r.0.act == h.act
  {
    if h.level < MAX_LEVEL then (h.(level := h.level + 1), false) else (h, true)
  }

  /** Add experience; reaching six resets it to zero (discarding any
      surplus) and reports the overflow. The byte addition must not overflow. */
  function ExpInc(h: Hero, inc: U8): (r: (Hero, bool))
    requires h.exp + inc <= U8_MAX
    ensures r.1 <==> h.exp + inc >= MAX_EXP
    ensures r.0.exp == if r.1 then 0 else h.exp + inc
    ensures r.0.exp < MAX_EXP
    ensures r.0.kind == h.kind && r.0.level == h.level && r.0.energy == h.energy && r.0.act == h.act
  {
    var exp := h.exp + inc;
    if exp >= MAX_EXP then (h.(exp := 0), true) else (h.(exp := exp), false)
  }

  /** Add energy; filling the rod empties it and makes the hero ready, which
      is reported. Otherwise readiness is untouched. */
  function EnergyInc(h: Hero, inc: U8): (r: (Hero, bool))
    requires h.level <= MAX_LEVEL
    requires h.energy + inc <= U8_MAX
    ensures r.1 <==> h.energy + inc >= RodLen(h.kind, h.level)
    ensures r.0.energy == if r.1 then 0 else h.energy + inc
    ensures r.0.energy < RodLen(h.kind, h.level)
    ensures r.0.act == (h.act || r.1)
    ensures r.0.kind == h.kind && r.0.level == h.level && r.0.exp == h.exp
  {
    var rod := RodLen(h.kind, h.level);
    var energy := h.energy + inc;
    if energy >= rod then (h.(energy := 0, act := true), true) else (h.(energy := energy), false)
  }

  /** Remove energy, never below zero. A hero that has just become ready
      (ready with an empty rod) is knocked back: it loses readiness and its
      rod is refilled to its length minus the loss. */
  function EnergyDec(h: Hero, dec: U8): (r: Hero)
    requires h.level <= MAX_LEVEL
    ensures h.act && h.energy == 0 ==> !r.act && r.energy == Max(RodLen(h.kind, h.level) - dec, 0)
    ensures !(h.act && h.energy == 0) ==> r.act == h.act && r.energy == Max(h.energy - dec, 0)
    ensures r.kind == h.kind && r.level == h.level && r.exp == h.exp
  {
    if h.act && h.energy == 0 then
      h.(energy := SaturatingSub(RodLen(h.kind, h.level), dec), act := false)
    else
      h.(energy := SaturatingSub(h.energy, dec))
  }

  /** Every mutator keeps a valid hero valid. For `EnergyDec` this needs a
      positive loss, which every Assassin delay is: a zero loss would refill a
      knocked-back rod to its full length, past the top-level rod. */
  lemma MutatorsPreserveValid(h: Hero, inc: U8, dec: U8, act: bool)
    requires Valid(h)
    requires inc <= U8_MAX - 5
    requires dec >= 1
    ensures Valid(SetAct(h, act))
    ensures Valid(LevelInc(h).0)
    ensures Valid(ExpInc(h, inc).0)
    ensures Valid(EnergyInc(h, inc).0)
    ensures Valid(EnergyDec(h, dec))
  {
    LevellingNeverWeakens(h.kind, h.level, MAX_LEVEL);
    if h.level < MAX_LEVEL {
      LevellingNeverWeakens(h.kind, h.level + 1, MAX_LEVEL);
    }
  }

  /** A zero loss breaks the invariant: a freshly ready level-0 Mage would be
      refilled to five, past the four of its top-level rod. */
  lemma ZeroDelayWouldOverfill()
    ensures Valid(Hero(Mage, 0, 0, 0, true))
    ensures !Valid(EnergyDec(Hero(Mage, 0, 0, 0, true), 0))
  {
  }

  /** Energy can equal the current rod length: a level-0 Mage holding four
      energy that levels up keeps its four energy while its rod shrinks from
      five to four. It stays valid, and `EnergyLeft` reports zero. */
  lemma LevelUpCanFillRod()
    ensures Valid(Hero(Mage, 0, 5, 4, false))
    ensures ExpInc(Hero(Mage, 0, 5, 4, false), 1).1
    ensures var h := LevelInc(ExpInc(Hero(Mage, 0, 5, 4, false), 1).0).0;
            Valid(h) && h.energy == RodLen(h.kind, h.level) && EnergyLeft(h) == 0
  {
  }
}
