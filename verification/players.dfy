/**
 A player: a crown (life), a bulwark (shield) and two heroes, left and right
 (lib/engine/player.rs). Crown and bulwark change only through clamped,
 saturating byte arithmetic. The source hands out mutable references to a
 hero; here a hero is read with `HeroAt` and replaced with `WithHero`.
 */
module Players {
  import opened Base
  import opened Heroes

  const INIT_CROWN: U8 := 10
  const MAX_CROWN: U8 := 12
  const INIT_BULWARK: U8 := 0
  const MAX_BULWARK: U8 := 5

  datatype HeroPos = L | R {
    function Other(): (o: HeroPos)
      ensures o != this
    {
      match this
      case L => R
      case R => L
    }
  }

  /** `Other` swaps the two sides and undoes itself. */
  lemma OtherInvolution(pos: HeroPos)
    ensures pos.Other().Other() == pos
    ensures pos.Other() == if pos == L then R else L
  {
  }

  datatype Player = Player(name: string, crown: U8, bulwark: U8, heroL: Hero, heroR: Hero) {

    function HeroAt(pos: HeroPos): (h: Hero)
      ensures h == heroL || h == heroR
    {
      match pos
      case L => heroL
      case R => heroR
    }

    /** Replace the hero on one side; everything else stays. */
    function WithHero(pos: HeroPos, h: Hero): (p: Player)
      ensures p.HeroAt(pos) == h
      ensures p.HeroAt(pos.Other()) == HeroAt(pos.Other())
      ensures p.name == name && p.crown == crown && p.bulwark == bulwark
    {
      match pos
      case L => this.(heroL := h)
      case R => this.(heroR := h)
    }
  }

  /** Reading a hero and writing it back changes nothing, and writing the
      old hero back undoes a replacement. */
  lemma HeroAtWithHero(p: Player, pos: HeroPos, h: Hero)
    ensures p.WithHero(pos, p.HeroAt(pos)) == p
    ensures p.WithHero(pos, h).WithHero(pos, p.HeroAt(pos)) == p
    ensures p.WithHero(pos, h).HeroAt(pos.Other()) == p.HeroAt(pos.Other())
  {
  }

  /** The bounds every player keeps. */
  predicate Valid(p: Player) {
    && p.crown <= MAX_CROWN
    && p.bulwark <= MAX_BULWARK
    && Heroes.Valid(p.heroL)
    && Heroes.Valid(p.heroR)
  }

  /** A player at the start of a match. */
  function New(name: string, heroL: Hero, heroR: Hero): (p: Player)
    ensures p.crown == INIT_CROWN && p.bulwark == INIT_BULWARK
    ensures p.name == name && p.heroL == heroL && p.heroR == heroR
    ensures Heroes.Valid(heroL) && Heroes.Valid(heroR) ==> Valid(p)
  {
    Player(name, INIT_CROWN, INIT_BULWARK, heroL, heroR)
  }

  // ---------------------------------------------------------- resources

  /** Heal the crown, never past twelve. The byte saturation is invisible
      because the cap lies far below it. */
  function CrownInc(p: Player, inc: U8): (r: Player)
    ensures r.crown == Min(p.crown + inc, MAX_CROWN)
    ensures r == p.(crown := r.crown)
  {
    p.(crown := Min(SaturatingAdd(p.crown, inc), MAX_CROWN))
  }

  /** Damage the crown, never below zero. */
  function CrownDec(p: Player, dec: U8): (r: Player)
    ensures r.crown == Max(p.crown - dec, 0)
    ensures r == p.(crown := r.crown)
  {
    p.(crown := SaturatingSub(p.crown, dec))
  }

  /** Build the bulwark, never past five. */
  function BulwarkInc(p: Player, inc: U8): (r: Player)
    ensures r.bulwark == Min(p.bulwark + inc, MAX_BULWARK)
    ensures r == p.(bulwark := r.bulwark)
  {
    p.(bulwark := Min(SaturatingAdd(p.bulwark, inc), MAX_BULWARK))
  }

  /** Damage the bulwark, never below zero. */
  function BulwarkDec(p: Player, dec: U8): (r: Player)
    ensures r.bulwark == Max(p.bulwark - dec, 0)
    ensures r == p.(bulwark := r.bulwark)
  {
    p.(bulwark := SaturatingSub(p.bulwark, dec))
  }

  /** The four resource operations keep crown in 0..12 and bulwark in 0..5,
      for any amount; healing and building only ever raise, damage only ever
      lowers. */
  lemma ResourcesStayInRange(p: Player, n: U8)
    requires Valid(p)
    ensures Valid(CrownInc(p, n)) && Valid(CrownDec(p, n))
    ensures Valid(BulwarkInc(p, n)) && Valid(BulwarkDec(p, n))
    ensures p.crown <= CrownInc(p, n).crown && CrownDec(p, n).crown <= p.crown
    ensures p.bulwark <= BulwarkInc(p, n).bulwark && BulwarkDec(p, n).bulwark <= p.bulwark
  {
  }

  // ------------------------------------------------------------- lookup

  /** The side of the first hero of `kind`, left before right. */
  function GetPosOf(p: Player, kind: HeroKind): (r: Option<HeroPos>)
    ensures r == Some(L) <==> p.heroL.kind == kind
    ensures r == Some(R) <==> p.heroL.kind != kind && p.heroR.kind == kind
    ensures r.None? <==> p.heroL.kind != kind && p.heroR.kind != kind
  {
    if p.heroL.kind == kind then Some(L)
    else if p.heroR.kind == kind then Some(R)
    else None
  }

  /** A hero is ready to act as `kind`. */
  predicate ReadyAs(h: Hero, kind: HeroKind) {
    h.kind == kind && h.act
  }

  /** The side of the first READY hero of `kind`, left before right. */
  function GetPosOfAct(p: Player, kind: HeroKind): (r: Option<HeroPos>)
    ensures r == Some(L) <==> ReadyAs(p.heroL, kind)
    ensures r == Some(R) <==> !ReadyAs(p.heroL, kind) && ReadyAs(p.heroR, kind)
    ensures r.None? <==> !ReadyAs(p.heroL, kind) && !ReadyAs(p.heroR, kind)
  {
    if p.heroL.kind == kind && p.heroL.act then Some(L)
    else if p.heroR.kind == kind && p.heroR.act then Some(R)
    else None
  }

  /** The first hero of `kind` with its side. */
  function GetHeroOf(p: Player, kind: HeroKind): (r: Option<(Hero, HeroPos)>)
    ensures r.None? <==> GetPosOf(p, kind).None?
    ensures r.Some? ==> Some(r.value.1) == GetPosOf(p, kind) && r.value.0 == p.HeroAt(r.value.1)
    ensures r.Some? ==> r.value.0.kind == kind
  {
    if p.heroL.kind == kind then Some((p.heroL, L))
    else if p.heroR.kind == kind then Some((p.heroR, R))
    else None
  }

  /** The first ready hero of `kind` with its side. */
  function GetHeroOfAct(p: Player, kind: HeroKind): (r: Option<(Hero, HeroPos)>)
    ensures r.None? <==> GetPosOfAct(p, kind).None?
    ensures r.Some? ==> Some(r.value.1) == GetPosOfAct(p, kind) && r.value.0 == p.HeroAt(r.value.1)
    ensures r.Some? ==> ReadyAs(r.value.0, kind)
  {
    if p.heroL.kind == kind && p.heroL.act then Some((p.heroL, L))
    else if p.heroR.kind == kind && p.heroR.act then Some((p.heroR, R))
    else None
  }

  /** A ready lookup only finds what a plain lookup finds: if the first hero
      of `kind` is ready, the two agree; the ready lookup finds nothing when
      there is no hero of `kind` at all. */
  lemma ReadyLookupRefinesLookup(p: Player, kind: HeroKind)
    ensures GetPosOf(p, kind).None? ==> GetPosOfAct(p, kind).None?
    ensures GetPosOf(p, kind).Some? && p.HeroAt(GetPosOf(p, kind).value).act ==>
              GetPosOfAct(p, kind) == GetPosOf(p, kind)
    ensures GetPosOfAct(p, kind).Some? ==> p.HeroAt(GetPosOfAct(p, kind).value).kind == kind
  {
  }

  // ------------------------------------------------------ assassin target

  /** Which of this player's heroes an opposing Assassin delays. A ready
      Assassin on one side shields itself: the other side is hit. Otherwise
      the hero with more energy is hit; `coin` stands for the random draw that
      settles equal energy (true picks the left hero). */
  function AssassinTarget(p: Player, coin: bool): (r: (Hero, HeroPos))
    ensures r.0 == p.HeroAt(r.1)
    ensures ReadyAs(p.heroL, Assassin) ==> r.1 == R
    ensures !ReadyAs(p.heroL, Assassin) && ReadyAs(p.heroR, Assassin) ==> r.1 == L
    ensures !ReadyAs(p.heroL, Assassin) && !ReadyAs(p.heroR, Assassin) ==>
              && (p.heroL.energy > p.heroR.energy ==> r.1 == L)
              && (p.heroL.energy < p.heroR.energy ==> r.1 == R)
              && (p.heroL.energy == p.heroR.energy ==> (r.1 == L <==> coin))
  {
    if p.heroL.kind == Assassin && p.heroL.act then (p.heroR, R)
    else if p.heroR.kind == Assassin && p.heroR.act then (p.heroL, L)
    else if p.heroL.energy > p.heroR.energy then (p.heroL, L)
    else if p.heroL.energy < p.heroR.energy then (p.heroR, R)
    else if coin then (p.heroL, L)
    else (p.heroR, R)
  }

  /** The Assassin's choice depends on the heroes alone: crown and bulwark,
      which the attack changes first, do not enter it. */
  lemma AssassinTargetIgnoresResources(p: Player, q: Player, coin: bool)
    requires p.heroL == q.heroL && p.heroR == q.heroR
    ensures AssassinTarget(p, coin).1 == AssassinTarget(q, coin).1
  {
  }
}
