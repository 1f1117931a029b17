/**
 The per-hero routines of the turn engine (lib/engine/game.rs): experience
 and level-ups, bulwark and energy from the roll totals, the six hero
 actions, and pending-bomb resolution. Each routine takes the game and the
 turn log so far and returns the new game, the extended log and what it
 reports to the turn pipeline.

 The experience routine of the source reads the result of `LevelInc` the
 wrong way round (see `DoExpLevel`); every routine that grants experience is
 therefore parameterised by a `LevelRule`: `AsWritten` is the source,
 `Intended` is the behaviour the names of its log entries describe.
 */
module Engine {
  import opened Base
  import opened Heroes
  import opened Players
  import opened Grids

  datatype Game = Game(p1: Player, p2: Player) {

    function Get(pos: PlayerPos): (p: Player)
      ensures p == p1 || p == p2
    {
      match pos
      case P1 => p1
      case P2 => p2
    }

    function With(pos: PlayerPos, p: Player): (g: Game)
      ensures g.Get(pos) == p && g.Get(pos.Other()) == Get(pos.Other())
    {
      match pos
      case P1 => this.(p1 := p)
      case P2 => this.(p2 := p)
    }

    function HeroAt(player: PlayerPos, hero: HeroPos): (h: Hero)
      ensures h == Get(player).heroL || h == Get(player).heroR
    {
      Get(player).HeroAt(hero)
    }

    /** Replace one hero; the rest of the game stays. */
    function WithHero(player: PlayerPos, hero: HeroPos, h: Hero): (g: Game)
      ensures g.Get(player) == Get(player).WithHero(hero, h)
      ensures g.Get(player.Other()) == Get(player.Other())
    {
      With(player, Get(player).WithHero(hero, h))
    }
  }

  /** All four heroes keep the hero invariant: what the capability tables and
      the byte arithmetic of the routines need. */
  predicate HeroesValid(g: Game) {
    && Heroes.Valid(g.p1.heroL) && Heroes.Valid(g.p1.heroR)
    && Heroes.Valid(g.p2.heroL) && Heroes.Valid(g.p2.heroR)
  }

  /** The full invariant: heroes plus crown and bulwark bounds of both players. */
  predicate GameValid(g: Game) {
    Players.Valid(g.p1) && Players.Valid(g.p2)
  }

  /** What no step of a match undoes to a player: the name and the hero
      kinds stay, and no hero loses a level. */
  predicate PlayerAdvances(p: Player, p': Player) {
    && p'.name == p.name
    && p'.heroL.kind == p.heroL.kind && p'.heroR.kind == p.heroR.kind
    && p'.heroL.level >= p.heroL.level && p'.heroR.level >= p.heroR.level
  }

  /** The same for the whole game. */
  predicate Advances(g: Game, g': Game) {
    PlayerAdvances(g.p1, g'.p1) && PlayerAdvances(g.p2, g'.p2)
  }

  /** The game-level invariants follow from the two sides, whichever is the
      acting one. */
  lemma BySides(g: Game, g': Game, player: PlayerPos)
    ensures PlayerAdvances(g.Get(player), g'.Get(player)) && PlayerAdvances(g.Get(player.Other()), g'.Get(player.Other()))
            ==> Advances(g, g')
    ensures Players.Valid(g'.Get(player)) && Players.Valid(g'.Get(player.Other())) ==> GameValid(g')
    ensures HeroesValid(g') <==>
              && Heroes.Valid(g'.Get(player).heroL) && Heroes.Valid(g'.Get(player).heroR)
              && Heroes.Valid(g'.Get(player.Other()).heroL) && Heroes.Valid(g'.Get(player.Other()).heroR)
    ensures GameValid(g) ==> Players.Valid(g.Get(player)) && Players.Valid(g.Get(player.Other()))
    ensures HeroesValid(g) ==>
              && Heroes.Valid(g.Get(player).heroL) && Heroes.Valid(g.Get(player).heroR)
              && Heroes.Valid(g.Get(player.Other()).heroL) && Heroes.Valid(g.Get(player.Other()).heroR)
  {
  }

  // ------------------------------------------------------------------ log

  /** Who did something: seat and name. */
  datatype PlayerId = PlayerId(pos: PlayerPos, name: string)

  function Id(g: Game, pos: PlayerPos): (id: PlayerId)
    ensures id.pos == pos && id.name == g.Get(pos).name
  {
    PlayerId(pos, g.Get(pos).name)
  }

  /** The log tells the two seats apart even when the players share a name,
      and a player's identity survives every step of a match. */
  lemma IdsStable(g: Game, g': Game)
    ensures Id(g, P1) != Id(g, P2)
    ensures Advances(g, g') ==> Id(g', P1) == Id(g, P1) && Id(g', P2) == Id(g, P2)
  {
  }

  /** `AlreadyMax` is the source's "is already at max level" entry. */
  datatype LevelUpKind = Up(level: U8) | AlreadyMax

  datatype Damage = Crown(amount: U8) | Bulwark(amount: U8)

  /** One entry of the turn log; rendering it as text is not modelled. */
  datatype Action =
    | ExpUp(player: PlayerId, hero: HeroKind, exp: U8)
    | LevelUp(player: PlayerId, hero: HeroKind, up: LevelUpKind)
    | BulwarkUp(player: PlayerId, amount: U8)
    | EnergyAdd(player: PlayerId, hero: HeroKind, amount: U8)
    | AssassinDamage(player: PlayerId, amount: U8)
    | AssassinDelay(player: PlayerId, opponent: PlayerId, hero: HeroKind, amount: U8)
    | PriestHeal(player: PlayerId, amount: U8)
    | PriestEnergy(player: PlayerId, hero: HeroKind, amount: U8)
    | EngineerBuild(player: PlayerId, amount: U8)
    | HeroDamage(player: PlayerId, hero: HeroKind, damage: Damage)
    | BombDamage(player: PlayerId, amount: U8)

  /** What a routine leaves behind: the game, the log, and its report. */
  datatype Step<T> = Step(game: Game, log: seq<Action>, out: T)

  /** A hero action reports the acting slot and whether it produced a bomb. */
  type Report = Option<(PlayerPos, HeroPos, Bomb)>

  datatype LevelRule = AsWritten | Intended

  // ------------------------------------------------- experience reference

  /** Whether `inc` more experience reaches the level-up threshold. */
  predicate Overflows(h: Hero, inc: U8) {
    h.exp + inc >= MAX_EXP
  }

  /** The hero after `inc` experience: an overflow empties the experience and
      raises a level below the maximum. */
  function Gained(h: Hero, inc: U8): (h': Hero)
    requires h.exp + inc <= U8_MAX
  {
    h.(exp := if Overflows(h, inc) then 0 else h.exp + inc,
       level := if Overflows(h, inc) && h.level < MAX_LEVEL then h.level + 1 else h.level)
  }

  /** Whether an experience gain yields a bomb. As written, a bomb comes from
      a REAL level-up below the maximum; as intended, from an overflow AT the
      maximum. */
  function BombOf(h: Hero, inc: U8, rule: LevelRule): Bomb {
    match rule
    case AsWritten => FromBool(Overflows(h, inc) && h.level < MAX_LEVEL)
    case Intended => FromBool(Overflows(h, inc) && h.level >= MAX_LEVEL)
  }

  /** The level-up log entry. As written, a real level-up is logged as "already
      at max" and an overflow at the maximum as a level-up to the maximum. */
  function LevelEntry(h: Hero, rule: LevelRule): LevelUpKind {
    match rule
    case AsWritten => if h.level < MAX_LEVEL then AlreadyMax else Up(h.level)
    case Intended => if h.level < MAX_LEVEL then Up(h.level + 1) else AlreadyMax
  }

  // ------------------------------------------------------------- routines

  /** Replacing a hero by one of the same kind and no lower level advances
      the game, and keeps the invariants when the new hero is valid. */
  lemma WithHeroKeeps(g: Game, player: PlayerPos, hero: HeroPos, h: Hero)
    requires h.kind == g.HeroAt(player, hero).kind && h.level >= g.HeroAt(player, hero).level
    ensures Advances(g, g.WithHero(player, hero, h))
    ensures HeroesValid(g) && Heroes.Valid(h) ==> HeroesValid(g.WithHero(player, hero, h))
    ensures GameValid(g) && Heroes.Valid(h) ==> GameValid(g.WithHero(player, hero, h))
  {
    var g' := g.WithHero(player, hero, h);
    assert g'.Get(player).HeroAt(hero.Other()) == g.Get(player).HeroAt(hero.Other());
    assert g'.Get(player.Other()) == g.Get(player.Other());
  }

  /** A level-up attempt after an experience overflow: the level rises unless
      already at the maximum, and the log entry and bomb follow `rule`. As
      written, the source reads `LevelInc`'s "already at the maximum" flag as
      "levelled up". */
  function LevelAttempt(h: Hero, rule: LevelRule): (r: (Hero, LevelUpKind, Bomb))
    ensures r.0 == h.(level := if h.level < MAX_LEVEL then h.level + 1 else h.level)
    ensures r.1 == LevelEntry(h, rule)
    ensures r.2 == match rule
                   case AsWritten => FromBool(h.level < MAX_LEVEL)
                   case Intended => FromBool(h.level >= MAX_LEVEL)
  {
    var (h2, atMax) := LevelInc(h);
    match rule
    case AsWritten => if atMax then (h2, Up(h2.level), No) else (h2, AlreadyMax, Yes)
    case Intended => if atMax then (h2, AlreadyMax, Yes) else (h2, Up(h2.level), No)
  }

  /** Grant `inc` experience to one hero. Nothing happens for no experience.
      Otherwise the gain is logged; on overflow the hero tries to level up,
      the attempt is logged, and a bomb may be reported. */
  function DoExpLevel(g: Game, player: PlayerPos, hero: HeroPos, inc: U8, log: seq<Action>, rule: LevelRule): (r: Step<Bomb>)
    requires g.HeroAt(player, hero).exp + inc <= U8_MAX
    ensures inc == 0 ==> r == Step(g, log, No)
    ensures inc > 0 ==>
              var h := g.HeroAt(player, hero);
              && r.game == g.WithHero(player, hero, Gained(h, inc))
              && r.out == BombOf(h, inc, rule)
              && r.log == log + [ExpUp(Id(g, player), h.kind, inc)]
                          + (if Overflows(h, inc) then [LevelUp(Id(g, player), h.kind, LevelEntry(h, rule))] else [])
    ensures HeroesValid(g) ==> HeroesValid(r.game)
    ensures GameValid(g) ==> GameValid(r.game)
    ensures Advances(g, r.game)
  {
    var id := Id(g, player);
    var h := g.HeroAt(player, hero);
    if inc > 0 then
      var log1 := log + [ExpUp(id, h.kind, inc)];
      var (h1, over) := ExpInc(h, inc);
      var (h2, entries, bomb) :=
        if over then
          var (h2, up, bomb) := LevelAttempt(h1, rule);
          (h2, [LevelUp(id, h.kind, up)], bomb)
        else (h1, [], No);
      WithHeroKeeps(g, player, hero, h2);
      Step(g.WithHero(player, hero, h2), log1 + entries, bomb)
    else
      Step(g, log, No)
  }

  /** How each rule reads `LevelInc`'s flag, which is true when the hero was
      ALREADY at the maximum. As written, the bomb and the "already at the
      maximum" entry come exactly when the flag is false, that is when the
      hero really levelled up. As intended, they come exactly when the flag
      is true: the bomb is what an overflow gives a hero that has no level
      left to gain. */
  lemma LevelRuleReadings(h: Hero, inc: U8)
    requires h.exp + inc <= U8_MAX
    ensures BombOf(h, inc, AsWritten) == Yes <==> Overflows(h, inc) && !LevelInc(h).1
    ensures BombOf(h, inc, Intended) == Yes <==> Overflows(h, inc) && LevelInc(h).1
    ensures LevelEntry(h, AsWritten) == AlreadyMax <==> !LevelInc(h).1
    ensures LevelEntry(h, Intended) == AlreadyMax <==> LevelInc(h).1
    ensures Overflows(h, inc) ==>
              && Gained(h, inc).level == LevelInc(h).0.level
              && (BombOf(h, inc, Intended) == Yes <==> Gained(h, inc).level == h.level)
              && (LevelEntry(h, Intended).Up? ==> LevelEntry(h, Intended).level == Gained(h, inc).level)
  {
  }

  /** A small game whose P1 left Warrior has five experience at `level`. */
  function Sample(level: U8): (g: Game)
    requires level <= MAX_LEVEL
    ensures HeroesValid(g) && GameValid(g)
  {
    Game(Player("one", INIT_CROWN, INIT_BULWARK, Hero(Warrior, level, 5, 0, false), Heroes.New(Mage)),
         Player("two", INIT_CROWN, INIT_BULWARK, Heroes.New(Archer), Heroes.New(Priest)))
  }

  /** The inversion on concrete heroes. A level-0 Warrior with five
      experience that acts (two experience) really reaches level 1, yet as
      written it drops a bomb and is logged as already at the maximum; the
      same Warrior at level 2 overflows with no level to gain, yet drops no
      bomb and is logged as levelling up to 2. The intended rule gives the
      opposite answers. */
  lemma BombInversion()
    ensures var s := DoExpLevel(Sample(0), P1, L, 2, [], AsWritten);
            && s.game.p1.heroL.level == 1 && s.out == Yes
            && s.log[1] == LevelUp(PlayerId(P1, "one"), Warrior, AlreadyMax)
    ensures var s := DoExpLevel(Sample(2), P1, L, 2, [], AsWritten);
            && s.game.p1.heroL.level == 2 && s.out == No
            && s.log[1] == LevelUp(PlayerId(P1, "one"), Warrior, Up(2))
    ensures var s := DoExpLevel(Sample(0), P1, L, 2, [], Intended);
            && s.game.p1.heroL.level == 1 && s.out == No
            && s.log[1] == LevelUp(PlayerId(P1, "one"), Warrior, Up(1))
    ensures var s := DoExpLevel(Sample(2), P1, L, 2, [], Intended);
            && s.game.p1.heroL.level == 2 && s.out == Yes
            && s.log[1] == LevelUp(PlayerId(P1, "one"), Warrior, AlreadyMax)
  {
  }

  /** Hammers beyond two build the bulwark (clamped at five). */
  function DoBulwark(g: Game, player: PlayerPos, points: U8, log: seq<Action>): (r: Step<()>)
    ensures points <= 2 ==> r.game == g && r.log == log
    ensures points > 2 ==>
              var p := g.Get(player);
              && r.game.Get(player) == p.(bulwark := Min(p.bulwark + points - 2, MAX_BULWARK))
              && r.game.Get(player.Other()) == g.Get(player.Other())
              && r.log == log + [BulwarkUp(Id(g, player), points - 2)]
    ensures GameValid(g) ==> GameValid(r.game)
    ensures HeroesValid(g) ==> HeroesValid(r.game)
    ensures Advances(g, r.game)
  {
    if points > 2 then
      Step(g.With(player, BulwarkInc(g.Get(player), points - 2)), log + [BulwarkUp(Id(g, player), points - 2)], ())
    else
      Step(g, log, ())
  }

  /** Squares (left hero) or diamonds (right hero) beyond two become energy;
      the report says whether the rod filled. */
  function DoEnergy(g: Game, player: PlayerPos, hero: HeroPos, points: U8, log: seq<Action>): (r: Step<Act>)
    requires g.HeroAt(player, hero).level <= MAX_LEVEL
    requires points > 2 ==> g.HeroAt(player, hero).energy + points - 2 <= U8_MAX
    ensures points <= 2 ==> r == Step(g, log, No)
    ensures points > 2 ==>
              var h := g.HeroAt(player, hero);
              var filled := h.energy + points - 2 >= RodLen(h.kind, h.level);
              && r.out == FromBool(filled)
              && r.game == g.WithHero(player, hero, h.(energy := if filled then 0 else h.energy + points - 2, act := h.act || filled))
              && r.log == log + [EnergyAdd(Id(g, player), h.kind, points - 2)]
    ensures HeroesValid(g) ==> HeroesValid(r.game)
    ensures GameValid(g) ==> GameValid(r.game)
    ensures Advances(g, r.game)
  {
    var h := g.HeroAt(player, hero);
    if points > 2 then
      var (h1, willAct) := EnergyInc(h, points - 2);
      LevellingNeverWeakens(h.kind, h.level, MAX_LEVEL);
      WithHeroKeeps(g, player, hero, h1);
      Step(g.WithHero(player, hero, h1), log + [EnergyAdd(Id(g, player), h.kind, points - 2)], if willAct then Yes else No)
    else
      Step(g, log, No)
  }

  /** Finish a hero action. `own` and `opp` are the acting player and the
      opponent after the action's effects, with the actor at `pos` still as
      it was; the actor's readiness is cleared and it gains two experience,
      and the report names its slot. */
  function Apply(player: PlayerPos, pos: HeroPos, own: Player, opp: Player, log: seq<Action>, rule: LevelRule): (r: Step<Report>)
    requires own.HeroAt(pos).exp + 2 <= U8_MAX
    ensures r.out == Some((player, pos, BombOf(own.HeroAt(pos), 2, rule)))
    ensures r.game.Get(player) == own.WithHero(pos, Gained(own.HeroAt(pos), 2).(act := false))
    ensures r.game.Get(player.Other()) == opp
    ensures |log| < |r.log| && r.log[..|log|] == log
    ensures Heroes.Valid(own.heroL) && Heroes.Valid(own.heroR) && Heroes.Valid(opp.heroL) && Heroes.Valid(opp.heroR) ==>
              HeroesValid(r.game)
    ensures Players.Valid(own) && Players.Valid(opp) ==> GameValid(r.game)
    ensures PlayerAdvances(own, r.game.Get(player))
  {
    var own1 := own.WithHero(pos, SetAct(own.HeroAt(pos), false));
    var g := if player == P1 then Game(own1, opp) else Game(opp, own1);
    var s := DoExpLevel(g, player, pos, 2, log, rule);
    Step(s.game, s.log, Some((player, pos, s.out)))
  }

  /** Damage routing: the bulwark takes `bulwarkDmg` when it is above
      `threshold`, otherwise the crown takes `crownDmg`; heroes and name are
      untouched. */
  predicate Struck(opp: Player, opp': Player, threshold: U8, crownDmg: U8, bulwarkDmg: U8) {
    && opp'.name == opp.name && opp'.heroL == opp.heroL && opp'.heroR == opp.heroR
    && if opp.bulwark > threshold then
         opp'.bulwark == Max(opp.bulwark - bulwarkDmg, 0) && opp'.crown == opp.crown
       else
         opp'.crown == Max(opp.crown - crownDmg, 0) && opp'.bulwark == opp.bulwark
  }

  /** Hit the opponent's bulwark if it is above `threshold`, else the crown;
      the damage is reported for the log. */
  function Strike(opp: Player, threshold: U8, crownDmg: U8, bulwarkDmg: U8): (r: (Player, Damage))
    ensures Struck(opp, r.0, threshold, crownDmg, bulwarkDmg)
    ensures r.1 == if opp.bulwark > threshold then Bulwark(bulwarkDmg) else Crown(crownDmg)
    ensures Players.Valid(opp) ==> Players.Valid(r.0)
  {
    if opp.bulwark > threshold then (BulwarkDec(opp, bulwarkDmg), Bulwark(bulwarkDmg))
    else (CrownDec(opp, crownDmg), Crown(crownDmg))
  }

  /** The common outcome of a hero action of `kind`: nothing at all when the
      player has no ready hero of that kind; otherwise the first such hero
      (left before right) has its readiness cleared and gains two experience
      through `DoExpLevel`, and the report names it with its bomb. The log
      only grows. */
  predicate ActedAs(g: Game, r: Step<Report>, player: PlayerPos, kind: HeroKind, log: seq<Action>, rule: LevelRule)
    requires HeroesValid(g)
  {
    && (r.out.None? <==> GetPosOfAct(g.Get(player), kind).None?)
    && (r.out.None? ==> r.game == g && r.log == log)
    && (r.out.Some? ==>
          var pos := r.out.value.1;
          var h := g.HeroAt(player, pos);
          && r.out.value.0 == player
          && GetPosOfAct(g.Get(player), kind) == Some(pos)
          && r.game.HeroAt(player, pos) == Gained(h, 2).(act := false)
          && r.out.value.2 == BombOf(h, 2, rule)
          && |log| < |r.log|)
    && r.log[..|log|] == log
  }

  /** The acting player's own side is untouched apart from the actor. */
  predicate OwnSideKept(g: Game, r: Step<Report>, player: PlayerPos) {
    r.out.Some? ==>
      && r.game.Get(player).crown == g.Get(player).crown
      && r.game.Get(player).bulwark == g.Get(player).bulwark
      && r.game.HeroAt(player, r.out.value.1.Other()) == g.HeroAt(player, r.out.value.1.Other())
  }

  /** The opposing hero an Assassin hits after its delay: it loses readiness
      whatever happens, and loses `delay` energy (never below zero), except
      that a hero that has just filled its rod is knocked back to its rod
      length minus `delay`. */
  predicate Delayed(th: Hero, th': Hero, delay: U8)
    requires th.level <= MAX_LEVEL
  {
    && th'.kind == th.kind && th'.level == th.level && th'.exp == th.exp && !th'.act
    && th'.energy == (if th.act && th.energy == 0
                      then Max(RodLen(th.kind, th.level) - delay, 0)
                      else Max(th.energy - delay, 0))
  }

  /** The opponent after an Assassin's attack: the crown loses `dmg` and the
      hero `AssassinTarget` picks is delayed; the rest is kept. */
  function Assail(opp: Player, coin: bool, dmg: U8, delay: U8): (r: Player)
    requires Heroes.Valid(opp.heroL) && Heroes.Valid(opp.heroR)
    requires delay >= 1
    ensures var t := AssassinTarget(opp, coin).1;
            && r.name == opp.name
            && r.crown == Max(opp.crown - dmg, 0)
            && r.bulwark == opp.bulwark
            && Delayed(opp.HeroAt(t), r.HeroAt(t), delay)
            && r.HeroAt(t.Other()) == opp.HeroAt(t.Other())
    ensures Heroes.Valid(r.heroL) && Heroes.Valid(r.heroR)
    ensures Players.Valid(opp) ==> Players.Valid(r)
    ensures PlayerAdvances(opp, r)
  {
    var hit := CrownDec(opp, dmg);
    AssassinTargetIgnoresResources(hit, opp, coin);
    var (target, tpos) := AssassinTarget(hit, coin);
    MutatorsPreserveValid(target, 0, delay, false);
    hit.WithHero(tpos, SetAct(EnergyDec(target, delay), false))
  }

  /** The ready Assassin always hits the opposing crown, then delays the
      opposing hero `AssassinTarget` picks. */
  function DoAssassin(g: Game, player: PlayerPos, coin: bool, log: seq<Action>, rule: LevelRule): (r: Step<Report>)
    requires HeroesValid(g)
    ensures ActedAs(g, r, player, Assassin, log, rule)
    ensures OwnSideKept(g, r, player)
    ensures r.out.Some? ==>
              var lvl := g.HeroAt(player, r.out.value.1).level;
              var opp := g.Get(player.Other());
              var opp' := r.game.Get(player.Other());
              var t := AssassinTarget(opp, coin).1;
              && opp'.name == opp.name
              && opp'.crown == Max(opp.crown - CrownDmg(Assassin, lvl), 0)
              && opp'.bulwark == opp.bulwark
              && Delayed(opp.HeroAt(t), opp'.HeroAt(t), Delay(Assassin, lvl))
              && opp'.HeroAt(t.Other()) == opp.HeroAt(t.Other())
              && r.log[|log|] == AssassinDamage(Id(g, player), CrownDmg(Assassin, lvl))
    ensures HeroesValid(r.game)
    ensures GameValid(g) ==> GameValid(r.game)
    ensures Advances(g, r.game)
  {
    match GetHeroOfAct(g.Get(player), Assassin)
    case None => Step(g, log, None)
    case Some((h, pos)) =>
      var dmg := CrownDmg(Assassin, h.level);
      var delay := Delay(Assassin, h.level);
      var opp := g.Get(player.Other());
      var log1 := log + [AssassinDamage(Id(g, player), dmg),
                         AssassinDelay(Id(g, player), Id(g, player.Other()), AssassinTarget(opp, coin).0.kind, delay)];
      var r := Apply(player, pos, g.Get(player), Assail(opp, coin, dmg, delay), log1, rule);
      BySides(g, r.game, player);
      r
  }

  /** The Priest's own player after its blessing: the crown is healed by
      `heal` (never past twelve) and the ally, unless already ready, gets
      `egen` energy; the Priest itself is kept. */
  function Bless(plr: Player, pos: HeroPos, heal: U8, egen: U8): (r: Player)
    requires Heroes.Valid(plr.heroL) && Heroes.Valid(plr.heroR)
    requires egen <= 3
    ensures r.name == plr.name && r.bulwark == plr.bulwark
    ensures r.crown == Min(plr.crown + heal, MAX_CROWN)
    ensures r.HeroAt(pos) == plr.HeroAt(pos)
    ensures plr.HeroAt(pos.Other()).act ==> r.HeroAt(pos.Other()) == plr.HeroAt(pos.Other())
    ensures !plr.HeroAt(pos.Other()).act ==> r.HeroAt(pos.Other()) == EnergyInc(plr.HeroAt(pos.Other()), egen).0
    ensures Heroes.Valid(r.heroL) && Heroes.Valid(r.heroR)
    ensures Players.Valid(plr) ==> Players.Valid(r)
    ensures PlayerAdvances(plr, r)
  {
    var healed := CrownInc(plr, heal);
    var target := healed.HeroAt(pos.Other());
    MutatorsPreserveValid(target, egen, 1, false);
    if !target.act then healed.WithHero(pos.Other(), EnergyInc(target, egen).0) else healed
  }

  /** The ready Priest heals its own crown (clamped at twelve) and, only if
      its ally is not ready at that moment, gives the ally energy; the
      opponent is untouched. */
  function DoPriest(g: Game, player: PlayerPos, log: seq<Action>, rule: LevelRule): (r: Step<Report>)
    requires HeroesValid(g)
    ensures ActedAs(g, r, player, Priest, log, rule)
    ensures r.out.Some? ==>
              var pos := r.out.value.1;
              var lvl := g.HeroAt(player, pos).level;
              var ally := g.HeroAt(player, pos.Other());
              var ally' := r.game.HeroAt(player, pos.Other());
              && r.game.Get(player).crown == Min(g.Get(player).crown + CrownHeal(Priest, lvl), MAX_CROWN)
              && r.game.Get(player).bulwark == g.Get(player).bulwark
              && (ally.act ==> ally' == ally)
              && (!ally.act ==> ally' == EnergyInc(ally, EnergyGen(Priest, lvl)).0)
              && r.game.Get(player.Other()) == g.Get(player.Other())
              && r.log[|log|] == PriestHeal(Id(g, player), CrownHeal(Priest, lvl))
    ensures HeroesValid(r.game)
    ensures GameValid(g) ==> GameValid(r.game)
    ensures Advances(g, r.game)
  {
    match GetHeroOfAct(g.Get(player), Priest)
    case None => Step(g, log, None)
    case Some((h, pos)) =>
      var heal := CrownHeal(Priest, h.level);
      var egen := EnergyGen(Priest, h.level);
      var ally := g.HeroAt(player, pos.Other());
      var log1 := log + [PriestHeal(Id(g, player), heal)]
                      + (if !ally.act then [PriestEnergy(Id(g, player), ally.kind, egen)] else []);
      var r := Apply(player, pos, Bless(g.Get(player), pos, heal, egen), g.Get(player.Other()), log1, rule);
      BySides(g, r.game, player);
      r
  }

  /** Whether a player's Priest delivers a second time: the player has a
      Priest, and the snapshot `prev` has both the Priest's slot and its
      ally's slot ready. */
  predicate SecondFires(p: Player, player: PlayerPos, prev: Grid) {
    var pos := GetPosOf(p, Priest);
    pos.Some? && prev.Get(player, pos.value) == Yes && prev.Get(player, pos.value.Other()) == Yes
  }

  /** The player `p'` after the second delivery of `p`'s Priest: the ally
      gains the Priest's energy when the delivery fires, and nothing changes
      otherwise. */
  predicate SecondDelivered(p: Player, p': Player, player: PlayerPos, prev: Grid)
    requires Heroes.Valid(p.heroL) && Heroes.Valid(p.heroR)
  {
    if SecondFires(p, player, prev) then
      var pos := GetPosOf(p, Priest).value;
      var ally := p.HeroAt(pos.Other());
      p' == p.WithHero(pos.Other(), EnergyInc(ally, EnergyGen(Priest, p.HeroAt(pos).level)).0)
    else
      p' == p
  }

  /** The Priest's second delivery, keyed off the readiness snapshot taken
      after the energy phase rather than the live flags: when the snapshot
      has both the Priest's slot and its ally's slot ready, the ally receives
      the Priest's energy once more. The Priest need not be ready now. */
  function DoPriestSecond(g: Game, player: PlayerPos, prev: Grid, log: seq<Action>): (r: Step<()>)
    requires HeroesValid(g)
    ensures SecondDelivered(g.Get(player), r.game.Get(player), player, prev)
    ensures r.game.Get(player.Other()) == g.Get(player.Other())
    ensures !SecondFires(g.Get(player), player, prev) ==> r.game == g && r.log == log
    ensures SecondFires(g.Get(player), player, prev) ==>
              var pos := GetPosOf(g.Get(player), Priest).value;
              r.log == log + [PriestEnergy(Id(g, player), g.HeroAt(player, pos.Other()).kind,
                                           EnergyGen(Priest, g.HeroAt(player, pos).level))]
    ensures HeroesValid(r.game)
    ensures GameValid(g) ==> GameValid(r.game)
    ensures Advances(g, r.game)
  {
    match GetPosOf(g.Get(player), Priest)
    case None => Step(g, log, ())
    case Some(pos) =>
      if prev.Get(player, pos) == Yes then
        var egen := EnergyGen(Priest, g.HeroAt(player, pos).level);
        var tpos := pos.Other();
        if prev.Get(player, tpos) == Yes then
          var target := g.HeroAt(player, tpos);
          MutatorsPreserveValid(target, egen, 1, false);
          Step(g.WithHero(player, tpos, EnergyInc(target, egen).0), log + [PriestEnergy(Id(g, player), target.kind, egen)], ())
        else
          Step(g, log, ())
      else
        Step(g, log, ())
  }

  /** The ready Engineer hits the opposing bulwark if it is above zero, else
      the crown, then builds two points of its own bulwark. */
  function DoEngineer(g: Game, player: PlayerPos, log: seq<Action>, rule: LevelRule): (r: Step<Report>)
    requires HeroesValid(g)
    ensures ActedAs(g, r, player, Engineer, log, rule)
    ensures r.out.Some? ==>
              var pos := r.out.value.1;
              var lvl := g.HeroAt(player, pos).level;
              && Struck(g.Get(player.Other()), r.game.Get(player.Other()), 0, CrownDmg(Engineer, lvl), BulwarkDmg(Engineer, lvl))
              && r.game.Get(player).bulwark == Min(g.Get(player).bulwark + 2, MAX_BULWARK)
              && r.game.Get(player).crown == g.Get(player).crown
              && r.game.HeroAt(player, pos.Other()) == g.HeroAt(player, pos.Other())
              && |log| + 1 < |r.log| && r.log[|log| + 1] == EngineerBuild(Id(g, player), 2)
    ensures HeroesValid(r.game)
    ensures GameValid(g) ==> GameValid(r.game)
    ensures Advances(g, r.game)
  {
    match GetHeroOfAct(g.Get(player), Engineer)
    case None => Step(g, log, None)
    case Some((h, pos)) =>
      var (opp, dmg) := Strike(g.Get(player.Other()), 0, CrownDmg(Engineer, h.level), BulwarkDmg(Engineer, h.level));
      var log1 := log + [HeroDamage(Id(g, player), Engineer, dmg), EngineerBuild(Id(g, player), 2)];
      var r := Apply(player, pos, BulwarkInc(g.Get(player), 2), opp, log1, rule);
      BySides(g, r.game, player);
      r
  }

  /** The ready Warrior hits the opposing bulwark if it is above zero, else
      the crown. */
  function DoWarrior(g: Game, player: PlayerPos, log: seq<Action>, rule: LevelRule): (r: Step<Report>)
    requires HeroesValid(g)
    ensures ActedAs(g, r, player, Warrior, log, rule)
    ensures OwnSideKept(g, r, player)
    ensures r.out.Some? ==>
              var lvl := g.HeroAt(player, r.out.value.1).level;
              && Struck(g.Get(player.Other()), r.game.Get(player.Other()), 0, CrownDmg(Warrior, lvl), BulwarkDmg(Warrior, lvl))
              && r.log[|log|] == HeroDamage(Id(g, player), Warrior,
                   if g.Get(player.Other()).bulwark > 0 then Bulwark(BulwarkDmg(Warrior, lvl)) else Crown(CrownDmg(Warrior, lvl)))
    ensures HeroesValid(r.game)
    ensures GameValid(g) ==> GameValid(r.game)
    ensures Advances(g, r.game)
  {
    match GetHeroOfAct(g.Get(player), Warrior)
    case None => Step(g, log, None)
    case Some((h, pos)) =>
      var (opp, dmg) := Strike(g.Get(player.Other()), 0, CrownDmg(Warrior, h.level), BulwarkDmg(Warrior, h.level));
      var r := Apply(player, pos, g.Get(player), opp, log + [HeroDamage(Id(g, player), Warrior, dmg)], rule);
      BySides(g, r.game, player);
      r
  }

  /** The ready Mage hits like the Warrior, then hits the crown a second
      time for its crown damage, ignoring the bulwark. */
  function DoMage(g: Game, player: PlayerPos, log: seq<Action>, rule: LevelRule): (r: Step<Report>)
    requires HeroesValid(g)
    ensures ActedAs(g, r, player, Mage, log, rule)
    ensures OwnSideKept(g, r, player)
    ensures r.out.Some? ==>
              var lvl := g.HeroAt(player, r.out.value.1).level;
              var opp := g.Get(player.Other());
              var opp' := r.game.Get(player.Other());
              && opp'.name == opp.name && opp'.heroL == opp.heroL && opp'.heroR == opp.heroR
              && (opp.bulwark > 0 ==>
                    opp'.bulwark == Max(opp.bulwark - BulwarkDmg(Mage, lvl), 0)
                    && opp'.crown == Max(opp.crown - CrownDmg(Mage, lvl), 0))
              && (opp.bulwark == 0 ==>
                    opp'.bulwark == 0 && opp'.crown == Max(opp.crown - 2 * CrownDmg(Mage, lvl), 0))
              && |log| + 1 < |r.log| && r.log[|log| + 1] == HeroDamage(Id(g, player), Mage, Crown(CrownDmg(Mage, lvl)))
    ensures HeroesValid(r.game)
    ensures GameValid(g) ==> GameValid(r.game)
    ensures Advances(g, r.game)
  {
    match GetHeroOfAct(g.Get(player), Mage)
    case None => Step(g, log, None)
    case Some((h, pos)) =>
      var crownDmg := CrownDmg(Mage, h.level);
      var (opp, dmg) := Strike(g.Get(player.Other()), 0, crownDmg, BulwarkDmg(Mage, h.level));
      var log1 := log + [HeroDamage(Id(g, player), Mage, dmg), HeroDamage(Id(g, player), Mage, Crown(crownDmg))];
      var r := Apply(player, pos, g.Get(player), CrownDec(opp, crownDmg), log1, rule);
      BySides(g, r.game, player);
      r
  }

  /** The ready Archer pierces a low bulwark: it hits the bulwark only when
      it is above two, else the crown. */
  function DoArcher(g: Game, player: PlayerPos, log: seq<Action>, rule: LevelRule): (r: Step<Report>)
    requires HeroesValid(g)
    ensures ActedAs(g, r, player, Archer, log, rule)
    ensures OwnSideKept(g, r, player)
    ensures r.out.Some? ==>
              var lvl := g.HeroAt(player, r.out.value.1).level;
              && Struck(g.Get(player.Other()), r.game.Get(player.Other()), 2, CrownDmg(Archer, lvl), BulwarkDmg(Archer, lvl))
              && r.log[|log|] == HeroDamage(Id(g, player), Archer,
                   if g.Get(player.Other()).bulwark > 2 then Bulwark(BulwarkDmg(Archer, lvl)) else Crown(CrownDmg(Archer, lvl)))
    ensures HeroesValid(r.game)
    ensures GameValid(g) ==> GameValid(r.game)
    ensures Advances(g, r.game)
  {
    match GetHeroOfAct(g.Get(player), Archer)
    case None => Step(g, log, None)
    case Some((h, pos)) =>
      var (opp, dmg) := Strike(g.Get(player.Other()), 2, CrownDmg(Archer, h.level), BulwarkDmg(Archer, h.level));
      var r := Apply(player, pos, g.Get(player), opp, log + [HeroDamage(Id(g, player), Archer, dmg)], rule);
      BySides(g, r.game, player);
      r
  }

  // ---------------------------------------------------------------- bombs

  /** A pending bomb deals two crown damage to its owner's opponent and is
      spent; no bomb, no effect. Either way the slot ends empty. */
  function DoBomb(g: Game, player: PlayerPos, bomb: Bomb, log: seq<Action>): (r: Step<Bomb>)
    ensures r.out == No
    ensures bomb == No ==> r.game == g && r.log == log
    ensures bomb == Yes ==>
              var opp := g.Get(player.Other());
              && r.game.Get(player.Other()) == opp.(crown := Max(opp.crown - 2, 0))
              && r.game.Get(player) == g.Get(player)
              && r.log == log + [BombDamage(Id(g, player), 2)]
  {
    match bomb
    case Yes => Step(g.With(player.Other(), CrownDec(g.Get(player.Other()), 2)), log + [BombDamage(Id(g, player), 2)], No)
    case No => Step(g, log, No)
  }

  /** The number of Yes flags among two. */
  function YesCount(a: Flag, b: Flag): nat {
    (if a == Yes then 1 else 0) + (if b == Yes then 1 else 0)
  }

  /** The log entries of one slot's bomb. */
  function BombEntry(g: Game, player: PlayerPos, bomb: Bomb): seq<Action> {
    if bomb == Yes then [BombDamage(Id(g, player), 2)] else []
  }

  /** Resolve one player's two pending bombs, left then right: the opponent
      loses two crown per bomb (never below zero) and nothing else changes. */
  function DoBombsOf(g: Game, player: PlayerPos, left: Bomb, right: Bomb, log: seq<Action>): (r: Step<(Bomb, Bomb)>)
    ensures r.out == (No, No)
    ensures r.game.Get(player) == g.Get(player)
    ensures var opp := g.Get(player.Other());
            r.game.Get(player.Other()) == opp.(crown := Max(opp.crown - 2 * YesCount(left, right), 0))
    ensures r.log == log + BombEntry(g, player, left) + BombEntry(g, player, right)
  {
    var s1 := DoBomb(g, player, left, log);
    var s2 := DoBomb(s1.game, player, right, s1.log);
    Step(s2.game, s2.log, (s1.out, s2.out))
  }

  /** Resolve all four pending bombs in the order P1-left, P1-right, P2-left,
      P2-right. Each player loses two crown per pending bomb of the OTHER
      player (never below zero), nothing else changes, and every slot ends
      empty. */
  function DoBombs(g: Game, bombs: Grid, log: seq<Action>): (r: Step<Grid>)
    ensures r.out == ALL_NO
    ensures r.game.p1 == g.p1.(crown := Max(g.p1.crown - 2 * YesCount(bombs.p2l, bombs.p2r), 0))
    ensures r.game.p2 == g.p2.(crown := Max(g.p2.crown - 2 * YesCount(bombs.p1l, bombs.p1r), 0))
    ensures r.log == log + BombEntry(g, P1, bombs.p1l) + BombEntry(g, P1, bombs.p1r)
                         + BombEntry(g, P2, bombs.p2l) + BombEntry(g, P2, bombs.p2r)
  {
    var s1 := DoBombsOf(g, P1, bombs.Get(P1, L), bombs.Get(P1, R), log);
    var s2 := DoBombsOf(s1.game, P2, bombs.Get(P2, L), bombs.Get(P2, R), s1.log);
    assert Id(s1.game, P2) == Id(g, P2);
    Step(s2.game, s2.log, Grid(s1.out.0, s1.out.1, s2.out.0, s2.out.1))
  }

  /** Bomb resolution keeps the invariant and the roster. */
  lemma DoBombsPreservesValid(g: Game, bombs: Grid, log: seq<Action>)
    ensures HeroesValid(g) ==> HeroesValid(DoBombs(g, bombs, log).game)
    ensures GameValid(g) ==> GameValid(DoBombs(g, bombs, log).game)
    ensures Advances(g, DoBombs(g, bombs, log).game)
  {
  }
}
