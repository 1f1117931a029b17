/**
 One turn of a match (`do_turn` in lib/engine/game.rs): the fixed sequence of
 phases that applies both players' rolls, lets the ready heroes act, resolves
 bombs and checks the crowns. The random draws that settle an Assassin's
 choice between equal-energy targets are inputs.
 */
module Turns {
  import opened Base
  import opened Heroes
  import opened Players
  import opened Wheels
  import opened Grids
  import opened Engine

  /** One draw per Assassin call of the turn (true picks the left hero when
      the two candidates hold equal energy). */
  datatype TieBreaks = TieBreaks(p1First: bool, p2First: bool, p1Rerun: bool, p2Rerun: bool)

  datatype Winner = Player1 | Player2 | Draw {
    /** The same result seen from the other seat. */
    function Swap(): Winner {
      match this
      case Player1 => Player2
      case Player2 => Player1
      case Draw => Draw
    }
  }

  /** The crown check that closes a turn: both crowns empty is a draw, one
      empty crown loses, and otherwise the match goes on. */
  function WinnerOf(c1: U8, c2: U8): (w: Option<Winner>)
    ensures w == Some(Draw) <==> c1 == 0 && c2 == 0
    ensures w == Some(Player2) <==> c1 == 0 && c2 != 0
    ensures w == Some(Player1) <==> c1 != 0 && c2 == 0
    ensures w.None? <==> c1 != 0 && c2 != 0
  {
    if c1 == 0 && c2 == 0 then Some(Draw)
    else if c1 == 0 then Some(Player2)
    else if c2 == 0 then Some(Player1)
    else None
  }

  /** The crown check favours neither seat: swapping the crowns swaps the
      winner. */
  lemma WinnerOfSymmetric(c1: U8, c2: U8)
    ensures WinnerOf(c2, c1).None? <==> WinnerOf(c1, c2).None?
    ensures WinnerOf(c1, c2).Some? ==> WinnerOf(c2, c1) == Some(WinnerOf(c1, c2).value.Swap())
  {
  }

  /** Rolls as the wheel tables produce them: every count is 1 to 3. */
  predicate WellFormedRolls(rolls: Rolls) {
    forall i :: 0 <= i < WHEELS ==> rolls[i].WellFormed()
  }

  /** The totals of well-formed rolls, whose byte sums cannot overflow. */
  function TotalsOf(rolls: Rolls): (t: RollTotals)
    requires WellFormedRolls(rolls)
    ensures t.squares + t.diamonds + t.hammers <= 3 * WHEELS
    ensures t.expL <= t.squares && t.expR <= t.diamonds && t.expL + t.expR <= WHEELS
  {
    TotalsBounds(rolls);
    Totals(rolls)
  }

  /** What every phase guarantees about the game: the invariants carry over
      and nothing is undone. */
  predicate Keeps(g: Game, g': Game) {
    && (HeroesValid(g) ==> HeroesValid(g'))
    && (GameValid(g) ==> GameValid(g'))
    && Advances(g, g')
  }

  /** Neither crown rises: what every hero action except the Priest's
      guarantees, since only the Priest heals. */
  predicate NoHeal(g: Game, g': Game) {
    g'.p1.crown <= g.p1.crown && g'.p2.crown <= g.p2.crown
  }

  /** No hero of either player is ready. */
  predicate NoneReady(g: Game) {
    !g.p1.heroL.act && !g.p1.heroR.act && !g.p2.heroL.act && !g.p2.heroR.act
  }

  // ------------------------------------------------- phases 1 to 3: rolls

  /** Phase 1 for one player: the left hero gains the square bonuses, then
      the right hero the diamond bonuses; the bombs the two gains yield. */
  function ExpOf(g: Game, player: PlayerPos, expL: U8, expR: U8, log: seq<Action>, rule: LevelRule): (r: Step<(Bomb, Bomb)>)
    requires HeroesValid(g)
    requires expL <= WHEELS && expR <= WHEELS
    ensures var p := g.Get(player);
            && r.game.Get(player) == p.(heroL := Gained(p.heroL, expL), heroR := Gained(p.heroR, expR))
            && r.game.Get(player.Other()) == g.Get(player.Other())
            && r.out == (BombOf(p.heroL, expL, rule), BombOf(p.heroR, expR, rule))
    ensures expL == 0 && expR == 0 ==> r.game == g && r.log == log
    ensures Keeps(g, r.game)
  {
    var s1 := DoExpLevel(g, player, L, expL, log, rule);
    var s2 := DoExpLevel(s1.game, player, R, expR, s1.log, rule);
    Step(s2.game, s2.log, (s1.out, s2.out))
  }

  /** Phase 1: P1's heroes, then P2's; the bombs start the turn's pending
      grid. */
  function ExpPhase(g: Game, t1: RollTotals, t2: RollTotals, log: seq<Action>, rule: LevelRule): (r: Step<Grid>)
    requires HeroesValid(g)
    requires t1.expL <= WHEELS && t1.expR <= WHEELS && t2.expL <= WHEELS && t2.expR <= WHEELS
    ensures r.game == Game(g.p1.(heroL := Gained(g.p1.heroL, t1.expL), heroR := Gained(g.p1.heroR, t1.expR)),
                           g.p2.(heroL := Gained(g.p2.heroL, t2.expL), heroR := Gained(g.p2.heroR, t2.expR)))
    ensures r.out == Grid(BombOf(g.p1.heroL, t1.expL, rule), BombOf(g.p1.heroR, t1.expR, rule),
                          BombOf(g.p2.heroL, t2.expL, rule), BombOf(g.p2.heroR, t2.expR, rule))
    ensures t1.expL == 0 && t1.expR == 0 && t2.expL == 0 && t2.expR == 0 ==> r.game == g && r.log == log
    ensures Keeps(g, r.game)
  {
    var s1 := ExpOf(g, P1, t1.expL, t1.expR, log, rule);
    var s2 := ExpOf(s1.game, P2, t2.expL, t2.expR, s1.log, rule);
    Step(s2.game, s2.log, Grid(s1.out.0, s1.out.1, s2.out.0, s2.out.1))
  }

  /** The bulwark after `points` hammers. */
  function Built(bulwark: U8, points: U8): U8 {
    if points > 2 then Min(bulwark + points - 2, MAX_BULWARK) else bulwark
  }

  /** Phase 2: hammers build each player's bulwark, P1 first. */
  function BulwarkPhase(g: Game, t1: RollTotals, t2: RollTotals, log: seq<Action>): (r: Step<()>)
    ensures r.game == Game(g.p1.(bulwark := Built(g.p1.bulwark, t1.hammers)),
                           g.p2.(bulwark := Built(g.p2.bulwark, t2.hammers)))
    ensures t1.hammers <= 2 && t2.hammers <= 2 ==> r.game == g && r.log == log
    ensures Keeps(g, r.game)
  {
    var s1 := DoBulwark(g, P1, t1.hammers, log);
    var s2 := DoBulwark(s1.game, P2, t2.hammers, s1.log);
    s2
  }

  /** A hero after `points` energy symbols: those beyond two go into the rod. */
  function Charged(h: Hero, points: U8): Hero
    requires h.level <= MAX_LEVEL && h.energy + points <= U8_MAX
  {
    if points > 2 then EnergyInc(h, points - 2).0 else h
  }

  /** Whether `points` energy symbols fill the hero's rod. */
  function Fills(h: Hero, points: U8): Act
    requires h.level <= MAX_LEVEL
  {
    FromBool(points > 2 && h.energy + points - 2 >= RodLen(h.kind, h.level))
  }

  /** Phase 3 for one player: squares charge the left hero, then diamonds
      the right hero; whether each rod filled. */
  function EnergyOf(g: Game, player: PlayerPos, squares: U8, diamonds: U8, log: seq<Action>): (r: Step<(Act, Act)>)
    requires HeroesValid(g)
    requires squares <= 3 * WHEELS && diamonds <= 3 * WHEELS
    ensures var p := g.Get(player);
            && r.game.Get(player) == p.(heroL := Charged(p.heroL, squares), heroR := Charged(p.heroR, diamonds))
            && r.game.Get(player.Other()) == g.Get(player.Other())
            && r.out == (Fills(p.heroL, squares), Fills(p.heroR, diamonds))
    ensures squares <= 2 && diamonds <= 2 ==> r.game == g && r.log == log
    ensures Keeps(g, r.game)
  {
    var s1 := DoEnergy(g, player, L, squares, log);
    var s2 := DoEnergy(s1.game, player, R, diamonds, s1.log);
    Step(s2.game, s2.log, (s1.out, s2.out))
  }

  /** Phase 3: P1's heroes, then P2's; which rods filled is the readiness
      snapshot the Priest's second delivery uses. */
  function EnergyPhase(g: Game, t1: RollTotals, t2: RollTotals, log: seq<Action>): (r: Step<Grid>)
    requires HeroesValid(g)
    requires t1.squares <= 3 * WHEELS && t1.diamonds <= 3 * WHEELS
    requires t2.squares <= 3 * WHEELS && t2.diamonds <= 3 * WHEELS
    ensures r.game == Game(g.p1.(heroL := Charged(g.p1.heroL, t1.squares), heroR := Charged(g.p1.heroR, t1.diamonds)),
                           g.p2.(heroL := Charged(g.p2.heroL, t2.squares), heroR := Charged(g.p2.heroR, t2.diamonds)))
    ensures r.out == Grid(Fills(g.p1.heroL, t1.squares), Fills(g.p1.heroR, t1.diamonds),
                          Fills(g.p2.heroL, t2.squares), Fills(g.p2.heroR, t2.diamonds))
    ensures t1.squares <= 2 && t1.diamonds <= 2 && t2.squares <= 2 && t2.diamonds <= 2 ==>
              r.game == g && r.log == log && r.out == ALL_NO
    ensures Keeps(g, r.game)
  {
    var s1 := EnergyOf(g, P1, t1.squares, t1.diamonds, log);
    var s2 := EnergyOf(s1.game, P2, t2.squares, t2.diamonds, s1.log);
    Step(s2.game, s2.log, Grid(s1.out.0, s1.out.1, s2.out.0, s2.out.1))
  }

  // ------------------------------------------------------- action phases

  /** The state threaded through the action phases. */
  datatype Turn = Turn(game: Game, bombs: Grid, log: seq<Action>)

  /** The hero action of `kind`. `coin` matters only for the Assassin. */
  method Perform(g: Game, player: PlayerPos, kind: HeroKind, coin: bool, log: seq<Action>, rule: LevelRule)
    returns (s: Step<Report>)
    requires HeroesValid(g)
    ensures Keeps(g, s.game)
    ensures s.out.None? <==> GetPosOfAct(g.Get(player), kind).None?
    ensures s.out.None? ==> s.game == g && s.log == log
    ensures ActedAs(g, s, player, kind, log, rule)
    ensures kind != Priest ==> NoHeal(g, s.game)
    ensures |log| <= |s.log| && s.log[..|log|] == log
  {
    match kind
    case Assassin => s := DoAssassin(g, player, coin, log, rule);
    case Priest => s := DoPriest(g, player, log, rule);
    case Engineer => s := DoEngineer(g, player, log, rule);
    case Warrior => s := DoWarrior(g, player, log, rule);
    case Mage => s := DoMage(g, player, log, rule);
    case Archer => s := DoArcher(g, player, log, rule);
  }

  /** One hero action of `player`'s ready hero of `kind`, its bomb folded into
      the pending grid. Nothing happens without a ready hero of the kind.
      Otherwise the first ready hero of the kind ends unready with two more
      experience, and its bomb is ORed into its own slot: a pending bomb is
      never cleared, and a new one appears only in the actor's slot. */
  method Run(t: Turn, player: PlayerPos, kind: HeroKind, coin: bool, rule: LevelRule) returns (r: Turn)
    requires HeroesValid(t.game)
    ensures Keeps(t.game, r.game)
    ensures GetPosOfAct(t.game.Get(player), kind).None? ==> r == t
    ensures GetPosOfAct(t.game.Get(player), kind).Some? ==>
              var pos := GetPosOfAct(t.game.Get(player), kind).value;
              var h := t.game.HeroAt(player, pos);
              && r.game.HeroAt(player, pos) == Gained(h, 2).(act := false)
              && r.bombs == t.bombs.OrMut(Some((player, pos, BombOf(h, 2, rule))))
    ensures kind != Priest ==> NoHeal(t.game, r.game)
    ensures forall h :: t.bombs.Get(player, h) == Yes ==> r.bombs.Get(player, h) == Yes
    ensures forall h :: r.bombs.Get(player.Other(), h) == t.bombs.Get(player.Other(), h)
    ensures |t.log| <= |r.log| && r.log[..|t.log|] == t.log
  {
    var s := Perform(t.game, player, kind, coin, t.log, rule);
    r := Turn(s.game, t.bombs.OrMut(s.out), s.log);
  }

  /** Phases 4 to 6: Assassins, then Priests, then Engineers, P1 before P2
      each time. */
  method EarlyActions(t: Turn, coins: TieBreaks, rule: LevelRule) returns (r: Turn)
    requires HeroesValid(t.game)
    ensures Keeps(t.game, r.game)
    ensures NoneReady(t.game) ==> r == t
  {
    r := Run(t, P1, Assassin, coins.p1First, rule);
    r := Run(r, P2, Assassin, coins.p2First, rule);
    r := Run(r, P1, Priest, false, rule);
    r := Run(r, P2, Priest, false, rule);
    r := Run(r, P1, Engineer, false, rule);
    r := Run(r, P2, Engineer, false, rule);
  }

  /** Phase 8: Warriors, then Mages, then Archers, P1 before P2 each time. */
  method LateActions(t: Turn, rule: LevelRule) returns (r: Turn)
    requires HeroesValid(t.game)
    ensures Keeps(t.game, r.game)
    ensures NoHeal(t.game, r.game)
    ensures NoneReady(t.game) ==> r == t
  {
    r := Run(t, P1, Warrior, false, rule);
    r := Run(r, P2, Warrior, false, rule);
    r := Run(r, P1, Mage, false, rule);
    r := Run(r, P2, Mage, false, rule);
    r := Run(r, P1, Archer, false, rule);
    r := Run(r, P2, Archer, false, rule);
  }

  /** Phase 10: every kind but the Priest acts once more, for heroes the
      Priest's second delivery made ready. With no Priest among them, no
      crown rises. */
  method Rerun(t: Turn, coins: TieBreaks, rule: LevelRule) returns (r: Turn)
    requires HeroesValid(t.game)
    ensures Keeps(t.game, r.game)
    ensures NoHeal(t.game, r.game)
    ensures NoneReady(t.game) ==> r == t
  {
    r := Run(t, P1, Assassin, coins.p1Rerun, rule);
    r := Run(r, P2, Assassin, coins.p2Rerun, rule);
    r := Run(r, P1, Engineer, false, rule);
    r := Run(r, P2, Engineer, false, rule);
    r := LateActions(r, rule);
  }

  /** A Priest action can raise a crown, so the `NoHeal` clause of `Rerun`
      would fail if the Priest were among the kinds it runs. */
  lemma PriestHeals()
    ensures var g := Game(Players.New("one", Hero(Priest, 0, 0, 0, true), Heroes.New(Warrior)).(crown := 5),
                          Players.New("two", Heroes.New(Mage), Heroes.New(Archer)));
            && DoPriest(g, P1, [], AsWritten).game.p1.crown == 6
            && !NoHeal(g, DoPriest(g, P1, [], AsWritten).game)
  {
  }

  /** Phase 9: each Priest's second delivery, P1 first, keyed off the
      snapshot of phase 3. A delivery touches only its own player, so each
      player's outcome depends on that player alone. */
  function PriestSecondPhase(t: Turn, firstActs: Grid): (r: Turn)
    requires HeroesValid(t.game)
    ensures SecondDelivered(t.game.p1, r.game.p1, P1, firstActs)
    ensures SecondDelivered(t.game.p2, r.game.p2, P2, firstActs)
    ensures Keeps(t.game, r.game)
    ensures r.bombs == t.bombs
    ensures firstActs == ALL_NO ==> r == t
  {
    var s1 := DoPriestSecond(t.game, P1, firstActs, t.log);
    var s2 := DoPriestSecond(s1.game, P2, firstActs, s1.log);
    Turn(s2.game, t.bombs, s2.log)
  }

  /** Phases 7 and 11: every pending bomb goes off and the grid is emptied;
      with none pending nothing happens. */
  function Detonate(t: Turn): (r: Turn)
    ensures r.game.p1 == t.game.p1.(crown := Max(t.game.p1.crown - 2 * YesCount(t.bombs.p2l, t.bombs.p2r), 0))
    ensures r.game.p2 == t.game.p2.(crown := Max(t.game.p2.crown - 2 * YesCount(t.bombs.p1l, t.bombs.p1r), 0))
    ensures Keeps(t.game, r.game)
    ensures r.bombs == ALL_NO
    ensures t.bombs == ALL_NO ==> r == t
  {
    DoBombsPreservesValid(t.game, t.bombs, t.log);
    var s := DoBombs(t.game, t.bombs, t.log);
    Turn(s.game, s.out, s.log)
  }

  // ----------------------------------------------------------------- turn

  /** Rolls that do nothing: no bonus, and at most two of each symbol. */
  predicate QuietRolls(rolls: Rolls)
    requires WellFormedRolls(rolls)
  {
    var t := TotalsOf(rolls);
    t.squares <= 2 && t.diamonds <= 2 && t.hammers <= 2 && t.expL == 0 && t.expR == 0
  }

  /** A player after the three roll phases, each hero and the bulwark on
      its own: a hero gains its bonus experience (phase 1) and is then
      charged by its surplus symbols (phase 3); the bulwark is built by the
      surplus hammers (phase 2). */
  function AfterRolls(p: Player, t: RollTotals): Player
    requires Heroes.Valid(p.heroL) && Heroes.Valid(p.heroR)
    requires t.expL <= WHEELS && t.expR <= WHEELS && t.squares <= 3 * WHEELS && t.diamonds <= 3 * WHEELS
  {
    p.(heroL := Charged(Gained(p.heroL, t.expL), t.squares),
       heroR := Charged(Gained(p.heroR, t.expR), t.diamonds),
       bulwark := Built(p.bulwark, t.hammers))
  }

  /** Phases 1 to 3: the rolls' experience, hammers and energy. Each player
      ends as `AfterRolls` describes, independently of the other; the result
      carries the pending bombs of phase 1, and `firstActs` is the readiness
      snapshot of phase 3, taken on the heroes after their experience. Quiet
      rolls change nothing. */
  method ApplyRolls(g: Game, rolls1: Rolls, rolls2: Rolls, rule: LevelRule) returns (u: Turn, firstActs: Grid)
    requires HeroesValid(g)
    requires WellFormedRolls(rolls1) && WellFormedRolls(rolls2)
    ensures var t1 := TotalsOf(rolls1);
            var t2 := TotalsOf(rolls2);
            && u.game == Game(AfterRolls(g.p1, t1), AfterRolls(g.p2, t2))
            && u.bombs == Grid(BombOf(g.p1.heroL, t1.expL, rule), BombOf(g.p1.heroR, t1.expR, rule),
                               BombOf(g.p2.heroL, t2.expL, rule), BombOf(g.p2.heroR, t2.expR, rule))
            && firstActs == Grid(Fills(Gained(g.p1.heroL, t1.expL), t1.squares), Fills(Gained(g.p1.heroR, t1.expR), t1.diamonds),
                                 Fills(Gained(g.p2.heroL, t2.expL), t2.squares), Fills(Gained(g.p2.heroR, t2.expR), t2.diamonds))
    ensures Keeps(g, u.game)
    ensures QuietRolls(rolls1) && QuietRolls(rolls2) ==> u == Turn(g, ALL_NO, []) && firstActs == ALL_NO
  {
    var t1 := TotalsOf(rolls1);
    var t2 := TotalsOf(rolls2);
    var s1 := ExpPhase(g, t1, t2, [], rule);
    var s2 := BulwarkPhase(s1.game, t1, t2, s1.log);
    var s3 := EnergyPhase(s2.game, t1, t2, s2.log);
    u := Turn(s3.game, s1.out, s3.log);
    firstActs := s3.out;
  }

  /** Phases 4 to 11: the hero actions, bombs, the Priest's second delivery,
      the rerun and the last bombs. With no hero ready, no bomb pending and
      no rod filled by the rolls, nothing happens. */
  method ResolveActions(u: Turn, firstActs: Grid, coins: TieBreaks, rule: LevelRule) returns (r: Turn)
    requires HeroesValid(u.game)
    ensures Keeps(u.game, r.game)
    ensures r.bombs == ALL_NO
    ensures NoneReady(u.game) && u.bombs == ALL_NO && firstActs == ALL_NO ==> r == u
  {
    r := EarlyActions(u, coins, rule);
    r := Detonate(r);
    r := LateActions(r, rule);
    r := PriestSecondPhase(r, firstActs);
    r := Rerun(r, coins, rule);
    r := Detonate(r);
  }

  /** One turn: the game after it, the winner if the match is over, and the
      log. A turn with nothing to do (no hero ready, and neither roll giving
      experience or more than two of any symbol) changes nothing and logs
      nothing. */
  method DoTurn(g: Game, rolls1: Rolls, rolls2: Rolls, coins: TieBreaks, rule: LevelRule)
    returns (game: Game, winner: Option<Winner>, log: seq<Action>)
    requires HeroesValid(g)
    requires WellFormedRolls(rolls1) && WellFormedRolls(rolls2)
    ensures Keeps(g, game)
    ensures GameValid(g) ==>
              && game.p1.crown <= MAX_CROWN && game.p2.crown <= MAX_CROWN
              && game.p1.bulwark <= MAX_BULWARK && game.p2.bulwark <= MAX_BULWARK
    ensures winner == Some(Draw) <==> game.p1.crown == 0 && game.p2.crown == 0
    ensures winner == Some(Player2) <==> game.p1.crown == 0 && game.p2.crown != 0
    ensures winner == Some(Player1) <==> game.p1.crown != 0 && game.p2.crown == 0
    ensures winner.None? <==> game.p1.crown != 0 && game.p2.crown != 0
    ensures NoneReady(g) && QuietRolls(rolls1) && QuietRolls(rolls2) ==> game == g && log == []
  {
    var u, firstActs := ApplyRolls(g, rolls1, rolls2, rule);
    u := ResolveActions(u, firstActs, coins, rule);
    game := u.game;
    winner := WinnerOf(game.p1.crown, game.p2.crown);
    log := u.log;
  }
}
