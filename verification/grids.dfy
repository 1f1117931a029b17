/**
 The turn-scoped yes/no grids of the turn engine (lib/engine/game.rs): a
 pending bomb per hero slot, and the readiness snapshot taken after the energy
 phase. The source declares `Bomb` and `Act` as two identical two-valued
 enums with two identical four-slot structs; here they share one `Flag` and
 one `Grid`, under both names.
 */
module Grids {
  import opened Base
  import opened Players

  datatype PlayerPos = P1 | P2 {
    function Other(): (o: PlayerPos)
      ensures o != this
    {
      match this
      case P1 => P2
      case P2 => P1
    }
  }

  datatype Flag = Yes | No {

    function Flip(): (f: Flag)
      ensures f != this
    {
      match this
      case Yes => No
      case No => Yes
    }

    /** Yes when either side is Yes. */
    function Or(other: Flag): (f: Flag)
      ensures f == Yes <==> this == Yes || other == Yes
    {
      match (this, other)
      case (No, No) => No
      case _ => Yes
    }

    /** Yes when both sides are Yes. */
    function And(other: Flag): (f: Flag)
      ensures f == Yes <==> this == Yes && other == Yes
    {
      match (this, other)
      case (Yes, Yes) => Yes
      case _ => No
    }

    /** A missing flag counts as the identity of `Or`. */
    function OrOpt(other: Option<Flag>): (f: Flag)
      ensures other.None? ==> f == this
    {
      Or(other.GetOr(No))
    }

    /** A missing flag counts as the identity of `And`. */
    function AndOpt(other: Option<Flag>): (f: Flag)
      ensures other.None? ==> f == this
    {
      And(other.GetOr(Yes))
    }
  }

  type Bomb = Flag
  type Act = Flag

  function FromBool(b: bool): (f: Flag)
    ensures f == Yes <==> b
  {
    if b then Yes else No
  }

  /** `Or` and `And` form a Boolean algebra on flags: Yes absorbs `Or` and No
      is its identity, No absorbs `And` and Yes is its identity, `Flip` undoes
      itself and exchanges the two operations. */
  lemma FlagAlgebra(a: Flag, b: Flag)
    ensures Yes.Or(a) == Yes && a.Or(Yes) == Yes
    ensures No.Or(a) == a && a.Or(No) == a
    ensures No.And(a) == No && a.And(No) == No
    ensures Yes.And(a) == a && a.And(Yes) == a
    ensures a.Or(b) == b.Or(a) && a.And(b) == b.And(a)
    ensures a.Flip().Flip() == a
    ensures a.Or(b).Flip() == a.Flip().And(b.Flip())
  {
  }

  /** One flag per (player, hero) slot. */
  datatype Grid = Grid(p1l: Flag, p1r: Flag, p2l: Flag, p2r: Flag) {

    function Get(player: PlayerPos, hero: HeroPos): Flag {
      match (player, hero)
      case (P1, L) => p1l
      case (P1, R) => p1r
      case (P2, L) => p2l
      case (P2, R) => p2r
    }

    /** Overwrite one slot; the other three keep their flag. */
    function Set(player: PlayerPos, hero: HeroPos, f: Flag): (g: Grid)
      ensures g.Get(player, hero) == f
      ensures forall p, h :: (p, h) != (player, hero) ==> g.Get(p, h) == Get(p, h)
    {
      match (player, hero)
      case (P1, L) => this.(p1l := f)
      case (P1, R) => this.(p1r := f)
      case (P2, L) => this.(p2l := f)
      case (P2, R) => this.(p2r := f)
    }

    function FlipAt(player: PlayerPos, hero: HeroPos): (g: Grid)
      ensures g.Get(player, hero) == Get(player, hero).Flip()
      ensures forall p, h :: (p, h) != (player, hero) ==> g.Get(p, h) == Get(p, h)
    {
      Set(player, hero, Get(player, hero).Flip())
    }

    /** Fold a routine's optional (player, hero, flag) report into its slot:
        nothing changes for no report, and a report touches only its slot,
        which becomes Yes exactly when it was Yes or the report is Yes. */
    function OrMut(b: Option<(PlayerPos, HeroPos, Flag)>): (g: Grid)
      ensures b.None? ==> g == this
      ensures b.Some? ==> g.Get(b.value.0, b.value.1) == Get(b.value.0, b.value.1).Or(b.value.2)
      ensures b.Some? ==> forall p, h :: (p, h) != (b.value.0, b.value.1) ==> g.Get(p, h) == Get(p, h)
    {
      match b
      case None => this
      case Some((player, hero, f)) => Set(player, hero, Get(player, hero).Or(f))
    }

    /** The `And` counterpart of `OrMut`. */
    function AndMut(b: Option<(PlayerPos, HeroPos, Flag)>): (g: Grid)
      ensures b.None? ==> g == this
      ensures b.Some? ==> g.Get(b.value.0, b.value.1) == Get(b.value.0, b.value.1).And(b.value.2)
      ensures b.Some? ==> forall p, h :: (p, h) != (b.value.0, b.value.1) ==> g.Get(p, h) == Get(p, h)
    {
      match b
      case None => this
      case Some((player, hero, f)) => Set(player, hero, Get(player, hero).And(f))
    }
  }

  const ALL_NO: Grid := Grid(No, No, No, No)

  /** Folding the same report in twice is the same as folding it once. */
  lemma OrMutIdempotent(g: Grid, b: Option<(PlayerPos, HeroPos, Flag)>)
    ensures g.OrMut(b).OrMut(b) == g.OrMut(b)
  {
  }
}
