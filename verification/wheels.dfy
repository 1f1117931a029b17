/**
 The five wheels a player spins each turn, their fixed face tables, and the
 reduction of five faces to the roll totals the turn engine consumes
 (lib/engine/wheel.rs). Faces are explicit inputs: the random draw that picks
 them is outside the model.
 */
module Wheels {
  import opened Base

  /** The symbol shown on a face, without its count. */
  datatype WheelKind = Square | Diamond | Hammer

  /** One wheel with a face up: a symbol, how many of it, and (for squares and
      diamonds) whether the face also grants experience. */
  datatype Wheel = Square(n: U8, bonus: bool) | Diamond(n: U8, bonus: bool) | Hammer(n: U8) {

    /** The symbol of this face. */
    function GetKind(): (k: WheelKind)
      ensures k == WheelKind.Square <==> this.Square?
      ensures k == WheelKind.Diamond <==> this.Diamond?
      ensures k == WheelKind.Hammer <==> this.Hammer?
    {
      match this
      case Square(_, _) => WheelKind.Square
      case Diamond(_, _) => WheelKind.Diamond
      case Hammer(_) => WheelKind.Hammer
    }

    /** Faces carry one to three symbols. */
    predicate WellFormed() {
      1 <= n <= 3
    }
  }

  /** The wheels of one spin; there are always five. */
  type Rolls = r: seq<Wheel> | |r| == 5 witness [Wheel.Hammer(1), Wheel.Hammer(1), Wheel.Hammer(1), Wheel.Hammer(1), Wheel.Hammer(1)]

  const WHEELS: nat := 5
  const FACES: nat := 8

  // ---------------------------------------------------------------- tables

  function W0Sides(face: nat): (w: Wheel)
    requires face < FACES
    ensures w.WellFormed()
  {
    match face
    case 0 => Wheel.Square(1, false)
    case 1 => Wheel.Diamond(1, false)
    case 2 => Wheel.Square(1, false)
    case 3 => Wheel.Square(1, true)
    case 4 => Wheel.Diamond(1, false)
    case 5 => Wheel.Hammer(1)
    case 6 => Wheel.Diamond(2, true)
    case 7 => Wheel.Hammer(1)
  }

  function W1Sides(face: nat): (w: Wheel)
    requires face < FACES
    ensures w.WellFormed()
  {
    match face
    case 0 => Wheel.Square(1, true)
    case 1 => Wheel.Diamond(1, false)
    case 2 => Wheel.Square(2, false)
    case 3 => Wheel.Diamond(1, true)
    case 4 => Wheel.Square(1, false)
    case 5 => Wheel.Hammer(1)
    case 6 => Wheel.Diamond(2, false)
    case 7 => Wheel.Hammer(2)
  }

  /** Face 6 is a plain double diamond; the table comment beside the source
      calls it a double square, but the code is what is modelled. */
  function W2Sides(face: nat): (w: Wheel)
    requires face < FACES
    ensures w.WellFormed()
  {
    match face
    case 0 => Wheel.Square(1, true)
    case 1 => Wheel.Diamond(1, false)
    case 2 => Wheel.Diamond(1, true)
    case 3 => Wheel.Square(1, false)
    case 4 => Wheel.Diamond(1, false)
    case 5 => Wheel.Hammer(2)
    case 6 => Wheel.Diamond(2, false)
    case 7 => Wheel.Hammer(2)
  }

  function W3Sides(face: nat): (w: Wheel)
    requires face < FACES
    ensures w.WellFormed()
  {
    match face
    case 0 => Wheel.Square(1, false)
    case 1 => Wheel.Diamond(1, false)
    case 2 => Wheel.Square(1, true)
    case 3 => Wheel.Diamond(1, false)
    case 4 => Wheel.Hammer(2)
    case 5 => Wheel.Square(1, false)
    case 6 => Wheel.Diamond(1, true)
    case 7 => Wheel.Hammer(2)
  }

  function W4Sides(face: nat): (w: Wheel)
    requires face < FACES
    ensures w.WellFormed()
  {
    match face
    case 0 => Wheel.Square(1, false)
    case 1 => Wheel.Diamond(2, true)
    case 2 => Wheel.Hammer(3)
    case 3 => Wheel.Square(2, true)
    case 4 => Wheel.Diamond(2, true)
    case 5 => Wheel.Square(2, true)
    case 6 => Wheel.Diamond(1, false)
    case 7 => Wheel.Hammer(2)
  }

  /** The table of wheel `i`. */
  function Sides(i: nat, face: nat): (w: Wheel)
    requires i < WHEELS && face < FACES
    ensures w.WellFormed()
  {
    match i
    case 0 => W0Sides(face)
    case 1 => W1Sides(face)
    case 2 => W2Sides(face)
    case 3 => W3Sides(face)
    case 4 => W4Sides(face)
  }

  /** Faces are given; the chosen face of wheel `i` is `faces[i]`. */
  predicate ValidFaces(faces: seq<nat>) {
    |faces| == WHEELS && forall i :: 0 <= i < |faces| ==> faces[i] < FACES
  }

  /** A fresh spin of all five wheels. */
  function GenRolls(faces: seq<nat>): (r: Rolls)
    requires ValidFaces(faces)
    ensures forall i :: 0 <= i < WHEELS ==> r[i] == Sides(i, faces[i]) && r[i].WellFormed()
  {
    [W0Sides(faces[0]), W1Sides(faces[1]), W2Sides(faces[2]), W3Sides(faces[3]), W4Sides(faces[4])]
  }

  /** A re-spin in which the locked wheels keep their face. The face supplied
      for a locked wheel is never drawn, so it is unconstrained. */
  function GenRollsLocked(rolls: Rolls, locks: seq<bool>, faces: seq<nat>): (r: Rolls)
    requires |locks| == WHEELS && |faces| == WHEELS
    requires forall i :: 0 <= i < WHEELS && !locks[i] ==> faces[i] < FACES
    ensures forall i :: 0 <= i < WHEELS && locks[i] ==> r[i] == rolls[i]
    ensures forall i :: 0 <= i < WHEELS && !locks[i] ==> r[i] == Sides(i, faces[i])
  {
    seq(WHEELS, i requires 0 <= i < WHEELS => if locks[i] then rolls[i] else Sides(i, faces[i]))
  }

  /** Re-spinning with nothing locked is a fresh spin; re-spinning with
      everything locked changes nothing; a re-spin keeps well-formed faces
      well-formed. */
  lemma GenRollsLockedExtremes(rolls: Rolls, faces: seq<nat>)
    requires ValidFaces(faces)
    ensures GenRollsLocked(rolls, [false, false, false, false, false], faces) == GenRolls(faces)
    ensures GenRollsLocked(rolls, [true, true, true, true, true], faces) == rolls
    ensures (forall i :: 0 <= i < WHEELS ==> rolls[i].WellFormed()) ==>
              forall i :: 0 <= i < WHEELS ==> GenRollsLocked(rolls, [false, true, false, true, false], faces)[i].WellFormed()
  {
    var none := GenRollsLocked(rolls, [false, false, false, false, false], faces);
    var spun := GenRolls(faces);
    assert forall i :: 0 <= i < WHEELS ==> none[i] == spun[i];
  }

  // ---------------------------------------------------------- extractors

  /** The count of a square face. */
  function SquareEnergy(w: Wheel): (r: Option<U8>)
    ensures r.Some? <==> w.Square?
    ensures r.Some? ==> r.value == w.n
  {
    match w
    case Square(n, _) => Some(n)
    case _ => None
  }

  /** One experience point for a flagged square face. */
  function SquareExp(w: Wheel): (r: Option<U8>)
    ensures r.Some? <==> w.Square? && w.bonus
    ensures r.Some? ==> r.value == 1
  {
    match w
    case Square(_, b) => if b then Some(1) else None
    case _ => None
  }

  /** The count of a diamond face. */
  function DiamondEnergy(w: Wheel): (r: Option<U8>)
    ensures r.Some? <==> w.Diamond?
    ensures r.Some? ==> r.value == w.n
  {
    match w
    case Diamond(n, _) => Some(n)
    case _ => None
  }

  /** One experience point for a flagged diamond face. */
  function DiamondExp(w: Wheel): (r: Option<U8>)
    ensures r.Some? <==> w.Diamond? && w.bonus
    ensures r.Some? ==> r.value == 1
  {
    match w
    case Diamond(_, b) => if b then Some(1) else None
    case _ => None
  }

  /** The count of a hammer face. */
  function HammerEnergy(w: Wheel): (r: Option<U8>)
    ensures r.Some? <==> w.Hammer?
    ensures r.Some? ==> r.value == w.n
  {
    match w
    case Hammer(n) => Some(n)
    case _ => None
  }

  // -------------------------------------------------------------- totals

  /** The sum of the values `f` extracts, skipping faces it does not apply to. */
  function FilterMapSum(rolls: seq<Wheel>, f: Wheel -> Option<U8>): nat {
    if |rolls| == 0 then 0 else f(rolls[0]).GetOr(0) + FilterMapSum(rolls[1..], f)
  }

  /** The number of symbols shown, whatever they are. */
  function CountSum(rolls: seq<Wheel>): nat {
    if |rolls| == 0 then 0 else rolls[0].n + CountSum(rolls[1..])
  }

  /** Every face feeds exactly one of the three symbol totals. */
  lemma {:induction false} SymbolSumsPartition(rolls: seq<Wheel>)
    ensures FilterMapSum(rolls, SquareEnergy) + FilterMapSum(rolls, DiamondEnergy)
            + FilterMapSum(rolls, HammerEnergy) == CountSum(rolls)
  {
    if |rolls| > 0 {
      SymbolSumsPartition(rolls[1..]);
    }
  }

  /** Experience is one per flagged face, so it never exceeds the symbol
      count of the same kind, and the two experience totals together never
      exceed the number of faces. */
  lemma {:induction false} ExpSumsBounded(rolls: seq<Wheel>)
    requires forall i :: 0 <= i < |rolls| ==> rolls[i].WellFormed()
    ensures FilterMapSum(rolls, SquareExp) <= FilterMapSum(rolls, SquareEnergy)
    ensures FilterMapSum(rolls, DiamondExp) <= FilterMapSum(rolls, DiamondEnergy)
    ensures FilterMapSum(rolls, SquareExp) + FilterMapSum(rolls, DiamondExp) <= |rolls|
  {
    if |rolls| > 0 {
      ExpSumsBounded(rolls[1..]);
    }
  }

  /** With one to three symbols per face, `k` faces show between `k` and `3k`. */
  lemma {:induction false} CountSumRange(rolls: seq<Wheel>)
    requires forall i :: 0 <= i < |rolls| ==> rolls[i].WellFormed()
    ensures |rolls| <= CountSum(rolls) <= 3 * |rolls|
  {
    if |rolls| > 0 {
      CountSumRange(rolls[1..]);
    }
  }

  /** The five per-spin quantities the turn engine consumes. */
  datatype RollTotals = RollTotals(squares: U8, diamonds: U8, hammers: U8, expL: U8, expR: U8)

  /** An extractor that yields at most `bound` per face sums to at most
      `bound` times the number of faces. */
  lemma {:induction false} FilterMapSumBounded(rolls: seq<Wheel>, f: Wheel -> Option<U8>, bound: nat)
    requires forall w :: f(w).Some? ==> f(w).value <= bound
    ensures FilterMapSum(rolls, f) <= bound * |rolls|
  {
    if |rolls| > 0 {
      FilterMapSumBounded(rolls[1..], f, bound);
    }
  }

  /** The totals of a spin. Each symbol total is the summed count of the faces
      showing that symbol, so the three add up to the number of symbols shown.
      Each of the five sums is a byte sum, which must not pass 255; the two
      experience sums count one per face and never come near it. */
  function Totals(rolls: Rolls): (t: RollTotals)
    requires FilterMapSum(rolls, SquareEnergy) <= U8_MAX
    requires FilterMapSum(rolls, DiamondEnergy) <= U8_MAX
    requires FilterMapSum(rolls, HammerEnergy) <= U8_MAX
    ensures t.squares + t.diamonds + t.hammers == CountSum(rolls)
    ensures t.expL <= WHEELS && t.expR <= WHEELS
  {
    SymbolSumsPartition(rolls);
    FilterMapSumBounded(rolls, SquareExp, 1);
    FilterMapSumBounded(rolls, DiamondExp, 1);
    RollTotals(
      FilterMapSum(rolls, SquareEnergy),
      FilterMapSum(rolls, DiamondEnergy),
      FilterMapSum(rolls, HammerEnergy),
      FilterMapSum(rolls, SquareExp),
      FilterMapSum(rolls, DiamondExp))
  }

  /** Five well-formed faces show five to fifteen symbols and never overflow
      the byte sums; experience is one per flagged face, so each experience
      total is at most the symbol total of its kind and together they are at
      most five. */
  lemma TotalsBounds(rolls: Rolls)
    requires forall i :: 0 <= i < WHEELS ==> rolls[i].WellFormed()
    ensures WHEELS <= CountSum(rolls) <= 3 * WHEELS
    ensures FilterMapSum(rolls, SquareEnergy) + FilterMapSum(rolls, DiamondEnergy)
            + FilterMapSum(rolls, HammerEnergy) == CountSum(rolls)
    ensures Totals(rolls).expL <= Totals(rolls).squares
    ensures Totals(rolls).expR <= Totals(rolls).diamonds
    ensures Totals(rolls).expL + Totals(rolls).expR <= WHEELS
  {
    CountSumRange(rolls);
    SymbolSumsPartition(rolls);
    ExpSumsBounded(rolls);
  }

  // ------------------------------------------------------------ max_kind

  /** The left fold `Iterator::max_by` performs: the running best is replaced
      whenever the next element is not strictly smaller, so among equal maxima
      the last one wins. The result is an index; `None` only for no elements. */
  function MaxByLast(xs: seq<(U8, WheelKind)>): (r: Option<nat>)
    ensures r.None? <==> |xs| == 0
    ensures r.Some? ==> r.value < |xs|
    ensures r.Some? ==> forall j :: 0 <= j < |xs| ==> xs[j].0 <= xs[r.value].0
    ensures r.Some? ==> forall j :: r.value < j < |xs| ==> xs[j].0 < xs[r.value].0
  {
    if |xs| == 0 then None
    else if |xs| == 1 then Some(0)
    else
      var best := MaxByLast(xs[..|xs| - 1]).value;
      if xs[best].0 > xs[|xs| - 1].0 then Some(best) else Some(|xs| - 1)
  }

  /** The symbol with the largest total; ties go to the later of
      Square, Diamond, Hammer. The source falls back to a random symbol when
      there is no maximum, which cannot happen for three candidates. */
  function MaxKind(t: RollTotals): (k: WheelKind)
    ensures k == WheelKind.Square ==> t.squares > t.diamonds && t.squares > t.hammers
    ensures k == WheelKind.Diamond ==> t.diamonds >= t.squares && t.diamonds > t.hammers
    ensures k == WheelKind.Hammer ==> t.hammers >= t.squares && t.hammers >= t.diamonds
  {
    var xs := [(t.squares, WheelKind.Square), (t.diamonds, WheelKind.Diamond), (t.hammers, WheelKind.Hammer)];
    match MaxByLast(xs)
    case Some(i) =>
      assert xs[0].0 <= xs[i].0 && xs[1].0 <= xs[i].0 && xs[2].0 <= xs[i].0;
      xs[i].1
    case None => WheelKind.Square
  }

  /** The three conditions of `MaxKind` cover every total, so they fix its
      result: the symbol returned is exactly the one the tie rule selects. */
  lemma MaxKindCharacterised(t: RollTotals)
    ensures MaxKind(t) == WheelKind.Hammer <==> t.hammers >= t.squares && t.hammers >= t.diamonds
    ensures MaxKind(t) == WheelKind.Diamond <==> t.diamonds >= t.squares && t.diamonds > t.hammers
    ensures MaxKind(t) == WheelKind.Square <==> t.squares > t.diamonds && t.squares > t.hammers
  {
  }
}
