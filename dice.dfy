/**
 * The ten dice of a game (App.jsx): each die is an `{id, value, isHeld}` record.
 * The random numbers the component draws are passed in by the caller:
 * a "draw" is a value that Math.random() could return, and an id stands for a
 * result of crypto.randomUUID().
 */
module Dice {

  type DieId = string

  datatype Die = Die(id: DieId, value: int, isHeld: bool)

  /** The number of dice generateAllNewDice creates. */
  const DiceCount: nat := 10

  /** A value Math.random() can return: a number in [0, 1). */
  predicate IsUnitDraw(r: real) {
    0.0 <= r < 1.0
  }

  predicate AreUnitDraws(rs: seq<real>) {
    forall i :: 0 <= i < |rs| ==> IsUnitDraw(rs[i])
  }

  /** Math.ceil: the least integer not below x. */
  function Ceil(x: real): (c: int)
    ensures x <= c as real < x + 1.0
  {
    if x == x.Floor as real then x.Floor else x.Floor + 1
  }

  /**
   * The face `Math.ceil(Math.random() * 6)` yields for the draw r. Because
   * Math.random() may return 0, the faces are 0..6, and 0 comes only from a
   * draw of exactly 0.
   */
  function DieFace(r: real): (v: int)
    ensures IsUnitDraw(r) ==> 0 <= v <= 6
    ensures IsUnitDraw(r) ==> (v == 0 <==> r == 0.0)
    ensures IsUnitDraw(r) && r > 0.0 ==> 1 <= v <= 6
  {
    Ceil(r * 6.0)
  }

  /** A face some draw can produce. */
  predicate IsFace(v: int) {
    0 <= v <= 6
  }

  predicate AllFaces(dice: seq<Die>) {
    forall i :: 0 <= i < |dice| ==> IsFace(dice[i].value)
  }

  predicate NoneHeld(dice: seq<Die>) {
    forall i :: 0 <= i < |dice| ==> !dice[i].isHeld
  }

  function Ids(dice: seq<Die>): (ids: seq<DieId>)
    ensures |ids| == |dice|
  {
    seq(|dice|, i requires 0 <= i < |dice| => dice[i].id)
  }

  predicate Distinct(ids: seq<DieId>) {
    forall i, j :: 0 <= i < j < |ids| ==> ids[i] != ids[j]
  }

  /**
   * `gameWon` (App.jsx:52): every die is held and every die shows the value of
   * the first. Like Array.prototype.every, it holds of an empty array.
   */
  predicate GameWon(dice: seq<Die>) {
    forall i :: 0 <= i < |dice| ==> dice[i].isHeld && dice[i].value == dice[0].value
  }

  /** `generateAllNewDice` (App.jsx:120-128): ten unheld dice with fresh values and ids. */
  function AllNewDice(draws: seq<real>, ids: seq<DieId>): seq<Die>
    requires |draws| == DiceCount && |ids| == DiceCount
  {
    seq(DiceCount, i requires 0 <= i < DiceCount => Die(ids[i], DieFace(draws[i]), false))
  }

  /**
   * The dice updater of `rollDice` (App.jsx:155-157): every die that is not held
   * gets the face of its own draw; a held die is kept as it is.
   */
  function Reroll(dice: seq<Die>, draws: seq<real>): seq<Die>
    requires |draws| == |dice|
  {
    seq(|dice|, i requires 0 <= i < |dice| =>
      if dice[i].isHeld then dice[i] else dice[i].(value := DieFace(draws[i])))
  }

  /** The dice updater of `hold` (App.jsx:171-173): flip isHeld on every die with this id. */
  function ToggleHeld(dice: seq<Die>, id: DieId): seq<Die> {
    seq(|dice|, i requires 0 <= i < |dice| =>
      if dice[i].id == id then dice[i].(isHeld := !dice[i].isHeld) else dice[i])
  }

  /** A fresh set of dice: ten, none held, valid faces, the given ids, and never a win. */
  lemma AllNewDiceFresh(draws: seq<real>, ids: seq<DieId>)
    requires |draws| == DiceCount && |ids| == DiceCount
    ensures |AllNewDice(draws, ids)| == DiceCount
    ensures NoneHeld(AllNewDice(draws, ids))
    ensures AreUnitDraws(draws) ==> AllFaces(AllNewDice(draws, ids))
    ensures Ids(AllNewDice(draws, ids)) == ids
    ensures forall i :: 0 <= i < DiceCount ==> AllNewDice(draws, ids)[i].value == DieFace(draws[i])
    ensures !GameWon(AllNewDice(draws, ids))
    ensures Distinct(ids) ==> Distinct(Ids(AllNewDice(draws, ids)))
  {
    var d := AllNewDice(draws, ids);
    assert !d[0].isHeld;
  }

  /**
   * Rolling keeps every held die identical, changes only the value of the
   * others (to the face of that die's draw), and never changes an id, a held
   * flag or the number of dice.
   */
  lemma RerollKeepsHeld(dice: seq<Die>, draws: seq<real>)
    requires |draws| == |dice|
    ensures |Reroll(dice, draws)| == |dice|
    ensures Ids(Reroll(dice, draws)) == Ids(dice)
    ensures forall i :: 0 <= i < |dice| ==>
      Reroll(dice, draws)[i].id == dice[i].id && Reroll(dice, draws)[i].isHeld == dice[i].isHeld
    ensures forall i :: 0 <= i < |dice| && dice[i].isHeld ==> Reroll(dice, draws)[i] == dice[i]
    ensures forall i :: 0 <= i < |dice| && !dice[i].isHeld ==> Reroll(dice, draws)[i].value == DieFace(draws[i])
    ensures AllFaces(dice) && AreUnitDraws(draws) ==> AllFaces(Reroll(dice, draws))
  {
  }

  /**
   * A roll neither makes nor breaks a win: a win needs every die held, and
   * rolling a board whose dice are all held changes nothing.
   */
  lemma {:induction false} RerollKeepsWin(dice: seq<Die>, draws: seq<real>)
    requires |draws| == |dice|
    ensures GameWon(Reroll(dice, draws)) <==> GameWon(dice)
    ensures GameWon(dice) ==> Reroll(dice, draws) == dice
  {
    var r := Reroll(dice, draws);
    if GameWon(dice) {
      assert r == dice;
    }
    if GameWon(r) {
      forall i | 0 <= i < |dice| ensures dice[i] == r[i] {
        assert r[i].isHeld;
      }
      assert r == dice;
    }
  }

  /**
   * Holding flips the held flag of exactly the dice whose id matches, and
   * leaves every value, every id and every other die as they were.
   */
  lemma ToggleHeldEffect(dice: seq<Die>, id: DieId)
    ensures |ToggleHeld(dice, id)| == |dice|
    ensures Ids(ToggleHeld(dice, id)) == Ids(dice)
    ensures forall i :: 0 <= i < |dice| ==>
      ToggleHeld(dice, id)[i].value == dice[i].value &&
      (ToggleHeld(dice, id)[i].isHeld != dice[i].isHeld <==> dice[i].id == id)
    ensures forall i :: 0 <= i < |dice| && dice[i].id != id ==> ToggleHeld(dice, id)[i] == dice[i]
    ensures id !in Ids(dice) ==> ToggleHeld(dice, id) == dice
    ensures AllFaces(dice) ==> AllFaces(ToggleHeld(dice, id))
  {
    if id !in Ids(dice) {
      forall i | 0 <= i < |dice| ensures ToggleHeld(dice, id)[i] == dice[i] {
        assert Ids(dice)[i] == dice[i].id;
      }
    }
  }

  /** With distinct ids, holding a present id changes exactly one die. */
  lemma ToggleHeldOne(dice: seq<Die>, id: DieId, k: nat)
    requires Distinct(Ids(dice)) && k < |dice| && dice[k].id == id
    ensures ToggleHeld(dice, id) == dice[k := dice[k].(isHeld := !dice[k].isHeld)]
  {
    forall i | 0 <= i < |dice| && i != k ensures dice[i].id != id {
      assert Ids(dice)[i] != Ids(dice)[k] by {
        if i < k { assert Ids(dice)[i] != Ids(dice)[k]; } else { assert Ids(dice)[k] != Ids(dice)[i]; }
      }
    }
  }

  /** Clicking the same die twice undoes the first click. */
  lemma ToggleHeldInvolution(dice: seq<Die>, id: DieId)
    ensures ToggleHeld(ToggleHeld(dice, id), id) == dice
  {
  }

  /** The win test compared with an independent definition: all held, all values pairwise equal. */
  lemma GameWonPairwise(dice: seq<Die>)
    ensures GameWon(dice) <==>
      (forall i :: 0 <= i < |dice| ==> dice[i].isHeld) &&
      (forall i, j :: 0 <= i < |dice| && 0 <= j < |dice| ==> dice[i].value == dice[j].value)
  {
  }
}
