/**
 * The body of the server's `roll-dice` handler: it reads each die's side count out of its
 * `"dN"` tag, rolls each die, defaults the modifier and totals the roll. The random draw
 * for die `i` is `draws[i]` in `[0, sides)`, and the clock reading is `now`.
 */
module RollServer {
  import opened Wrappers
  import opened SharedTypes
  import opened JsNumerals
  import RollSum
  import DiceFactory

  /** `String.prototype.substring(start)`, which clamps a start past the end. */
  function Substring(s: string, start: nat): string
  {
    if start <= |s| then s[start..] else ""
  }

  /**
   * `parseInt(diceType.substring(1))`: the side count read out of the type tag, which is
   * the dice factory's maximum value for that type.
   */
  function ParseSides(t: DiceType): (sides: Option<int>)
    ensures sides == Some(DiceFactory.GetMaxValue(t))
  {
    var n := DiceFactory.GetMaxValue(t);
    assert Substring(TypeName(t), 1) == Decimal(n) by {
      assert TypeName(t) == "d" + Decimal(n);
    }
    ParseIntOfDecimal(n);
    ParseInt(Substring(TypeName(t), 1))
  }

  /** `k` is a value `Math.floor(Math.random() * sides)` can take for a die of type `t`. */
  predicate DrawFits(t: DiceType, k: int)
  {
    ParseSides(t).Some? && 0 <= k < ParseSides(t).value
  }

  /** One element of the `map`: the die's type and `draw + 1`. */
  function RollDie(t: DiceType, k: int): (r: DiceRoll)
    requires DrawFits(t, k)
    ensures r.kind == t
    ensures 1 <= r.result <= ParseSides(t).value
  {
    DiceRoll(t, k + 1)
  }

  /** `rollRequest.dice.map(...)`: one roll per requested die, in order. */
  function RollAll(dice: seq<DiceType>, draws: seq<int>): (rolls: seq<DiceRoll>)
    requires |draws| == |dice|
    requires forall i :: 0 <= i < |dice| ==> DrawFits(dice[i], draws[i])
    ensures |rolls| == |dice|
    ensures forall i :: 0 <= i < |dice| ==> rolls[i].kind == dice[i]
    ensures forall i :: 0 <= i < |dice| ==> 1 <= rolls[i].result <= ParseSides(dice[i]).value
    ensures forall i :: 0 <= i < |dice| ==> rolls[i] == RollDie(dice[i], draws[i])
  {
    if |dice| == 0 then []
    else [RollDie(dice[0], draws[0])] + RollAll(dice[1..], draws[1..])
  }

  /** `rollRequest.modifier || 0`. */
  function ModifierOrZero(m: Option<int>): (r: int)
    ensures m.None? ==> r == 0
    ensures m.Some? ==> r == m.value
  {
    match m
    case None => 0
    case Some(v) => if v != 0 then v else 0
  }

  /** The `RollResult` the handler broadcasts. */
  function HandleRollDice(req: RollRequest, draws: seq<int>, now: int): (r: RollResult)
    requires |draws| == |req.dice|
    requires forall i :: 0 <= i < |req.dice| ==> DrawFits(req.dice[i], draws[i])
    ensures r.player == req.player
    ensures |r.rolls| == |req.dice|
    ensures forall i :: 0 <= i < |req.dice| ==> r.rolls[i].kind == req.dice[i]
    ensures forall i :: 0 <= i < |req.dice| ==> 1 <= r.rolls[i].result <= ParseSides(req.dice[i]).value
    ensures forall i :: 0 <= i < |req.dice| ==> r.rolls[i] == RollDie(req.dice[i], draws[i])
    ensures r.modifier == ModifierOrZero(req.modifier)
    ensures r.total == RollSum.ResultSum(r.rolls) + r.modifier
    ensures |req.dice| == 0 ==> r.total == r.modifier
    ensures r.timestamp == now
  {
    var rolls := RollAll(req.dice, draws);
    RollResult(
      req.player,
      rolls,
      ModifierOrZero(req.modifier),
      RollSum.SumResults(rolls) + ModifierOrZero(req.modifier),
      now)
  }

  /** Sum of the side counts of the requested dice. */
  function SidesSum(dice: seq<DiceType>): int
    requires forall i :: 0 <= i < |dice| ==> ParseSides(dice[i]).Some?
  {
    if |dice| == 0 then 0 else ParseSides(dice[0]).value + SidesSum(dice[1..])
  }

  lemma {:induction false} ResultSumBounds(dice: seq<DiceType>, rolls: seq<DiceRoll>)
    requires forall i :: 0 <= i < |dice| ==> ParseSides(dice[i]).Some?
    requires |rolls| == |dice|
    requires forall i :: 0 <= i < |dice| ==> 1 <= rolls[i].result <= ParseSides(dice[i]).value
    ensures |dice| <= RollSum.ResultSum(rolls) <= SidesSum(dice)
  {
    if |dice| > 0 {
      ResultSumBounds(dice[1..], rolls[1..]);
    }
  }

  /** The total lies between all-ones and all-maximum faces, shifted by the modifier. */
  lemma TotalBounds(req: RollRequest, draws: seq<int>, now: int)
    requires |draws| == |req.dice|
    requires forall i :: 0 <= i < |req.dice| ==> DrawFits(req.dice[i], draws[i])
    ensures var r := HandleRollDice(req, draws, now);
      |req.dice| + r.modifier <= r.total <= SidesSum(req.dice) + r.modifier
  {
    var r := HandleRollDice(req, draws, now);
    ResultSumBounds(req.dice, r.rolls);
  }
}
