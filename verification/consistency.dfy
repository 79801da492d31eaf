/**
 * Agreements between files that share no code: the server and the dice factory on side
 * counts, the server and the results panel on totals, and the selector palette and the
 * results panel on emoji and labels.
 */
module Consistency {
  import opened Wrappers
  import opened SharedTypes
  import JsNumerals
  import DiceFactory
  import DiceSelector
  import RollResults
  import RollServer

  /** Each type tag is `d` followed by the decimal numeral of the factory's side count. */
  lemma TypeNameSpellsMaxValue(t: DiceType)
    ensures TypeName(t) == "d" + JsNumerals.Decimal(DiceFactory.GetMaxValue(t))
  {
  }

  /** The server accepts exactly the draws the factory's face function accepts. */
  lemma DrawRangesAgree(t: DiceType, k: int)
    ensures RollServer.DrawFits(t, k) <==> 0 <= k < DiceFactory.GetMaxValue(t)
  {
  }

  /** Server and client turn the same draw into the same face. */
  lemma ServerRollIsFaceValue(t: DiceType, q: DiceFactory.Quaternion, k: int)
    requires 0 <= k < DiceFactory.GetMaxValue(t)
    ensures RollServer.DrawFits(t, k)
    ensures RollServer.RollDie(t, k).result == DiceFactory.GetDiceFaceValue(t, q, k)
  {
  }

  /** Every broadcast result is the face the dice factory gives its die for the same draw. */
  lemma BroadcastRollsAreFaceValues(req: RollRequest, draws: seq<int>, now: int, q: DiceFactory.Quaternion)
    requires |draws| == |req.dice|
    requires forall i :: 0 <= i < |req.dice| ==> RollServer.DrawFits(req.dice[i], draws[i])
    ensures var r := RollServer.HandleRollDice(req, draws, now);
      forall i :: 0 <= i < |req.dice| ==>
        r.rolls[i].result == DiceFactory.GetDiceFaceValue(req.dice[i], q, draws[i])
  {
  }

  /** The panel's total recomputed from a broadcast result equals the total the server sent. */
  lemma ClientTotalMatchesServer(req: RollRequest, draws: seq<int>, now: int)
    requires |draws| == |req.dice|
    requires forall i :: 0 <= i < |req.dice| ==> RollServer.DrawFits(req.dice[i], draws[i])
    ensures var r := RollServer.HandleRollDice(req, draws, now);
      RollResults.Total(r.rolls, r.modifier) == r.total
  {
  }

  /** The results panel shows each palette entry's type with that entry's emoji. */
  lemma EmojiTablesAgree(i: int)
    requires 0 <= i < |DiceSelector.DiceTypeEntries|
    ensures RollResults.GetDiceEmoji(TypeName(DiceSelector.DiceTypeEntries[i].kind)) == DiceSelector.DiceTypeEntries[i].emoji
  {
  }

  /** A result row's caption is the name of the palette button for its type. */
  lemma CaptionsAgree(roll: DiceRoll, i: int)
    requires 0 <= i < |DiceSelector.DiceTypeEntries| && DiceSelector.DiceTypeEntries[i].kind == roll.kind
    ensures RollResults.RowOf(roll).caption == DiceSelector.DiceTypeEntries[i].name
  {
  }
}
