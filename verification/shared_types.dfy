/** The records exchanged between the dice client and the roll server. */
module SharedTypes {
  import opened Wrappers

  /** The seven die shapes of the `DiceType` string union. */
  datatype DiceType = D4 | D6 | D8 | D10 | D12 | D20 | D100

  /** The string literal that each variant stands for in the union. */
  function TypeName(t: DiceType): string
  {
    match t
    case D4 => "d4"
    case D6 => "d6"
    case D8 => "d8"
    case D10 => "d10"
    case D12 => "d12"
    case D20 => "d20"
    case D100 => "d100"
  }

  /** The union's members in declaration order. */
  const AllDiceTypes: seq<DiceType> := [D4, D6, D8, D10, D12, D20, D100]

  /** Distinct variants stand for distinct strings, so the datatype loses nothing of the union. */
  lemma TypeNameInjective(a: DiceType, b: DiceType)
    ensures TypeName(a) == TypeName(b) <==> a == b
  {
  }

  /** Every type is listed exactly once. */
  lemma AllDiceTypesEnumerates(t: DiceType)
    ensures t in AllDiceTypes
    ensures forall i, j :: 0 <= i < j < |AllDiceTypes| ==> AllDiceTypes[i] != AllDiceTypes[j]
  {
  }

  /** One die of a roll and the face it showed. */
  datatype DiceRoll = DiceRoll(kind: DiceType, result: int)

  /** A client's request to roll; `modifier` may be absent. */
  datatype RollRequest = RollRequest(player: string, dice: seq<DiceType>, modifier: Option<int>)

  /** The server's broadcast answer to a `RollRequest`. */
  datatype RollResult = RollResult(player: string, rolls: seq<DiceRoll>, modifier: int, total: int, timestamp: int)

  /** `String.prototype.toUpperCase` restricted to ASCII letters. */
  function ToUpper(s: string): (r: string)
    ensures |r| == |s|
  {
    seq(|s|, i requires 0 <= i < |s| => if 'a' <= s[i] <= 'z' then (s[i] as int - 32) as char else s[i])
  }
}
