/**
 * The roll results panel: the total it shows, the emoji for a die type, and which of its
 * three forms it takes (the rolling notice, nothing, or the results list).
 */
module RollResults {
  import opened Wrappers
  import opened SharedTypes
  import RollSum

  /** `total`: the reduced results plus the modifier. */
  function Total(results: seq<DiceRoll>, modifier: int): (total: int)
    ensures total == RollSum.ResultSum(results) + modifier
  {
    RollSum.SumResults(results) + modifier
  }

  /** With no results the total is the modifier; each appended roll adds its result. */
  lemma TotalAppend(results: seq<DiceRoll>, modifier: int, r: DiceRoll)
    ensures Total([], modifier) == modifier
    ensures Total(results + [r], modifier) == Total(results, modifier) + r.result
  {
    RollSum.ResultSumAppend(results, r);
  }

  /** The emoji `getDiceEmoji` falls back to; it is also the d6 emoji. */
  const DefaultEmoji := "\U{1F3B2}"  // game die

  /** `getDiceEmoji`: a lookup keyed by the type string, with a fallback for any other string. */
  function GetDiceEmoji(s: string): (e: string)
    ensures (forall t :: s != TypeName(t)) ==> e == DefaultEmoji
    ensures s == "d6" ==> e == DefaultEmoji
    ensures (exists t :: s == TypeName(t)) && s != "d6" ==> e != DefaultEmoji
  {
    assert TypeName(D4) == "d4" && TypeName(D6) == "d6" && TypeName(D8) == "d8" && TypeName(D10) == "d10";
    assert TypeName(D12) == "d12" && TypeName(D20) == "d20" && TypeName(D100) == "d100";
    if s == "d4" then "\U{1F53A}"        // red triangle
    else if s == "d6" then "\U{1F3B2}"   // game die
    else if s == "d8" then "\U{1F538}"   // orange diamond
    else if s == "d10" then "\U{1F51F}"  // keycap ten
    else if s == "d12" then "\U{1F31F}"  // glowing star
    else if s == "d20" then "\U{2B50}"   // star
    else if s == "d100" then "\U{1F4AF}" // hundred points
    else DefaultEmoji
  }

  /** The seven tags get seven distinct emoji. */
  lemma EmojiDistinct(a: DiceType, b: DiceType)
    ensures GetDiceEmoji(TypeName(a)) == GetDiceEmoji(TypeName(b)) <==> a == b
  {
  }

  /** One line of the results list: emoji, upper-cased type and the rolled value. */
  datatype ResultRow = ResultRow(emoji: string, caption: string, value: int)

  /** The modifier line: an explicit `+` before positive values, then the value. */
  datatype ModifierRow = ModifierRow(prefix: string, value: int)

  /** The three forms the component can take. */
  datatype Panel =
    | RollingPanel
    | NoPanel
    | ResultsPanel(rows: seq<ResultRow>, modifierRow: Option<ModifierRow>, total: int)

  /** The row for one roll: its type's emoji, its upper-cased tag and its value. */
  function RowOf(roll: DiceRoll): (row: ResultRow)
    ensures row.value == roll.result
    ensures row.caption == ['D'] + TypeName(roll.kind)[1..]
    ensures row.emoji == DefaultEmoji <==> roll.kind == D6
  {
    ResultRow(GetDiceEmoji(TypeName(roll.kind)), ToUpper(TypeName(roll.kind)), roll.result)
  }

  /** What the component renders for its props. */
  function Render(results: seq<DiceRoll>, modifier: int, isRolling: bool): (p: Panel)
    ensures isRolling ==> p == RollingPanel
    ensures !isRolling && |results| == 0 ==> p == NoPanel
    ensures !isRolling && |results| > 0 ==>
      && p.ResultsPanel?
      && |p.rows| == |results|
      && (forall i :: 0 <= i < |results| ==>
            && p.rows[i].value == results[i].result
            && p.rows[i].caption == ToUpper(TypeName(results[i].kind))
            && p.rows[i].emoji == GetDiceEmoji(TypeName(results[i].kind)))
      && (p.modifierRow.Some? <==> modifier != 0)
      && (p.modifierRow.Some? ==> p.modifierRow.value.value == modifier)
      && (p.modifierRow.Some? ==> (p.modifierRow.value.prefix == "+" <==> modifier > 0))
      && (p.modifierRow.Some? && modifier < 0 ==> p.modifierRow.value.prefix == "")
      && p.total == RollSum.ResultSum(results) + modifier
  {
    if isRolling then RollingPanel
    else if |results| == 0 then NoPanel
    else
      var rows := seq(|results|, i requires 0 <= i < |results| => RowOf(results[i]));
      var modRow := if modifier != 0 then Some(ModifierRow(if modifier > 0 then "+" else "", modifier)) else None;
      ResultsPanel(rows, modRow, Total(results, modifier))
  }

  /** Sum of the values in a list of rows. */
  function RowSum(rows: seq<ResultRow>): int
  {
    if |rows| == 0 then 0 else rows[0].value + RowSum(rows[1..])
  }

  lemma {:induction false} RowSumOfRows(results: seq<DiceRoll>, rows: seq<ResultRow>)
    requires |rows| == |results|
    requires forall i :: 0 <= i < |results| ==> rows[i].value == results[i].result
    ensures RowSum(rows) == RollSum.ResultSum(results)
  {
    if |rows| > 0 {
      RowSumOfRows(results[1..], rows[1..]);
    }
  }

  /**
   * The numbers on the panel add up: the displayed total is the sum of the displayed
   * row values plus the displayed modifier, or plus nothing when no modifier row shows.
   */
  lemma PanelAddsUp(results: seq<DiceRoll>, modifier: int)
    requires |results| > 0
    ensures var p := Render(results, modifier, false);
      p.ResultsPanel?
      && p.total == RowSum(p.rows) + (if p.modifierRow.Some? then p.modifierRow.value.value else 0)
  {
    var p := Render(results, modifier, false);
    RowSumOfRows(results, p.rows);
  }
}
