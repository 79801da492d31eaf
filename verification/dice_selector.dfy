/**
 * The dice selector panel: the list of selected dice, the handlers that change it and
 * the conditions under which its controls are live.
 *
 * Each handler returns the list it hands to `onDiceChange`, or `None` when it leaves the
 * callback uncalled; `Adopt` is the selection a parent keeping that list in its state ends up with.
 */
module DiceSelector {
  import opened Wrappers
  import opened SharedTypes

  /** One button of the type palette. */
  datatype DiceTypeEntry = DiceTypeEntry(kind: DiceType, name: string, emoji: string)

  /** The palette, in display order. */
  const DiceTypeEntries: seq<DiceTypeEntry> := [
    DiceTypeEntry(D4, "D4", "\U{1F53A}"),    // red triangle
    DiceTypeEntry(D6, "D6", "\U{1F3B2}"),    // game die
    DiceTypeEntry(D8, "D8", "\U{1F538}"),    // orange diamond
    DiceTypeEntry(D10, "D10", "\U{1F51F}"),  // keycap ten
    DiceTypeEntry(D12, "D12", "\U{1F31F}"),  // glowing star
    DiceTypeEntry(D20, "D20", "\U{2B50}"),   // star
    DiceTypeEntry(D100, "D100", "\U{1F4AF}") // hundred points
  ]

  /**
   * The palette lists the union's types in their declared order, so every type has exactly
   * one button; each button's name is the upper-cased type tag.
   */
  lemma PaletteCoversEveryType(t: DiceType)
    ensures |DiceTypeEntries| == |AllDiceTypes|
    ensures forall i :: 0 <= i < |DiceTypeEntries| ==> DiceTypeEntries[i].kind == AllDiceTypes[i]
    ensures exists i :: 0 <= i < |DiceTypeEntries| && DiceTypeEntries[i].kind == t
    ensures forall i, j :: 0 <= i < j < |DiceTypeEntries| ==> DiceTypeEntries[i].kind != DiceTypeEntries[j].kind
    ensures forall i :: 0 <= i < |DiceTypeEntries| ==> DiceTypeEntries[i].name == ToUpper(TypeName(DiceTypeEntries[i].kind))
  {
    match t
    case D4 => assert DiceTypeEntries[0].kind == t;
    case D6 => assert DiceTypeEntries[1].kind == t;
    case D8 => assert DiceTypeEntries[2].kind == t;
    case D10 => assert DiceTypeEntries[3].kind == t;
    case D12 => assert DiceTypeEntries[4].kind == t;
    case D20 => assert DiceTypeEntries[5].kind == t;
    case D100 => assert DiceTypeEntries[6].kind == t;
  }

  /** `entries.find(d => d.type === t)`: the first entry of kind `t`. */
  function FindEntry(entries: seq<DiceTypeEntry>, t: DiceType): (r: Option<DiceTypeEntry>)
    ensures r.Some? <==> exists i :: 0 <= i < |entries| && entries[i].kind == t
    ensures r.Some? ==> exists i :: 0 <= i < |entries| && entries[i] == r.value && r.value.kind == t
                                  && forall j :: 0 <= j < i ==> entries[j].kind != t
  {
    if |entries| == 0 then None
    else if entries[0].kind == t then Some(entries[0])
    else
      var r := FindEntry(entries[1..], t);
      assert forall i :: 1 <= i < |entries| ==> entries[i] == entries[1..][i - 1];
      r
  }

  /** The emoji shown on a selected-die chip; the optional chain never yields `undefined`. */
  function ChipEmoji(t: DiceType): (e: string)
    ensures forall i :: 0 <= i < |DiceTypeEntries| && DiceTypeEntries[i].kind == t ==> DiceTypeEntries[i].emoji == e
  {
    PaletteCoversEveryType(t);
    FindEntry(DiceTypeEntries, t).value.emoji
  }

  /** `addDie`: append `t`, unless a roll is in progress. */
  function AddDie(selected: seq<DiceType>, isRolling: bool, t: DiceType): (change: Option<seq<DiceType>>)
    ensures change.None? <==> isRolling
    ensures change.Some? ==> |change.value| == |selected| + 1
    ensures change.Some? ==> change.value[..|selected|] == selected && change.value[|selected|] == t
  {
    if isRolling then None else Some(selected + [t])
  }

  /** `filter((_, i) => i !== index)`: the list without position `index`, if there is one. */
  function FilterOutIndex<T>(s: seq<T>, index: int): (r: seq<T>)
    ensures 0 <= index < |s| ==> r == s[..index] + s[index + 1..]
    ensures !(0 <= index < |s|) ==> r == s
  {
    if |s| == 0 then []
    else
      var last := |s| - 1;
      FilterOutIndex(s[..last], index) + (if last == index then [] else [s[last]])
  }

  /** `removeDie`: drop the die at `index`, unless a roll is in progress. */
  function RemoveDie(selected: seq<DiceType>, isRolling: bool, index: int): (change: Option<seq<DiceType>>)
    ensures change.None? <==> isRolling
    ensures change.Some? && 0 <= index < |selected| ==>
      |change.value| == |selected| - 1 && change.value == selected[..index] + selected[index + 1..]
    ensures change.Some? && !(0 <= index < |selected|) ==> change.value == selected
  {
    if isRolling then None else Some(FilterOutIndex(selected, index))
  }

  /** `clearAll`: empty the selection, unless a roll is in progress. */
  function ClearAll(selected: seq<DiceType>, isRolling: bool): (change: Option<seq<DiceType>>)
    ensures change.None? <==> isRolling
    ensures change.Some? ==> change.value == []
  {
    if isRolling then None else Some([])
  }

  /** The selection after the parent stores what `onDiceChange` received, if anything. */
  function Adopt(selected: seq<DiceType>, change: Option<seq<DiceType>>): seq<DiceType>
  {
    change.GetOr(selected)
  }

  /** While rolling, no handler changes the selection. */
  lemma FrozenWhileRolling(selected: seq<DiceType>, t: DiceType, index: int)
    ensures Adopt(selected, AddDie(selected, true, t)) == selected
    ensures Adopt(selected, RemoveDie(selected, true, index)) == selected
    ensures Adopt(selected, ClearAll(selected, true)) == selected
  {
  }

  /** The elements of `s` equal to `t`, in order. */
  function KeepKind(s: seq<DiceType>, t: DiceType): (r: seq<DiceType>)
    ensures forall i :: 0 <= i < |r| ==> r[i] == t
    ensures |r| == multiset(s)[t]
  {
    if |s| == 0 then []
    else
      assert s == [s[0]] + s[1..];
      (if s[0] == t then [s[0]] else []) + KeepKind(s[1..], t)
  }

  /** `getDiceCount`: the length of the selection filtered to type `t`. */
  function GetDiceCount(selected: seq<DiceType>, t: DiceType): (n: nat)
    ensures n == multiset(selected)[t]
  {
    |KeepKind(selected, t)|
  }

  /** The count badge on a palette button is shown exactly when that type is selected. */
  lemma BadgeShownIffSelected(selected: seq<DiceType>, t: DiceType)
    ensures GetDiceCount(selected, t) > 0 <==> t in selected
  {
  }

  /** The seven per-type counts add up to the length of the selection. */
  lemma CountsCoverSelection(s: seq<DiceType>)
    ensures GetDiceCount(s, D4) + GetDiceCount(s, D6) + GetDiceCount(s, D8) + GetDiceCount(s, D10)
          + GetDiceCount(s, D12) + GetDiceCount(s, D20) + GetDiceCount(s, D100) == |s|
  {
    MultiplicitiesCoverSequence(s);
  }

  lemma {:induction false} MultiplicitiesCoverSequence(s: seq<DiceType>)
    ensures var m := multiset(s);
      m[D4] + m[D6] + m[D8] + m[D10] + m[D12] + m[D20] + m[D100] == |s|
  {
    if |s| > 0 {
      var p := s[..|s| - 1];
      var x := s[|s| - 1];
      assert s == p + [x];
      assert multiset(s) == multiset(p) + multiset{x};
      assert forall t :: multiset(s)[t] == multiset(p)[t] + (if t == x then 1 else 0);
      MultiplicitiesCoverSequence(p);
    }
  }

  /** Adding a die raises its type's count by one and leaves every other count alone. */
  lemma AddDieCounts(selected: seq<DiceType>, t: DiceType, u: DiceType)
    ensures GetDiceCount(Adopt(selected, AddDie(selected, false, t)), u)
         == GetDiceCount(selected, u) + (if u == t then 1 else 0)
  {
  }

  /** Removing the die at a valid index lowers its type's count by one and no other. */
  lemma RemoveDieCounts(selected: seq<DiceType>, index: int, u: DiceType)
    requires 0 <= index < |selected|
    ensures GetDiceCount(Adopt(selected, RemoveDie(selected, false, index)), u)
         == GetDiceCount(selected, u) - (if u == selected[index] then 1 else 0)
  {
    var rest := selected[..index] + selected[index + 1..];
    assert selected == selected[..index] + [selected[index]] + selected[index + 1..];
    assert multiset(selected) == multiset(rest) + multiset{selected[index]};
  }

  /** `disabled` of the Clear All button: it is live exactly when pressing it would change the selection. */
  predicate ClearAllDisabled(selected: seq<DiceType>, isRolling: bool)
    ensures ClearAllDisabled(selected, isRolling) <==> Adopt(selected, ClearAll(selected, isRolling)) == selected
  {
    isRolling || |selected| == 0
  }

  const RollHint := "Click anywhere to roll!"
  const EmptyHint := "Add dice to get started"

  /** The hint line under the buttons; outside a roll it asks for dice exactly when Clear All is disabled. */
  function Hint(selected: seq<DiceType>): (hint: string)
    ensures hint == RollHint || hint == EmptyHint
    ensures hint == EmptyHint <==> ClearAllDisabled(selected, false)
  {
    if |selected| > 0 then RollHint else EmptyHint
  }
}
