/**
 * The per-type tables of the dice factory and its face-value function. The face value
 * does not come from the die's orientation: it is a uniform draw in `[1, max]`, whose
 * random source is passed in as the integer `draw` in `[0, max)`.
 */
module DiceFactory {
  import opened SharedTypes

  /** A rigid body's orientation, as the physics engine reports it. */
  datatype Quaternion = Quaternion(x: real, y: real, z: real, w: real)

  /** The `values` table of `getMaxValue`. */
  const MaxValues: map<DiceType, int> :=
    map[D4 := 4, D6 := 6, D8 := 8, D10 := 10, D12 := 12, D20 := 20, D100 := 100]

  /** What `values[type] || 6` falls back to. */
  const DefaultMaxValue := 6

  /** Every type has a non-zero entry, so the fallback of `getMaxValue` is never taken. */
  lemma MaxValueFallbackUnreachable(t: DiceType)
    ensures t in MaxValues && MaxValues[t] != 0
  {
  }

  /** `getMaxValue`: the table entry, or the fallback when the entry is missing or zero. */
  function GetMaxValue(t: DiceType): (n: int)
    ensures t in MaxValues && n == MaxValues[t]
    ensures 4 <= n <= 100
  {
    MaxValueFallbackUnreachable(t);
    if t in MaxValues && MaxValues[t] != 0 then MaxValues[t] else DefaultMaxValue
  }

  /** The side count of every type, as the table lists it. */
  lemma MaxValueOfEachType()
    ensures GetMaxValue(D4) == 4 && GetMaxValue(D6) == 6 && GetMaxValue(D8) == 8
    ensures GetMaxValue(D10) == 10 && GetMaxValue(D12) == 12
    ensures GetMaxValue(D20) == 20 && GetMaxValue(D100) == 100
  {
  }

  /** The `colors` table of `getDiceColor`, as 24-bit RGB. */
  const DiceColors: map<DiceType, int> :=
    map[D4 := 0x4CAF50, D6 := 0xff6b6b, D8 := 0x2196F3, D10 := 0xFF9800,
        D12 := 0x9C27B0, D20 := 0xFFEB3B, D100 := 0x607D8B]

  /** What `colors[type] || 0xff6b6b` falls back to. */
  const DefaultColor := 0xff6b6b

  /** Every type has a non-zero entry, so the fallback of `getDiceColor` is never taken. */
  lemma ColorFallbackUnreachable(t: DiceType)
    ensures t in DiceColors && DiceColors[t] != 0
  {
  }

  /** `getDiceColor`: the table entry, or the fallback when the entry is missing or zero. */
  function GetDiceColor(t: DiceType): (c: int)
    ensures t in DiceColors && c == DiceColors[t]
    ensures 0 < c <= 0xFFFFFF
  {
    ColorFallbackUnreachable(t);
    if t in DiceColors && DiceColors[t] != 0 then DiceColors[t] else DefaultColor
  }

  /** The fallback colour is the d6 colour, and no two types share a colour. */
  lemma ColorsDistinct(a: DiceType, b: DiceType)
    ensures DefaultColor == GetDiceColor(D6)
    ensures GetDiceColor(a) == GetDiceColor(b) <==> a == b
  {
  }

  /** `getDiceFaceValue`: `Math.floor(Math.random() * max) + 1`, the orientation unused. */
  function GetDiceFaceValue(t: DiceType, orientation: Quaternion, draw: int): (v: int)
    requires 0 <= draw < GetMaxValue(t)
    ensures 1 <= v <= GetMaxValue(t)
  {
    draw + 1
  }

  /** The face value depends on the type and the draw only, never on the orientation. */
  lemma FaceValueIgnoresOrientation(t: DiceType, q1: Quaternion, q2: Quaternion, draw: int)
    requires 0 <= draw < GetMaxValue(t)
    ensures GetDiceFaceValue(t, q1, draw) == GetDiceFaceValue(t, q2, draw)
  {
  }

  /**
   * Draws and faces correspond one to one: every face in `[1, max]` comes from exactly
   * one draw, so a uniform draw gives a uniform face.
   */
  lemma FaceValueIsBijection(t: DiceType, q: Quaternion, v: int, d1: int, d2: int)
    requires 1 <= v <= GetMaxValue(t)
    requires 0 <= d1 < GetMaxValue(t) && 0 <= d2 < GetMaxValue(t)
    ensures exists d :: 0 <= d < GetMaxValue(t) && GetDiceFaceValue(t, q, d) == v
    ensures GetDiceFaceValue(t, q, d1) == GetDiceFaceValue(t, q, d2) ==> d1 == d2
  {
    assert GetDiceFaceValue(t, q, v - 1) == v;
  }
}
