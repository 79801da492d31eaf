# Dice pool model

A Dafny model of the dice-pool logic of a browser dice roller: the selector panel's list of
chosen dice, the dice factory's per-type tables and face-value function, the results panel's
total and display decisions, and the server's `roll-dice` handler that rolls a request and
totals it. The three-dimensional scene, the physics engine and the socket relay around them
are not modelled.

Modules: five model the source files, and four more support them or relate them:

- `Wrappers`: the `Option` type, standing for a value that may be `undefined`.
- `SharedTypes` (`shared/src/types.ts`): the seven-value `DiceType` union as a datatype, with
  `TypeName` giving the string tag each value stands for; `DiceRoll`, `RollRequest`, `RollResult`.
- `RollSum`: the `reduce` that sums roll results, which the server and the results panel both
  perform, with a reference sum it is proved equal to.
- `JsNumerals`: the part of JavaScript's `parseInt` the server relies on.
- `DiceSelector` (`client/src/components/DiceSelector.tsx`): each handler returns the list it
  hands to `onDiceChange`, or `None` when it does not call it; `Adopt` is the selection of a
  parent that stores that list.
- `DiceFactory` (`client/src/utils/DiceFactory.ts`): the max-value and colour tables with their
  `||` fallbacks, and `getDiceFaceValue`.
- `RollResults` (`client/src/components/RollResults.tsx`): total, emoji lookup, render decision.
- `RollServer` (`server/src/index.ts`): the `roll-dice` handler body. Its side-count parse is
  stated against the dice factory's table.
- `Consistency`: agreements between files that share no code.

Randomness is a parameter: each `Math.floor(Math.random() * n)` becomes an integer draw `k` with
`0 <= k < n`. The server's `Date.now()` becomes the parameter `now`. JavaScript numbers are
modelled as unbounded integers.

The face value of a die does not depend on its orientation. `getDiceFaceValue` ignores its
quaternion argument and returns a uniform draw, and the model says exactly that
(`DiceFactory.FaceValueIgnoresOrientation`). No "which face is up" classifier exists in the
code, so none is modelled.

## Model

| member | source | states |
|---|---|---|
| SharedTypes.TypeNameInjective | shared/src/types.ts:2 | distinct `DiceType` values are distinct string tags, so a datatype represents the union faithfully |
| SharedTypes.AllDiceTypesEnumerates | shared/src/types.ts:2 | the list of the seven types contains every type, each exactly once |
| RollSum.SumResults | server/src/index.ts:47 | the `reduce` from 0 over the rolls equals the arithmetic sum of their results |
| RollSum.FoldIsResultSum | client/src/components/RollResults.tsx:15 | the left fold `reduce` performs adds exactly the arithmetic sum of the results to its start value |
| RollSum.ResultSumAppend | client/src/components/RollResults.tsx:15 | appending a roll adds its result to the sum |
| RollSum.SumResultsAppend | server/src/index.ts:47 | the reduction from 0 gives 0 for no rolls and grows by each appended roll's result |
| JsNumerals.ParseInt | server/src/index.ts:38 | `parseInt` yields NaN (`None`) exactly when no digit follows the optional sign |
| JsNumerals.ParseIntOfDecimal | server/src/index.ts:38 | `parseInt` reads back the decimal numeral of any natural number |
| DiceSelector.PaletteCoversEveryType | client/src/components/DiceSelector.tsx:10-18 | the palette lists the union's types in their declared order, so one button per type and no type twice, and each name is the upper-cased type tag |
| DiceSelector.FindEntry | client/src/components/DiceSelector.tsx:130 | `find` returns a palette entry of the asked type exactly when one exists, and the first such one |
| DiceSelector.ChipEmoji | client/src/components/DiceSelector.tsx:130 | a chip's emoji is the palette emoji of its type; the optional chain never yields undefined |
| DiceSelector.AddDie | client/src/components/DiceSelector.tsx:25-29 | outside a roll the new list is the old list followed by the added type; during a roll the callback is not called |
| DiceSelector.FilterOutIndex | client/src/components/DiceSelector.tsx:33 | the index filter deletes exactly position `index` keeping order, and keeps every element when `index` is out of range |
| DiceSelector.RemoveDie | client/src/components/DiceSelector.tsx:31-36 | outside a roll the list loses element `index` (length minus one) or is unchanged for an out-of-range index; during a roll the callback is not called |
| DiceSelector.ClearAll | client/src/components/DiceSelector.tsx:38-42 | outside a roll the new list is empty; during a roll the callback is not called |
| DiceSelector.FrozenWhileRolling | client/src/components/DiceSelector.tsx:25-42 | while rolling, adding, removing and clearing all leave the selection as it was |
| DiceSelector.KeepKind | client/src/components/DiceSelector.tsx:45 | filtering by type keeps only that type, as many times as it occurs |
| DiceSelector.GetDiceCount | client/src/components/DiceSelector.tsx:44-46 | the count of a type is its multiplicity in the selection |
| DiceSelector.BadgeShownIffSelected | client/src/components/DiceSelector.tsx:89 | a button's count badge shows exactly when its type is in the selection |
| DiceSelector.CountsCoverSelection | client/src/components/DiceSelector.tsx:44-46 | the seven per-type counts sum to the selection's length |
| DiceSelector.AddDieCounts | client/src/components/DiceSelector.tsx:27 | adding a die raises its type's count by one and leaves every other count unchanged |
| DiceSelector.RemoveDieCounts | client/src/components/DiceSelector.tsx:33 | removing a die lowers its type's count by one and leaves every other count unchanged |
| DiceSelector.ClearAllDisabled | client/src/components/DiceSelector.tsx:144 | Clear All is disabled exactly when pressing it would leave the selection unchanged |
| DiceSelector.Hint | client/src/components/DiceSelector.tsx:160 | the hint is one of the two texts, and outside a roll it is "Add dice to get started" exactly when Clear All is disabled |
| DiceFactory.MaxValueFallbackUnreachable | client/src/utils/DiceFactory.ts:114-123 | every type has a non-zero max-value entry, so the fallback of 6 is never used |
| DiceFactory.GetMaxValue | client/src/utils/DiceFactory.ts:113-124 | the max value is the table entry for the type, between 4 and 100 |
| DiceFactory.MaxValueOfEachType | client/src/utils/DiceFactory.ts:114-122 | d4, d6, d8, d10, d12, d20, d100 have 4, 6, 8, 10, 12, 20, 100 sides |
| DiceFactory.ColorFallbackUnreachable | client/src/utils/DiceFactory.ts:68-79 | every type has a non-zero colour entry, so the fallback colour is never used |
| DiceFactory.GetDiceColor | client/src/utils/DiceFactory.ts:68-79 | the colour is the table entry for the type, a 24-bit RGB value |
| DiceFactory.ColorsDistinct | client/src/utils/DiceFactory.ts:69-78 | the fallback colour equals the d6 colour, and no two types share a colour |
| DiceFactory.GetDiceFaceValue | client/src/utils/DiceFactory.ts:126-131 | for a draw in `[0, max)` the face value lies in `[1, max]` |
| DiceFactory.FaceValueIgnoresOrientation | client/src/utils/DiceFactory.ts:126-131 | the face value is the same for every orientation, given the type and the draw |
| DiceFactory.FaceValueIsBijection | client/src/utils/DiceFactory.ts:130 | every face in `[1, max]` comes from exactly one draw, so a uniform draw gives a uniform face |
| RollResults.Total | client/src/components/RollResults.tsx:15 | the total is the sum of the roll results plus the modifier |
| RollResults.TotalAppend | client/src/components/RollResults.tsx:15 | with no results the total is the modifier, and appending a roll adds its result |
| RollResults.GetDiceEmoji | client/src/components/RollResults.tsx:17-28 | any string that is not a type tag gets the die emoji, so does `"d6"`, and every other tag gets a different emoji |
| RollResults.RowOf | client/src/components/RollResults.tsx:85-94 | a row shows the roll's value, its tag with the leading `d` capitalised, and the die emoji exactly for a d6 |
| RollResults.EmojiDistinct | client/src/components/RollResults.tsx:18-26 | the seven type tags get seven distinct emoji |
| RollResults.Render | client/src/components/RollResults.tsx:30-126 | rolling shows the rolling notice whatever the results; otherwise no results render nothing; otherwise one row per roll with that roll's emoji, upper-cased type and value, a modifier row iff the modifier is non-zero with a `+` iff it is positive, and the total |
| RollResults.PanelAddsUp | client/src/components/RollResults.tsx:74-126 | the displayed total equals the displayed row values plus the displayed modifier |
| RollServer.ParseSides | server/src/index.ts:38 | the side count parsed from a type's tag is the dice factory's max value for that type |
| RollServer.RollDie | server/src/index.ts:38-40 | a die's roll keeps its type and its result lies in `[1, sides]` |
| RollServer.RollAll | server/src/index.ts:37-41 | one roll per requested die, in order: roll `i` is die `i`'s type with the face its draw `i` gives (`draw + 1`), a result in `[1, sides]` |
| RollServer.ModifierOrZero | server/src/index.ts:46 | an absent modifier becomes 0 and a present one is kept |
| RollServer.HandleRollDice | server/src/index.ts:37-49 | the player is copied; roll `i` is die `i` rolled with draw `i`; the stored modifier is the one in the total; the total is the result sum plus the modifier (the modifier alone for no dice) |
| RollServer.TotalBounds | server/src/index.ts:39-47 | the total lies between the die count and the sum of side counts, shifted by the modifier |
| Consistency.TypeNameSpellsMaxValue | shared/src/types.ts:2 | every type tag is `d` followed by the decimal numeral of the factory's side count |
| Consistency.DrawRangesAgree | server/src/index.ts:39 | the server's draw range for a die is the factory's draw range for it |
| Consistency.ServerRollIsFaceValue | server/src/index.ts:39 | the server and the factory turn the same draw into the same face |
| Consistency.BroadcastRollsAreFaceValues | server/src/index.ts:37-41 | every result the server broadcasts is the dice factory's face value for the same die and draw |
| Consistency.ClientTotalMatchesServer | server/src/index.ts:47 | the results panel's total recomputed from a broadcast result equals the server's total |
| Consistency.EmojiTablesAgree | client/src/components/RollResults.tsx:17-28 | the results panel's emoji for each palette entry's type is that entry's emoji |
| Consistency.CaptionsAgree | client/src/components/RollResults.tsx:86 | a result row's caption is the palette button name of its type |

## Left out

- `client/src/App.tsx`: scene, renderer, animation loop and resize handling are graphics glue.
- `createDiceGeometry`, `createDice` and `removeDice`: they only build and dispose three.js and cannon-es objects; the random id string of `createDice` goes with them.
- `Math.random()` and floating-point arithmetic: each draw is an integer parameter in the range `Math.floor(Math.random() * n)` can take.
- Socket.IO connection handling, `join-room`, the `io.emit` broadcast, the `/health` endpoint and logging are I/O. `Date.now()` is the parameter `now`.
- React layout and styles beyond the branch decisions above: row borders, the "Selected Dice (n)" heading, "No dice selected", cursors, opacity.
- JsNumerals.ParseInt: leading whitespace and the `0x` hexadecimal prefix that `parseInt` also accepts are not modelled, because the server only parses the tail of a type tag.
- RollServer.HandleRollDice: dice arriving over the socket are taken to be `DiceType` values, so other input is not modelled. The server does not validate it. A tag such as `"d3"` or `"d7x"` parses to 3 or 7 and rolls like a die of that size. `"d0"` gives 0 sides, so its result is always 1. `"d-4"` gives results from -3 to 0, or 1 when the random number is exactly 0 (the floor of negative zero plus one). `parseInt` skips leading whitespace, so `"d 5"` parses to 5. It gives NaN exactly when, after any leading whitespace and an optional sign, no digit follows (`"d"`, `"dx"`, `"dx5"`), or when a `0x` prefix has no hexadecimal digit after it (`"d0x"`). That die's result and the total are then NaN, while the other dice keep their results. A die that is not a string, or a missing `dice` array, makes the handler throw a `TypeError`.
- RollServer.ModifierOrZero: a NaN or non-integer modifier is not modelled.
- RollResults.GetDiceEmoji: the object-literal lookup is modelled as a lookup of its own seven keys. A string naming an inherited property such as `constructor` would return that property in JavaScript. The component only passes type tags.
- DiceSelector.Adopt: the parent's handling of `onDiceChange` is not in the code. The model assumes the parent stores the list it receives.
- SharedTypes.ToUpper: only ASCII letters are mapped, which covers every type tag.
