# Nether ⇄ Overworld coordinate converter — a Dafny model

The page converts a block position between the game's two linked worlds. One
Nether block spans 8 Overworld blocks along x and z. The height y is the same
in both. The model has four modules:

- `Conversion` (conversion.dfy) holds the two transforms of
  `utils/conversion.ts` on integer axes. Nether to Overworld multiplies x and z
  by 8. Overworld to Nether floor-divides them by 8. y passes through.
  For an integer `v`, `Math.floor(v * 8)` is `8 * v`, and `Math.floor(v / 8)` is
  Dafny's `v / 8`, so the integer model is exact.
- `Text` (text.dfy) holds the two JavaScript built-ins the page uses on field
  text: `trim()`, for the presence check, and `Number()`, applied before the
  arithmetic.
- `Page` (page.dfy) is the form controller of `app/page.tsx`, written as the
  class `Form`. Its fields are the six `useState` hooks plus `pending`, the
  timer callback that has been scheduled and has not yet run. Each handler is
  a method. The 800 ms timer is the separate method `Complete`, which runs on
  the snapshot of direction and both triples that the closure captured when
  convert was pressed. `Valid()` says that the page is loading exactly while a
  callback is pending, and that the pending snapshot passed validation. Convert
  requires `!isLoading`, because the page renders the button with
  `disabled={isLoading}`. So at most one callback is ever pending.
- `PageScenarios` (scenarios.dfy) drives a fresh `Form` through whole
  interactions and states what the page then shows.

The validation-error dictionary only ever holds `true`, so it is modelled as a
set of `FieldKey(dimension, axis)` values. `KeyNameInjective` shows that
distinct keys have distinct texts (`"nether-x"` and so on). The result string is
kept structured: `Summary(source, typed text, converted values)` for
`"Nether (a, b, c) → Overworld (x, y, z)"`, and `UndefinedText` for the literal
`"undefined"`.

Points where the code's behaviour is easy to misread, and which the model
follows exactly:

- The code floors each scaled x and z (`Math.floor`, utils/conversion.ts:6,
  8, 15 and 17).
- The timer passes the two triples swapped: `getConversionResult(overworldCoords,
  netherCoords)` at app/page.tsx:96, against the parameters
  `(netherCoords, overworldCoords)` at line 64. So in the Overworld to Nether
  direction, the Nether triple is re-validated under the `overworld` prefix
  (line 72) and converted (line 83). When a Nether field is empty, the result is
  the text `"undefined"`. See Findings.
- `updateNetherCoords` and `updateOverworldCoords` write their own triple
  whatever the direction. Only the rendered inputs of the inactive triple are
  disabled.
- A failed convert first empties the error set (line 49). The set then holds
  exactly the failing keys of the active triple.
- The timer's re-validation merges its flags into the error set as it is when
  the timer fires, because `validateInputs` uses a functional state update
  (line 44).

## Model

| member | source | states |
|---|---|---|
| `Conversion.ScaleUp` | utils/conversion.ts:6 | the scaled axis is a multiple of 8 whose eighth is the input |
| `Conversion.ScaleDown` | utils/conversion.ts:15 | the result r is the floor of v/8: 8r ≤ v < 8r + 8 |
| `Conversion.NetherToOverworld` | utils/conversion.ts:3-9 | x and z are 8 times the input; y is unchanged |
| `Conversion.OverworldToNether` | utils/conversion.ts:13-18 | x and z are the floors of the input over 8; y is unchanged |
| `Conversion.ScaleDownUnique` | utils/conversion.ts:15 | any r with 8r ≤ v < 8r + 8 is the Nether value of v |
| `Conversion.RoundTrip` | utils/conversion.ts:6-8 | Overworld to Nether after Nether to Overworld is the identity on integer points |
| `Conversion.ReverseRoundTrip` | utils/conversion.ts:15-17 | Nether to Overworld after Overworld to Nether gives, on x and z, the largest multiple of 8 not above the input; y is unchanged |
| `Conversion.ReverseRoundTripIdentity` | utils/conversion.ts:6-17 | that reverse round trip is the identity exactly when x and z are multiples of 8 |
| `Conversion.AxesIndependent` | utils/conversion.ts:5-8 | in both transforms each output axis depends only on the same input axis |
| `Conversion.OverworldToNetherMonotone` | utils/conversion.ts:14-18 | Overworld to Nether is non-decreasing in x and in z |
| `Conversion.ScaleDownSign` | utils/conversion.ts:15 | the Nether value is negative iff the Overworld value is, and zero iff the Overworld value is in 0..7 |
| `Conversion.Examples` | utils/conversion.ts:3-19 | (10, 64, -3) maps to (80, 64, -24) and back; -3 maps down to -1 |
| `Text.TrimStartSpec` | app/page.tsx:31 | trimming the start drops only whitespace and leaves a suffix that does not start with whitespace |
| `Text.TrimEndSpec` | app/page.tsx:31 | trimming the end drops only whitespace and leaves a prefix that does not end with whitespace |
| `Text.TrimSpec` | app/page.tsx:31 | the trimmed text has no whitespace at either end, and is empty iff every character is whitespace |
| `Text.ToNumber` | utils/conversion.ts:6-8 | `Number()` of blank text is 0, and every integer it yields is one a double holds exactly (magnitude at most 2^53) |
| `Text.TrimFixed` | app/page.tsx:31 | text with no whitespace at either end is its own trim |
| `Text.ToNumberTrim` | utils/conversion.ts:6-8 | `Number()` gives the same value for a text and for its trimmed text |
| `Text.ToNumberFromInt` | utils/conversion.ts:6-8 | reading back the decimal spelling (`FromInt`) of any integer of magnitude at most 2^53 gives that integer |
| `Page.Flip` | app/page.tsx:22 | the toggled direction differs from the old one |
| `Page.FlipInvolutive` | app/page.tsx:22 | toggling twice restores the direction |
| `Page.Coordinates.With` | app/page.tsx:103 | an edit sets the named field to the new text and keeps the other two fields |
| `Page.KeyNameInjective` | app/page.tsx:32-40 | distinct error keys have distinct key texts, so the key set stands for the string-keyed dictionary |
| `Page.FailingKeys` | app/page.tsx:27-43 | key `prefix-axis` is flagged iff that field's trimmed text is empty; nothing is flagged iff all three fields are present |
| `Page.MissingIffBlank` | app/page.tsx:31 | a field is missing iff all its characters are whitespace |
| `Page.ConvertNetherToOverworld` | utils/conversion.ts:3-9 | when the three fields read as integers, the displayed values are the integer Nether to Overworld transform of them |
| `Page.ConvertOverworldToNether` | utils/conversion.ts:13-18 | when the three fields read as integers, the displayed values are the integer Overworld to Nether transform of them |
| `Page.ConversionResult` | app/page.tsx:64-88 | getConversionResult returns nothing iff the parameter matching the captured direction fails validation under that direction's prefix; otherwise it summarises that parameter under that direction's source name, with the reading of that direction's conversion of that parameter |
| `Page.ConversionIgnoresInactive` | app/page.tsx:64-85 | replacing the parameter that does not match the captured direction changes neither getConversionResult's result nor the keys it flags |
| `Page.CompletionResult` | app/page.tsx:93-97 | in both directions the stored text is "undefined" iff the Nether snapshot fails validation under the direction's prefix; otherwise it summarises the Nether text |
| `Page.CompletionErrors` | app/page.tsx:93-97 | in both directions the timer flags exactly the Nether snapshot's failing keys under the direction's prefix |
| `Page.IntendedCompletionResult` | app/page.tsx:64 | with arguments in parameter order, the text is "undefined" iff the active snapshot triple fails validation, and otherwise summarises that triple |
| `Page.CompletionNetherToOverworld` | app/page.tsx:92-94 | in the Nether to Overworld direction, a validated snapshot is converted from the Nether triple and nothing is flagged |
| `Page.CompletionOverworldToNether` | app/page.tsx:92-99 | in the Overworld to Nether direction, the timer re-validates the Nether triple under the overworld prefix. It shows "undefined" iff a Nether field is missing, otherwise the Nether triple converted. The Overworld triple plays no part |
| `Page.IntendedCompletionConverts` | app/page.tsx:64 | with arguments in parameter order, a validated snapshot always yields a summary of its active triple, never "undefined" |
| `Page.Form.constructor` | app/page.tsx:14-19 | the form starts in Nether to Overworld with empty triples, no result, not loading, no flags and nothing pending |
| `Page.Form.HandleDirectionToggle` | app/page.tsx:21-25 | the direction flips, the result and all flags are cleared; the coordinates, loading and a pending timer are untouched |
| `Page.Form.ValidateInputs` | app/page.tsx:27-46 | the failing keys are merged into the flags without removing any; it returns true iff none failed |
| `Page.Form.HandleConvert` | app/page.tsx:48-61 | the flags become exactly the failing keys of the triple matching the direction. If there are none, loading starts with one callback pending on a snapshot of the current state; otherwise nothing else changes. No callback was pending before, so none is dropped |
| `Page.Form.GetConversionResult` | app/page.tsx:64-88 | the result is ConversionResult, and the one re-validation's flags are merged into the existing flags |
| `Page.Form.Complete` | app/page.tsx:92-99 | loading ends, nothing stays pending, and the result is the template of getConversionResult on the captured snapshot with the swapped arguments. The re-validation flags are merged in; the coordinates and direction are unchanged. In the Nether to Overworld direction it never shows "undefined" |
| `Page.Form.UpdateNetherCoords` | app/page.tsx:102-111 | only that Nether field changes, and only its own flag is removed; everything else is kept |
| `Page.Form.UpdateOverworldCoords` | app/page.tsx:113-122 | only that Overworld field changes, and only its own flag is removed; everything else is kept |
| `PageScenarios.NetherToOverworldScenario` | app/page.tsx:48-99 | Nether (10, 64, -3) converted shows Overworld (80, 64, -24) with no flags, and loading has ended |
| `PageScenarios.OverworldToNetherScenario` | app/page.tsx:92-99 | Overworld (80, 64, -24) converted with the Nether inputs empty shows "undefined" and flags all three Overworld fields |
| `PageScenarios.SwappedTriplesScenario` | app/page.tsx:96 | with Nether (16, 5, -9) and Overworld (80, 64, -24), the page shows the Nether text labelled Overworld, divided by 8 |
| `PageScenarios.MissingFieldScenario` | app/page.tsx:21-59 | convert with a blank z flags only z and starts nothing; a toggle then clears the flag |
| `PageScenarios.EditClearsOwnFlagScenario` | app/page.tsx:102-111 | editing the flagged y field clears that flag and keeps the x and z flags |
| `PageScenarios.StaleSnapshotScenario` | app/page.tsx:92-99 | edits and a toggle made while loading do not change what the timer shows |
| `PageScenarios.IntendedOverworldToNetherExample` | app/page.tsx:64 | with arguments in parameter order, Overworld (80, 64, -24) would show Nether (10, 64, -3) |

## Findings

| source | as written | input that shows it | evidently intended | confidence | as-written member | corrected member |
|---|---|---|---|---|---|---|
| app/page.tsx:96 | the timer calls `getConversionResult(overworldCoords, netherCoords)`, but the parameters are `(netherCoords, overworldCoords)` (line 64). The Overworld to Nether branch therefore validates and converts the Nether triple | direction Overworld to Nether, Overworld (80, 64, -24), Nether empty: shows "undefined" and flags overworld-x, -y, -z | convert the Overworld triple and show Nether (10, 64, -3) | high (not executed) | `PageScenarios.OverworldToNetherScenario` | `Page.IntendedCompletionConverts` |

The class `Form` keeps the page's behaviour as written in `Complete`, because
it models the deployed page. The corrected behaviour is the function
`Page.IntendedCompletionResult`. `Page.IntendedCompletionConverts` proves it
for every snapshot, and `PageScenarios.IntendedOverworldToNetherExample`
checks it on the example above.

## Left out

- The rendered markup and styling (app/page.tsx:124-292). The one fact kept is
  `disabled={isLoading}` on the convert button, as the precondition of
  `HandleConvert`. The inputs of the inactive triple are also disabled in the
  markup, but the update handlers do not check the direction, so the model
  allows edits to either triple.
- React's hook machinery and batching. The hooks are plain fields, and each
  functional update is a direct assignment, applied in the order the updates
  are queued.
- The real 800 ms delay. The timer firing is the explicit step `Complete`. It
  cannot be cancelled, as on the page.
- `console.error` logging (lines 69 and 73).
- Text.ToNumber: `Number()` is tracked only for blank text (0) and for
  optionally signed runs of decimal digits with surrounding whitespace, and
  only when the value's magnitude is at most 2^53. Larger values are
  `Untracked`, because a double does not hold every larger integer exactly (for "9007199254740993",
  `Number()` gives 9007199254740992). Every other text is also `Untracked`:
  NaN, fractions, exponents, radix prefixes, `Infinity`, and integers written
  in those forms, such as `1e3`. Floating-point arithmetic on non-integers is
  not modelled.
- Number-to-string formatting in the result template (lines 80 and 84). The
  result is a structured `Summary` instead of the formatted string.
- `trim()` strips a fixed set of ten whitespace characters, not the full
  Unicode space-separator category.
