# Pendants for FluidNC — a verified model of the pendant-side logic

This project models three pieces of the pendant firmware that talk to a FluidNC CNC controller:

- **The STM32 IO expander's message decoder** (`Displayer::parse_message`). The controller
  asks the expander to configure or drive a pin with an informational line of the form
  `[MSG:<LEVEL>: io.<pin>=<parameters>]`, where LEVEL is `INI`, `GET` or `SET`. The decoder
  takes one such line and does one of three things: it ignores it, forwards it unchanged to
  the pendant, or calls `init` / `set_output` on the addressed pin. The model is the pure
  function `StmExpander.ParseMessage`, from a line to an `Action`. It is written over an
  explicit model of the Arduino `String` operations it uses (`ArduinoString`):
  - `substring` swaps reversed bounds and clamps an end past the length;
  - `indexOf` answers -1 when the character is absent;
  - `remove` ignores an index past the end;
  - `toInt` is the C library's `atol`;
  - indices are 32-bit `unsigned int`, so `pos - 1` and `length() - 1` wrap around.
- **The M5Dial probing scene** (`ProbingScene`). The operator edits five probe settings
  (offset, travel, feed rate, retract distance, axis): a touch moves the selection, and the
  encoder changes the selected setting. The green and red buttons then send a probe cycle,
  a retract jog, or a realtime hold, resume or reset byte, depending on the controller
  state. The settings are the fields of the class `Probing.ProbingScene`. Its handlers are
  proved against pure transition functions on `SceneState`, and the button handlers are
  functions that return the `Command` they would send.
- **The controller state enum and the model's declared shape** (`FluidNCModel.h`). The
  module `FluidNC` holds:
  - the twelve states and their ordinals;
  - the 2000 ms default timeout of `send_line`;
  - the two command kinds;
  - the six axis positions, six limit switches and one probe switch of the machine snapshot.

Numbers are integers throughout. The probe offset is kept in hundredths, and every value
shown with `floatToString` is carried in hundredths. `floatToString` and `axisNumToString`
are not part of this model. They appear as function parameters of `FluidNC.Render`, which
turns a command's pieces into text.

The code and its comment disagree on the message form. The comment at
`STM_Expander/src/main.cpp:42` shows `[MSG:INI io.1=inp,low,pu]`. The offsets at lines
36-38 need a colon after the level, so the model follows the code and uses
`[MSG:INI: io.1=inp,low,pu]`. Without the colon, the level would read as `IN` and the line
would be forwarded (`StmExpander.LevelWithoutColonIsForwarded`).

## Model

| member | source | states |
|---|---|---|
| `FluidNC.Ordinal` | Pico_MKS_TS35_R/src/FluidNCModel.h:10-23 | each state's ordinal is below 12, and listing the states in declared order puts each one at its ordinal |
| `FluidNC.FromOrdinal` | Pico_MKS_TS35_R/src/FluidNCModel.h:10-23 | a number names a state exactly when it is in 0..11, and that state has the number as its ordinal |
| `FluidNC.IdleIsZero` | Pico_MKS_TS35_R/src/FluidNCModel.h:11 | Idle is ordinal 0, and ordinal 0 is Idle |
| `FluidNC.OrdinalsAreDeclaredOrder` | Pico_MKS_TS35_R/src/FluidNCModel.h:10-23 | there are exactly 12 states, the i-th declared state has ordinal i, and no two states share an ordinal |
| `FluidNC.OrdinalRoundTrip` | Pico_MKS_TS35_R/src/FluidNCModel.h:10-23 | turning a state into its ordinal and back gives the same state |
| `FluidNC.DisconnectedIsOnlyLocalState` | Pico_MKS_TS35_R/src/FluidNCModel.h:9-22 | Disconnected is last (ordinal 11), and it is the only state that is not one of FluidNC's own |
| `ArduinoString.Substring` | STM_Expander/src/main.cpp:28-38 | substring gives s[left..right] within bounds, swaps reversed bounds, clamps an end past the length, and gives "" when both bounds are at or past the end |
| `ArduinoString.AsUnsigned` | STM_Expander/src/main.cpp:36-39 | a signed int passed as an unsigned int lies in 0..2^32-1: it is unchanged when already in range and gains 2^32 when negative, so `pos - 1` at 0 and `length() - 1` at 0 become 2^32 - 1 |
| `ArduinoString.SubstringFrom` | STM_Expander/src/main.cpp:28-38 | substring(from) is the text from `from` to the end, and "" when `from` is at or past the end |
| `ArduinoString.IndexOf` | STM_Expander/src/main.cpp:30-31 | indexOf is -1 exactly when the character is absent; otherwise it is the character's first position |
| `ArduinoString.StartsWith` | STM_Expander/src/main.cpp:48 | startsWith holds exactly when the prefix is a prefix of the string |
| `ArduinoString.RemoveFrom` | STM_Expander/src/main.cpp:39 | remove(index) leaves a prefix of the string, of length index when index is inside it and of the whole length otherwise |
| `ArduinoString.RemoveLastChar` | STM_Expander/src/main.cpp:39 | remove(length() - 1), with the unsigned wrap on an empty string, drops the last character and leaves "" unchanged |
| `ArduinoString.ToInt` | STM_Expander/src/main.cpp:59 | toInt always lies in the 32-bit long range |
| `ArduinoString.DecimalRoundTrip` | STM_Expander/src/main.cpp:59 | toInt of a natural number's decimal text gives the number back |
| `ArduinoString.IntDecimalRoundTrip` | STM_Expander/src/main.cpp:59 | toInt of a signed long's decimal text gives the number back, negative ones included |
| `ArduinoString.NoDigitsReadsZero` | STM_Expander/src/main.cpp:59 | text that does not start with a space, sign or digit reads as 0 |
| `ArduinoString.ToIntReadsLeadingNumber` | STM_Expander/src/main.cpp:59 | for any text made of white space, an optional `+` or `-`, digits and a tail that does not start with a digit, toInt is the saturated value of the digits, negated after `-`; the tail is ignored and leading zeros add nothing |
| `ArduinoString.ToIntSkipsSpaces` | STM_Expander/src/main.cpp:59 | leading white space never changes what toInt reads |
| `StmExpander.SplitMessage` | STM_Expander/src/main.cpp:28-39 | the message has no level exactly when no space follows the 5-character `[MSG:` prefix |
| `StmExpander.SplitAtFirstSpace` | STM_Expander/src/main.cpp:28-39 | with the first space after the prefix at k > 5, the level is message[5..k-1] (the colon dropped) and the body is the text after the space without its last character; with the space at 5, the level is the whole rest (unsigned wrap of pos - 1) |
| `StmExpander.WireFormSplits` | STM_Expander/src/main.cpp:28-39 | for a level with no space and any body, `[MSG:<level>: <body>]` splits back into that level and body |
| `StmExpander.ParsePinRequest` | STM_Expander/src/main.cpp:48-60 | a body is a pin request exactly when it starts with `io.` and has an `=`. Its first `.` is then at 2, the pin is toInt of the text between that `.` and the first `=`, and the parameters are exactly the text after that `=` |
| `StmExpander.DecodeIo` | STM_Expander/src/main.cpp:43-82 | an IO level is never forwarded. It does nothing exactly when the level is GET or the body is not a pin request; otherwise INI initialises that pin and SET sets its output, with that pin's parameters |
| `StmExpander.ParseMessage` | STM_Expander/src/main.cpp:23-86 | only the original message is ever forwarded, and a message with no space after the prefix does nothing |
| `StmExpander.LevelDecidesForwarding` | STM_Expander/src/main.cpp:43-85 | the message is forwarded unmodified exactly when its level is not INI, GET or SET; a space right after the prefix always forwards |
| `StmExpander.IoMessageRoundTrip` | STM_Expander/src/main.cpp:43-82 | decoding `[MSG:<LEVEL>: io.<pin>=<params>]` gives INI the pin and parameters to initialise, SET the pin and parameters to set, and GET nothing, for any parameters and any signed pin (no range check) |
| `StmExpander.IoBodyDecodes` | STM_Expander/src/main.cpp:48-82 | the body `io.<pin>=<params>` under an IO level yields that pin and those parameters for INI and SET, and nothing for GET |
| `StmExpander.MalformedIoIgnored` | STM_Expander/src/main.cpp:48-57 | an IO level whose body lacks the `io.` prefix or an `=` is neither executed nor forwarded |
| `StmExpander.PendantOutput` | STM_Expander/src/main.cpp:62-85 | a forwarded message is printed with a line end; nothing is printed exactly when the message was ignored or the pin operation succeeded; a failed init prints "IN Error" and a failed set_output "Set Error" |
| `StmExpander.PendantSeesForwardsAndPinErrors` | STM_Expander/src/main.cpp:62-85 | a forwarded message reaches the pendant verbatim with a line end. A pin request never does; its only output is "IN Error" or "Set Error", and only when the pin reports a failure |
| `StmExpander.NonIoLevelForwarded` | STM_Expander/src/main.cpp:43-85 | `[MSG:<level>: <body>]` with any other level, `INFO` included, is forwarded unchanged |
| `StmExpander.LevelWithoutColonIsForwarded` | STM_Expander/src/main.cpp:36-43 | without a colon before the space, the decoded level loses its last letter and the body its last character. The comment's form `[MSG:INI io.1=…]` therefore reads as level "IN" and is forwarded, not executed |
| `Probing.RotateNumberLoop` | M5Dial_Scenes/src/ProbingScene.cpp:67-93 | a value in lo..hi steps to lo + (value - lo + 1) mod (hi - lo + 1), so it stays in lo..hi and wraps from hi to lo |
| `Probing.EncoderStep` | M5Dial_Scenes/src/ProbingScene.cpp:72-94 | only the selected setting changes; the setting invariant is kept; a rate step leaves rate >= 1 and a retract step leaves retract >= 0 |
| `Probing.Touched` | M5Dial_Scenes/src/ProbingScene.cpp:65-69 | a touch changes neither the prefs nor prefsChanged, and moves a selection in 0..4 to (selection + 1) mod 5 |
| `Probing.Encoded` | M5Dial_Scenes/src/ProbingScene.cpp:71-98 | the encoder never moves the selection; a zero delta changes nothing; a nonzero delta marks the prefs unsaved; the scene invariant is kept |
| `Probing.Saved` | M5Dial_Scenes/src/ProbingScene.cpp:100-105 | saving clears prefsChanged and keeps the selection and the prefs |
| `Probing.TouchCyclesSelection` | M5Dial_Scenes/src/ProbingScene.cpp:65-69 | a touch takes the selection to (selection + 1) mod 5 and changes nothing else |
| `Probing.ZeroDeltaChangesNothing` | M5Dial_Scenes/src/ProbingScene.cpp:71-72 | an encoder delta of 0 leaves the whole scene unchanged, prefsChanged included |
| `Probing.NonzeroDeltaEditsSelection` | M5Dial_Scenes/src/ProbingScene.cpp:72-97 | a nonzero delta sets prefsChanged and keeps the selection. It adds delta to the offset (in hundredths) or the travel, and clamps rate at 1 and retract at 0. An out-of-range selection changes no setting |
| `Probing.AxisStepIgnoresDelta` | M5Dial_Scenes/src/ProbingScene.cpp:92-93 | on the axis setting, every nonzero delta has the same effect: the axis goes to (axis + 1) mod 3 |
| `Probing.OnlySaveClearsPrefsChanged` | M5Dial_Scenes/src/ProbingScene.cpp:96-104 | touch and encoder never clear prefsChanged. Saving clears it and keeps the prefs and selection, and saving twice equals saving once |
| `Probing.StepPreservesValid` | M5Dial_Scenes/src/ProbingScene.cpp:65-104 | every handler keeps selection in 0..4, axis in 0..2, rate >= 1 and retract >= 0 |
| `Probing.RunPreservesValid` | M5Dial_Scenes/src/ProbingScene.cpp:65-104 | from a valid scene, every sequence of touch, encoder and save events ends in a valid scene |
| `Probing.InitialSceneValid` | M5Dial_Scenes/src/ProbingScene.cpp:9-18 | the initial settings (offset 0, travel -20, rate 80, retract 20, axis Z) satisfy the invariant |
| `Probing.GreenButton` | M5Dial_Scenes/src/ProbingScene.cpp:25-46 | green sends a line exactly when Idle: the probe line, with send_line's default timeout. It sends FeedHold in Cycle, CycleStart in Hold, and nothing in any other state |
| `Probing.RedButton` | M5Dial_Scenes/src/ProbingScene.cpp:48-63 | red sends a line exactly when Idle: the retract jog, with the default timeout. It sends Reset exactly in Cycle, and nothing elsewhere, Hold included |
| `Probing.ButtonLegends` | M5Dial_Scenes/src/ProbingScene.cpp:128-145 | the green and the red legend are each blank exactly outside Idle, Cycle and Hold |
| `Probing.ProbeLineText` | M5Dial_Scenes/src/ProbingScene.cpp:27-33 | the Idle green press is one line, `G38.2G91` + `F` + rate (0 decimals) + axis name + travel (0 decimals) + `P` + offset (2 decimals) |
| `Probing.RetractLineText` | M5Dial_Scenes/src/ProbingScene.cpp:55-60 | the Idle red press is one line, `$J=G91F1000` + axis name + sign + retract (0 decimals); the sign is `+` exactly when travel < 0 |
| `Probing.GreenLegendNamesAction` | M5Dial_Scenes/src/ProbingScene.cpp:128-145 | in every state the green legend names what the green button sends, and it is blank exactly when the button sends nothing |
| `Probing.RedLegendNamesActionOutsideHold` | M5Dial_Scenes/src/ProbingScene.cpp:128-145 | outside Hold the red legend names what the red button sends, and it is blank exactly when the button sends nothing |
| `Probing.RedButtonInHoldDoesNothing` | M5Dial_Scenes/src/ProbingScene.cpp:48-63 | in Hold the red legend reads "Reset", yet the red button sends nothing |
| `Probing.LinesOnlyUnderLineLegends` | M5Dial_Scenes/src/ProbingScene.cpp:25-63 | a line is sent only under a Probe or Retract legend, and outside Idle, Cycle and Hold neither button sends anything |
| `Probing.ProbingScene.constructor` | M5Dial_Scenes/src/ProbingScene.cpp:9-21 | a new scene starts with selection 0, nothing unsaved and the default prefs, and satisfies the invariant |
| `Probing.ProbingScene.OnTouchRelease` | M5Dial_Scenes/src/ProbingScene.cpp:65-69 | updating the fields in place gives the touch transition of the old scene and keeps the invariant |
| `Probing.ProbingScene.OnEncoder` | M5Dial_Scenes/src/ProbingScene.cpp:71-98 | updating the fields in place gives the encoder transition of the old scene and keeps the invariant |
| `Probing.ProbingScene.SavePrefs` | M5Dial_Scenes/src/ProbingScene.cpp:100-105 | updating the fields in place gives the save transition of the old scene and keeps the invariant |

## Left out

- The GrblParser protocol engine is not part of this model. Its status-report decoder, line framer, acknowledgement and timeout tracking, and liveness monitor are only declared in the visible files. So are `decode_state_string`, `decode_error_number`, `fnc_is_connected` and `set_disconnected_state`.
- The machine snapshot (`FluidNC.Machine`) is captured as a shape predicate only. No visible code updates the axis positions or the switches. The position type is kept abstract as `int`.
- The realtime command byte values and the line framing on the wire are declared in headers that are not part of this model.
- All hardware I/O is left out:
  - the expander's clock setup, `setup`, `io_init`, `read_all_pins` and the two serial relay loops in `loop`;
  - the Pico TFT, LVGL, touch, beeper and serial wrappers;
  - the scene's drawing and its debug prints.
- What `STM32_Pin::init` and `set_output` do lives in `io_controller.h`, which is not part of this model. Their result is an abstract `FailCode` parameter.
- The size of the `pins[]` table is not in the model. The decoded pin number is passed on unchecked, exactly as the source does, and it can be negative or out of range.
- `SET` reads its value with `param_list.toFloat()`. The model keeps the parameter text uninterpreted.
- Embedded NUL characters are not modelled. Arduino's `indexOf` and `substring` work on C strings, so they would stop at the first NUL; the model searches and copies the whole sequence.
- `ArduinoString.ToInt`: follows `atol` as `strtol` with base 10 and assumes saturation at the 32-bit long range on overflow. The exact overflow behaviour depends on the C library, which is not part of this model.
- `Probing.RotateNumberLoop`: `rotateNumberLoop` is defined in `Scene.h`, which is not part of this model. It is assumed to add the increment and wrap past either end to the other end. Only increment 1 is used.
- Floating point is not modelled. The offset is exact in hundredths, and the other settings are exact integers. The scene's `float` fields could round after many steps; the model cannot.
- `abs(delta) > 0` is modelled as `delta != 0`, so the undefined `abs` of the most negative int is not captured.
- The exact text of `floatToString` and `axisNumToString` is left abstract.
- The scene's unused `oldPosition` field is left out.
- `onDialButtonRelease` (`pop_scene`) belongs to the scene stack, which is not part of this model.
- The persistence step of `savePrefs` is commented out in the source, so saving only clears `prefsChanged`.
- `send_line` has two overloads, one for `String` and one for `const char *`. Both are modelled as one `SendLine` command whose timeout defaults to 2000 ms.
