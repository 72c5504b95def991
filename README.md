# PS/2 keyboard decoder: verified model of the neutral translator

A PS/2 keyboard sends the host a stream of bytes from scan code set 2. A key press is its
scan code byte. Some keys carry an `extend` (0xE0) prefix. A release puts `unmake` (0xF0)
before the code. Pause/Break is the one key with an `extend1` (0xE1) prefix, followed by two
payload bytes. The `NeutralTranslator` turns this stream into key codes, one byte at a time:

- a 16-bit `KeyCode` carries a key in its low byte;
- the high byte carries the shift, ctrl, alt and gui modifiers the translator tracks;
- a byte that completes no key press yields `PS2_NONE`.

The model has four modules:

- `KeyboardOutput` (`keyboard_output.dfy`) is the byte catalog. It holds:
  - the structural bytes (`NONE`, `UNMAKE`, `EXTEND`, `EXTEND1`);
  - the device replies (ACK, ECHO, NACK, GARBLED, the self-test results);
  - every scan code of the baseline (`SC2_*`) and extended (`SC2EX_*`) namespaces;
  - a membership predicate per group, and lemmas about how the numbering overlaps.
- `KeyCodes` (`key_codes.dfy`) holds the `KeyCode` values and the modifier bits. It also has
  the source's `|`, `&` and `~` operators on key codes, as the functions `Or`, `And` and
  `Complement`.
- `Translator` (`neutral_translator.dfy`) holds:
  - the three lookup tables;
  - the pure one-byte transition `Step` on a `DecoderState` value, and `Run`, which folds
    `Step` over a byte stream;
  - the class `NeutralTranslator`, whose fields are the four prefix flags and the modifier
    mask. Its `TranslatePs2Keycode` updates those fields in place and is proved to do exactly
    what `Step` does.
- `TranslatorProperties` (`translator_properties.dfy`) proves what the decoder promises:
  - for the tables: each maps different bytes to different keys, and no key is in both;
  - for one byte: prefixes are silent, a release reports nothing, a press reports its key
    with the held modifiers, BREAK comes only from the extended-1 path;
  - for any stream: well-formedness is kept, modifier keys are never reported, the mask
    changes only on modifier bytes;
  - for concrete sequences: a shifted letter, the Pause key, Print Screen's fake shift, and
    both shift keys sharing one bit.

## Model

| member | source | states |
|---|---|---|
| KeyboardOutput.StructuralCodesDistinct | src/ps2_KeyboardOutput.h:15-28 | none, unmake, extend and extend1 are four different bytes, so each prefix is recognised unambiguously |
| KeyboardOutput.KeyCodesAreNotStructural | src/ps2_KeyboardOutput.h:35-190 | no scan code of either namespace equals a structural byte; lang1/lang2 (0xF2/0xF1) sit next to unmake without colliding |
| KeyboardOutput.ExtendedReusesBaselineValues | src/ps2_KeyboardOutput.h:40-150 | right ctrl/alt, keypad enter and keypad slash reuse the numbers of left ctrl/alt, enter and slash, so only the namespace tells them apart |
| KeyboardOutput.AliasesShareValues | src/ps2_KeyboardOutput.h:16-155 | leftWindows/leftGui and rightWindows/rightGui are one byte each, and nack is the same byte as garbled |
| KeyboardOutput.Lang5SharesF24 | src/ps2_KeyboardOutput.h:137-147 | lang5 and f24 are both 0x5F |
| KeyboardOutput.ShiftOnlyInBaseline | src/ps2_KeyboardOutput.h:38-151 | both shift keys are baseline codes and neither is an extended code |
| KeyboardOutput.DeviceRepliesAreNotKeys | src/ps2_KeyboardOutput.h:16-28 | a device reply byte is neither a scan code of either namespace nor a structural byte |
| KeyCodes.ModifierBitsAreDistinctHighBits | src/ps2_NeutralTranslator.h:32-37 | shift, ctrl, alt and gui are pairwise disjoint bits, together 0x6A00, all inside the PS2_MODIFIERS byte |
| KeyCodes.OrSetsBits | src/ps2_NeutralTranslator.h:202 | or-ing `bit` into a mask sets all of `bit` and leaves every other bit unchanged |
| KeyCodes.AndComplementClearsBits | src/ps2_NeutralTranslator.h:203-204 | and-ing a mask with `~bit` clears all of `bit` and leaves every other bit unchanged |
| KeyCodes.OrIsIdempotent | src/ps2_NeutralTranslator.h:202 | or-ing the same bits into a mask twice gives the same mask as once, so pressing a held modifier again changes nothing |
| KeyCodes.SetThenClearRestores | src/ps2_NeutralTranslator.h:200-204 | setting a bit the mask did not hold and then clearing it gives the original mask back |
| Translator.TranslateModifier | src/ps2_NeutralTranslator.h:294-305 | non-NONE exactly for the six modifier bytes; the result is NONE or one of SHIFT/CTRL/ALT/GUI, so it holds only modifier bits |
| Translator.TranslateNonExtended | src/ps2_NeutralTranslator.h:307-425 | non-NONE exactly for the baseline scan codes; every key fits below LANG5, and BREAK and LANG5 are never produced |
| Translator.TranslateExtended | src/ps2_NeutralTranslator.h:427-472 | non-NONE exactly for the extended scan codes; every key fits below LANG5 and BREAK is never produced |
| Translator.Step | src/ps2_NeutralTranslator.h:219-283 | has no contract of its own: it is the one-byte semantics of `translatePs2Keycode` that `TranslatePs2Keycode` is proved equal to and that every lemma of `TranslatorProperties` is stated about. Its helpers are `ResetFlags` (`reset()`, :285-291), `UpdatedMask` (:253-258) and the operators `KeyCodes.Or`, `KeyCodes.And` and `KeyCodes.Complement` (:200-204) |
| Translator.Run | src/ps2_NeutralTranslator.h:219-283 | feeding a stream yields exactly one key code per byte |
| Translator.NeutralTranslator.constructor | src/ps2_NeutralTranslator.h:206-214 | the new translator holds the given prefix flags and an empty modifier mask |
| Translator.NeutralTranslator.TranslatePs2Keycode | src/ps2_NeutralTranslator.h:219-283 | the in-place update of the fields and the returned code are exactly the new state and code of `Step` on the old state |
| Translator.NeutralTranslator.Reset | src/ps2_NeutralTranslator.h:285-291 | clears the four prefix flags and keeps the modifier mask: the new state is `ResetFlags` of the old one |
| TranslatorProperties.ShiftBitMatchesShiftKeys | src/ps2_NeutralTranslator.h:297-298 | a byte sets SHIFT exactly when the baseline table names it left or right shift |
| TranslatorProperties.CtrlBitMatchesCtrlKeys | src/ps2_NeutralTranslator.h:299 | a byte sets CTRL exactly when it names left ctrl in the baseline table or right ctrl in the extended table |
| TranslatorProperties.AltBitMatchesAltKeys | src/ps2_NeutralTranslator.h:300 | a byte sets ALT exactly when it names left alt in the baseline table or right alt in the extended table |
| TranslatorProperties.GuiBitMatchesGuiKeys | src/ps2_NeutralTranslator.h:301-302 | a byte sets GUI exactly when the extended table names it left or right GUI |
| TranslatorProperties.NonExtendedRoundTrip | src/ps2_NeutralTranslator.h:307-425 | every baseline scan code is recovered from its key by the reverse table `NonExtendedCodeOf`: the baseline lookup loses nothing |
| TranslatorProperties.ExtendedRoundTrip | src/ps2_NeutralTranslator.h:427-472 | every extended scan code is recovered from its key by the reverse table `ExtendedCodeOf` |
| TranslatorProperties.BaselineKeysInBaselineStretches | src/ps2_NeutralTranslator.h:307-425 | every key the baseline table produces lies in the stretches of the key code enumeration listed by `IsBaselineKey` |
| TranslatorProperties.ExtendedKeysInExtendedStretches | src/ps2_NeutralTranslator.h:427-472 | every key the extended table produces lies in the stretches listed by `IsExtendedKey` |
| TranslatorProperties.StretchesDisjoint | src/ps2_NeutralTranslator.h:28-199 | no key code value lies both in a baseline stretch and in an extended stretch |
| TranslatorProperties.NonExtendedInjective | src/ps2_NeutralTranslator.h:307-425 | two baseline bytes that name a key name the same key only if they are the same byte |
| TranslatorProperties.ExtendedInjective | src/ps2_NeutralTranslator.h:427-472 | two extended bytes that name a key name the same key only if they are the same byte |
| TranslatorProperties.NamespacesDisjoint | src/ps2_NeutralTranslator.h:274-276 | no key is named by both tables, so for a byte used in both namespaces the extend prefix alone decides which key is meant |
| TranslatorProperties.SplitCombined | src/ps2_NeutralTranslator.h:274-279 | or-ing a key with a modifier mask loses nothing: the low byte gives back the key and the high byte the mask |
| TranslatorProperties.StructuralBytesAreSilent | src/ps2_NeutralTranslator.h:221-235 | structural bytes report nothing and keep the mask; none changes nothing, and each prefix sets only its own flag |
| TranslatorProperties.OtherBytesSettle | src/ps2_NeutralTranslator.h:237-282 | any other byte returns the decoder to idle, except the first extended-1 payload byte, which only records that it was seen |
| TranslatorProperties.Extended1PayloadKeepsMask | src/ps2_NeutralTranslator.h:237-249 | extended-1 payload bytes never change the mask and report only NONE or BREAK |
| TranslatorProperties.ModifierByteStep | src/ps2_NeutralTranslator.h:251-261 | a modifier byte outside extended-1 reports nothing, clears the prefixes and stores the updated mask |
| TranslatorProperties.PressSetsModifierBit | src/ps2_NeutralTranslator.h:256-258 | a modifier press sets its bit and leaves the other mask bits as they were |
| TranslatorProperties.ReleaseClearsModifierBit | src/ps2_NeutralTranslator.h:253-255 | a modifier release clears its bit and leaves the other mask bits as they were |
| TranslatorProperties.ReleaseIsSilent | src/ps2_NeutralTranslator.h:263-272 | a byte after unmake never reports a key |
| TranslatorProperties.PressReportsKeyWithModifiers | src/ps2_NeutralTranslator.h:274-282 | a pressed non-modifier key is reported if and only if the selected namespace names it; the report carries that key in the low byte and the held mask in the high byte |
| TranslatorProperties.BreakOnlyFromExtended1 | src/ps2_NeutralTranslator.h:237-249 | BREAK is reported if and only if the byte is the second payload byte of a pressed (not released) extended-1 sequence |
| TranslatorProperties.DeviceRepliesReportNothing | src/ps2_NeutralTranslator.h:274-282 | outside extended-1, a device reply is an unknown byte: it reports nothing and keeps the mask |
| TranslatorProperties.ResetFlagsIsIdempotent | src/ps2_NeutralTranslator.h:285-291 | reset leaves the decoder idle with the same mask, resetting twice is the same as resetting once, and a reset decoder whose mask holds only modifier bits is well-formed |
| TranslatorProperties.ReportedCodeSplits | src/ps2_NeutralTranslator.h:237-282 | whatever one byte reports holds a key no greater than LANG5 in its low part and only modifier bits in its high part |
| TranslatorProperties.StepPreservesWellFormed | src/ps2_NeutralTranslator.h:207-291 | from a state with a pure modifier mask and consistent extended-1 flags, every byte leads to such a state |
| TranslatorProperties.ModifierKeysNeverReported | src/ps2_NeutralTranslator.h:251-261 | no single byte makes the decoder report a shift, ctrl, alt or gui key code; these keys only change the mask |
| TranslatorProperties.RunAppendState | src/ps2_NeutralTranslator.h:219-283 | the state after a concatenated stream is the state after feeding the first part and then the second |
| TranslatorProperties.RunPreservesWellFormed | src/ps2_NeutralTranslator.h:207-291 | well-formedness holds after any byte stream |
| TranslatorProperties.MaskChangesOnlyOnModifierBytes | src/ps2_NeutralTranslator.h:251-261 | a stream with no modifier byte leaves the modifier mask unchanged |
| TranslatorProperties.RunNeverReportsModifierKeys | src/ps2_NeutralTranslator.h:237-282 | no position of any stream reports a modifier key, and every reported code splits into a key no greater than LANG5 and modifier bits |
| TranslatorProperties.ModifierPressRelease | src/ps2_NeutralTranslator.h:251-261 | pressing and releasing a modifier that was not held reports nothing and restores the decoder exactly |
| TranslatorProperties.PauseSecondHalfIsSilent | src/ps2_NeutralTranslator.h:237-249 | the second half of the Pause key's make sequence, E1 F0 14 F0 77, reports nothing and returns to the same idle state (the Pause key has no break code) |
| TranslatorProperties.PauseReportsOneBreak | src/ps2_NeutralTranslator.h:237-249 | the full eight-byte Pause sequence reports BREAK exactly once, at its third byte, and ends where it started |
| TranslatorProperties.ShiftedLetter | src/ps2_NeutralTranslator.h:251-282 | from any idle state, left shift then A reports A with the held modifiers plus SHIFT, and leaves shift added to the mask |
| TranslatorProperties.ShiftedLetterRelease | src/ps2_NeutralTranslator.h:251-272 | for any idle state whose mask lacked SHIFT, releasing A and then shift reports nothing and gives back exactly that state |
| TranslatorProperties.ExtendedPrefixSelectsNamespace | src/ps2_NeutralTranslator.h:274-276 | 0x5A alone is ENTER, while E0 0x5A is KP_ENTER, each combined with the held modifiers |
| TranslatorProperties.PrintScreenCarriesFakeShift | src/ps2_NeutralTranslator.h:251-282 | from any idle state without SHIFT, Print Screen's E0 12 E0 7C adds SHIFT and reports PRTSCR with the held modifiers plus SHIFT; its release sequence, with the fake shift release, restores the state |
| TranslatorProperties.StaleFirstByteFlagBreaksEarly | src/ps2_NeutralTranslator.h:207-214 | a decoder built with the payload flag set but the extended-1 flag clear, which the uninitialised bit-fields allow, reports BREAK after only E1 14 and then reads 0x77 as Num Lock |
| TranslatorProperties.ShiftKeysShareOneBit | src/ps2_NeutralTranslator.h:294-298 | both shift keys map to one bit, so from any idle state without SHIFT, pressing both and releasing right shift drops shift while left shift is held, and A is reported with only the other held modifiers |

## Left out

- The scan code set 3 entries (`sc3_*`) of the byte catalog: the translator never consults them.
- The bit-field packing of the four flags: each flag is a `bool` field.
- The enum casts behind the `KeyCode` operators: each operator is a plain function on 16-bit
  values.
- The bus layer, the host event loop and any mapping from key codes to characters are not part
  of this model. The translator only sees one byte at a time.
- The device replies (ACK, NACK, ECHO and the rest) are catalogued. The handshakes they belong
  to are not modelled. The translator treats them as unknown bytes, and so does the model.
- Translator.NeutralTranslator.constructor: the source leaves the four flags uninitialised.
  The model takes their initial values as parameters, and the mask starts empty. The stream
  lemmas assume a well-formed start, which a `Reset` provides. `StaleFirstByteFlagBreaksEarly`
  shows what a decoder that starts in a state that is not well-formed does.
- The source's long commentary on scan code sets carries no behaviour and is not modelled.
- Translator.Run: its own contract states only the one-code-per-byte length. What the reported
  codes mean is proved in the stream and sequence lemmas of `TranslatorProperties`. There is
  no generic lemma that splits the reported codes of a concatenated stream.
