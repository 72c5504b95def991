/** What the decoder promises its host, stated over `Step` (one byte) and `Run` (a stream).

    A reported code carries a key in its low byte and the held modifiers in its high byte; a
    host splits it again with `KeyOf` and `ModifiersOf`, the masks the `PS2_MODIFIERS`
    constant exists for.
 */
module TranslatorProperties {
  import opened KeyboardOutput
  import opened KeyCodes
  import opened Translator

  /** The key part of a reported code. */
  function KeyOf(r: KeyCode): KeyCode
  {
    And(r, Complement(PS2_MODIFIERS))
  }

  /** The modifier part of a reported code. */
  function ModifiersOf(r: KeyCode): KeyCode
  {
    And(r, PS2_MODIFIERS)
  }

  /** The key codes of the eight modifier keys themselves. */
  predicate IsModifierKey(k: KeyCode)
  {
    PS2_KEY_L_SHIFT <= k <= PS2_KEY_R_GUI
  }

  /** The key that `code` names in the namespace the pending prefix selects. */
  function KeyFor(s: DecoderState, code: Byte): KeyCode
  {
    if s.isExtended then TranslateExtended(code) else TranslateNonExtended(code)
  }

  // ---------------------------------------------------------------------------------------
  // The lookup tables

  /** The baseline scan code naming `key`, NONE for a key with no baseline code: the
      baseline table read backwards, grouped by key value sixteen at a time so that a lookup
      scans one group only. */
  function NonExtendedCodeOf(key: KeyCode): Byte
  {
    if key < 0x10 then
      if key == PS2_KEY_NUM then SC2_NUM_LOCK
      else if key == PS2_KEY_SCROLL then SC2_SCROLL_LOCK
      else if key == PS2_KEY_CAPS then SC2_CAPS_LOCK
      else if key == PS2_KEY_L_SHIFT then SC2_LEFT_SHIFT
      else if key == PS2_KEY_R_SHIFT then SC2_RIGHT_SHIFT
      else if key == PS2_KEY_L_CTRL then SC2_LEFT_CTRL
      else if key == PS2_KEY_L_ALT then SC2_LEFT_ALT
      else NONE
    else if key < 0x20 then
      if key == PS2_KEY_SYSRQ then SC2_SYS_REQUEST
      else if key == PS2_KEY_ESC then SC2_ESC
      else if key == PS2_KEY_BS then SC2_BACKSPACE
      else if key == PS2_KEY_TAB then SC2_TAB
      else if key == PS2_KEY_ENTER then SC2_ENTER
      else if key == PS2_KEY_SPACE then SC2_SPACE
      else NONE
    else if key < 0x30 then
      if key == PS2_KEY_KP0 then SC2_KEYPAD0
      else if key == PS2_KEY_KP1 then SC2_KEYPAD1
      else if key == PS2_KEY_KP2 then SC2_KEYPAD2
      else if key == PS2_KEY_KP3 then SC2_KEYPAD3
      else if key == PS2_KEY_KP4 then SC2_KEYPAD4
      else if key == PS2_KEY_KP5 then SC2_KEYPAD5
      else if key == PS2_KEY_KP6 then SC2_KEYPAD6
      else if key == PS2_KEY_KP7 then SC2_KEYPAD7
      else if key == PS2_KEY_KP8 then SC2_KEYPAD8
      else if key == PS2_KEY_KP9 then SC2_KEYPAD9
      else if key == PS2_KEY_KP_DOT then SC2_KEYPAD_PERIOD
      else if key == PS2_KEY_KP_PLUS then SC2_KEYPAD_PLUS
      else if key == PS2_KEY_KP_MINUS then SC2_KEYPAD_DASH
      else if key == PS2_KEY_KP_TIMES then SC2_KEYPAD_ASTERISK
      else NONE
    else if key < 0x40 then
      if key == PS2_KEY_0 then SC2_0
      else if key == PS2_KEY_1 then SC2_1
      else if key == PS2_KEY_2 then SC2_2
      else if key == PS2_KEY_3 then SC2_3
      else if key == PS2_KEY_4 then SC2_4
      else if key == PS2_KEY_5 then SC2_5
      else if key == PS2_KEY_6 then SC2_6
      else if key == PS2_KEY_7 then SC2_7
      else if key == PS2_KEY_8 then SC2_8
      else if key == PS2_KEY_9 then SC2_9
      else if key == PS2_KEY_APOS then SC2_APOSTROPHE
      else if key == PS2_KEY_COMMA then SC2_COMMA
      else if key == PS2_KEY_MINUS then SC2_DASH
      else if key == PS2_KEY_DOT then SC2_PERIOD
      else if key == PS2_KEY_DIV then SC2_FORWARD_SLASH
      else if key == PS2_KEY_KP_EQUAL then SC2_KEYPAD_EQUALS
      else NONE
    else if key < 0x50 then
      if key == PS2_KEY_SINGLE then SC2_OPEN_QUOTE
      else if key == PS2_KEY_A then SC2_A
      else if key == PS2_KEY_B then SC2_B
      else if key == PS2_KEY_C then SC2_C
      else if key == PS2_KEY_D then SC2_D
      else if key == PS2_KEY_E then SC2_E
      else if key == PS2_KEY_F then SC2_F
      else if key == PS2_KEY_G then SC2_G
      else if key == PS2_KEY_H then SC2_H
      else if key == PS2_KEY_I then SC2_I
      else if key == PS2_KEY_J then SC2_J
      else if key == PS2_KEY_K then SC2_K
      else if key == PS2_KEY_L then SC2_L
      else if key == PS2_KEY_M then SC2_M
      else if key == PS2_KEY_N then SC2_N
      else if key == PS2_KEY_O then SC2_O
      else NONE
    else if key < 0x60 then
      if key == PS2_KEY_P then SC2_P
      else if key == PS2_KEY_Q then SC2_Q
      else if key == PS2_KEY_R then SC2_R
      else if key == PS2_KEY_S then SC2_S
      else if key == PS2_KEY_T then SC2_T
      else if key == PS2_KEY_U then SC2_U
      else if key == PS2_KEY_V then SC2_V
      else if key == PS2_KEY_W then SC2_W
      else if key == PS2_KEY_X then SC2_X
      else if key == PS2_KEY_Y then SC2_Y
      else if key == PS2_KEY_Z then SC2_Z
      else if key == PS2_KEY_SEMI then SC2_SEMICOLON
      else if key == PS2_KEY_BACK then SC2_BACKSLASH
      else if key == PS2_KEY_OPEN_SQ then SC2_OPEN_SQUARE_BRACKET
      else if key == PS2_KEY_CLOSE_SQ then SC2_CLOSE_SQUARE_BRACKET
      else if key == PS2_KEY_EQUAL then SC2_EQUAL
      else NONE
    else if key < 0x70 then
      if key == PS2_KEY_KP_COMMA then SC2_KEYPAD_COMMA
      else if key == PS2_KEY_F1 then SC2_F1
      else if key == PS2_KEY_F2 then SC2_F2
      else if key == PS2_KEY_F3 then SC2_F3
      else if key == PS2_KEY_F4 then SC2_F4
      else if key == PS2_KEY_F5 then SC2_F5
      else if key == PS2_KEY_F6 then SC2_F6
      else if key == PS2_KEY_F7 then SC2_F7
      else if key == PS2_KEY_F8 then SC2_F8
      else if key == PS2_KEY_F9 then SC2_F9
      else if key == PS2_KEY_F10 then SC2_F10
      else if key == PS2_KEY_F11 then SC2_F11
      else if key == PS2_KEY_F12 then SC2_F12
      else if key == PS2_KEY_F13 then SC2_F13
      else if key == PS2_KEY_F14 then SC2_F14
      else if key == PS2_KEY_F15 then SC2_F15
      else NONE
    else if key < 0x80 then
      if key == PS2_KEY_F16 then SC2_F16
      else if key == PS2_KEY_F17 then SC2_F17
      else if key == PS2_KEY_F18 then SC2_F18
      else if key == PS2_KEY_F19 then SC2_F19
      else if key == PS2_KEY_F20 then SC2_F20
      else if key == PS2_KEY_F21 then SC2_F21
      else if key == PS2_KEY_F22 then SC2_F22
      else if key == PS2_KEY_F23 then SC2_F23
      else if key == PS2_KEY_F24 then SC2_F24
      else NONE
    else if key < 0x90 then
      if key == PS2_KEY_EUROPE2 then SC2_EUROPE2
      else NONE
    else
      if key == PS2_KEY_INTL1 then SC2_INTL1
      else if key == PS2_KEY_INTL2 then SC2_INTL2
      else if key == PS2_KEY_INTL3 then SC2_INTL3
      else if key == PS2_KEY_INTL4 then SC2_INTL4
      else if key == PS2_KEY_INTL5 then SC2_INTL5
      else if key == PS2_KEY_LANG1 then SC2_LANG1
      else if key == PS2_KEY_LANG2 then SC2_LANG2
      else if key == PS2_KEY_LANG3 then SC2_LANG3
      else if key == PS2_KEY_LANG4 then SC2_LANG4
      else NONE
  }

  /** The extended scan code naming `key`, NONE for a key with no extended code: the
      extended table read backwards. */
  function ExtendedCodeOf(key: KeyCode): Byte
  {
    if key == PS2_KEY_PRTSCR then SC2EX_PRINT_SCREEN
    else if key == PS2_KEY_R_CTRL then SC2EX_RIGHT_CTRL
    else if key == PS2_KEY_R_ALT then SC2EX_RIGHT_ALT
    else if key == PS2_KEY_L_GUI then SC2EX_LEFT_GUI
    else if key == PS2_KEY_R_GUI then SC2EX_RIGHT_GUI
    else if key == PS2_KEY_MENU then SC2EX_MENU
    else if key == PS2_KEY_HOME then SC2EX_HOME
    else if key == PS2_KEY_END then SC2EX_END
    else if key == PS2_KEY_PGUP then SC2EX_PAGE_UP
    else if key == PS2_KEY_PGDN then SC2EX_PAGE_DOWN
    else if key == PS2_KEY_L_ARROW then SC2EX_LEFT_ARROW
    else if key == PS2_KEY_R_ARROW then SC2EX_RIGHT_ARROW
    else if key == PS2_KEY_UP_ARROW then SC2EX_UP_ARROW
    else if key == PS2_KEY_DN_ARROW then SC2EX_DOWN_ARROW
    else if key == PS2_KEY_INSERT then SC2EX_INSERT
    else if key == PS2_KEY_DELETE then SC2EX_DELETE
    else if key == PS2_KEY_KP_ENTER then SC2EX_KEYPAD_ENTER
    else if key == PS2_KEY_KP_DIV then SC2EX_KEYPAD_FORWARD_SLASH
    else if key == PS2_KEY_NEXT_TR then SC2EX_NEXT_TRACK
    else if key == PS2_KEY_PREV_TR then SC2EX_PREV_TRACK
    else if key == PS2_KEY_STOP then SC2EX_STOP
    else if key == PS2_KEY_PLAY then SC2EX_PLAY
    else if key == PS2_KEY_MUTE then SC2EX_MUTE
    else if key == PS2_KEY_VOL_UP then SC2EX_VOLUME_UP
    else if key == PS2_KEY_VOL_DN then SC2EX_VOLUME_DOWN
    else if key == PS2_KEY_MEDIA then SC2EX_MEDIA_SELECT
    else if key == PS2_KEY_EMAIL then SC2EX_EMAIL
    else if key == PS2_KEY_CALC then SC2EX_CALCULATOR
    else if key == PS2_KEY_COMPUTER then SC2EX_MY_COMPUTER
    else if key == PS2_KEY_WEB_SEARCH then SC2EX_WEB_SEARCH
    else if key == PS2_KEY_WEB_HOME then SC2EX_WEB_HOME
    else if key == PS2_KEY_WEB_BACK then SC2EX_WEB_BACK
    else if key == PS2_KEY_WEB_FORWARD then SC2EX_WEB_FORWARD
    else if key == PS2_KEY_WEB_STOP then SC2EX_WEB_STOP
    else if key == PS2_KEY_WEB_REFRESH then SC2EX_WEB_REFRESH
    else if key == PS2_KEY_WEB_FAVOR then SC2EX_WEB_FAVORITES
    else if key == PS2_KEY_POWER then SC2EX_POWER
    else if key == PS2_KEY_SLEEP then SC2EX_SLEEP
    else if key == PS2_KEY_WAKE then SC2EX_WAKE
    else NONE
  }

  /** Reading a baseline key back gives the byte that named it. */
  lemma NonExtendedRoundTrip(a: Byte)
    requires IsSc2Code(a)
    ensures NonExtendedCodeOf(TranslateNonExtended(a)) == a
  {
  }

  /** Reading an extended key back gives the byte that named it. */
  lemma ExtendedRoundTrip(a: Byte)
    requires IsSc2ExCode(a)
    ensures ExtendedCodeOf(TranslateExtended(a)) == a
  {
  }

  /** The stretches of the key code enumeration that the extended table names. */
  predicate IsExtendedKey(k: KeyCode)
  {
    k == PS2_KEY_PRTSCR || k == PS2_KEY_R_CTRL || PS2_KEY_R_ALT <= k <= PS2_KEY_MENU ||
    PS2_KEY_HOME <= k <= PS2_KEY_DELETE || k == PS2_KEY_KP_ENTER || k == PS2_KEY_KP_DIV ||
    PS2_KEY_NEXT_TR <= k <= PS2_KEY_WEB_FAVOR || k == PS2_KEY_POWER || k == PS2_KEY_SLEEP ||
    k == PS2_KEY_WAKE
  }

  /** Every key of the extended table lies in those stretches. */
  lemma ExtendedKeysInExtendedStretches(a: Byte)
    requires IsSc2ExCode(a)
    ensures IsExtendedKey(TranslateExtended(a))
  {
  }

  /** The stretches of the key code enumeration that the baseline table names. */
  predicate IsBaselineKey(k: KeyCode)
  {
    PS2_KEY_NUM <= k <= PS2_KEY_CAPS || PS2_KEY_L_SHIFT <= k <= PS2_KEY_L_CTRL ||
    k == PS2_KEY_L_ALT || k == PS2_KEY_SYSRQ || PS2_KEY_ESC <= k <= PS2_KEY_KP_DOT ||
    PS2_KEY_KP_PLUS <= k <= PS2_KEY_KP_TIMES || PS2_KEY_0 <= k <= PS2_KEY_F24 ||
    k == PS2_KEY_EUROPE2 || PS2_KEY_INTL1 <= k <= PS2_KEY_LANG4
  }

  /** Every key of the baseline table lies in its stretches. */
  lemma BaselineKeysInBaselineStretches(b: Byte)
    requires IsSc2Code(b)
    ensures IsBaselineKey(TranslateNonExtended(b))
  {
  }

  /** The two namespaces' stretches do not overlap. */
  lemma StretchesDisjoint(k: KeyCode)
    ensures !(IsBaselineKey(k) && IsExtendedKey(k))
  {
  }

  /** Different baseline bytes name different keys. */
  lemma NonExtendedInjective(a: Byte, b: Byte)
    requires TranslateNonExtended(a) != PS2_NONE
    ensures TranslateNonExtended(a) == TranslateNonExtended(b) ==> a == b
  {
    NonExtendedRoundTrip(a);
    if TranslateNonExtended(a) == TranslateNonExtended(b) {
      NonExtendedRoundTrip(b);
    }
  }

  /** Different extended bytes name different keys. */
  lemma ExtendedInjective(a: Byte, b: Byte)
    requires TranslateExtended(a) != PS2_NONE
    ensures TranslateExtended(a) == TranslateExtended(b) ==> a == b
  {
    ExtendedRoundTrip(a);
    if TranslateExtended(a) == TranslateExtended(b) {
      ExtendedRoundTrip(b);
    }
  }

  /** No key is named in both namespaces: where a byte belongs to both, the prefix, not the
      value, decides which key is meant. */
  lemma NamespacesDisjoint(a: Byte, b: Byte)
    ensures TranslateExtended(a) != PS2_NONE ==> TranslateExtended(a) != TranslateNonExtended(b)
  {
    if TranslateExtended(a) != PS2_NONE && TranslateNonExtended(b) != PS2_NONE {
      ExtendedKeysInExtendedStretches(a);
      BaselineKeysInBaselineStretches(b);
      StretchesDisjoint(TranslateExtended(a));
    }
  }

  /** Each modifier byte sets the bit of the key the tables name for that byte. Both shift keys
      set SHIFT. */
  lemma ShiftBitMatchesShiftKeys(b: Byte)
    ensures TranslateModifier(b) == PS2_SHIFT <==>
      TranslateNonExtended(b) == PS2_KEY_L_SHIFT || TranslateNonExtended(b) == PS2_KEY_R_SHIFT
  {
    if IsSc2Code(b) {
      NonExtendedRoundTrip(b);
    }
  }

  /** Left and right ctrl set CTRL. */
  lemma CtrlBitMatchesCtrlKeys(b: Byte)
    ensures TranslateModifier(b) == PS2_CTRL <==>
      TranslateNonExtended(b) == PS2_KEY_L_CTRL || TranslateExtended(b) == PS2_KEY_R_CTRL
  {
    if IsSc2Code(b) {
      NonExtendedRoundTrip(b);
    }
    if IsSc2ExCode(b) {
      ExtendedRoundTrip(b);
    }
  }

  /** Left and right alt set ALT. */
  lemma AltBitMatchesAltKeys(b: Byte)
    ensures TranslateModifier(b) == PS2_ALT <==>
      TranslateNonExtended(b) == PS2_KEY_L_ALT || TranslateExtended(b) == PS2_KEY_R_ALT
  {
    if IsSc2Code(b) {
      NonExtendedRoundTrip(b);
    }
    if IsSc2ExCode(b) {
      ExtendedRoundTrip(b);
    }
  }

  /** Both GUI keys set GUI. */
  lemma GuiBitMatchesGuiKeys(b: Byte)
    ensures TranslateModifier(b) == PS2_GUI <==>
      TranslateExtended(b) == PS2_KEY_L_GUI || TranslateExtended(b) == PS2_KEY_R_GUI
  {
    if IsSc2Code(b) {
      NonExtendedRoundTrip(b);
    }
    if IsSc2ExCode(b) {
      ExtendedRoundTrip(b);
    }
  }

  // ---------------------------------------------------------------------------------------
  // Combining and splitting a reported code

  /** `Or` of a key and a modifier mask loses nothing: both halves come back out. */
  lemma SplitCombined(key: KeyCode, mask: KeyCode)
    requires key <= PS2_KEY_LANG5
    requires HoldsOnlyModifierBits(mask)
    ensures KeyOf(Or(key, mask)) == key
    ensures ModifiersOf(Or(key, mask)) == mask
  {
  }

  // ---------------------------------------------------------------------------------------
  // One byte

  /** The structural bytes never report a key and never touch the modifier mask; NONE leaves the
      state exactly as it was and the three prefixes set their own flag and nothing else. */
  lemma StructuralBytesAreSilent(s: DecoderState, code: Byte)
    requires IsStructural(code)
    ensures Step(s, code).1 == PS2_NONE
    ensures Step(s, code).0.modifiers == s.modifiers
    ensures Step(s, code).0.haveGotExtended1FirstByte == s.haveGotExtended1FirstByte
    ensures code == NONE ==> Step(s, code).0 == s
    ensures code == UNMAKE ==> Step(s, code).0 == s.(isUnmake := true)
    ensures code == EXTEND ==> Step(s, code).0 == s.(isExtended := true)
    ensures code == EXTEND1 ==> Step(s, code).0 == s.(isExtended1 := true)
  {
  }

  /** Any other byte ends the pending sequence, except the first payload byte after an
      extended-1 prefix, which only records that it was seen. */
  lemma OtherBytesSettle(s: DecoderState, code: Byte)
    requires !IsStructural(code)
    ensures var t := Step(s, code).0;
      if s.isExtended1 && !s.haveGotExtended1FirstByte
      then t == s.(haveGotExtended1FirstByte := true) && Step(s, code).1 == PS2_NONE
      else t.Idle()
  {
  }

  /** Inside an extended-1 sequence the payload bytes never touch the modifier mask and report
      nothing but BREAK. */
  lemma Extended1PayloadKeepsMask(s: DecoderState, code: Byte)
    requires s.isExtended1
    requires !IsStructural(code)
    ensures Step(s, code).0.modifiers == s.modifiers
    ensures Step(s, code).1 == PS2_NONE || Step(s, code).1 == PS2_KEY_BREAK
  {
  }

  /** A modifier byte outside an extended-1 sequence reports nothing, ends the sequence and
      leaves `UpdatedMask` as the new mask. */
  lemma ModifierByteStep(s: DecoderState, code: Byte)
    requires !s.isExtended1
    requires IsModifierCode(code)
    ensures Step(s, code).1 == PS2_NONE
    ensures Step(s, code).0.Idle()
    ensures Step(s, code).0.modifiers == UpdatedMask(s, TranslateModifier(code))
  {
  }

  /** On a press the updated mask has the modifier's bits set and every other bit as it was. */
  lemma PressSetsModifierBit(s: DecoderState, bit: KeyCode)
    requires !s.isUnmake
    ensures UpdatedMask(s, bit) & bit == bit
    ensures UpdatedMask(s, bit) & !bit == s.modifiers & !bit
  {
    OrSetsBits(s.modifiers, bit);
  }

  /** On a release the updated mask has the modifier's bits cleared and every other bit as it
      was. */
  lemma ReleaseClearsModifierBit(s: DecoderState, bit: KeyCode)
    requires s.isUnmake
    ensures UpdatedMask(s, bit) & bit == 0
    ensures UpdatedMask(s, bit) & !bit == s.modifiers & !bit
  {
    AndComplementClearsBits(s.modifiers, bit);
  }

  /** A released key is never reported. */
  lemma ReleaseIsSilent(s: DecoderState, code: Byte)
    requires s.isUnmake
    requires !IsStructural(code)
    ensures Step(s, code).1 == PS2_NONE
  {
  }

  /** A pressed non-modifier key is reported exactly when the selected namespace names it, with
      that key in the low byte and the held modifiers in the high byte. */
  lemma PressReportsKeyWithModifiers(s: DecoderState, code: Byte)
    requires HoldsOnlyModifierBits(s.modifiers)
    requires !s.isUnmake && !s.isExtended1
    requires !IsStructural(code) && !IsModifierCode(code)
    ensures var r := Step(s, code).1;
      && (r != PS2_NONE <==> if s.isExtended then IsSc2ExCode(code) else IsSc2Code(code))
      && (r != PS2_NONE ==> KeyOf(r) == KeyFor(s, code) && ModifiersOf(r) == s.modifiers)
  {
    var key := KeyFor(s, code);
    if key != PS2_NONE {
      SplitCombined(key, s.modifiers);
    }
  }

  /** BREAK is reported exactly for the second payload byte of a pressed extended-1 sequence. */
  lemma BreakOnlyFromExtended1(s: DecoderState, code: Byte)
    requires HoldsOnlyModifierBits(s.modifiers)
    ensures Step(s, code).1 == PS2_KEY_BREAK <==>
      !IsStructural(code) && s.isExtended1 && s.haveGotExtended1FirstByte && !s.isUnmake
  {
    if !IsStructural(code) && !s.isExtended1 && !IsModifierCode(code) && !s.isUnmake {
      PressReportsKeyWithModifiers(s, code);
    }
  }

  /** A device reply (ACK, ECHO, the self-test results, NACK) outside an extended-1 sequence is
      an unknown byte: it reports nothing and leaves the mask alone. */
  lemma DeviceRepliesReportNothing(s: DecoderState, b: Byte)
    requires IsDeviceReply(b)
    requires !s.isExtended1
    ensures Step(s, b).1 == PS2_NONE
    ensures Step(s, b).0.modifiers == s.modifiers
  {
    DeviceRepliesAreNotKeys(b);
  }

  /** Resetting clears every prefix flag, keeps the mask, and resetting again changes nothing. */
  lemma ResetFlagsIsIdempotent(s: DecoderState)
    ensures ResetFlags(s).Idle()
    ensures ResetFlags(s).modifiers == s.modifiers
    ensures ResetFlags(ResetFlags(s)) == ResetFlags(s)
    ensures HoldsOnlyModifierBits(s.modifiers) ==> WellFormed(ResetFlags(s))
  {
  }

  /** Every reported code is a key of the lookup tables (or BREAK) in the low byte and
      modifier bits in the high byte, so a host can always split it. */
  lemma ReportedCodeSplits(s: DecoderState, code: Byte)
    requires HoldsOnlyModifierBits(s.modifiers)
    ensures KeyOf(Step(s, code).1) <= PS2_KEY_LANG5
    ensures HoldsOnlyModifierBits(ModifiersOf(Step(s, code).1))
  {
    var r := Step(s, code).1;
    if r != PS2_NONE && r != PS2_KEY_BREAK {
      PressReportsKeyWithModifiers(s, code);
    }
  }

  /** Every state reachable from a well-formed one is well-formed. */
  lemma StepPreservesWellFormed(s: DecoderState, code: Byte)
    requires WellFormed(s)
    ensures WellFormed(Step(s, code).0)
  {
  }

  /** The modifier keys are folded into the mask, so their own key codes are never reported:
      the extended right ctrl and right alt share their bytes with the left keys. */
  lemma ModifierKeysNeverReported(s: DecoderState, code: Byte)
    requires HoldsOnlyModifierBits(s.modifiers)
    ensures !IsModifierKey(KeyOf(Step(s, code).1))
  {
    var r := Step(s, code).1;
    if r != PS2_NONE && r != PS2_KEY_BREAK {
      PressReportsKeyWithModifiers(s, code);
    }
  }

  // ---------------------------------------------------------------------------------------
  // Byte streams

  /** A non-empty stream is its first byte followed by the rest. */
  lemma RunFirst(s: DecoderState, codes: seq<Byte>)
    requires codes != []
    ensures Run(s, codes).0 == Run(Step(s, codes[0]).0, codes[1..]).0
    ensures Run(s, codes).1 == [Step(s, codes[0]).1] + Run(Step(s, codes[0]).0, codes[1..]).1
  {
  }

  /** Feeding two streams one after the other ends in the state feeding their concatenation
      ends in. */
  lemma {:induction false} RunAppendState(s: DecoderState, a: seq<Byte>, b: seq<Byte>)
    ensures Run(s, a + b).0 == Run(Run(s, a).0, b).0
    decreases |a|
  {
    if a == [] {
      assert a + b == b;
    } else {
      assert (a + b)[0] == a[0];
      assert (a + b)[1..] == a[1..] + b;
      RunAppendState(Step(s, a[0]).0, a[1..], b);
    }
  }

  /** Well-formedness holds after any stream. */
  lemma {:induction false} RunPreservesWellFormed(s: DecoderState, codes: seq<Byte>)
    requires WellFormed(s)
    ensures WellFormed(Run(s, codes).0)
    decreases |codes|
  {
    if codes != [] {
      StepPreservesWellFormed(s, codes[0]);
      RunPreservesWellFormed(Step(s, codes[0]).0, codes[1..]);
    }
  }

  /** The modifier mask only changes on a modifier byte. */
  lemma {:induction false} MaskChangesOnlyOnModifierBytes(s: DecoderState, codes: seq<Byte>)
    requires forall i :: 0 <= i < |codes| ==> !IsModifierCode(codes[i])
    ensures Run(s, codes).0.modifiers == s.modifiers
    decreases |codes|
  {
    if codes != [] {
      MaskChangesOnlyOnModifierBytes(Step(s, codes[0]).0, codes[1..]);
    }
  }

  /** No stream makes the decoder report a modifier key, and every code it reports holds only
      a key and modifier bits. */
  lemma {:induction false} RunNeverReportsModifierKeys(s: DecoderState, codes: seq<Byte>)
    requires WellFormed(s)
    ensures forall i :: 0 <= i < |codes| ==> !IsModifierKey(KeyOf(Run(s, codes).1[i]))
    ensures forall i :: 0 <= i < |codes| ==>
      KeyOf(Run(s, codes).1[i]) <= PS2_KEY_LANG5 &&
      HoldsOnlyModifierBits(ModifiersOf(Run(s, codes).1[i]))
    decreases |codes|
  {
    if codes != [] {
      ModifierKeysNeverReported(s, codes[0]);
      ReportedCodeSplits(s, codes[0]);
      StepPreservesWellFormed(s, codes[0]);
      RunNeverReportsModifierKeys(Step(s, codes[0]).0, codes[1..]);
    }
  }

  // ---------------------------------------------------------------------------------------
  // Whole key sequences

  /** Pressing and releasing a modifier that was not held brings the decoder back to where it
      was, reporting nothing. */
  lemma ModifierPressRelease(s: DecoderState, code: Byte)
    requires s.Idle()
    requires IsModifierCode(code)
    requires And(s.modifiers, TranslateModifier(code)) == PS2_NONE
    ensures Run(s, [code, UNMAKE, code]).0 == s
    ensures Run(s, [code, UNMAKE, code]).1 == [PS2_NONE, PS2_NONE, PS2_NONE]
  {
    var bit := TranslateModifier(code);
    var held := s.(modifiers := UpdatedMask(s, bit));
    var releasing := held.(isUnmake := true);
    ModifierByteStep(s, code);
    ModifierByteStep(releasing, code);
    SetThenClearRestores(s.modifiers, bit);
    assert Run(releasing, [code]).0 == s;
    assert Run(releasing, [code]).1 == [PS2_NONE];
    assert Run(held, [UNMAKE, code]).0 == s;
    assert Run(held, [UNMAKE, code]).1 == [PS2_NONE, PS2_NONE];
  }

  /** The second half of the Pause key's make sequence (E1 F0 14 F0 77) reports nothing: the
      Pause key has no break code of its own. */
  lemma PauseSecondHalfIsSilent(s: DecoderState)
    requires s.Idle()
    ensures Run(s, [EXTEND1, UNMAKE, 0x14, UNMAKE, 0x77]).0 == s
    ensures Run(s, [EXTEND1, UNMAKE, 0x14, UNMAKE, 0x77]).1 ==
      [PS2_NONE, PS2_NONE, PS2_NONE, PS2_NONE, PS2_NONE]
  {
    var releasing := s.(isExtended1 := true, isUnmake := true);
    var releasingPayload := releasing.(haveGotExtended1FirstByte := true);
    assert Run(releasingPayload, [0x77]).0 == s;
    assert Run(releasingPayload, [0x77]).1 == [PS2_NONE];
    assert Run(releasingPayload, [UNMAKE, 0x77]).0 == s;
    assert Run(releasingPayload, [UNMAKE, 0x77]).1 == [PS2_NONE, PS2_NONE];
    assert Run(releasing, [0x14, UNMAKE, 0x77]).0 == s;
    assert Run(releasing, [0x14, UNMAKE, 0x77]).1 == [PS2_NONE, PS2_NONE, PS2_NONE];
    assert Run(s.(isExtended1 := true), [UNMAKE, 0x14, UNMAKE, 0x77]).0 == s;
    assert Run(s.(isExtended1 := true), [UNMAKE, 0x14, UNMAKE, 0x77]).1 ==
      [PS2_NONE, PS2_NONE, PS2_NONE, PS2_NONE];
  }

  /** The whole Pause key (E1 14 77 E1 F0 14 F0 77) reports BREAK exactly once and leaves the
      decoder as it found it. */
  lemma PauseReportsOneBreak(s: DecoderState)
    requires s.Idle()
    ensures Run(s, [EXTEND1, 0x14, 0x77, EXTEND1, UNMAKE, 0x14, UNMAKE, 0x77]).0 == s
    ensures Run(s, [EXTEND1, 0x14, 0x77, EXTEND1, UNMAKE, 0x14, UNMAKE, 0x77]).1 ==
      [PS2_NONE, PS2_NONE, PS2_KEY_BREAK, PS2_NONE, PS2_NONE, PS2_NONE, PS2_NONE, PS2_NONE]
  {
    var codes := [EXTEND1, 0x14, 0x77, EXTEND1, UNMAKE, 0x14, UNMAKE, 0x77];
    var pending := s.(isExtended1 := true);
    var payload := pending.(haveGotExtended1FirstByte := true);
    PauseSecondHalfIsSilent(s);
    assert codes[3..] == [EXTEND1, UNMAKE, 0x14, UNMAKE, 0x77];
    RunFirst(payload, codes[2..]);
    RunFirst(pending, codes[1..]);
    RunFirst(s, codes);
  }

  /** Shift then A reports a shifted A. */
  lemma ShiftedLetter(s: DecoderState)
    requires s.Idle()
    ensures Run(s, [SC2_LEFT_SHIFT, SC2_A]).0 == s.(modifiers := Or(s.modifiers, PS2_SHIFT))
    ensures Run(s, [SC2_LEFT_SHIFT, SC2_A]).1 ==
      [PS2_NONE, Or(PS2_KEY_A, Or(s.modifiers, PS2_SHIFT))]
  {
    var shifted := s.(modifiers := Or(s.modifiers, PS2_SHIFT));
    assert Run(shifted, [SC2_A]).0 == shifted;
    assert Run(shifted, [SC2_A]).1 == [Or(PS2_KEY_A, Or(s.modifiers, PS2_SHIFT))];
  }

  /** Releasing A and then shift reports nothing and gives back the mask held before shift. */
  lemma ShiftedLetterRelease(s: DecoderState)
    requires s.Idle() && And(s.modifiers, PS2_SHIFT) == PS2_NONE
    ensures Run(s.(modifiers := Or(s.modifiers, PS2_SHIFT)),
                [UNMAKE, SC2_A, UNMAKE, SC2_LEFT_SHIFT]).0 == s
    ensures Run(s.(modifiers := Or(s.modifiers, PS2_SHIFT)),
                [UNMAKE, SC2_A, UNMAKE, SC2_LEFT_SHIFT]).1 ==
      [PS2_NONE, PS2_NONE, PS2_NONE, PS2_NONE]
  {
    SetThenClearRestores(s.modifiers, PS2_SHIFT);
    var shifted := s.(modifiers := Or(s.modifiers, PS2_SHIFT));
    var release := shifted.(isUnmake := true);
    assert Run(release, [SC2_LEFT_SHIFT]).0 == s;
    assert Run(release, [SC2_LEFT_SHIFT]).1 == [PS2_NONE];
    assert Run(shifted, [UNMAKE, SC2_LEFT_SHIFT]).0 == s;
    assert Run(shifted, [UNMAKE, SC2_LEFT_SHIFT]).1 == [PS2_NONE, PS2_NONE];
    assert Run(release, [SC2_A, UNMAKE, SC2_LEFT_SHIFT]).0 == s;
    assert Run(release, [SC2_A, UNMAKE, SC2_LEFT_SHIFT]).1 == [PS2_NONE, PS2_NONE, PS2_NONE];
  }

  /** The same byte names Enter on its own and keypad Enter after the extended prefix. */
  lemma ExtendedPrefixSelectsNamespace(s: DecoderState)
    requires s.Idle()
    ensures Run(s, [SC2_ENTER]).0 == s
    ensures Run(s, [SC2_ENTER]).1 == [Or(PS2_KEY_ENTER, s.modifiers)]
    ensures Run(s, [EXTEND, SC2EX_KEYPAD_ENTER]).0 == s
    ensures Run(s, [EXTEND, SC2EX_KEYPAD_ENTER]).1 == [PS2_NONE, Or(PS2_KEY_KP_ENTER, s.modifiers)]
  {
    assert Run(s.(isExtended := true), [SC2EX_KEYPAD_ENTER]).0 == s;
    assert Run(s.(isExtended := true), [SC2EX_KEYPAD_ENTER]).1 == [Or(PS2_KEY_KP_ENTER, s.modifiers)];
  }

  /** Print Screen (E0 12 E0 7C) starts with a fake left-shift press, so it is reported with
      the shift bit set; its release (E0 F0 7C E0 F0 12) clears the bit again. */
  lemma PrintScreenCarriesFakeShift(s: DecoderState)
    requires s.Idle() && And(s.modifiers, PS2_SHIFT) == PS2_NONE
    ensures Run(s, [EXTEND, SC2_LEFT_SHIFT, EXTEND, SC2EX_PRINT_SCREEN]).0 ==
      s.(modifiers := Or(s.modifiers, PS2_SHIFT))
    ensures Run(s, [EXTEND, SC2_LEFT_SHIFT, EXTEND, SC2EX_PRINT_SCREEN]).1 ==
      [PS2_NONE, PS2_NONE, PS2_NONE, Or(PS2_KEY_PRTSCR, Or(s.modifiers, PS2_SHIFT))]
    ensures Run(s.(modifiers := Or(s.modifiers, PS2_SHIFT)),
                [EXTEND, UNMAKE, SC2EX_PRINT_SCREEN, EXTEND, UNMAKE, SC2_LEFT_SHIFT]).0 == s
  {
    var shifted := s.(modifiers := Or(s.modifiers, PS2_SHIFT));
    var report := Or(PS2_KEY_PRTSCR, Or(s.modifiers, PS2_SHIFT));
    assert Run(shifted.(isExtended := true), [SC2EX_PRINT_SCREEN]).0 == shifted;
    assert Run(shifted.(isExtended := true), [SC2EX_PRINT_SCREEN]).1 == [report];
    assert Run(shifted, [EXTEND, SC2EX_PRINT_SCREEN]).0 == shifted;
    assert Run(shifted, [EXTEND, SC2EX_PRINT_SCREEN]).1 == [PS2_NONE, report];
    assert Run(s.(isExtended := true), [SC2_LEFT_SHIFT, EXTEND, SC2EX_PRINT_SCREEN]).0 == shifted;
    assert Run(s.(isExtended := true), [SC2_LEFT_SHIFT, EXTEND, SC2EX_PRINT_SCREEN]).1 ==
      [PS2_NONE, PS2_NONE, report];
    SetThenClearRestores(s.modifiers, PS2_SHIFT);
    var release := shifted.(isExtended := true, isUnmake := true);
    assert Run(release, [SC2_LEFT_SHIFT]).0 == s;
    assert Run(shifted.(isExtended := true), [UNMAKE, SC2_LEFT_SHIFT]).0 == s;
    assert Run(shifted, [EXTEND, UNMAKE, SC2_LEFT_SHIFT]).0 == s;
    assert Run(release, [SC2EX_PRINT_SCREEN, EXTEND, UNMAKE, SC2_LEFT_SHIFT]).0 == s;
    assert Run(shifted.(isExtended := true),
               [UNMAKE, SC2EX_PRINT_SCREEN, EXTEND, UNMAKE, SC2_LEFT_SHIFT]).0 == s;
  }

  /** Both shift keys share one bit: releasing the right shift while the left one is still held
      clears it, and a following letter is reported with only the other held modifiers. */
  lemma ShiftKeysShareOneBit(s: DecoderState)
    requires s.Idle() && And(s.modifiers, PS2_SHIFT) == PS2_NONE
    ensures Run(s, [SC2_LEFT_SHIFT, SC2_RIGHT_SHIFT, UNMAKE, SC2_RIGHT_SHIFT, SC2_A]).0 == s
    ensures Run(s, [SC2_LEFT_SHIFT, SC2_RIGHT_SHIFT, UNMAKE, SC2_RIGHT_SHIFT, SC2_A]).1 ==
      [PS2_NONE, PS2_NONE, PS2_NONE, PS2_NONE, Or(PS2_KEY_A, s.modifiers)]
  {
    var shifted := s.(modifiers := Or(s.modifiers, PS2_SHIFT));
    var report := Or(PS2_KEY_A, s.modifiers);
    SetThenClearRestores(s.modifiers, PS2_SHIFT);
    OrIsIdempotent(s.modifiers, PS2_SHIFT);
    assert Run(s, [SC2_A]).0 == s;
    assert Run(s, [SC2_A]).1 == [report];
    assert Run(shifted.(isUnmake := true), [SC2_RIGHT_SHIFT, SC2_A]).0 == s;
    assert Run(shifted.(isUnmake := true), [SC2_RIGHT_SHIFT, SC2_A]).1 == [PS2_NONE, report];
    assert Run(shifted, [UNMAKE, SC2_RIGHT_SHIFT, SC2_A]).0 == s;
    assert Run(shifted, [UNMAKE, SC2_RIGHT_SHIFT, SC2_A]).1 == [PS2_NONE, PS2_NONE, report];
    assert Run(shifted, [SC2_RIGHT_SHIFT, UNMAKE, SC2_RIGHT_SHIFT, SC2_A]).0 == s;
    assert Run(shifted, [SC2_RIGHT_SHIFT, UNMAKE, SC2_RIGHT_SHIFT, SC2_A]).1 ==
      [PS2_NONE, PS2_NONE, PS2_NONE, report];
  }

  /** A decoder whose extended-1 payload flag is set outside an extended-1 sequence, which the
      constructor allows because it takes the flags as given, reports BREAK after only E1 14
      and then reads the Pause key's last byte 0x77 as Num Lock. A reset object, being
      well-formed, reports BREAK only on the third byte (`PauseReportsOneBreak`). */
  lemma StaleFirstByteFlagBreaksEarly()
    ensures Run(DecoderState(false, false, false, true, PS2_NONE), [EXTEND1, 0x14, 0x77]).1 ==
      [PS2_NONE, PS2_KEY_BREAK, PS2_KEY_NUM]
  {
    var stale := DecoderState(false, false, false, true, PS2_NONE);
    var idle := stale.(haveGotExtended1FirstByte := false);
    assert Run(idle, [0x77]).1 == [PS2_KEY_NUM];
    assert Run(stale.(isExtended1 := true), [0x14, 0x77]).1 == [PS2_KEY_BREAK, PS2_KEY_NUM];
  }
}
