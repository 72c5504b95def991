/** The Scan Code Set 2 decoder: one raw byte in, one `KeyCode` (or PS2_NONE) out.

    The byte-to-key lookups are pure functions.  One call of the decoder is specified by the
    pure function `Step` on a `DecoderState` value, and `Run` folds it over a byte stream; the
    class `NeutralTranslator` is the object the host holds, whose methods update its fields in
    place and are proved to agree with `Step`.
 */
module Translator {
  import opened KeyboardOutput
  import opened KeyCodes

  /** The scan codes `TranslateModifier` recognises: both shifts, left ctrl, left alt and the two
      GUI keys.  The extended right ctrl and right alt share their values with the left keys. */
  predicate IsModifierCode(b: Byte)
  {
    b == SC2_LEFT_SHIFT || b == SC2_RIGHT_SHIFT || b == SC2_LEFT_CTRL || b == SC2_LEFT_ALT ||
    b == SC2EX_LEFT_GUI || b == SC2EX_RIGHT_GUI
  }

  /** The modifier bit a byte stands for, whatever its namespace; PS2_NONE for any other byte. */
  function TranslateModifier(code: Byte): (modifier: KeyCode)
    ensures modifier != PS2_NONE <==> IsModifierCode(code)
    ensures modifier == PS2_NONE || modifier == PS2_SHIFT || modifier == PS2_CTRL ||
            modifier == PS2_ALT || modifier == PS2_GUI
    ensures HoldsOnlyModifierBits(modifier)
  {
    if code == SC2_LEFT_SHIFT then PS2_SHIFT
    else if code == SC2_RIGHT_SHIFT then PS2_SHIFT
    else if code == SC2_LEFT_CTRL then PS2_CTRL
    else if code == SC2_LEFT_ALT then PS2_ALT
    else if code == SC2EX_LEFT_GUI then PS2_GUI
    else if code == SC2EX_RIGHT_GUI then PS2_GUI
    else PS2_NONE
  }

  /** The key a byte names in the baseline namespace, PS2_NONE for a byte the catalog does not
      name there.  Every key fits in the low byte, and neither BREAK nor LANG5 is reachable. */
  function TranslateNonExtended(code: Byte): (key: KeyCode)
    ensures key != PS2_NONE <==> IsSc2Code(code)
    ensures key <= PS2_KEY_LANG5
    ensures key != PS2_KEY_BREAK && key != PS2_KEY_LANG5
  {
    if code == SC2_NUM_LOCK then PS2_KEY_NUM
    else if code == SC2_SCROLL_LOCK then PS2_KEY_SCROLL
    else if code == SC2_CAPS_LOCK then PS2_KEY_CAPS
    else if code == SC2_LEFT_SHIFT then PS2_KEY_L_SHIFT
    else if code == SC2_RIGHT_SHIFT then PS2_KEY_R_SHIFT
    else if code == SC2_LEFT_CTRL then PS2_KEY_L_CTRL
    else if code == SC2_LEFT_ALT then PS2_KEY_L_ALT
    else if code == SC2_SYS_REQUEST then PS2_KEY_SYSRQ
    else if code == SC2_ESC then PS2_KEY_ESC
    else if code == SC2_BACKSLASH then PS2_KEY_BACK
    else if code == SC2_TAB then PS2_KEY_TAB
    else if code == SC2_ENTER then PS2_KEY_ENTER
    else if code == SC2_SPACE then PS2_KEY_SPACE
    else if code == SC2_KEYPAD0 then PS2_KEY_KP0
    else if code == SC2_KEYPAD1 then PS2_KEY_KP1
    else if code == SC2_KEYPAD2 then PS2_KEY_KP2
    else if code == SC2_KEYPAD3 then PS2_KEY_KP3
    else if code == SC2_KEYPAD4 then PS2_KEY_KP4
    else if code == SC2_KEYPAD5 then PS2_KEY_KP5
    else if code == SC2_KEYPAD6 then PS2_KEY_KP6
    else if code == SC2_KEYPAD7 then PS2_KEY_KP7
    else if code == SC2_KEYPAD8 then PS2_KEY_KP8
    else if code == SC2_KEYPAD9 then PS2_KEY_KP9
    else if code == SC2_KEYPAD_PERIOD then PS2_KEY_KP_DOT
    else if code == SC2_KEYPAD_PLUS then PS2_KEY_KP_PLUS
    else if code == SC2_KEYPAD_DASH then PS2_KEY_KP_MINUS
    else if code == SC2_KEYPAD_ASTERISK then PS2_KEY_KP_TIMES
    else if code == SC2_KEYPAD_EQUALS then PS2_KEY_KP_EQUAL
    else if code == SC2_0 then PS2_KEY_0
    else if code == SC2_1 then PS2_KEY_1
    else if code == SC2_2 then PS2_KEY_2
    else if code == SC2_3 then PS2_KEY_3
    else if code == SC2_4 then PS2_KEY_4
    else if code == SC2_5 then PS2_KEY_5
    else if code == SC2_6 then PS2_KEY_6
    else if code == SC2_7 then PS2_KEY_7
    else if code == SC2_8 then PS2_KEY_8
    else if code == SC2_9 then PS2_KEY_9
    else if code == SC2_APOSTROPHE then PS2_KEY_APOS
    else if code == SC2_COMMA then PS2_KEY_COMMA
    else if code == SC2_DASH then PS2_KEY_MINUS
    else if code == SC2_PERIOD then PS2_KEY_DOT
    else if code == SC2_FORWARD_SLASH then PS2_KEY_DIV
    else if code == SC2_OPEN_QUOTE then PS2_KEY_SINGLE
    else if code == SC2_A then PS2_KEY_A
    else if code == SC2_B then PS2_KEY_B
    else if code == SC2_C then PS2_KEY_C
    else if code == SC2_D then PS2_KEY_D
    else if code == SC2_E then PS2_KEY_E
    else if code == SC2_F then PS2_KEY_F
    else if code == SC2_G then PS2_KEY_G
    else if code == SC2_H then PS2_KEY_H
    else if code == SC2_I then PS2_KEY_I
    else if code == SC2_J then PS2_KEY_J
    else if code == SC2_K then PS2_KEY_K
    else if code == SC2_L then PS2_KEY_L
    else if code == SC2_M then PS2_KEY_M
    else if code == SC2_N then PS2_KEY_N
    else if code == SC2_O then PS2_KEY_O
    else if code == SC2_P then PS2_KEY_P
    else if code == SC2_Q then PS2_KEY_Q
    else if code == SC2_R then PS2_KEY_R
    else if code == SC2_S then PS2_KEY_S
    else if code == SC2_T then PS2_KEY_T
    else if code == SC2_U then PS2_KEY_U
    else if code == SC2_V then PS2_KEY_V
    else if code == SC2_W then PS2_KEY_W
    else if code == SC2_X then PS2_KEY_X
    else if code == SC2_Y then PS2_KEY_Y
    else if code == SC2_Z then PS2_KEY_Z
    else if code == SC2_SEMICOLON then PS2_KEY_SEMI
    else if code == SC2_BACKSPACE then PS2_KEY_BS
    else if code == SC2_OPEN_SQUARE_BRACKET then PS2_KEY_OPEN_SQ
    else if code == SC2_CLOSE_SQUARE_BRACKET then PS2_KEY_CLOSE_SQ
    else if code == SC2_EQUAL then PS2_KEY_EQUAL
    else if code == SC2_EUROPE2 then PS2_KEY_EUROPE2
    else if code == SC2_F1 then PS2_KEY_F1
    else if code == SC2_F2 then PS2_KEY_F2
    else if code == SC2_F3 then PS2_KEY_F3
    else if code == SC2_F4 then PS2_KEY_F4
    else if code == SC2_F5 then PS2_KEY_F5
    else if code == SC2_F6 then PS2_KEY_F6
    else if code == SC2_F7 then PS2_KEY_F7
    else if code == SC2_F8 then PS2_KEY_F8
    else if code == SC2_F9 then PS2_KEY_F9
    else if code == SC2_F10 then PS2_KEY_F10
    else if code == SC2_F11 then PS2_KEY_F11
    else if code == SC2_F12 then PS2_KEY_F12
    else if code == SC2_F13 then PS2_KEY_F13
    else if code == SC2_F14 then PS2_KEY_F14
    else if code == SC2_F15 then PS2_KEY_F15
    else if code == SC2_F16 then PS2_KEY_F16
    else if code == SC2_F17 then PS2_KEY_F17
    else if code == SC2_F18 then PS2_KEY_F18
    else if code == SC2_F19 then PS2_KEY_F19
    else if code == SC2_F20 then PS2_KEY_F20
    else if code == SC2_F21 then PS2_KEY_F21
    else if code == SC2_F22 then PS2_KEY_F22
    else if code == SC2_F23 then PS2_KEY_F23
    else if code == SC2_F24 then PS2_KEY_F24
    else if code == SC2_KEYPAD_COMMA then PS2_KEY_KP_COMMA
    else if code == SC2_INTL1 then PS2_KEY_INTL1
    else if code == SC2_INTL2 then PS2_KEY_INTL2
    else if code == SC2_INTL3 then PS2_KEY_INTL3
    else if code == SC2_INTL4 then PS2_KEY_INTL4
    else if code == SC2_INTL5 then PS2_KEY_INTL5
    else if code == SC2_LANG1 then PS2_KEY_LANG1
    else if code == SC2_LANG2 then PS2_KEY_LANG2
    else if code == SC2_LANG3 then PS2_KEY_LANG3
    else if code == SC2_LANG4 then PS2_KEY_LANG4
    // SC2_LANG5 shares 0x5F with SC2_F24 and is not in the table
    else PS2_NONE
  }

  /** The key a byte names in the extended namespace, PS2_NONE for a byte the catalog does not
      name there.  There is no extended entry for BREAK. */
  function TranslateExtended(code: Byte): (key: KeyCode)
    ensures key != PS2_NONE <==> IsSc2ExCode(code)
    ensures key <= PS2_KEY_LANG5
    ensures key != PS2_KEY_BREAK
  {
    if code == SC2EX_PRINT_SCREEN then PS2_KEY_PRTSCR
    else if code == SC2EX_RIGHT_CTRL then PS2_KEY_R_CTRL
    else if code == SC2EX_RIGHT_ALT then PS2_KEY_R_ALT
    else if code == SC2EX_LEFT_GUI then PS2_KEY_L_GUI
    else if code == SC2EX_RIGHT_GUI then PS2_KEY_R_GUI
    else if code == SC2EX_MENU then PS2_KEY_MENU
    // No entry maps a byte to PS2_KEY_BREAK here; BREAK only comes from the extended-1 path
    else if code == SC2EX_HOME then PS2_KEY_HOME
    else if code == SC2EX_END then PS2_KEY_END
    else if code == SC2EX_PAGE_UP then PS2_KEY_PGUP
    else if code == SC2EX_PAGE_DOWN then PS2_KEY_PGDN
    else if code == SC2EX_LEFT_ARROW then PS2_KEY_L_ARROW
    else if code == SC2EX_RIGHT_ARROW then PS2_KEY_R_ARROW
    else if code == SC2EX_UP_ARROW then PS2_KEY_UP_ARROW
    else if code == SC2EX_DOWN_ARROW then PS2_KEY_DN_ARROW
    else if code == SC2EX_INSERT then PS2_KEY_INSERT
    else if code == SC2EX_DELETE then PS2_KEY_DELETE
    else if code == SC2EX_KEYPAD_ENTER then PS2_KEY_KP_ENTER
    else if code == SC2EX_KEYPAD_FORWARD_SLASH then PS2_KEY_KP_DIV
    else if code == SC2EX_NEXT_TRACK then PS2_KEY_NEXT_TR
    else if code == SC2EX_PREV_TRACK then PS2_KEY_PREV_TR
    else if code == SC2EX_STOP then PS2_KEY_STOP
    else if code == SC2EX_PLAY then PS2_KEY_PLAY
    else if code == SC2EX_MUTE then PS2_KEY_MUTE
    else if code == SC2EX_VOLUME_UP then PS2_KEY_VOL_UP
    else if code == SC2EX_VOLUME_DOWN then PS2_KEY_VOL_DN
    else if code == SC2EX_MEDIA_SELECT then PS2_KEY_MEDIA
    else if code == SC2EX_EMAIL then PS2_KEY_EMAIL
    else if code == SC2EX_CALCULATOR then PS2_KEY_CALC
    else if code == SC2EX_MY_COMPUTER then PS2_KEY_COMPUTER
    else if code == SC2EX_WEB_SEARCH then PS2_KEY_WEB_SEARCH
    else if code == SC2EX_WEB_HOME then PS2_KEY_WEB_HOME
    else if code == SC2EX_WEB_BACK then PS2_KEY_WEB_BACK
    else if code == SC2EX_WEB_FORWARD then PS2_KEY_WEB_FORWARD
    else if code == SC2EX_WEB_STOP then PS2_KEY_WEB_STOP
    else if code == SC2EX_WEB_REFRESH then PS2_KEY_WEB_REFRESH
    else if code == SC2EX_WEB_FAVORITES then PS2_KEY_WEB_FAVOR
    else if code == SC2EX_POWER then PS2_KEY_POWER
    else if code == SC2EX_SLEEP then PS2_KEY_SLEEP
    else if code == SC2EX_WAKE then PS2_KEY_WAKE
    else PS2_NONE
  }

  /** The decoder's fields: four transient prefix flags and the persistent modifier mask. */
  datatype DecoderState = DecoderState(
    isUnmake: bool,
    isExtended: bool,
    isExtended1: bool,
    haveGotExtended1FirstByte: bool,
    modifiers: KeyCode)
  {
    /** No prefix is pending. */
    predicate Idle()
    {
      !isUnmake && !isExtended && !isExtended1 && !haveGotExtended1FirstByte
    }
  }

  /** The state after `reset()`: every transient flag cleared, the modifier mask kept. */
  function ResetFlags(s: DecoderState): (t: DecoderState)
  {
    DecoderState(false, false, false, false, s.modifiers)
  }

  /** The mask after a modifier byte: `modifiers &= ~bit` on a release, `modifiers |= bit` on
      a press. */
  function UpdatedMask(s: DecoderState, bit: KeyCode): KeyCode
  {
    if s.isUnmake then And(s.modifiers, Complement(bit)) else Or(s.modifiers, bit)
  }

  /** One call of the decoder on `code` from state `s`: the new state and the code returned.
      The cases are tried in order and the first that applies decides. */
  function Step(s: DecoderState, code: Byte): (DecoderState, KeyCode)
  {
    if code == NONE then (s, PS2_NONE)
    else if code == UNMAKE then (s.(isUnmake := true), PS2_NONE)
    else if code == EXTEND then (s.(isExtended := true), PS2_NONE)
    else if code == EXTEND1 then (s.(isExtended1 := true), PS2_NONE)
    else if s.isExtended1 then
      // The payload bytes of the extended-1 sequence are not looked at.
      if !s.haveGotExtended1FirstByte then (s.(haveGotExtended1FirstByte := true), PS2_NONE)
      else (ResetFlags(s), if s.isUnmake then PS2_NONE else PS2_KEY_BREAK)
    else if TranslateModifier(code) != PS2_NONE then
      (ResetFlags(s).(modifiers := UpdatedMask(s, TranslateModifier(code))), PS2_NONE)
    else if s.isUnmake then (ResetFlags(s), PS2_NONE)
    else
      var key := if s.isExtended then TranslateExtended(code) else TranslateNonExtended(code);
      (ResetFlags(s), if key == PS2_NONE then PS2_NONE else Or(key, s.modifiers))
  }

  /** Feeding a byte stream one byte at a time: the final state and one code per byte. */
  function Run(s: DecoderState, codes: seq<Byte>): (r: (DecoderState, seq<KeyCode>))
    ensures |r.1| == |codes|
    decreases |codes|
  {
    if codes == [] then (s, [])
    else
      var first := Step(s, codes[0]);
      var rest := Run(first.0, codes[1..]);
      (rest.0, [first.1] + rest.1)
  }

  /** The invariant of every state reachable from a reset: the mask holds only modifier bits,
      and the extended-1 payload counter is only set inside an extended-1 sequence. */
  predicate WellFormed(s: DecoderState)
  {
    HoldsOnlyModifierBits(s.modifiers) && (s.haveGotExtended1FirstByte ==> s.isExtended1)
  }

  /** The decoder object the host feeds with bytes read from the keyboard. */
  class NeutralTranslator {
    var isUnmake: bool
    var isExtended: bool
    var isExtended1: bool
    var haveGotExtended1FirstByte: bool
    var modifiers: KeyCode

    /** The fields as a value. */
    ghost function State(): DecoderState
      reads this
    {
      DecoderState(isUnmake, isExtended, isExtended1, haveGotExtended1FirstByte, modifiers)
    }

    /** Only the modifier mask is initialised; the four flags start with whatever values the
        storage held, which the parameters stand for. */
    constructor (unmake: bool, extended: bool, extended1: bool, gotFirstByte: bool)
      ensures State() == DecoderState(unmake, extended, extended1, gotFirstByte, PS2_NONE)
      ensures HoldsOnlyModifierBits(modifiers)
    {
      isUnmake := unmake;
      isExtended := extended;
      isExtended1 := extended1;
      haveGotExtended1FirstByte := gotFirstByte;
      modifiers := PS2_NONE;
    }

    /** Consumes one byte read from the keyboard and returns the key it completes, with the held
        modifiers in its high byte, or PS2_NONE. */
    method TranslatePs2Keycode(code: Byte) returns (result: KeyCode)
      modifies this
      ensures (State(), result) == Step(old(State()), code)
    {
      result := PS2_NONE;
      if code == NONE {
        return PS2_NONE;
      }
      if code == UNMAKE {
        isUnmake := true;
        return PS2_NONE;
      }
      if code == EXTEND {
        isExtended := true;
        return PS2_NONE;
      }
      if code == EXTEND1 {
        isExtended1 := true;
        return PS2_NONE;
      }

      if isExtended1 {
        if !haveGotExtended1FirstByte {
          haveGotExtended1FirstByte := true;
          return PS2_NONE;
        }
        if !isUnmake {
          result := PS2_KEY_BREAK;
        }
        Reset();
        return result;
      }

      var modifier := TranslateModifier(code);
      if modifier != PS2_NONE {
        if isUnmake {
          modifiers := And(modifiers, Complement(modifier));
        } else {
          modifiers := Or(modifiers, modifier);
        }
        Reset();
        return PS2_NONE;
      }

      if isUnmake {
        if isExtended1 && !haveGotExtended1FirstByte {
          // Every extended-1 byte was consumed above, so this test is always false.
          assert false;
        } else {
          Reset();
        }
        return PS2_NONE;
      }

      var translatedCode := if isExtended then TranslateExtended(code) else TranslateNonExtended(code);
      if translatedCode != PS2_NONE {
        result := Or(translatedCode, modifiers);
      }
      Reset();
      return result;
    }

    /** Clears the four prefix flags; the modifier mask is never cleared by the decoder. */
    method Reset()
      modifies this
      ensures !isUnmake && !isExtended && !isExtended1 && !haveGotExtended1FirstByte
      ensures modifiers == old(modifiers)
      ensures State() == ResetFlags(old(State()))
    {
      isUnmake := false;
      isExtended := false;
      isExtended1 := false;
      haveGotExtended1FirstByte := false;
    }
  }
}
