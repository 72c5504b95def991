/** Raw bytes a PS/2 keyboard sends to the host (Scan Code Set 2).

    Every byte is a `Byte`, an unsigned 8-bit value; the decoder only compares bytes.  The
    catalog is not a datatype: several names share one value (`GARBLED` and `NACK`,
    `SC2_LEFT_CTRL` and `SC2EX_RIGHT_CTRL`, ...), because the baseline namespace (`SC2_`) and
    the extended namespace (`SC2EX_`, reached only after the `EXTEND` prefix byte) reuse numbers
    for different keys.  Which key a byte means depends on the namespace it is read in, so each
    namespace has its own membership predicate below.
 */
module KeyboardOutput {
  /** An unsigned 8-bit value as received from the keyboard. */
  newtype Byte = x: int | 0 <= x < 0x100

  // Control bytes and device replies.
  const NONE: Byte := 0x00
  const GARBLED: Byte := 0xFE
  const BAT_SUCCESSFUL: Byte := 0xAA
  const BAT_FAILURE: Byte := 0xFC
  const ACK: Byte := 0xFA
  const ECHO: Byte := 0xEE
  const NACK: Byte := 0xFE
  const UNMAKE: Byte := 0xF0
  const EXTEND: Byte := 0xE0
  const EXTEND1: Byte := 0xE1

  // Baseline Scan Code Set 2 keys, and the extended keys that follow an EXTEND byte.
  const SC2_NUM_LOCK: Byte := 0x77
  const SC2_SCROLL_LOCK: Byte := 0x7E
  const SC2_CAPS_LOCK: Byte := 0x58
  const SC2_LEFT_SHIFT: Byte := 0x12
  const SC2_RIGHT_SHIFT: Byte := 0x59
  const SC2_LEFT_CTRL: Byte := 0x14
  const SC2_LEFT_ALT: Byte := 0x11
  const SC2_SYS_REQUEST: Byte := 0x84
  const SC2_ESC: Byte := 0x76
  const SC2_BACKSPACE: Byte := 0x66
  const SC2_TAB: Byte := 0x0D
  const SC2_ENTER: Byte := 0x5A
  const SC2_SPACE: Byte := 0x29
  const SC2_KEYPAD0: Byte := 0x70
  const SC2_KEYPAD1: Byte := 0x69
  const SC2_KEYPAD2: Byte := 0x72
  const SC2_KEYPAD3: Byte := 0x7A
  const SC2_KEYPAD4: Byte := 0x6B
  const SC2_KEYPAD5: Byte := 0x73
  const SC2_KEYPAD6: Byte := 0x74
  const SC2_KEYPAD7: Byte := 0x6C
  const SC2_KEYPAD8: Byte := 0x75
  const SC2_KEYPAD9: Byte := 0x7D
  const SC2_KEYPAD_PERIOD: Byte := 0x71
  const SC2_KEYPAD_PLUS: Byte := 0x79
  const SC2_KEYPAD_DASH: Byte := 0x7B
  const SC2_KEYPAD_ASTERISK: Byte := 0x7C
  const SC2EX_KEYPAD_ENTER: Byte := 0x5A
  const SC2_KEYPAD_EQUALS: Byte := 0x0F
  const SC2_KEYPAD_COMMA: Byte := 0x6D
  const SC2EX_KEYPAD_FORWARD_SLASH: Byte := 0x4A
  const SC2_0: Byte := 0x45
  const SC2_1: Byte := 0x16
  const SC2_2: Byte := 0x1E
  const SC2_3: Byte := 0x26
  const SC2_4: Byte := 0x25
  const SC2_5: Byte := 0x2E
  const SC2_6: Byte := 0x36
  const SC2_7: Byte := 0x3D
  const SC2_8: Byte := 0x3E
  const SC2_9: Byte := 0x46
  const SC2_APOSTROPHE: Byte := 0x52
  const SC2_COMMA: Byte := 0x41
  const SC2_DASH: Byte := 0x4E
  const SC2_PERIOD: Byte := 0x49
  const SC2_FORWARD_SLASH: Byte := 0x4A
  const SC2_OPEN_QUOTE: Byte := 0x0E
  const SC2_A: Byte := 0x1C
  const SC2_B: Byte := 0x32
  const SC2_C: Byte := 0x21
  const SC2_D: Byte := 0x23
  const SC2_E: Byte := 0x24
  const SC2_F: Byte := 0x2B
  const SC2_G: Byte := 0x34
  const SC2_H: Byte := 0x33
  const SC2_I: Byte := 0x43
  const SC2_J: Byte := 0x3B
  const SC2_K: Byte := 0x42
  const SC2_L: Byte := 0x4B
  const SC2_M: Byte := 0x3A
  const SC2_N: Byte := 0x31
  const SC2_O: Byte := 0x44
  const SC2_P: Byte := 0x4D
  const SC2_Q: Byte := 0x15
  const SC2_R: Byte := 0x2D
  const SC2_S: Byte := 0x1B
  const SC2_T: Byte := 0x2C
  const SC2_U: Byte := 0x3C
  const SC2_V: Byte := 0x2A
  const SC2_W: Byte := 0x1D
  const SC2_X: Byte := 0x22
  const SC2_Y: Byte := 0x35
  const SC2_Z: Byte := 0x1A
  const SC2_SEMICOLON: Byte := 0x4C
  const SC2_BACKSLASH: Byte := 0x5D
  const SC2_EUROPE2: Byte := 0x61
  const SC2_OPEN_SQUARE_BRACKET: Byte := 0x54
  const SC2_CLOSE_SQUARE_BRACKET: Byte := 0x5B
  const SC2_EQUAL: Byte := 0x55
  const SC2_F1: Byte := 0x05
  const SC2_F2: Byte := 0x06
  const SC2_F3: Byte := 0x04
  const SC2_F4: Byte := 0x0C
  const SC2_F5: Byte := 0x03
  const SC2_F6: Byte := 0x0B
  const SC2_F7: Byte := 0x83
  const SC2_F8: Byte := 0x0A
  const SC2_F9: Byte := 0x01
  const SC2_F10: Byte := 0x09
  const SC2_F11: Byte := 0x78
  const SC2_F12: Byte := 0x07
  const SC2_F13: Byte := 0x08
  const SC2_F14: Byte := 0x10
  const SC2_F15: Byte := 0x18
  const SC2_F16: Byte := 0x20
  const SC2_F17: Byte := 0x28
  const SC2_F18: Byte := 0x30
  const SC2_F19: Byte := 0x38
  const SC2_F20: Byte := 0x40
  const SC2_F21: Byte := 0x48
  const SC2_F22: Byte := 0x50
  const SC2_F23: Byte := 0x57
  const SC2_F24: Byte := 0x5F
  const SC2_INTL1: Byte := 0x51
  const SC2_INTL2: Byte := 0x13
  const SC2_INTL3: Byte := 0x6A
  const SC2_INTL4: Byte := 0x64
  const SC2_INTL5: Byte := 0x67
  const SC2_LANG1: Byte := 0xF2
  const SC2_LANG2: Byte := 0xF1
  const SC2_LANG3: Byte := 0x63
  const SC2_LANG4: Byte := 0x62
  const SC2_LANG5: Byte := 0x5F
  const SC2EX_RIGHT_CTRL: Byte := 0x14
  const SC2EX_RIGHT_ALT: Byte := 0x11
  const SC2EX_LEFT_GUI: Byte := 0x1F
  const SC2EX_LEFT_WINDOWS: Byte := 0x1F
  const SC2EX_RIGHT_GUI: Byte := 0x27
  const SC2EX_RIGHT_WINDOWS: Byte := 0x27
  const SC2EX_PRINT_SCREEN: Byte := 0x7C
  const SC2EX_MENU: Byte := 0x2F
  const SC2EX_HOME: Byte := 0x6C
  const SC2EX_END: Byte := 0x69
  const SC2EX_PAGE_UP: Byte := 0x7D
  const SC2EX_PAGE_DOWN: Byte := 0x7A
  const SC2EX_LEFT_ARROW: Byte := 0x6B
  const SC2EX_RIGHT_ARROW: Byte := 0x74
  const SC2EX_UP_ARROW: Byte := 0x75
  const SC2EX_DOWN_ARROW: Byte := 0x72
  const SC2EX_INSERT: Byte := 0x70
  const SC2EX_DELETE: Byte := 0x71
  const SC2EX_NEXT_TRACK: Byte := 0x4D
  const SC2EX_PREV_TRACK: Byte := 0x15
  const SC2EX_STOP: Byte := 0x3B
  const SC2EX_PLAY: Byte := 0x34
  const SC2EX_MUTE: Byte := 0x23
  const SC2EX_VOLUME_UP: Byte := 0x32
  const SC2EX_VOLUME_DOWN: Byte := 0x21
  const SC2EX_MEDIA_SELECT: Byte := 0x50
  const SC2EX_EMAIL: Byte := 0x48
  const SC2EX_CALCULATOR: Byte := 0x2B
  const SC2EX_MY_COMPUTER: Byte := 0x40
  const SC2EX_WEB_SEARCH: Byte := 0x10
  const SC2EX_WEB_HOME: Byte := 0x3A
  const SC2EX_WEB_BACK: Byte := 0x38
  const SC2EX_WEB_FORWARD: Byte := 0x30
  const SC2EX_WEB_STOP: Byte := 0x28
  const SC2EX_WEB_REFRESH: Byte := 0x20
  const SC2EX_WEB_FAVORITES: Byte := 0x18
  const SC2EX_POWER: Byte := 0x37
  const SC2EX_SLEEP: Byte := 0x3F
  const SC2EX_WAKE: Byte := 0x5E

  /** The prefix and terminator bytes that the decoder acts on before any lookup. */
  predicate IsStructural(b: Byte)
  {
    b == NONE || b == UNMAKE || b == EXTEND || b == EXTEND1
  }

  /** Handshake and status replies of the device: acknowledgement, echo, self-test result,
      resend request. */
  predicate IsDeviceReply(b: Byte)
  {
    b == GARBLED || b == BAT_SUCCESSFUL || b == BAT_FAILURE || b == ACK || b == ECHO || b == NACK
  }

  /** `b` is a value the catalog names in the baseline namespace. */
  predicate IsSc2Code(b: Byte)
  {
    b == SC2_NUM_LOCK || b == SC2_SCROLL_LOCK || b == SC2_CAPS_LOCK || b == SC2_LEFT_SHIFT ||
    b == SC2_RIGHT_SHIFT || b == SC2_LEFT_CTRL || b == SC2_LEFT_ALT || b == SC2_SYS_REQUEST ||
    b == SC2_ESC || b == SC2_BACKSPACE || b == SC2_TAB || b == SC2_ENTER || b == SC2_SPACE ||
    b == SC2_KEYPAD0 || b == SC2_KEYPAD1 || b == SC2_KEYPAD2 || b == SC2_KEYPAD3 ||
    b == SC2_KEYPAD4 || b == SC2_KEYPAD5 || b == SC2_KEYPAD6 || b == SC2_KEYPAD7 ||
    b == SC2_KEYPAD8 || b == SC2_KEYPAD9 || b == SC2_KEYPAD_PERIOD || b == SC2_KEYPAD_PLUS ||
    b == SC2_KEYPAD_DASH || b == SC2_KEYPAD_ASTERISK || b == SC2_KEYPAD_EQUALS ||
    b == SC2_KEYPAD_COMMA || b == SC2_0 || b == SC2_1 || b == SC2_2 || b == SC2_3 ||
    b == SC2_4 || b == SC2_5 || b == SC2_6 || b == SC2_7 || b == SC2_8 || b == SC2_9 ||
    b == SC2_APOSTROPHE || b == SC2_COMMA || b == SC2_DASH || b == SC2_PERIOD ||
    b == SC2_FORWARD_SLASH || b == SC2_OPEN_QUOTE || b == SC2_A || b == SC2_B || b == SC2_C ||
    b == SC2_D || b == SC2_E || b == SC2_F || b == SC2_G || b == SC2_H || b == SC2_I ||
    b == SC2_J || b == SC2_K || b == SC2_L || b == SC2_M || b == SC2_N || b == SC2_O ||
    b == SC2_P || b == SC2_Q || b == SC2_R || b == SC2_S || b == SC2_T || b == SC2_U ||
    b == SC2_V || b == SC2_W || b == SC2_X || b == SC2_Y || b == SC2_Z || b == SC2_SEMICOLON ||
    b == SC2_BACKSLASH || b == SC2_EUROPE2 || b == SC2_OPEN_SQUARE_BRACKET ||
    b == SC2_CLOSE_SQUARE_BRACKET || b == SC2_EQUAL || b == SC2_F1 || b == SC2_F2 ||
    b == SC2_F3 || b == SC2_F4 || b == SC2_F5 || b == SC2_F6 || b == SC2_F7 || b == SC2_F8 ||
    b == SC2_F9 || b == SC2_F10 || b == SC2_F11 || b == SC2_F12 || b == SC2_F13 ||
    b == SC2_F14 || b == SC2_F15 || b == SC2_F16 || b == SC2_F17 || b == SC2_F18 ||
    b == SC2_F19 || b == SC2_F20 || b == SC2_F21 || b == SC2_F22 || b == SC2_F23 ||
    b == SC2_F24 || b == SC2_INTL1 || b == SC2_INTL2 || b == SC2_INTL3 || b == SC2_INTL4 ||
    b == SC2_INTL5 || b == SC2_LANG1 || b == SC2_LANG2 || b == SC2_LANG3 || b == SC2_LANG4 ||
    b == SC2_LANG5
  }

  /** `b` is a value the catalog names in the extended namespace. */
  predicate IsSc2ExCode(b: Byte)
  {
    b == SC2EX_KEYPAD_ENTER || b == SC2EX_KEYPAD_FORWARD_SLASH || b == SC2EX_RIGHT_CTRL ||
    b == SC2EX_RIGHT_ALT || b == SC2EX_LEFT_GUI || b == SC2EX_LEFT_WINDOWS ||
    b == SC2EX_RIGHT_GUI || b == SC2EX_RIGHT_WINDOWS || b == SC2EX_PRINT_SCREEN ||
    b == SC2EX_MENU || b == SC2EX_HOME || b == SC2EX_END || b == SC2EX_PAGE_UP ||
    b == SC2EX_PAGE_DOWN || b == SC2EX_LEFT_ARROW || b == SC2EX_RIGHT_ARROW ||
    b == SC2EX_UP_ARROW || b == SC2EX_DOWN_ARROW || b == SC2EX_INSERT || b == SC2EX_DELETE ||
    b == SC2EX_NEXT_TRACK || b == SC2EX_PREV_TRACK || b == SC2EX_STOP || b == SC2EX_PLAY ||
    b == SC2EX_MUTE || b == SC2EX_VOLUME_UP || b == SC2EX_VOLUME_DOWN ||
    b == SC2EX_MEDIA_SELECT || b == SC2EX_EMAIL || b == SC2EX_CALCULATOR ||
    b == SC2EX_MY_COMPUTER || b == SC2EX_WEB_SEARCH || b == SC2EX_WEB_HOME ||
    b == SC2EX_WEB_BACK || b == SC2EX_WEB_FORWARD || b == SC2EX_WEB_STOP ||
    b == SC2EX_WEB_REFRESH || b == SC2EX_WEB_FAVORITES || b == SC2EX_POWER ||
    b == SC2EX_SLEEP || b == SC2EX_WAKE
  }

  /** The four structural bytes are pairwise distinct, so each prefix has its own meaning. */
  lemma StructuralCodesDistinct()
    ensures NONE != UNMAKE && NONE != EXTEND && NONE != EXTEND1
    ensures UNMAKE != EXTEND && UNMAKE != EXTEND1 && EXTEND != EXTEND1
  {
  }

  /** No key byte of either namespace is a structural byte, so every key byte reaches a lookup
      table instead of being taken as a prefix; the language keys sit next to UNMAKE, not on it. */
  lemma KeyCodesAreNotStructural(b: Byte)
    ensures IsSc2Code(b) ==> !IsStructural(b)
    ensures IsSc2ExCode(b) ==> !IsStructural(b)
    ensures SC2_LANG1 == 0xF2 && SC2_LANG2 == 0xF1 && SC2_LANG1 != UNMAKE && SC2_LANG2 != UNMAKE
  {
  }

  /** The extended namespace reuses baseline numbers for other keys: the namespace, not the value,
      decides which key is meant. */
  lemma ExtendedReusesBaselineValues()
    ensures SC2EX_RIGHT_CTRL == SC2_LEFT_CTRL == 0x14
    ensures SC2EX_RIGHT_ALT == SC2_LEFT_ALT == 0x11
    ensures SC2EX_KEYPAD_ENTER == SC2_ENTER == 0x5A
    ensures SC2EX_KEYPAD_FORWARD_SLASH == SC2_FORWARD_SLASH == 0x4A
    ensures IsSc2Code(0x14) && IsSc2ExCode(0x14) && IsSc2Code(0x5A) && IsSc2ExCode(0x5A)
  {
  }

  /** Aliases: two names for one byte. */
  lemma AliasesShareValues()
    ensures SC2EX_LEFT_WINDOWS == SC2EX_LEFT_GUI == 0x1F
    ensures SC2EX_RIGHT_WINDOWS == SC2EX_RIGHT_GUI == 0x27
    ensures NACK == GARBLED == 0xFE
  {
  }

  /** LANG5 and F24 share 0x5F, so a byte-indexed table can hold only one of them. */
  lemma Lang5SharesF24()
    ensures SC2_LANG5 == SC2_F24 == 0x5F
  {
  }

  /** Neither shift key has an extended code: right shift exists only in the baseline namespace. */
  lemma ShiftOnlyInBaseline()
    ensures IsSc2Code(SC2_RIGHT_SHIFT) && !IsSc2ExCode(SC2_RIGHT_SHIFT)
    ensures IsSc2Code(SC2_LEFT_SHIFT) && !IsSc2ExCode(SC2_LEFT_SHIFT)
  {
  }

  /** Device replies are neither keys nor prefixes, so the decoder meets them as unknown bytes. */
  lemma DeviceRepliesAreNotKeys(b: Byte)
    requires IsDeviceReply(b)
    ensures !IsSc2Code(b) && !IsSc2ExCode(b) && !IsStructural(b)
  {
  }
}
