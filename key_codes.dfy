/** The decoder's output codes.

    A `KeyCode` is a 16-bit value: the low byte identifies the key, and the high byte carries the
    modifier bits that were held when the key was pressed.  The `|`, `&` and `~` operators the
    source defines on `KeyCode` are the functions `Or`, `And` and `Complement`, each the plain
    `bv16` operator.
 */
module KeyCodes {
  type KeyCode = bv16

  const PS2_NONE: KeyCode := 0x00
  const PS2_SHIFT: KeyCode := 0x4000
  const PS2_CTRL: KeyCode := 0x2000
  const PS2_ALT: KeyCode := 0x800
  const PS2_GUI: KeyCode := 0x200
  const PS2_MODIFIERS: KeyCode := 0xFF00

  const PS2_KEY_NUM: KeyCode := 0x01
  const PS2_KEY_SCROLL: KeyCode := 0x02
  const PS2_KEY_CAPS: KeyCode := 0x03
  const PS2_KEY_PRTSCR: KeyCode := 0x04
  const PS2_KEY_PAUSE: KeyCode := 0x05
  const PS2_KEY_L_SHIFT: KeyCode := 0x06
  const PS2_KEY_R_SHIFT: KeyCode := 0x07
  const PS2_KEY_L_CTRL: KeyCode := 0x08
  const PS2_KEY_R_CTRL: KeyCode := 0x09
  const PS2_KEY_L_ALT: KeyCode := 0x0A
  const PS2_KEY_R_ALT: KeyCode := 0x0B
  const PS2_KEY_L_GUI: KeyCode := 0x0C
  const PS2_KEY_R_GUI: KeyCode := 0x0D
  const PS2_KEY_MENU: KeyCode := 0x0E
  const PS2_KEY_BREAK: KeyCode := 0x0F
  const PS2_KEY_SYSRQ: KeyCode := 0x10
  const PS2_KEY_HOME: KeyCode := 0x11
  const PS2_KEY_END: KeyCode := 0x12
  const PS2_KEY_PGUP: KeyCode := 0x13
  const PS2_KEY_PGDN: KeyCode := 0x14
  const PS2_KEY_L_ARROW: KeyCode := 0x15
  const PS2_KEY_R_ARROW: KeyCode := 0x16
  const PS2_KEY_UP_ARROW: KeyCode := 0x17
  const PS2_KEY_DN_ARROW: KeyCode := 0x18
  const PS2_KEY_INSERT: KeyCode := 0x19
  const PS2_KEY_DELETE: KeyCode := 0x1A
  const PS2_KEY_ESC: KeyCode := 0x1B
  const PS2_KEY_BS: KeyCode := 0x1C
  const PS2_KEY_TAB: KeyCode := 0x1D
  const PS2_KEY_ENTER: KeyCode := 0x1E
  const PS2_KEY_SPACE: KeyCode := 0x1F
  const PS2_KEY_KP0: KeyCode := 0x20
  const PS2_KEY_KP1: KeyCode := 0x21
  const PS2_KEY_KP2: KeyCode := 0x22
  const PS2_KEY_KP3: KeyCode := 0x23
  const PS2_KEY_KP4: KeyCode := 0x24
  const PS2_KEY_KP5: KeyCode := 0x25
  const PS2_KEY_KP6: KeyCode := 0x26
  const PS2_KEY_KP7: KeyCode := 0x27
  const PS2_KEY_KP8: KeyCode := 0x28
  const PS2_KEY_KP9: KeyCode := 0x29
  const PS2_KEY_KP_DOT: KeyCode := 0x2A
  const PS2_KEY_KP_ENTER: KeyCode := 0x2B
  const PS2_KEY_KP_PLUS: KeyCode := 0x2C
  const PS2_KEY_KP_MINUS: KeyCode := 0x2D
  const PS2_KEY_KP_TIMES: KeyCode := 0x2E
  const PS2_KEY_KP_DIV: KeyCode := 0x2F
  const PS2_KEY_0: KeyCode := 0x30
  const PS2_KEY_1: KeyCode := 0x31
  const PS2_KEY_2: KeyCode := 0x32
  const PS2_KEY_3: KeyCode := 0x33
  const PS2_KEY_4: KeyCode := 0x34
  const PS2_KEY_5: KeyCode := 0x35
  const PS2_KEY_6: KeyCode := 0x36
  const PS2_KEY_7: KeyCode := 0x37
  const PS2_KEY_8: KeyCode := 0x38
  const PS2_KEY_9: KeyCode := 0x39
  const PS2_KEY_APOS: KeyCode := 0x3A
  const PS2_KEY_COMMA: KeyCode := 0x3B
  const PS2_KEY_MINUS: KeyCode := 0x3C
  const PS2_KEY_DOT: KeyCode := 0x3D
  const PS2_KEY_DIV: KeyCode := 0x3E
  const PS2_KEY_KP_EQUAL: KeyCode := 0x3F
  const PS2_KEY_SINGLE: KeyCode := 0x40
  const PS2_KEY_A: KeyCode := 0x41
  const PS2_KEY_B: KeyCode := 0x42
  const PS2_KEY_C: KeyCode := 0x43
  const PS2_KEY_D: KeyCode := 0x44
  const PS2_KEY_E: KeyCode := 0x45
  const PS2_KEY_F: KeyCode := 0x46
  const PS2_KEY_G: KeyCode := 0x47
  const PS2_KEY_H: KeyCode := 0x48
  const PS2_KEY_I: KeyCode := 0x49
  const PS2_KEY_J: KeyCode := 0x4A
  const PS2_KEY_K: KeyCode := 0x4B
  const PS2_KEY_L: KeyCode := 0x4C
  const PS2_KEY_M: KeyCode := 0x4D
  const PS2_KEY_N: KeyCode := 0x4E
  const PS2_KEY_O: KeyCode := 0x4F
  const PS2_KEY_P: KeyCode := 0x50
  const PS2_KEY_Q: KeyCode := 0x51
  const PS2_KEY_R: KeyCode := 0x52
  const PS2_KEY_S: KeyCode := 0x53
  const PS2_KEY_T: KeyCode := 0x54
  const PS2_KEY_U: KeyCode := 0x55
  const PS2_KEY_V: KeyCode := 0x56
  const PS2_KEY_W: KeyCode := 0x57
  const PS2_KEY_X: KeyCode := 0x58
  const PS2_KEY_Y: KeyCode := 0x59
  const PS2_KEY_Z: KeyCode := 0x5A
  const PS2_KEY_SEMI: KeyCode := 0x5B
  const PS2_KEY_BACK: KeyCode := 0x5C
  const PS2_KEY_OPEN_SQ: KeyCode := 0x5D
  const PS2_KEY_CLOSE_SQ: KeyCode := 0x5E
  const PS2_KEY_EQUAL: KeyCode := 0x5F
  const PS2_KEY_KP_COMMA: KeyCode := 0x60
  const PS2_KEY_F1: KeyCode := 0x61
  const PS2_KEY_F2: KeyCode := 0x62
  const PS2_KEY_F3: KeyCode := 0x63
  const PS2_KEY_F4: KeyCode := 0x64
  const PS2_KEY_F5: KeyCode := 0x65
  const PS2_KEY_F6: KeyCode := 0x66
  const PS2_KEY_F7: KeyCode := 0x67
  const PS2_KEY_F8: KeyCode := 0x68
  const PS2_KEY_F9: KeyCode := 0x69
  const PS2_KEY_F10: KeyCode := 0x6A
  const PS2_KEY_F11: KeyCode := 0x6B
  const PS2_KEY_F12: KeyCode := 0x6C
  const PS2_KEY_F13: KeyCode := 0x6D
  const PS2_KEY_F14: KeyCode := 0x6E
  const PS2_KEY_F15: KeyCode := 0x6F
  const PS2_KEY_F16: KeyCode := 0x70
  const PS2_KEY_F17: KeyCode := 0x71
  const PS2_KEY_F18: KeyCode := 0x72
  const PS2_KEY_F19: KeyCode := 0x73
  const PS2_KEY_F20: KeyCode := 0x74
  const PS2_KEY_F21: KeyCode := 0x75
  const PS2_KEY_F22: KeyCode := 0x76
  const PS2_KEY_F23: KeyCode := 0x77
  const PS2_KEY_F24: KeyCode := 0x78
  const PS2_KEY_NEXT_TR: KeyCode := 0x79
  const PS2_KEY_PREV_TR: KeyCode := 0x7A
  const PS2_KEY_STOP: KeyCode := 0x7B
  const PS2_KEY_PLAY: KeyCode := 0x7C
  const PS2_KEY_MUTE: KeyCode := 0x7D
  const PS2_KEY_VOL_UP: KeyCode := 0x7E
  const PS2_KEY_VOL_DN: KeyCode := 0x7F
  const PS2_KEY_MEDIA: KeyCode := 0x80
  const PS2_KEY_EMAIL: KeyCode := 0x81
  const PS2_KEY_CALC: KeyCode := 0x82
  const PS2_KEY_COMPUTER: KeyCode := 0x83
  const PS2_KEY_WEB_SEARCH: KeyCode := 0x84
  const PS2_KEY_WEB_HOME: KeyCode := 0x85
  const PS2_KEY_WEB_BACK: KeyCode := 0x86
  const PS2_KEY_WEB_FORWARD: KeyCode := 0x87
  const PS2_KEY_WEB_STOP: KeyCode := 0x88
  const PS2_KEY_WEB_REFRESH: KeyCode := 0x89
  const PS2_KEY_WEB_FAVOR: KeyCode := 0x8A
  const PS2_KEY_EUROPE2: KeyCode := 0x8B
  const PS2_KEY_POWER: KeyCode := 0x8C
  const PS2_KEY_SLEEP: KeyCode := 0x8D
  const PS2_KEY_WAKE: KeyCode := 0x90
  const PS2_KEY_INTL1: KeyCode := 0x91
  const PS2_KEY_INTL2: KeyCode := 0x92
  const PS2_KEY_INTL3: KeyCode := 0x93
  const PS2_KEY_INTL4: KeyCode := 0x94
  const PS2_KEY_INTL5: KeyCode := 0x95
  const PS2_KEY_LANG1: KeyCode := 0x96
  const PS2_KEY_LANG2: KeyCode := 0x97
  const PS2_KEY_LANG3: KeyCode := 0x98
  const PS2_KEY_LANG4: KeyCode := 0x99
  const PS2_KEY_LANG5: KeyCode := 0xA0

  /** `code | modifiers` on key codes. */
  function Or(code: KeyCode, modifiers: KeyCode): KeyCode
  {
    code | modifiers
  }

  /** `code & modifiers` on key codes. */
  function And(code: KeyCode, modifiers: KeyCode): KeyCode
  {
    code & modifiers
  }

  /** `~code` on key codes: every one of the 16 bits flipped. */
  function Complement(code: KeyCode): KeyCode
  {
    !code
  }

  /** The four modifier bits together (0x6A00). */
  const MODIFIER_BITS: KeyCode := PS2_SHIFT | PS2_CTRL | PS2_ALT | PS2_GUI

  /** `m` is a modifier mask: it holds no bit other than SHIFT, CTRL, ALT and GUI. */
  predicate HoldsOnlyModifierBits(m: KeyCode)
  {
    m & !MODIFIER_BITS == 0
  }

  /** The modifier bits are four distinct single bits, all inside the PS2_MODIFIERS byte. */
  lemma ModifierBitsAreDistinctHighBits()
    ensures MODIFIER_BITS == 0x6A00
    ensures MODIFIER_BITS & PS2_MODIFIERS == MODIFIER_BITS
    ensures PS2_SHIFT & (PS2_CTRL | PS2_ALT | PS2_GUI) == 0
    ensures PS2_CTRL & (PS2_ALT | PS2_GUI) == 0 && PS2_ALT & PS2_GUI == 0
  {
  }

  /** `mask |= bit` makes every bit of `bit` one and leaves the other bits as they were. */
  lemma OrSetsBits(mask: KeyCode, bit: KeyCode)
    ensures (mask | bit) & bit == bit
    ensures (mask | bit) & !bit == mask & !bit
  {
  }

  /** `mask &= ~bit` makes every bit of `bit` zero and leaves the other bits as they were. */
  lemma AndComplementClearsBits(mask: KeyCode, bit: KeyCode)
    ensures (mask & !bit) & bit == 0
    ensures (mask & !bit) & !bit == mask & !bit
  {
  }

  /** Setting the same bits twice is setting them once. */
  lemma OrIsIdempotent(mask: KeyCode, bit: KeyCode)
    ensures Or(Or(mask, bit), bit) == Or(mask, bit)
  {
  }

  /** `mask |= bit` followed by `mask &= ~bit` restores a mask that did not hold `bit`. */
  lemma SetThenClearRestores(mask: KeyCode, bit: KeyCode)
    requires And(mask, bit) == PS2_NONE
    ensures And(Or(mask, bit), Complement(bit)) == mask
  {
  }
}
