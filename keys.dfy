/** Allegro 5 keyboard key codes (the `ALLEGRO_KEY_*` constants) the engine refers to.
    The numbering is that of Allegro 5's public key-code table. */
module Keys {

  const KEY_A: int := 1
  const KEY_Z: int := 26
  const KEY_0: int := 27
  const KEY_1: int := 28
  const KEY_9: int := 36
  const KEY_F10: int := 56
  const KEY_F11: int := 57
  const KEY_F12: int := 58
  const KEY_ESCAPE: int := 59
  const KEY_TILDE: int := 60
  const KEY_MINUS: int := 61
  const KEY_EQUALS: int := 62
  const KEY_TAB: int := 64
  const KEY_OPENBRACE: int := 65
  const KEY_CLOSEBRACE: int := 66
  const KEY_ENTER: int := 67
  const KEY_SEMICOLON: int := 68
  const KEY_QUOTE: int := 69
  const KEY_BACKSLASH: int := 70
  const KEY_COMMA: int := 72
  const KEY_FULLSTOP: int := 73
  const KEY_SLASH: int := 74
  const KEY_SPACE: int := 75
  const KEY_LEFT: int := 82
  const KEY_RIGHT: int := 83
  const KEY_UP: int := 84
  const KEY_DOWN: int := 85

  /** One past the largest key code (`ALLEGRO_KEY_MAX`). */
  const KEY_MAX: int := 227

  const KEY_C: int := KEY_A + 2
  const KEY_V: int := KEY_A + 21
  const KEY_X: int := KEY_A + 23
}
