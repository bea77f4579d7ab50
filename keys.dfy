/** Key codes of java.awt.event.KeyEvent. */
module KeyEvents {
  const KEY_A: int := 65
  const KEY_D: int := 68
  const KEY_I: int := 73
  const KEY_J: int := 74
  const KEY_L: int := 76
  const KEY_O: int := 79
  const KEY_S: int := 83
  const KEY_U: int := 85
  const KEY_W: int := 87
}
