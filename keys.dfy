// Key codes, jog modes and jog modifiers shared by the keypad and pendant
// code (keypad.h), and the two carousels both files step through.
module Keys {

  const KEYBUF_SIZE: nat := 8

  const JOG_XR: char := 'R'
  const JOG_XL: char := 'L'
  const JOG_YF: char := 'F'
  const JOG_YB: char := 'B'
  const JOG_ZU: char := 'U'
  const JOG_ZD: char := 'D'
  const JOG_XRYF: char := 'r'
  const JOG_XRYB: char := 'q'
  const JOG_XLYF: char := 's'
  const JOG_XLYB: char := 't'
  const JOG_XRZU: char := 'w'
  const JOG_XRZD: char := 'v'
  const JOG_XLZU: char := 'u'
  const JOG_XLZD: char := 'x'

  const MACROUP: char := 0x18 as char
  const MACRODOWN: char := 0x19 as char
  const MACROLEFT: char := 0x1B as char
  const MACRORIGHT: char := 0x1A as char
  const MACROLOWER: char := 0x7D as char
  const MACRORAISE: char := 0x7C as char
  const MACROHOME: char := 0x8E as char
  const RESET: char := 0x7F as char
  const UNLOCK: char := 0x80 as char
  const SPINON: char := 0x83 as char

  /** jogmode_t: Fast = 0, Slow = 1, Step = 2. */
  datatype JogMode = Fast | Slow | Step

  /** jogmodify_t: x1 = 0, x0.1 = 1, x0.01 = 2. */
  datatype JogModify = Modify1 | Modify01 | Modify001

  function JogModeValue(m: JogMode): (v: nat)
    ensures v < 3
  {
    match m
    case Fast => 0
    case Slow => 1
    case Step => 2
  }

  function JogModifyValue(m: JogModify): (v: nat)
    ensures v < 3
  {
    match m
    case Modify1 => 0
    case Modify01 => 1
    case Modify001 => 2
  }

  /** The cast `(jogmode_t)(keycode - '0')` for the keys '0', '1' and '2'. */
  function JogModeOfDigit(k: char): (m: JogMode)
    requires '0' <= k <= '2'
    ensures JogModeValue(m) == k as int - '0' as int
  {
    if k == '0' then Fast else if k == '1' then Slow else Step
  }

  /** The 'h' carousel: Step -> Fast, Fast -> Slow, otherwise Step. */
  function NextJogMode(m: JogMode): (n: JogMode)
    ensures n != m
  {
    if m == Step then Fast else if m == Fast then Slow else Step
  }

  /** The 'm' carousel: x0.01 -> x1, x1 -> x0.1, otherwise x0.01. */
  function NextJogModify(m: JogModify): (n: JogModify)
    ensures n != m
  {
    if m == Modify001 then Modify1 else if m == Modify1 then Modify01 else Modify001
  }

  /** Three presses of 'h' come back to where they started and every press
      changes the mode: the carousel is a cycle through all three modes. */
  lemma NextJogModeCycles(m: JogMode)
    ensures NextJogMode(m) != m
    ensures NextJogMode(NextJogMode(m)) != m
    ensures NextJogMode(NextJogMode(NextJogMode(m))) == m
    ensures JogModeValue(NextJogMode(m)) == (JogModeValue(m) + 1) % 3
  {
  }

  /** Same for 'm' and the modifier. */
  lemma NextJogModifyCycles(m: JogModify)
    ensures NextJogModify(m) != m
    ensures NextJogModify(NextJogModify(m)) != m
    ensures NextJogModify(NextJogModify(NextJogModify(m))) == m
    ensures JogModifyValue(NextJogModify(m)) == (JogModifyValue(m) + 1) % 3
  {
  }
}
