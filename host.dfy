/**
  Shared vocabulary of the message handlers: the decoded OSC arguments a handler
  receives and the host actions it asks the machine to perform.
 */
module Host {

  datatype Option<+T> = None | Some(value: T)

  /** One decoded OSC argument: a number (int or float) or a string. */
  datatype Arg = Num(num: real) | Text(text: string)

  /** Python's `arg == k` for a numeric constant `k`: a string never equals a number. */
  predicate Is(a: Arg, k: real) {
    a.Num? && a.num == k
  }

  /**
    Python's `float(arg)`. A number converts to itself; converting a string is
    modelled as the conversion failing, which aborts the handler.
   */
  function AsFloat(a: Arg): (r: Option<real>)
    ensures r.Some? <==> a.Num?
    ensures a.Num? ==> r.value == a.num
  {
    match a
    case Num(v) => Some(v)
    case Text(_) => None
  }

  datatype Button = LeftButton | RightButton

  /** The host input sink: every pyautogui, Quartz, pbcopy or osascript call a handler makes. */
  datatype Action =
    | MoveTo(x: int, y: int)
    | MoveRel(dx: int, dy: int)
    | MouseDown(button: Button)
    | MouseUp(button: Button)
    | Click
    | RightClick
    | Scroll(lines: int)
    | Hotkey(modifier: string, key: string)
    | ClipboardWrite(text: string)
    | Notify(title: string, body: string)
}
