// `WindowEvent` (include/vkdl/system/window_event.h): a tagged record of
// what happened to a window, and the names of its tags.
module WindowEvent {
  import opened Keyboard

  /** `WindowEvent::Type`. The enumeration is unscoped, so a stored value
      may lie outside the 24 enumerators; `Invalid` stands for such a value. */
  datatype EventType =
    | Create | Destroy | EnterResize | ExitResize | Resize | Resizing
    | EnterMove | ExitMove | Move | Close | LostFocus | Restore
    | Minimize | Maximize | Focussed | KeyPressed | KeyReleased
    | WheelScrolled | MousePressed | MouseReleased | MouseMoved
    | MouseLeft | MouseEntered | TextEntered
    | Invalid(code: int)

  /** Two-component vectors of the event payloads (`uvec2`/`ivec2`). */
  datatype IVec2 = IVec2(x: int, y: int)
  datatype UVec2 = UVec2(x: nat, y: nat)

  datatype MouseButton = Left | Right | Middle | XButton1 | XButton2

  /** The union of payloads; `NoData` for the tags that carry none. The
      wheel delta is floating point and is left out. */
  datatype EventData =
    | NoData
    | ResizeData(size: UVec2, fbSize: UVec2)
    | MoveData(pos: IVec2)
    | KeyData(key: Key, ctrl: bool, alt: bool, shft: bool, sys: bool)
    | ButtonData(button: MouseButton, pos: IVec2)
    | WheelData(pos: IVec2)
    | MouseMoveData(pos: IVec2, delta: IVec2)
    | TextData(unicode: int)

  datatype WindowEvent = WindowEvent(kind: EventType, data: EventData)

  /** An event of a tag with no payload. */
  function Plain(kind: EventType): (e: WindowEvent)
    ensures e.kind == kind && e.data.NoData?
  {
    WindowEvent(kind, NoData)
  }

  /** `getEventTypeName`. */
  function EventTypeName(t: EventType): string
  {
    match t
    case Create => "Create"
    case Destroy => "Destroy"
    case EnterResize => "EnterResize"
    case ExitResize => "ExitResize"
    case Resize => "Resize"
    case Resizing => "Resizing"
    case EnterMove => "EnterMove"
    case ExitMove => "ExitMove"
    case Move => "Move"
    case Close => "Close"
    case LostFocus => "LostFocus"
    case Restore => "Restore"
    case Minimize => "Minimize"
    case Maximize => "Maximize"
    case Focussed => "Focussed"
    case KeyPressed => "KeyPressed"
    case KeyReleased => "KeyReleased"
    case WheelScrolled => "WheelScrolled"
    case MousePressed => "MousePressed"
    case MouseReleased => "MouseReleased"
    case MouseMoved => "MouseMoved"
    case MouseLeft => "MouseLeft"
    case MouseEntered => "MouseEntered"
    case TextEntered => "TextEntered:"
    case Invalid(_) => "Unknown"
  }

  /** The enumerator's value, `Create` = 0 up to `TextEntered` = 23. */
  function Ordinal(t: EventType): int
  {
    match t
    case Create => 0 case Destroy => 1 case EnterResize => 2 case ExitResize => 3
    case Resize => 4 case Resizing => 5 case EnterMove => 6 case ExitMove => 7
    case Move => 8 case Close => 9 case LostFocus => 10 case Restore => 11
    case Minimize => 12 case Maximize => 13 case Focussed => 14
    case KeyPressed => 15 case KeyReleased => 16 case WheelScrolled => 17
    case MousePressed => 18 case MouseReleased => 19 case MouseMoved => 20
    case MouseLeft => 21 case MouseEntered => 22 case TextEntered => 23
    case Invalid(c) => c
  }

  /** The value stored in a `Type` variable, read back as a tag. */
  function FromOrdinal(c: int): (t: EventType)
    ensures Ordinal(t) == c
  {
    if c == 0 then Create else if c == 1 then Destroy
    else if c == 2 then EnterResize else if c == 3 then ExitResize
    else if c == 4 then Resize else if c == 5 then Resizing
    else if c == 6 then EnterMove else if c == 7 then ExitMove
    else if c == 8 then Move else if c == 9 then Close
    else if c == 10 then LostFocus else if c == 11 then Restore
    else if c == 12 then Minimize else if c == 13 then Maximize
    else if c == 14 then Focussed else if c == 15 then KeyPressed
    else if c == 16 then KeyReleased else if c == 17 then WheelScrolled
    else if c == 18 then MousePressed else if c == 19 then MouseReleased
    else if c == 20 then MouseMoved else if c == 21 then MouseLeft
    else if c == 22 then MouseEntered else if c == 23 then TextEntered
    else Invalid(c)
  }

  /** Names of enumerator values: a value in 0..23 gets a name other than
      "Unknown", every other value gets "Unknown", and distinct values
      get distinct names. */
  lemma NamesOfValues(c: int, d: int)
    ensures EventTypeName(FromOrdinal(c)) == "Unknown" <==> !(0 <= c < 24)
    ensures 0 <= c < 24 && 0 <= d < 24 && c != d ==>
      EventTypeName(FromOrdinal(c)) != EventTypeName(FromOrdinal(d))
  {
  }

  /** Only `TextEntered`'s name carries a trailing colon. */
  lemma TextEnteredName(t: EventType)
    ensures EventTypeName(TextEntered) == "TextEntered:"
    ensures EventTypeName(t)[|EventTypeName(t)| - 1] == ':' <==> t == TextEntered
  {
  }
}
