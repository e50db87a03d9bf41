/** Input events (src/Event.cpp): a closed union of what the window reports, built
    from a variant tag plus the flat integer argument list the window callbacks
    pass, and the decoding of GLFW key codes into `Key`s. */
module Events {
  import opened Wrappers
  import opened Inputs
  import opened GlfwCodes

  /** `sogl::Event`'s alternatives, with the payload each one keeps. The key is
      already decoded; a mouse button stays the raw GLFW button number. */
  datatype Event =
    | KeyPress(key: Key, scancode: int, mods: int)
    | KeyRelease(key: Key, scancode: int, mods: int)
    | MousePress(button: int, mods: int)
    | MouseRelease(button: int, mods: int)
    | MouseMove(x: int, y: int)
    | Scroll(dx: int, dy: int)
    | Resize(width: int, height: int)
    | Drop(files: seq<string>)

  /** The alternative an event holds: the tag the constructor is given
      (`Event::KeyPress{}` and so on) and what `as<T>` tests. */
  datatype Kind =
    | KeyPressKind | KeyReleaseKind
    | MousePressKind | MouseReleaseKind
    | MouseMoveKind | ScrollKind | ResizeKind | DropKind

  function KindOf(e: Event): Kind
  {
    match e
    case KeyPress(_, _, _) => KeyPressKind
    case KeyRelease(_, _, _) => KeyReleaseKind
    case MousePress(_, _) => MousePressKind
    case MouseRelease(_, _) => MouseReleaseKind
    case MouseMove(_, _) => MouseMoveKind
    case Scroll(_, _) => ScrollKind
    case Resize(_, _) => ResizeKind
    case Drop(_) => DropKind
  }

  /** `as<T>()`: the event's payload when it holds alternative `kind`, else none. */
  function As(e: Event, kind: Kind): Option<Event>
  {
    if KindOf(e) == kind then Some(e) else None
  }

  /** How many leading arguments the constructor reads for each tag. */
  function Arity(kind: Kind): nat
  {
    match kind
    case KeyPressKind => 4
    case KeyReleaseKind => 4
    case MousePressKind => 3
    case MouseReleaseKind => 3
    case DropKind => 1
    case _ => 2
  }

  /** What the callbacks guarantee the constructor: enough arguments for the tag,
      and for a drop a file count that `paths` actually holds. */
  predicate ArgsFit(kind: Kind, args: seq<int>, paths: seq<string>)
  {
    |args| >= Arity(kind) && (kind == DropKind ==> 0 <= args[0] <= |paths|)
  }

  /** The event `Event(tag, args, paths)` builds: key events read
      {key, scancode, action, mods}, button events {button, action, mods}, the
      two-field events their two fields in order, and a drop {count} followed by
      the first `count` paths. */
  function FromArgs(kind: Kind, args: seq<int>, paths: seq<string>): (e: Event)
    requires ArgsFit(kind, args, paths)
    ensures KindOf(e) == kind
  {
    match kind
    case KeyPressKind => KeyPress(KeyFromGlfw(args[0]), args[1], args[3])
    case KeyReleaseKind => KeyRelease(KeyFromGlfw(args[0]), args[1], args[3])
    case MousePressKind => MousePress(args[0], args[2])
    case MouseReleaseKind => MouseRelease(args[0], args[2])
    case MouseMoveKind => MouseMove(args[0], args[1])
    case ScrollKind => Scroll(args[0], args[1])
    case ResizeKind => Resize(args[0], args[1])
    case DropKind => Drop(paths[..args[0]])
  }

  /** The argument positions the constructor keeps: the action (position 2 of a
      key event, 1 of a button event) is read and dropped. */
  function KeptPositions(kind: Kind): set<nat>
  {
    match kind
    case KeyPressKind => {0, 1, 3}
    case KeyReleaseKind => {0, 1, 3}
    case MousePressKind => {0, 2}
    case MouseReleaseKind => {0, 2}
    case DropKind => {0}
    case _ => {0, 1}
  }

  /** The built event depends only on the kept positions (and, for a drop, on the
      paths it copies): changing the action, or anything past the positions the
      tag reads, changes nothing. */
  lemma FromArgsKeepsOnlyItsPositions(kind: Kind, args: seq<int>, args': seq<int>, paths: seq<string>, paths': seq<string>)
    requires ArgsFit(kind, args, paths) && ArgsFit(kind, args', paths')
    requires forall p :: p in KeptPositions(kind) ==> args[p] == args'[p]
    requires kind == DropKind ==> paths[..args[0]] == paths'[..args[0]]
    ensures FromArgs(kind, args, paths) == FromArgs(kind, args', paths')
  {
    assert 0 in KeptPositions(kind);
    match kind
    case KeyPressKind => assert 1 in KeptPositions(kind) && 3 in KeptPositions(kind);
    case KeyReleaseKind => assert 1 in KeptPositions(kind) && 3 in KeptPositions(kind);
    case MousePressKind => assert 2 in KeptPositions(kind);
    case MouseReleaseKind => assert 2 in KeptPositions(kind);
    case DropKind =>
    case MouseMoveKind => assert 1 in KeptPositions(kind);
    case ScrollKind => assert 1 in KeptPositions(kind);
    case ResizeKind => assert 1 in KeptPositions(kind);
  }

  /** `as<T>` on a freshly built event yields it exactly for the tag it was built
      with. */
  lemma AsFromArgs(kind: Kind, args: seq<int>, paths: seq<string>, asked: Kind)
    requires ArgsFit(kind, args, paths)
    ensures As(FromArgs(kind, args, paths), asked).Some? <==> asked == kind
    ensures As(FromArgs(kind, args, paths), kind) == Some(FromArgs(kind, args, paths))
  {
  }

  /** `Event(const EventTypes&, std::initializer_list<int>, const char**)`: reads
      the arguments at the tag's fixed positions; for a drop, sizes the file list
      to the count and copies the paths into it one by one. */
  method Construct(kind: Kind, args: seq<int>, paths: seq<string>) returns (e: Event)
    requires ArgsFit(kind, args, paths)
    ensures KindOf(e) == kind
    ensures kind == DropKind ==> |e.files| == args[0] && forall i :: 0 <= i < args[0] ==> e.files[i] == paths[i]
    ensures e == FromArgs(kind, args, paths)
  {
    match kind
    case KeyPressKind =>
      var key, scancode, action, mods := args[0], args[1], args[2], args[3];
      e := KeyPress(KeyFromGlfw(key), scancode, mods);
    case KeyReleaseKind =>
      var key, scancode, action, mods := args[0], args[1], args[2], args[3];
      e := KeyRelease(KeyFromGlfw(key), scancode, mods);
    case MousePressKind =>
      var button, action, mods := args[0], args[1], args[2];
      e := MousePress(button, mods);
    case MouseReleaseKind =>
      var button, action, mods := args[0], args[1], args[2];
      e := MouseRelease(button, mods);
    case MouseMoveKind =>
      e := MouseMove(args[0], args[1]);
    case ScrollKind =>
      e := Scroll(args[0], args[1]);
    case ResizeKind =>
      e := Resize(args[0], args[1]);
    case DropKind =>
      var count := args[0];
      var files := new string[count];
      for i := 0 to count
        invariant files[..i] == paths[..i]
      {
        files[i] := paths[i];
      }
      e := Drop(files[..]);
  }

  /** keyFromGlfw: the key a GLFW key code stands for; WORLD_1, WORLD_2, MENU and
      every code without a case decode to `Unknown`. */
  function KeyFromGlfw(code: int): (key: Key)
    ensures IsEnumerator(key)
  {
    if code == KEY_UNKNOWN then Key.Unknown
    else if code == KEY_SPACE then Key.Space
    else if code == KEY_APOSTROPHE then Key.Apostrophe
    else if code == KEY_COMMA then Key.Comma
    else if code == KEY_MINUS then Key.Minus
    else if code == KEY_PERIOD then Key.Period
    else if code == KEY_SLASH then Key.Slash
    else if code == KEY_0 then Key.Num0
    else if code == KEY_1 then Key.Num1
    else if code == KEY_2 then Key.Num2
    else if code == KEY_3 then Key.Num3
    else if code == KEY_4 then Key.Num4
    else if code == KEY_5 then Key.Num5
    else if code == KEY_6 then Key.Num6
    else if code == KEY_7 then Key.Num7
    else if code == KEY_8 then Key.Num8
    else if code == KEY_9 then Key.Num9
    else if code == KEY_SEMICOLON then Key.Semicolon
    else if code == KEY_EQUAL then Key.Equal
    else if code == KEY_A then Key.A
    else if code == KEY_B then Key.B
    else if code == KEY_C then Key.C
    else if code == KEY_D then Key.D
    else if code == KEY_E then Key.E
    else if code == KEY_F then Key.F
    else if code == KEY_G then Key.G
    else if code == KEY_H then Key.H
    else if code == KEY_I then Key.I
    else if code == KEY_J then Key.J
    else if code == KEY_K then Key.K
    else if code == KEY_L then Key.L
    else if code == KEY_M then Key.M
    else if code == KEY_N then Key.N
    else if code == KEY_O then Key.O
    else if code == KEY_P then Key.P
    else if code == KEY_Q then Key.Q
    else if code == KEY_R then Key.R
    else if code == KEY_S then Key.S
    else if code == KEY_T then Key.T
    else if code == KEY_U then Key.U
    else if code == KEY_V then Key.V
    else if code == KEY_W then Key.W
    else if code == KEY_X then Key.X
    else if code == KEY_Y then Key.Y
    else if code == KEY_Z then Key.Z
    else if code == KEY_LEFT_BRACKET then Key.LeftBracket
    else if code == KEY_BACKSLASH then Key.Backslash
    else if code == KEY_RIGHT_BRACKET then Key.RightBracket
    else if code == KEY_GRAVE_ACCENT then Key.GraveAccent
    else if code == KEY_WORLD_1 then Key.Unknown
    else if code == KEY_WORLD_2 then Key.Unknown
    else if code == KEY_ESCAPE then Key.Escape
    else if code == KEY_ENTER then Key.Enter
    else if code == KEY_TAB then Key.Tab
    else if code == KEY_BACKSPACE then Key.Backspace
    else if code == KEY_INSERT then Key.Insert
    else if code == KEY_DELETE then Key.Delete
    else if code == KEY_RIGHT then Key.Right
    else if code == KEY_LEFT then Key.Left
    else if code == KEY_DOWN then Key.Down
    else if code == KEY_UP then Key.Up
    else if code == KEY_PAGE_UP then Key.PageUp
    else if code == KEY_PAGE_DOWN then Key.PageDown
    else if code == KEY_HOME then Key.Home
    else if code == KEY_END then Key.End
    else if code == KEY_CAPS_LOCK then Key.CapsLock
    else if code == KEY_SCROLL_LOCK then Key.ScrollLock
    else if code == KEY_NUM_LOCK then Key.NumLock
    else if code == KEY_PRINT_SCREEN then Key.PrintScreen
    else if code == KEY_PAUSE then Key.Pause
    else if code == KEY_F1 then Key.F1
    else if code == KEY_F2 then Key.F2
    else if code == KEY_F3 then Key.F3
    else if code == KEY_F4 then Key.F4
    else if code == KEY_F5 then Key.F5
    else if code == KEY_F6 then Key.F6
    else if code == KEY_F7 then Key.F7
    else if code == KEY_F8 then Key.F8
    else if code == KEY_F9 then Key.F9
    else if code == KEY_F10 then Key.F10
    else if code == KEY_F11 then Key.F11
    else if code == KEY_F12 then Key.F12
    else if code == KEY_F13 then Key.F13
    else if code == KEY_F14 then Key.F14
    else if code == KEY_F15 then Key.F15
    else if code == KEY_F16 then Key.F16
    else if code == KEY_F17 then Key.F17
    else if code == KEY_F18 then Key.F18
    else if code == KEY_F19 then Key.F19
    else if code == KEY_F20 then Key.F20
    else if code == KEY_F21 then Key.F21
    else if code == KEY_F22 then Key.F22
    else if code == KEY_F23 then Key.F23
    else if code == KEY_F24 then Key.F24
    else if code == KEY_F25 then Key.F25
    else if code == KEY_KP_0 then Key.Numpad0
    else if code == KEY_KP_1 then Key.Numpad1
    else if code == KEY_KP_2 then Key.Numpad2
    else if code == KEY_KP_3 then Key.Numpad3
    else if code == KEY_KP_4 then Key.Numpad4
    else if code == KEY_KP_5 then Key.Numpad5
    else if code == KEY_KP_6 then Key.Numpad6
    else if code == KEY_KP_7 then Key.Numpad7
    else if code == KEY_KP_8 then Key.Numpad8
    else if code == KEY_KP_9 then Key.Numpad9
    else if code == KEY_KP_DECIMAL then Key.NumpadPoint
    else if code == KEY_KP_DIVIDE then Key.NumpadDivide
    else if code == KEY_KP_MULTIPLY then Key.NumpadMultiply
    else if code == KEY_KP_SUBTRACT then Key.NumpadSubstract
    else if code == KEY_KP_ADD then Key.NumpadAdd
    else if code == KEY_KP_ENTER then Key.NumpadEnter
    else if code == KEY_KP_EQUAL then Key.NumpadEqual
    else if code == KEY_LEFT_SHIFT then Key.LeftShift
    else if code == KEY_LEFT_CONTROL then Key.LeftControl
    else if code == KEY_LEFT_ALT then Key.LeftAlt
    else if code == KEY_LEFT_SUPER then Key.LeftSuper
    else if code == KEY_RIGHT_SHIFT then Key.RightShift
    else if code == KEY_RIGHT_CONTROL then Key.RightControl
    else if code == KEY_RIGHT_ALT then Key.RightAlt
    else if code == KEY_RIGHT_SUPER then Key.RightSuper
    else if code == KEY_MENU then Key.Unknown
    else Key.Unknown
  }
}
