/** The window's event side (src/Window.cpp): the callbacks the backend invokes
    while polling, the event queue they fill and `nextEvent` drains, `display`,
    the process-wide instance counter that decides when the backend is set up
    and torn down, and the key table `keyToGlfw`. */
module Windowing {
  import opened Wrappers
  import opened Inputs
  import opened GlfwCodes
  import opened Events

  /** keyToGlfw: the GLFW key code of a key. `Unknown` and every key without a
      case give `KEY_UNKNOWN`; a named key gets one of GLFW's printable or
      function-key codes. */
  function KeyToGlfw(key: Key): (code: int)
    ensures code == KEY_UNKNOWN <==> !IsNamed(key)
    ensures IsNamed(key) ==> KEY_SPACE <= code <= KEY_RIGHT_SUPER
  {
    if key == Key.Unknown then KEY_UNKNOWN
    else if key == Key.Space then KEY_SPACE
    else if key == Key.Apostrophe then KEY_APOSTROPHE
    else if key == Key.Comma then KEY_COMMA
    else if key == Key.Minus then KEY_MINUS
    else if key == Key.Period then KEY_PERIOD
    else if key == Key.Slash then KEY_SLASH
    else if key == Key.Num0 then KEY_0
    else if key == Key.Num1 then KEY_1
    else if key == Key.Num2 then KEY_2
    else if key == Key.Num3 then KEY_3
    else if key == Key.Num4 then KEY_4
    else if key == Key.Num5 then KEY_5
    else if key == Key.Num6 then KEY_6
    else if key == Key.Num7 then KEY_7
    else if key == Key.Num8 then KEY_8
    else if key == Key.Num9 then KEY_9
    else if key == Key.Semicolon then KEY_SEMICOLON
    else if key == Key.Equal then KEY_EQUAL
    else if key == Key.A then KEY_A
    else if key == Key.B then KEY_B
    else if key == Key.C then KEY_C
    else if key == Key.D then KEY_D
    else if key == Key.E then KEY_E
    else if key == Key.F then KEY_F
    else if key == Key.G then KEY_G
    else if key == Key.H then KEY_H
    else if key == Key.I then KEY_I
    else if key == Key.J then KEY_J
    else if key == Key.K then KEY_K
    else if key == Key.L then KEY_L
    else if key == Key.M then KEY_M
    else if key == Key.N then KEY_N
    else if key == Key.O then KEY_O
    else if key == Key.P then KEY_P
    else if key == Key.Q then KEY_Q
    else if key == Key.R then KEY_R
    else if key == Key.S then KEY_S
    else if key == Key.T then KEY_T
    else if key == Key.U then KEY_U
    else if key == Key.V then KEY_V
    else if key == Key.W then KEY_W
    else if key == Key.X then KEY_X
    else if key == Key.Y then KEY_Y
    else if key == Key.Z then KEY_Z
    else if key == Key.LeftBracket then KEY_LEFT_BRACKET
    else if key == Key.Backslash then KEY_BACKSLASH
    else if key == Key.RightBracket then KEY_RIGHT_BRACKET
    else if key == Key.GraveAccent then KEY_GRAVE_ACCENT
    else if key == Key.Escape then KEY_ESCAPE
    else if key == Key.Enter then KEY_ENTER
    else if key == Key.Tab then KEY_TAB
    else if key == Key.Backspace then KEY_BACKSPACE
    else if key == Key.Insert then KEY_INSERT
    else if key == Key.Delete then KEY_DELETE
    else if key == Key.Right then KEY_RIGHT
    else if key == Key.Left then KEY_LEFT
    else if key == Key.Down then KEY_DOWN
    else if key == Key.Up then KEY_UP
    else if key == Key.PageUp then KEY_PAGE_UP
    else if key == Key.PageDown then KEY_PAGE_DOWN
    else if key == Key.Home then KEY_HOME
    else if key == Key.End then KEY_END
    else if key == Key.CapsLock then KEY_CAPS_LOCK
    else if key == Key.ScrollLock then KEY_SCROLL_LOCK
    else if key == Key.NumLock then KEY_NUM_LOCK
    else if key == Key.PrintScreen then KEY_PRINT_SCREEN
    else if key == Key.Pause then KEY_PAUSE
    else if key == Key.F1 then KEY_F1
    else if key == Key.F2 then KEY_F2
    else if key == Key.F3 then KEY_F3
    else if key == Key.F4 then KEY_F4
    else if key == Key.F5 then KEY_F5
    else if key == Key.F6 then KEY_F6
    else if key == Key.F7 then KEY_F7
    else if key == Key.F8 then KEY_F8
    else if key == Key.F9 then KEY_F9
    else if key == Key.F10 then KEY_F10
    else if key == Key.F11 then KEY_F11
    else if key == Key.F12 then KEY_F12
    else if key == Key.F13 then KEY_F13
    else if key == Key.F14 then KEY_F14
    else if key == Key.F15 then KEY_F15
    else if key == Key.F16 then KEY_F16
    else if key == Key.F17 then KEY_F17
    else if key == Key.F18 then KEY_F18
    else if key == Key.F19 then KEY_F19
    else if key == Key.F20 then KEY_F20
    else if key == Key.F21 then KEY_F21
    else if key == Key.F22 then KEY_F22
    else if key == Key.F23 then KEY_F23
    else if key == Key.F24 then KEY_F24
    else if key == Key.F25 then KEY_F25
    else if key == Key.Numpad0 then KEY_KP_0
    else if key == Key.Numpad1 then KEY_KP_1
    else if key == Key.Numpad2 then KEY_KP_2
    else if key == Key.Numpad3 then KEY_KP_3
    else if key == Key.Numpad4 then KEY_KP_4
    else if key == Key.Numpad5 then KEY_KP_5
    else if key == Key.Numpad6 then KEY_KP_6
    else if key == Key.Numpad7 then KEY_KP_7
    else if key == Key.Numpad8 then KEY_KP_8
    else if key == Key.Numpad9 then KEY_KP_9
    else if key == Key.NumpadPoint then KEY_KP_DECIMAL
    else if key == Key.NumpadDivide then KEY_KP_DIVIDE
    else if key == Key.NumpadMultiply then KEY_KP_MULTIPLY
    else if key == Key.NumpadSubstract then KEY_KP_SUBTRACT
    else if key == Key.NumpadAdd then KEY_KP_ADD
    else if key == Key.NumpadEnter then KEY_KP_ENTER
    else if key == Key.NumpadEqual then KEY_KP_EQUAL
    else if key == Key.LeftShift then KEY_LEFT_SHIFT
    else if key == Key.LeftControl then KEY_LEFT_CONTROL
    else if key == Key.LeftAlt then KEY_LEFT_ALT
    else if key == Key.LeftSuper then KEY_LEFT_SUPER
    else if key == Key.RightShift then KEY_RIGHT_SHIFT
    else if key == Key.RightControl then KEY_RIGHT_CONTROL
    else if key == Key.RightAlt then KEY_RIGHT_ALT
    else if key == Key.RightSuper then KEY_RIGHT_SUPER
    else KEY_UNKNOWN
  }

  /** The round trip for the keys from `Space` to `M`. */
  lemma KeyCodeRoundTripSpaceToM(key: Key)
    requires Key.Space <= key <= Key.M
    ensures KeyFromGlfw(KeyToGlfw(key)) == key
  {
  }

  /** The round trip for the keys from `N` to `Z`. */
  lemma KeyCodeRoundTripNToZ(key: Key)
    requires Key.N <= key <= Key.Z
    ensures KeyFromGlfw(KeyToGlfw(key)) == key
  {
  }

  /** The round trip for the keys from `LeftBracket` to `Delete`. */
  lemma KeyCodeRoundTripLeftBracketToDelete(key: Key)
    requires Key.LeftBracket <= key <= Key.Delete
    ensures KeyFromGlfw(KeyToGlfw(key)) == key
  {
  }

  /** The round trip for the keys from `Right` to `End`. */
  lemma KeyCodeRoundTripRightToEnd(key: Key)
    requires Key.Right <= key <= Key.End
    ensures KeyFromGlfw(KeyToGlfw(key)) == key
  {
  }

  /** The round trip for the keys from `CapsLock` to `F2`. */
  lemma KeyCodeRoundTripCapsLockToF2(key: Key)
    requires Key.CapsLock <= key <= Key.F2
    ensures KeyFromGlfw(KeyToGlfw(key)) == key
  {
  }

  /** The round trip for the keys from `F3` to `F9`. */
  lemma KeyCodeRoundTripF3ToF9(key: Key)
    requires Key.F3 <= key <= Key.F9
    ensures KeyFromGlfw(KeyToGlfw(key)) == key
  {
  }

  /** The round trip for the keys from `F10` to `F15`. */
  lemma KeyCodeRoundTripF10ToF15(key: Key)
    requires Key.F10 <= key <= Key.F15
    ensures KeyFromGlfw(KeyToGlfw(key)) == key
  {
  }

  /** The round trip for the keys from `F16` to `F21`. */
  lemma KeyCodeRoundTripF16ToF21(key: Key)
    requires Key.F16 <= key <= Key.F21
    ensures KeyFromGlfw(KeyToGlfw(key)) == key
  {
  }

  /** The round trip for the keys from `F22` to `Numpad0`. */
  lemma KeyCodeRoundTripF22ToNumpad0(key: Key)
    requires Key.F22 <= key <= Key.Numpad0
    ensures KeyFromGlfw(KeyToGlfw(key)) == key
  {
  }

  /** The round trip for the keys from `Numpad1` to `Numpad5`. */
  lemma KeyCodeRoundTripNumpad1ToNumpad5(key: Key)
    requires Key.Numpad1 <= key <= Key.Numpad5
    ensures KeyFromGlfw(KeyToGlfw(key)) == key
  {
  }

  /** The round trip for the keys from `Numpad6` to `NumpadPoint`. */
  lemma KeyCodeRoundTripNumpad6ToNumpadPoint(key: Key)
    requires Key.Numpad6 <= key <= Key.NumpadPoint
    ensures KeyFromGlfw(KeyToGlfw(key)) == key
  {
  }

  /** The round trip for the keys from `NumpadDivide` to `NumpadAdd`. */
  lemma KeyCodeRoundTripNumpadDivideToNumpadAdd(key: Key)
    requires Key.NumpadDivide <= key <= Key.NumpadAdd
    ensures KeyFromGlfw(KeyToGlfw(key)) == key
  {
  }

  /** The round trip for the keys from `NumpadEnter` to `LeftControl`. */
  lemma KeyCodeRoundTripNumpadEnterToLeftControl(key: Key)
    requires Key.NumpadEnter <= key <= Key.LeftControl
    ensures KeyFromGlfw(KeyToGlfw(key)) == key
  {
  }

  /** The round trip for the keys from `LeftAlt` to `RightControl`. */
  lemma KeyCodeRoundTripLeftAltToRightControl(key: Key)
    requires Key.LeftAlt <= key <= Key.RightControl
    ensures KeyFromGlfw(KeyToGlfw(key)) == key
  {
  }

  /** The round trip for the keys from `RightAlt` to `RightSuper`. */
  lemma KeyCodeRoundTripRightAltToRightSuper(key: Key)
    requires Key.RightAlt <= key <= Key.RightSuper
    ensures KeyFromGlfw(KeyToGlfw(key)) == key
  {
  }

  /** Encoding an enumerator and decoding the code gives it back; a value outside
      the enumerators has no case and encodes as `KEY_UNKNOWN`. */
  lemma KeyCodeRoundTrip(key: Key)
    ensures IsEnumerator(key) ==> KeyFromGlfw(KeyToGlfw(key)) == key
    ensures !IsEnumerator(key) ==> KeyToGlfw(key) == KEY_UNKNOWN
  {
    if IsNamed(key) {
      if key <= Key.M {
        KeyCodeRoundTripSpaceToM(key);
      } else if key <= Key.Z {
        KeyCodeRoundTripNToZ(key);
      } else if key <= Key.Delete {
        KeyCodeRoundTripLeftBracketToDelete(key);
      } else if key <= Key.End {
        KeyCodeRoundTripRightToEnd(key);
      } else if key <= Key.F2 {
        KeyCodeRoundTripCapsLockToF2(key);
      } else if key <= Key.F9 {
        KeyCodeRoundTripF3ToF9(key);
      } else if key <= Key.F15 {
        KeyCodeRoundTripF10ToF15(key);
      } else if key <= Key.F21 {
        KeyCodeRoundTripF16ToF21(key);
      } else if key <= Key.Numpad0 {
        KeyCodeRoundTripF22ToNumpad0(key);
      } else if key <= Key.Numpad5 {
        KeyCodeRoundTripNumpad1ToNumpad5(key);
      } else if key <= Key.NumpadPoint {
        KeyCodeRoundTripNumpad6ToNumpadPoint(key);
      } else if key <= Key.NumpadAdd {
        KeyCodeRoundTripNumpadDivideToNumpadAdd(key);
      } else if key <= Key.LeftControl {
        KeyCodeRoundTripNumpadEnterToLeftControl(key);
      } else if key <= Key.RightControl {
        KeyCodeRoundTripLeftAltToRightControl(key);
      } else {
        KeyCodeRoundTripRightAltToRightSuper(key);
      }
    }
  }

  /** The reverse round trip for the codes of the printable keys (codes up to WORLD_2). */
  lemma PrintableCodeReverseRoundTrip(code: int)
    requires KEY_UNKNOWN <= code <= KEY_WORLD_2
    ensures KeyFromGlfw(code) != Key.Unknown ==> KeyToGlfw(KeyFromGlfw(code)) == code
  {
    if code < KEY_A {
      PunctuationCodeReverseRoundTrip(code);
    } else {
      LetterCodeReverseRoundTrip(code);
    }
  }

  /** The reverse round trip for the codes below the letters. */
  lemma PunctuationCodeReverseRoundTrip(code: int)
    requires KEY_UNKNOWN <= code < KEY_A
    ensures KeyFromGlfw(code) != Key.Unknown ==> KeyToGlfw(KeyFromGlfw(code)) == code
  {
  }

  /** The reverse round trip for the letter codes and the codes up to WORLD_2. */
  lemma LetterCodeReverseRoundTrip(code: int)
    requires KEY_A <= code <= KEY_WORLD_2
    ensures KeyFromGlfw(code) != Key.Unknown ==> KeyToGlfw(KeyFromGlfw(code)) == code
  {
  }

  /** The reverse round trip for the codes of escape and the editing, navigation and lock keys. */
  lemma EditingCodeReverseRoundTrip(code: int)
    requires KEY_ESCAPE <= code <= KEY_PAUSE
    ensures KeyFromGlfw(code) != Key.Unknown ==> KeyToGlfw(KeyFromGlfw(code)) == code
  {
  }

  /** The reverse round trip for the codes of the function keys. */
  lemma FunctionCodeReverseRoundTrip(code: int)
    requires KEY_F1 <= code <= KEY_F25
    ensures KeyFromGlfw(code) != Key.Unknown ==> KeyToGlfw(KeyFromGlfw(code)) == code
  {
    if code <= KEY_F12 {
      LowFunctionCodeReverseRoundTrip(code);
    } else {
      HighFunctionCodeReverseRoundTrip(code);
    }
  }

  /** The reverse round trip for the codes of F1 to F12. */
  lemma LowFunctionCodeReverseRoundTrip(code: int)
    requires KEY_F1 <= code <= KEY_F12
    ensures KeyFromGlfw(code) != Key.Unknown ==> KeyToGlfw(KeyFromGlfw(code)) == code
  {
  }

  /** The reverse round trip for the codes of F13 to F25. */
  lemma HighFunctionCodeReverseRoundTrip(code: int)
    requires KEY_F12 < code <= KEY_F25
    ensures KeyFromGlfw(code) != Key.Unknown ==> KeyToGlfw(KeyFromGlfw(code)) == code
  {
  }

  /** The reverse round trip for the codes of the keypad keys. */
  lemma KeypadCodeReverseRoundTrip(code: int)
    requires KEY_KP_0 <= code <= KEY_KP_EQUAL
    ensures KeyFromGlfw(code) != Key.Unknown ==> KeyToGlfw(KeyFromGlfw(code)) == code
  {
  }

  /** The reverse round trip for the codes of the modifier keys and MENU. */
  lemma ModifierCodeReverseRoundTrip(code: int)
    requires KEY_LEFT_SHIFT <= code <= KEY_MENU
    ensures KeyFromGlfw(code) != Key.Unknown ==> KeyToGlfw(KeyFromGlfw(code)) == code
  {
  }

  /** A code that decodes to a named key is that key's code. */
  lemma KeyCodeReverseRoundTrip(code: int)
    ensures KeyFromGlfw(code) != Key.Unknown ==> KeyToGlfw(KeyFromGlfw(code)) == code
  {
    if code < KEY_UNKNOWN || code > KEY_MENU {
    } else if code <= KEY_WORLD_2 {
      PrintableCodeReverseRoundTrip(code);
    } else if code < KEY_ESCAPE {
    } else if code <= KEY_PAUSE {
      EditingCodeReverseRoundTrip(code);
    } else if code < KEY_F1 {
    } else if code <= KEY_F25 {
      FunctionCodeReverseRoundTrip(code);
    } else if code < KEY_KP_0 {
    } else if code <= KEY_KP_EQUAL {
      KeypadCodeReverseRoundTrip(code);
    } else if code < KEY_LEFT_SHIFT {
    } else {
      ModifierCodeReverseRoundTrip(code);
    }
  }

  /** Codes that decode to `Unknown` are exactly the codes no named key has:
      `KEY_UNKNOWN`, WORLD_1, WORLD_2, MENU and every code without a case. */
  lemma KeyFromGlfwUnknown(code: int)
    ensures KeyFromGlfw(code) != Key.Unknown <==> exists key :: IsNamed(key) && KeyToGlfw(key) == code
  {
    var decoded := KeyFromGlfw(code);
    if decoded != Key.Unknown {
      KeyCodeReverseRoundTrip(code);
      assert IsNamed(decoded) && KeyToGlfw(decoded) == code;
    }
    if key :| IsNamed(key) && KeyToGlfw(key) == code {
      KeyCodeRoundTrip(key);
    }
  }

  /** The codes sogl lists but gives no key of its own decode to `Unknown`. */
  lemma KeyFromGlfwUnlisted()
    ensures KeyFromGlfw(KEY_UNKNOWN) == Key.Unknown
    ensures KeyFromGlfw(KEY_WORLD_1) == Key.Unknown && KeyFromGlfw(KEY_WORLD_2) == Key.Unknown
    ensures KeyFromGlfw(KEY_MENU) == Key.Unknown
  {
  }

  /** Distinct named keys have distinct codes, and exactly the keys without a
      name of their own encode as `KEY_UNKNOWN`. */
  lemma KeyToGlfwInjective(a: Key, b: Key)
    ensures IsNamed(a) && IsNamed(b) && KeyToGlfw(a) == KeyToGlfw(b) ==> a == b
    ensures KeyToGlfw(a) == KEY_UNKNOWN <==> !IsNamed(a)
  {
    KeyCodeRoundTrip(a);
    KeyCodeRoundTrip(b);
  }

  /** One invocation of a callback the window registers with the backend, with
      the arguments the backend passes. Cursor and scroll offsets arrive already
      truncated to integers; a drop carries its paths, whose number is the count. */
  datatype Callback =
    | KeyCallback(key: int, scancode: int, action: int, mods: int)
    | MouseButtonCallback(button: int, action: int, mods: int)
    | CursorPosCallback(x: int, y: int)
    | ScrollCallback(dx: int, dy: int)
    | WindowSizeCallback(width: int, height: int)
    | DropCallback(paths: seq<string>)

  /** The events one callback appends: one event built from its arguments, except
      that key and button callbacks keep only presses and releases. */
  function Emitted(cb: Callback): (evs: seq<Event>)
    ensures |evs| <= 1
    ensures |evs| == 0 <==> (cb.KeyCallback? || cb.MouseButtonCallback?) && cb.action != PRESS && cb.action != RELEASE
  {
    match cb
    case KeyCallback(key, scancode, action, mods) =>
      if action == PRESS then [FromArgs(KeyPressKind, [key, scancode, action, mods], [])]
      else if action == RELEASE then [FromArgs(KeyReleaseKind, [key, scancode, action, mods], [])]
      else []
    case MouseButtonCallback(button, action, mods) =>
      if action == PRESS then [FromArgs(MousePressKind, [button, action, mods], [])]
      else if action == RELEASE then [FromArgs(MouseReleaseKind, [button, action, mods], [])]
      else []
    case CursorPosCallback(x, y) => [FromArgs(MouseMoveKind, [x, y], [])]
    case ScrollCallback(dx, dy) => [FromArgs(ScrollKind, [dx, dy], [])]
    case WindowSizeCallback(width, height) => [FromArgs(ResizeKind, [width, height], [])]
    case DropCallback(paths) => [FromArgs(DropKind, [|paths|], paths)]
  }

  /** The events a run of callbacks appends, in the order the callbacks ran. */
  function EmittedAll(cbs: seq<Callback>): seq<Event>
  {
    if cbs == [] then [] else EmittedAll(cbs[..|cbs| - 1]) + Emitted(cbs[|cbs| - 1])
  }

  /** The window size after a run of callbacks: the last resize's, if any. */
  function SizeAfter(size: (int, int), cbs: seq<Callback>): (int, int)
  {
    if cbs == [] then size
    else match cbs[|cbs| - 1]
      case WindowSizeCallback(width, height) => (width, height)
      case _ => SizeAfter(size, cbs[..|cbs| - 1])
  }

  /** A key or button callback appends one event of the matching press/release
      kind for a press or a release and nothing for any other action (such as a
      repeat); every other callback appends exactly one event of its own kind. */
  lemma EmittedByAction(cb: Callback)
    ensures cb.KeyCallback? ==>
      (cb.action == PRESS ==> |Emitted(cb)| == 1 && KindOf(Emitted(cb)[0]) == KeyPressKind) &&
      (cb.action == RELEASE ==> |Emitted(cb)| == 1 && KindOf(Emitted(cb)[0]) == KeyReleaseKind) &&
      (cb.action != PRESS && cb.action != RELEASE ==> Emitted(cb) == [])
    ensures cb.MouseButtonCallback? ==>
      (cb.action == PRESS ==> |Emitted(cb)| == 1 && KindOf(Emitted(cb)[0]) == MousePressKind) &&
      (cb.action == RELEASE ==> |Emitted(cb)| == 1 && KindOf(Emitted(cb)[0]) == MouseReleaseKind) &&
      (cb.action != PRESS && cb.action != RELEASE ==> Emitted(cb) == [])
    ensures cb.CursorPosCallback? ==> Emitted(cb) == [MouseMove(cb.x, cb.y)]
    ensures cb.ScrollCallback? ==> Emitted(cb) == [Scroll(cb.dx, cb.dy)]
    ensures cb.WindowSizeCallback? ==> Emitted(cb) == [Resize(cb.width, cb.height)]
    ensures cb.DropCallback? ==> Emitted(cb) == [Drop(cb.paths)]
  {
    if cb.DropCallback? {
      assert cb.paths[..|cb.paths|] == cb.paths;
    }
  }

  /** Queue order is arrival order: the events of two runs of callbacks are the
      first run's followed by the second's. */
  lemma {:induction false} EmittedAllAppend(a: seq<Callback>, b: seq<Callback>)
    ensures EmittedAll(a + b) == EmittedAll(a) + EmittedAll(b)
    decreases |b|
  {
    if b == [] {
      assert a + b == a;
    } else {
      var b', last := b[..|b| - 1], b[|b| - 1];
      assert (a + b)[..|a + b| - 1] == a + b';
      assert (a + b)[|a + b| - 1] == last;
      var tail := Emitted(last);
      assert EmittedAll(a + b) == EmittedAll(a + b') + tail;
      assert EmittedAll(b) == EmittedAll(b') + tail;
      EmittedAllAppend(a, b');
      assert EmittedAll(a + b) == EmittedAll(a) + EmittedAll(b') + tail;
    }
  }

  /** What `nextEvent` does to a queue: the last event and the queue without it,
      or nothing and the same queue when it is empty. */
  function Pop(q: seq<Event>): (r: (Option<Event>, seq<Event>))
    ensures q == [] ==> r == (None, [])
    ensures q != [] ==> r.0.Some? && r.1 + [r.0.value] == q
  {
    if q == [] then (None, q) else (Some(q[|q| - 1]), q[..|q| - 1])
  }

  /** The events repeated `nextEvent` calls return until the queue is empty. */
  function Drain(q: seq<Event>): seq<Event>
    decreases |q|
  {
    if q == [] then [] else [q[|q| - 1]] + Drain(q[..|q| - 1])
  }

  /** Draining is last-in-first-out: it returns every queued event, the most
      recently pushed first. */
  lemma {:induction false} DrainReverses(q: seq<Event>)
    ensures |Drain(q)| == |q|
    ensures forall i :: 0 <= i < |q| ==> Drain(q)[i] == q[|q| - 1 - i]
    decreases |q|
  {
    if q != [] {
      var rest := q[..|q| - 1];
      DrainReverses(rest);
      assert Drain(q) == [q[|q| - 1]] + Drain(rest);
      forall i | 0 <= i < |q|
        ensures Drain(q)[i] == q[|q| - 1 - i]
      {
        if i > 0 {
          assert Drain(q)[i] == Drain(rest)[i - 1];
        }
      }
    }
  }

  /** Process-wide backend state: `Window::instance_count` and how often the
      backend has been initialised (glfwInit) and terminated (glfwTerminate). */
  class Glfw {
    var instanceCount: int
    var initCalls: nat
    var terminateCalls: nat

    /** Program start: no window, backend never initialised. */
    constructor ()
      ensures instanceCount == 0 && initCalls == 0 && terminateCalls == 0
    {
      instanceCount, initCalls, terminateCalls := 0, 0, 0;
    }

    function State(): Lifecycle
      reads this
    {
      Lifecycle(instanceCount, initCalls, terminateCalls)
    }
  }

  /** The counters the instance-counting protocol acts on. */
  datatype Lifecycle = Lifecycle(instances: int, inits: nat, terminates: nat)

  /** The constructor's effect: initialise when no window exists, then count one. */
  function Constructed(s: Lifecycle): (r: Lifecycle)
    ensures r.instances == s.instances + 1 && r.terminates == s.terminates
    ensures r.inits > s.inits <==> s.instances == 0
    ensures Balanced(s) ==> Balanced(r)
  {
    Lifecycle(s.instances + 1, if s.instances == 0 then s.inits + 1 else s.inits, s.terminates)
  }

  /** The destructor's effect: count one fewer, terminate when that reaches zero. */
  function Destructed(s: Lifecycle): (r: Lifecycle)
    ensures r.instances == s.instances - 1 && r.inits == s.inits
    ensures r.terminates > s.terminates <==> r.instances == 0
    ensures Balanced(s) && s.instances > 0 ==> Balanced(r)
  {
    var n := s.instances - 1;
    Lifecycle(n, s.inits, if n == 0 then s.terminates + 1 else s.terminates)
  }

  /** The backend is up (initialised more often than terminated) exactly while
      some window exists, and never initialised twice in a row. */
  predicate Balanced(s: Lifecycle)
  {
    s.instances >= 0 && s.inits == s.terminates + (if s.instances > 0 then 1 else 0)
  }

  /** A run of window constructions (true) and destructions (false). */
  function Run(s: Lifecycle, ops: seq<bool>): Lifecycle
    decreases |ops|
  {
    if ops == [] then s
    else Run(if ops[0] then Constructed(s) else Destructed(s), ops[1..])
  }

  /** How many more constructions than destructions a run holds. */
  function Live(ops: seq<bool>): int
  {
    if ops == [] then 0 else (if ops[0] then 1 else -1) + Live(ops[1..])
  }

  /** A run in which no window is destroyed before it was constructed. */
  predicate WellNested(ops: seq<bool>)
  {
    forall k :: 0 <= k <= |ops| ==> Live(ops[..k]) >= 0
  }

  lemma {:induction false} LivePrefix(ops: seq<bool>, k: nat)
    requires 0 < k <= |ops|
    ensures Live(ops[..k]) == (if ops[0] then 1 else -1) + Live(ops[1..][..k - 1])
  {
    assert ops[..k][1..] == ops[1..][..k - 1];
  }

  /** From a balanced state, any well-nested run of constructions and
      destructions keeps the backend up exactly while a window exists: it is
      initialised only when the count leaves zero and terminated only when it
      returns to zero, and the count equals the windows still alive. */
  lemma {:induction false} RunStaysBalanced(s: Lifecycle, ops: seq<bool>)
    requires Balanced(s)
    requires forall k :: 0 <= k <= |ops| ==> s.instances + Live(ops[..k]) >= 0
    ensures Balanced(Run(s, ops))
    ensures Run(s, ops).instances == s.instances + Live(ops)
    decreases |ops|
  {
    if ops != [] {
      var s' := if ops[0] then Constructed(s) else Destructed(s);
      LivePrefix(ops, 1);
      assert ops[1..][..0] == [];
      assert s.instances + Live(ops[..1]) >= 0;
      forall k | 0 <= k <= |ops[1..]|
        ensures s'.instances + Live(ops[1..][..k]) >= 0
      {
        LivePrefix(ops, k + 1);
        assert s.instances + Live(ops[..k + 1]) >= 0;
      }
      RunStaysBalanced(s', ops[1..]);
      assert ops[..|ops|] == ops;
      LivePrefix(ops, |ops|);
      assert ops[1..][..|ops| - 1] == ops[1..];
    }
  }

  /** From program start, a well-nested run leaves the backend up exactly while
      some window is alive. */
  lemma StartRunBalanced(ops: seq<bool>)
    requires WellNested(ops)
    ensures Balanced(Run(Lifecycle(0, 0, 0), ops))
    ensures Run(Lifecycle(0, 0, 0), ops).instances == Live(ops)
  {
    RunStaysBalanced(Lifecycle(0, 0, 0), ops);
  }

  /** `sogl::Window`, event side. The backend routes every callback to the most
      recently constructed window; this model has one window receive them. */
  class Window {
    /** `m_events`: pushed at the back, popped from the back. */
    var events: seq<Event>
    /** `m_size`, as (width, height). */
    var size: (int, int)

    /** `Window(width, height, title)`: initialises the backend if no window
        exists yet, records the size, and for the first window replays the size
        callback once, which queues a `Resize`; then counts the new window. */
    constructor (glfw: Glfw, width: int, height: int)
      modifies glfw
      ensures glfw.State() == Constructed(old(glfw.State()))
      ensures size == (width, height)
      ensures events == if old(glfw.instanceCount) == 0 then [Resize(width, height)] else []
    {
      var first := glfw.instanceCount == 0;
      if first {
        glfw.initCalls := glfw.initCalls + 1;
      }
      size := (width, height);
      events := [];
      new;
      if first {
        OnWindowSize(size.0, size.1);
      }
      glfw.instanceCount := glfw.instanceCount + 1;
    }

    /** `~Window()`: uncounts the window and terminates the backend when it was
        the last one. */
    method Destroy(glfw: Glfw)
      modifies glfw
      ensures glfw.State() == Destructed(old(glfw.State()))
    {
      glfw.instanceCount := glfw.instanceCount - 1;
      if glfw.instanceCount == 0 {
        glfw.terminateCalls := glfw.terminateCalls + 1;
      }
    }

    /** The key callback: queues a press or a release, ignores other actions. */
    method OnKey(key: int, scancode: int, action: int, mods: int)
      modifies this`events
      ensures events == old(events) + Emitted(KeyCallback(key, scancode, action, mods))
    {
      if action == PRESS {
        var e := Construct(KeyPressKind, [key, scancode, action, mods], []);
        events := events + [e];
      } else if action == RELEASE {
        var e := Construct(KeyReleaseKind, [key, scancode, action, mods], []);
        events := events + [e];
      }
    }

    /** The mouse-button callback: queues a press or a release, ignores other
        actions. */
    method OnMouseButton(button: int, action: int, mods: int)
      modifies this`events
      ensures events == old(events) + Emitted(MouseButtonCallback(button, action, mods))
    {
      if action == PRESS {
        var e := Construct(MousePressKind, [button, action, mods], []);
        events := events + [e];
      } else if action == RELEASE {
        var e := Construct(MouseReleaseKind, [button, action, mods], []);
        events := events + [e];
      }
    }

    /** The cursor-position callback: queues a `MouseMove`. */
    method OnCursorPos(x: int, y: int)
      modifies this`events
      ensures events == old(events) + [MouseMove(x, y)]
    {
      var e := Construct(MouseMoveKind, [x, y], []);
      events := events + [e];
    }

    /** The scroll callback: queues a `Scroll`. */
    method OnScroll(dx: int, dy: int)
      modifies this`events
      ensures events == old(events) + [Scroll(dx, dy)]
    {
      var e := Construct(ScrollKind, [dx, dy], []);
      events := events + [e];
    }

    /** The window-size callback: queues a `Resize` and records the new size in
        the same step. */
    method OnWindowSize(width: int, height: int)
      modifies this`events, this`size
      ensures events == old(events) + [Resize(width, height)]
      ensures size == (width, height)
    {
      var e := Construct(ResizeKind, [width, height], []);
      events := events + [e];
      size := (width, height);
    }

    /** The drop callback: queues a `Drop` holding copies of the paths. */
    method OnDrop(count: int, paths: seq<string>)
      requires 0 <= count <= |paths|
      modifies this`events
      ensures events == old(events) + [Drop(paths[..count])]
    {
      var e := Construct(DropKind, [count], paths);
      events := events + [e];
    }

    /** The backend invoking the registered callback for `cb`. */
    method Dispatch(cb: Callback)
      modifies this`events, this`size
      ensures events == old(events) + Emitted(cb)
      ensures size == SizeAfter(old(size), [cb])
    {
      match cb
      case KeyCallback(key, scancode, action, mods) => OnKey(key, scancode, action, mods);
      case MouseButtonCallback(button, action, mods) => OnMouseButton(button, action, mods);
      case CursorPosCallback(x, y) => OnCursorPos(x, y);
      case ScrollCallback(dx, dy) => OnScroll(dx, dy);
      case WindowSizeCallback(width, height) => OnWindowSize(width, height);
      case DropCallback(paths) =>
        OnDrop(|paths|, paths);
        assert paths[..|paths|] == paths;
    }

    /** `nextEvent()`: removes and returns the most recently queued event, or
        returns nothing and leaves an empty queue alone. */
    method NextEvent() returns (ev: Option<Event>)
      modifies this`events
      ensures old(events) == [] ==> ev == None && events == old(events)
      ensures old(events) != [] ==> ev == Some(old(events)[|old(events)| - 1]) && events == old(events)[..|old(events)| - 1]
      ensures (ev, events) == Pop(old(events))
    {
      if events == [] {
        ev := None;
      } else {
        ev := Some(events[|events| - 1]);
        events := events[..|events| - 1];
      }
    }

    /** `display()`, queue side: drops whatever is still queued, then polls, the
        backend running the pending callbacks in order. Afterwards the queue holds
        exactly the events of this poll, in arrival order. */
    method Display(pending: seq<Callback>)
      modifies this`events, this`size
      ensures events == EmittedAll(pending)
      ensures size == SizeAfter(old(size), pending)
    {
      events := [];
      for i := 0 to |pending|
        invariant events == EmittedAll(pending[..i])
        invariant size == SizeAfter(old(size), pending[..i])
      {
        Dispatch(pending[i]);
        assert pending[..i + 1][..i] == pending[..i];
      }
      assert pending[..|pending|] == pending;
    }

    /** The host's frame loop `while (auto event = window.nextEvent())`: pulls
        events until there are none, and so receives the queue newest first. */
    method DrainEvents() returns (drained: seq<Event>)
      modifies this`events
      ensures drained == Drain(old(events))
      ensures events == []
    {
      drained := [];
      var ev := NextEvent();
      while ev.Some?
        invariant drained + (if ev.Some? then [ev.value] else []) + Drain(events) == Drain(old(events))
        invariant ev.None? ==> events == []
        decreases |events| + (if ev.Some? then 1 else 0)
      {
        drained := drained + [ev.value];
        ev := NextEvent();
      }
    }
  }
}
