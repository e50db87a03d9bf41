/** Keyboard keys and mouse buttons as sogl names them, and the text they print as
    (src/Inputs.cpp). The enumeration `sogl::Key` is read off the switch tables of
    src/Inputs.cpp, src/Window.cpp and src/Event.cpp, which list the same keys. */
module Inputs {
  import opened Wrappers

  /** `sogl::Key`, an enumeration over `int`. The enumerators are numbered in the
      order the key tables list them, `Unknown` first; every other value of the
      underlying integer is a key without a case in any table. */
  newtype Key = int {
    static const Unknown: Key := 0
    static const Space: Key := 1
    static const Apostrophe: Key := 2
    static const Comma: Key := 3
    static const Minus: Key := 4
    static const Period: Key := 5
    static const Slash: Key := 6
    static const Num0: Key := 7
    static const Num1: Key := 8
    static const Num2: Key := 9
    static const Num3: Key := 10
    static const Num4: Key := 11
    static const Num5: Key := 12
    static const Num6: Key := 13
    static const Num7: Key := 14
    static const Num8: Key := 15
    static const Num9: Key := 16
    static const Semicolon: Key := 17
    static const Equal: Key := 18
    static const A: Key := 19
    static const B: Key := 20
    static const C: Key := 21
    static const D: Key := 22
    static const E: Key := 23
    static const F: Key := 24
    static const G: Key := 25
    static const H: Key := 26
    static const I: Key := 27
    static const J: Key := 28
    static const K: Key := 29
    static const L: Key := 30
    static const M: Key := 31
    static const N: Key := 32
    static const O: Key := 33
    static const P: Key := 34
    static const Q: Key := 35
    static const R: Key := 36
    static const S: Key := 37
    static const T: Key := 38
    static const U: Key := 39
    static const V: Key := 40
    static const W: Key := 41
    static const X: Key := 42
    static const Y: Key := 43
    static const Z: Key := 44
    static const LeftBracket: Key := 45
    static const Backslash: Key := 46
    static const RightBracket: Key := 47
    static const GraveAccent: Key := 48
    static const Escape: Key := 49
    static const Enter: Key := 50
    static const Tab: Key := 51
    static const Backspace: Key := 52
    static const Insert: Key := 53
    static const Delete: Key := 54
    static const Right: Key := 55
    static const Left: Key := 56
    static const Down: Key := 57
    static const Up: Key := 58
    static const PageUp: Key := 59
    static const PageDown: Key := 60
    static const Home: Key := 61
    static const End: Key := 62
    static const CapsLock: Key := 63
    static const ScrollLock: Key := 64
    static const NumLock: Key := 65
    static const PrintScreen: Key := 66
    static const Pause: Key := 67
    static const F1: Key := 68
    static const F2: Key := 69
    static const F3: Key := 70
    static const F4: Key := 71
    static const F5: Key := 72
    static const F6: Key := 73
    static const F7: Key := 74
    static const F8: Key := 75
    static const F9: Key := 76
    static const F10: Key := 77
    static const F11: Key := 78
    static const F12: Key := 79
    static const F13: Key := 80
    static const F14: Key := 81
    static const F15: Key := 82
    static const F16: Key := 83
    static const F17: Key := 84
    static const F18: Key := 85
    static const F19: Key := 86
    static const F20: Key := 87
    static const F21: Key := 88
    static const F22: Key := 89
    static const F23: Key := 90
    static const F24: Key := 91
    static const F25: Key := 92
    static const Numpad0: Key := 93
    static const Numpad1: Key := 94
    static const Numpad2: Key := 95
    static const Numpad3: Key := 96
    static const Numpad4: Key := 97
    static const Numpad5: Key := 98
    static const Numpad6: Key := 99
    static const Numpad7: Key := 100
    static const Numpad8: Key := 101
    static const Numpad9: Key := 102
    static const NumpadPoint: Key := 103
    static const NumpadDivide: Key := 104
    static const NumpadMultiply: Key := 105
    static const NumpadSubstract: Key := 106
    static const NumpadAdd: Key := 107
    static const NumpadEnter: Key := 108
    static const NumpadEqual: Key := 109
    static const LeftShift: Key := 110
    static const LeftControl: Key := 111
    static const LeftAlt: Key := 112
    static const LeftSuper: Key := 113
    static const RightShift: Key := 114
    static const RightControl: Key := 115
    static const RightAlt: Key := 116
    static const RightSuper: Key := 117
  }

  /** The enumerators of `Key`. */
  predicate IsEnumerator(key: Key)
  {
    Key.Unknown <= key <= Key.RightSuper
  }

  /** The enumerators with a name of their own: all but `Unknown`. */
  predicate IsNamed(key: Key)
  {
    Key.Space <= key <= Key.RightSuper
  }

  /** `sogl::MouseButton`: the eight named buttons, and `Other(code)` for a value of
      the enumeration that has no case of its own in the name table. */
  datatype MouseButton =
    | Left | Middle | Right
    | Extra1 | Extra2 | Extra3 | Extra4 | Extra5
    | Other(code: int)

  /** keyToString: the enumerator spelling of a named key; `Unknown` (and any key
      without a case) falls through to "Unknown". */
  function KeyToString(key: Key): (name: string)
    ensures !IsNamed(key) ==> name == "Unknown"
  {
    if key == Key.Space then "Space"
    else if key == Key.Apostrophe then "Apostrophe"
    else if key == Key.Comma then "Comma"
    else if key == Key.Minus then "Minus"
    else if key == Key.Period then "Period"
    else if key == Key.Slash then "Slash"
    else if key == Key.Num0 then "Num0"
    else if key == Key.Num1 then "Num1"
    else if key == Key.Num2 then "Num2"
    else if key == Key.Num3 then "Num3"
    else if key == Key.Num4 then "Num4"
    else if key == Key.Num5 then "Num5"
    else if key == Key.Num6 then "Num6"
    else if key == Key.Num7 then "Num7"
    else if key == Key.Num8 then "Num8"
    else if key == Key.Num9 then "Num9"
    else if key == Key.Semicolon then "Semicolon"
    else if key == Key.Equal then "Equal"
    else if key == Key.A then "A"
    else if key == Key.B then "B"
    else if key == Key.C then "C"
    else if key == Key.D then "D"
    else if key == Key.E then "E"
    else if key == Key.F then "F"
    else if key == Key.G then "G"
    else if key == Key.H then "H"
    else if key == Key.I then "I"
    else if key == Key.J then "J"
    else if key == Key.K then "K"
    else if key == Key.L then "L"
    else if key == Key.M then "M"
    else if key == Key.N then "N"
    else if key == Key.O then "O"
    else if key == Key.P then "P"
    else if key == Key.Q then "Q"
    else if key == Key.R then "R"
    else if key == Key.S then "S"
    else if key == Key.T then "T"
    else if key == Key.U then "U"
    else if key == Key.V then "V"
    else if key == Key.W then "W"
    else if key == Key.X then "X"
    else if key == Key.Y then "Y"
    else if key == Key.Z then "Z"
    else if key == Key.LeftBracket then "LeftBracket"
    else if key == Key.Backslash then "Backslash"
    else if key == Key.RightBracket then "RightBracket"
    else if key == Key.GraveAccent then "GraveAccent"
    else if key == Key.Escape then "Escape"
    else if key == Key.Enter then "Enter"
    else if key == Key.Tab then "Tab"
    else if key == Key.Backspace then "Backspace"
    else if key == Key.Insert then "Insert"
    else if key == Key.Delete then "Delete"
    else if key == Key.Right then "Right"
    else if key == Key.Left then "Left"
    else if key == Key.Down then "Down"
    else if key == Key.Up then "Up"
    else if key == Key.PageUp then "PageUp"
    else if key == Key.PageDown then "PageDown"
    else if key == Key.Home then "Home"
    else if key == Key.End then "End"
    else if key == Key.CapsLock then "CapsLock"
    else if key == Key.ScrollLock then "ScrollLock"
    else if key == Key.NumLock then "NumLock"
    else if key == Key.PrintScreen then "PrintScreen"
    else if key == Key.Pause then "Pause"
    else if key == Key.F1 then "F1"
    else if key == Key.F2 then "F2"
    else if key == Key.F3 then "F3"
    else if key == Key.F4 then "F4"
    else if key == Key.F5 then "F5"
    else if key == Key.F6 then "F6"
    else if key == Key.F7 then "F7"
    else if key == Key.F8 then "F8"
    else if key == Key.F9 then "F9"
    else if key == Key.F10 then "F10"
    else if key == Key.F11 then "F11"
    else if key == Key.F12 then "F12"
    else if key == Key.F13 then "F13"
    else if key == Key.F14 then "F14"
    else if key == Key.F15 then "F15"
    else if key == Key.F16 then "F16"
    else if key == Key.F17 then "F17"
    else if key == Key.F18 then "F18"
    else if key == Key.F19 then "F19"
    else if key == Key.F20 then "F20"
    else if key == Key.F21 then "F21"
    else if key == Key.F22 then "F22"
    else if key == Key.F23 then "F23"
    else if key == Key.F24 then "F24"
    else if key == Key.F25 then "F25"
    else if key == Key.Numpad0 then "Numpad0"
    else if key == Key.Numpad1 then "Numpad1"
    else if key == Key.Numpad2 then "Numpad2"
    else if key == Key.Numpad3 then "Numpad3"
    else if key == Key.Numpad4 then "Numpad4"
    else if key == Key.Numpad5 then "Numpad5"
    else if key == Key.Numpad6 then "Numpad6"
    else if key == Key.Numpad7 then "Numpad7"
    else if key == Key.Numpad8 then "Numpad8"
    else if key == Key.Numpad9 then "Numpad9"
    else if key == Key.NumpadPoint then "NumpadPoint"
    else if key == Key.NumpadDivide then "NumpadDivide"
    else if key == Key.NumpadMultiply then "NumpadMultiply"
    else if key == Key.NumpadSubstract then "NumpadSubstract"
    else if key == Key.NumpadAdd then "NumpadAdd"
    else if key == Key.NumpadEnter then "NumpadEnter"
    else if key == Key.NumpadEqual then "NumpadEqual"
    else if key == Key.LeftShift then "LeftShift"
    else if key == Key.LeftControl then "LeftControl"
    else if key == Key.LeftAlt then "LeftAlt"
    else if key == Key.LeftSuper then "LeftSuper"
    else if key == Key.RightShift then "RightShift"
    else if key == Key.RightControl then "RightControl"
    else if key == Key.RightAlt then "RightAlt"
    else if key == Key.RightSuper then "RightSuper"
    else "Unknown"
  }

  /** mouseButtonToString: the name of a named button, "Unknown" for anything else. */
  function MouseButtonToString(button: MouseButton): (name: string)
    ensures name == "Unknown" <==> button.Other?
  {
    match button
    case Left => "Left"
    case Middle => "Middle"
    case Right => "Right"
    case Extra1 => "Extra1"
    case Extra2 => "Extra2"
    case Extra3 => "Extra3"
    case Extra4 => "Extra4"
    case Extra5 => "Extra5"
    case _ => "Unknown"
  }

  /** `os << key`: the key's name between "Key<" and ">"; the name can be read
      back out of the text. */
  function KeyText(key: Key): (text: string)
    ensures |text| == |KeyToString(key)| + 5
    ensures text[..4] == "Key<" && text[|text| - 1] == '>' && text[4..|text| - 1] == KeyToString(key)
  {
    "Key<" + KeyToString(key) + ">"
  }

  /** `os << button`: the button's name between "MouseButton<" and ">"; the
      name can be read back out of the text. */
  function MouseButtonText(button: MouseButton): (text: string)
    ensures |text| == |MouseButtonToString(button)| + 13
    ensures text[..12] == "MouseButton<" && text[|text| - 1] == '>' && text[12..|text| - 1] == MouseButtonToString(button)
  {
    "MouseButton<" + MouseButtonToString(button) + ">"
  }

  /** Reference reading of the key names, independent of the printing table: the
      key whose enumerator is spelled `name`, found from the name's length and
      then one character at a time. "Unknown" is the fallback text, not a name. */
  function KeyNamed(name: string): Option<Key>
  {
    if |name| == 1 then
      (
      match name[0]
      case 'A' =>
        if name == "A" then Some(Key.A) else None
      case 'B' =>
        if name == "B" then Some(Key.B) else None
      case 'C' =>
        if name == "C" then Some(Key.C) else None
      case 'D' =>
        if name == "D" then Some(Key.D) else None
      case 'E' =>
        if name == "E" then Some(Key.E) else None
      case 'F' =>
        if name == "F" then Some(Key.F) else None
      case 'G' =>
        if name == "G" then Some(Key.G) else None
      case 'H' =>
        if name == "H" then Some(Key.H) else None
      case 'I' =>
        if name == "I" then Some(Key.I) else None
      case 'J' =>
        if name == "J" then Some(Key.J) else None
      case 'K' =>
        if name == "K" then Some(Key.K) else None
      case 'L' =>
        if name == "L" then Some(Key.L) else None
      case 'M' =>
        if name == "M" then Some(Key.M) else None
      case 'N' =>
        if name == "N" then Some(Key.N) else None
      case 'O' =>
        if name == "O" then Some(Key.O) else None
      case 'P' =>
        if name == "P" then Some(Key.P) else None
      case 'Q' =>
        if name == "Q" then Some(Key.Q) else None
      case 'R' =>
        if name == "R" then Some(Key.R) else None
      case 'S' =>
        if name == "S" then Some(Key.S) else None
      case 'T' =>
        if name == "T" then Some(Key.T) else None
      case 'U' =>
        if name == "U" then Some(Key.U) else None
      case 'V' =>
        if name == "V" then Some(Key.V) else None
      case 'W' =>
        if name == "W" then Some(Key.W) else None
      case 'X' =>
        if name == "X" then Some(Key.X) else None
      case 'Y' =>
        if name == "Y" then Some(Key.Y) else None
      case 'Z' =>
        if name == "Z" then Some(Key.Z) else None
      case _ => None
      )
    else if |name| == 2 then
      (
      match name[1]
      case '1' =>
        if name == "F1" then Some(Key.F1) else None
      case '2' =>
        if name == "F2" then Some(Key.F2) else None
      case '3' =>
        if name == "F3" then Some(Key.F3) else None
      case '4' =>
        if name == "F4" then Some(Key.F4) else None
      case '5' =>
        if name == "F5" then Some(Key.F5) else None
      case '6' =>
        if name == "F6" then Some(Key.F6) else None
      case '7' =>
        if name == "F7" then Some(Key.F7) else None
      case '8' =>
        if name == "F8" then Some(Key.F8) else None
      case '9' =>
        if name == "F9" then Some(Key.F9) else None
      case 'p' =>
        if name == "Up" then Some(Key.Up) else None
      case _ => None
      )
    else if |name| == 3 then
      (
      match name[2]
      case '0' =>
        (
        match name[1]
        case '1' =>
          if name == "F10" then Some(Key.F10) else None
        case '2' =>
          if name == "F20" then Some(Key.F20) else None
        case _ => None
        )
      case '1' =>
        (
        match name[1]
        case '1' =>
          if name == "F11" then Some(Key.F11) else None
        case '2' =>
          if name == "F21" then Some(Key.F21) else None
        case _ => None
        )
      case '2' =>
        (
        match name[1]
        case '1' =>
          if name == "F12" then Some(Key.F12) else None
        case '2' =>
          if name == "F22" then Some(Key.F22) else None
        case _ => None
        )
      case '3' =>
        (
        match name[1]
        case '1' =>
          if name == "F13" then Some(Key.F13) else None
        case '2' =>
          if name == "F23" then Some(Key.F23) else None
        case _ => None
        )
      case '4' =>
        (
        match name[1]
        case '1' =>
          if name == "F14" then Some(Key.F14) else None
        case '2' =>
          if name == "F24" then Some(Key.F24) else None
        case _ => None
        )
      case '5' =>
        (
        match name[1]
        case '1' =>
          if name == "F15" then Some(Key.F15) else None
        case '2' =>
          if name == "F25" then Some(Key.F25) else None
        case _ => None
        )
      case '6' =>
        if name == "F16" then Some(Key.F16) else None
      case '7' =>
        if name == "F17" then Some(Key.F17) else None
      case '8' =>
        if name == "F18" then Some(Key.F18) else None
      case '9' =>
        if name == "F19" then Some(Key.F19) else None
      case 'b' =>
        if name == "Tab" then Some(Key.Tab) else None
      case 'd' =>
        if name == "End" then Some(Key.End) else None
      case _ => None
      )
    else if |name| == 4 then
      (
      match name[3]
      case '0' =>
        if name == "Num0" then Some(Key.Num0) else None
      case '1' =>
        if name == "Num1" then Some(Key.Num1) else None
      case '2' =>
        if name == "Num2" then Some(Key.Num2) else None
      case '3' =>
        if name == "Num3" then Some(Key.Num3) else None
      case '4' =>
        if name == "Num4" then Some(Key.Num4) else None
      case '5' =>
        if name == "Num5" then Some(Key.Num5) else None
      case '6' =>
        if name == "Num6" then Some(Key.Num6) else None
      case '7' =>
        if name == "Num7" then Some(Key.Num7) else None
      case '8' =>
        if name == "Num8" then Some(Key.Num8) else None
      case '9' =>
        if name == "Num9" then Some(Key.Num9) else None
      case 'e' =>
        if name == "Home" then Some(Key.Home) else None
      case 'n' =>
        if name == "Down" then Some(Key.Down) else None
      case 't' =>
        if name == "Left" then Some(Key.Left) else None
      case _ => None
      )
    else if |name| == 5 then
      (
      match name[1]
      case 'a' =>
        if name == "Pause" then Some(Key.Pause) else None
      case 'i' =>
        (
        match name[0]
        case 'M' =>
          if name == "Minus" then Some(Key.Minus) else None
        case 'R' =>
          if name == "Right" then Some(Key.Right) else None
        case _ => None
        )
      case 'l' =>
        if name == "Slash" then Some(Key.Slash) else None
      case 'n' =>
        if name == "Enter" then Some(Key.Enter) else None
      case 'o' =>
        if name == "Comma" then Some(Key.Comma) else None
      case 'p' =>
        if name == "Space" then Some(Key.Space) else None
      case 'q' =>
        if name == "Equal" then Some(Key.Equal) else None
      case _ => None
      )
    else if |name| == 6 then
      (
      match name[2]
      case 'c' =>
        if name == "Escape" then Some(Key.Escape) else None
      case 'g' =>
        if name == "PageUp" then Some(Key.PageUp) else None
      case 'l' =>
        if name == "Delete" then Some(Key.Delete) else None
      case 'r' =>
        if name == "Period" then Some(Key.Period) else None
      case 's' =>
        if name == "Insert" then Some(Key.Insert) else None
      case _ => None
      )
    else if |name| == 7 then
      (
      match name[6]
      case '0' =>
        if name == "Numpad0" then Some(Key.Numpad0) else None
      case '1' =>
        if name == "Numpad1" then Some(Key.Numpad1) else None
      case '2' =>
        if name == "Numpad2" then Some(Key.Numpad2) else None
      case '3' =>
        if name == "Numpad3" then Some(Key.Numpad3) else None
      case '4' =>
        if name == "Numpad4" then Some(Key.Numpad4) else None
      case '5' =>
        if name == "Numpad5" then Some(Key.Numpad5) else None
      case '6' =>
        if name == "Numpad6" then Some(Key.Numpad6) else None
      case '7' =>
        if name == "Numpad7" then Some(Key.Numpad7) else None
      case '8' =>
        if name == "Numpad8" then Some(Key.Numpad8) else None
      case '9' =>
        if name == "Numpad9" then Some(Key.Numpad9) else None
      case 'k' =>
        if name == "NumLock" then Some(Key.NumLock) else None
      case 't' =>
        if name == "LeftAlt" then Some(Key.LeftAlt) else None
      case _ => None
      )
    else if |name| == 8 then
      (
      match name[0]
      case 'C' =>
        if name == "CapsLock" then Some(Key.CapsLock) else None
      case 'P' =>
        if name == "PageDown" then Some(Key.PageDown) else None
      case 'R' =>
        if name == "RightAlt" then Some(Key.RightAlt) else None
      case _ => None
      )
    else if |name| == 9 then
      (
      match name[5]
      case 'd' =>
        if name == "NumpadAdd" then Some(Key.NumpadAdd) else None
      case 'h' =>
        if name == "LeftShift" then Some(Key.LeftShift) else None
      case 'l' =>
        if name == "Backslash" then Some(Key.Backslash) else None
      case 'o' =>
        if name == "Semicolon" then Some(Key.Semicolon) else None
      case 'p' =>
        if name == "Backspace" then Some(Key.Backspace) else None
      case 'u' =>
        if name == "LeftSuper" then Some(Key.LeftSuper) else None
      case _ => None
      )
    else if |name| == 10 then
      (
      match name[6]
      case 'L' =>
        if name == "ScrollLock" then Some(Key.ScrollLock) else None
      case 'h' =>
        if name == "RightShift" then Some(Key.RightShift) else None
      case 'o' =>
        if name == "Apostrophe" then Some(Key.Apostrophe) else None
      case 'u' =>
        if name == "RightSuper" then Some(Key.RightSuper) else None
      case _ => None
      )
    else if |name| == 11 then
      (
      match name[7]
      case 'c' =>
        (
        match name[0]
        case 'G' =>
          if name == "GraveAccent" then Some(Key.GraveAccent) else None
        case 'L' =>
          if name == "LeftBracket" then Some(Key.LeftBracket) else None
        case _ => None
        )
      case 'n' =>
        if name == "NumpadEnter" then Some(Key.NumpadEnter) else None
      case 'o' =>
        if name == "NumpadPoint" then Some(Key.NumpadPoint) else None
      case 'q' =>
        if name == "NumpadEqual" then Some(Key.NumpadEqual) else None
      case 'r' =>
        if name == "PrintScreen" then Some(Key.PrintScreen) else None
      case 't' =>
        if name == "LeftControl" then Some(Key.LeftControl) else None
      case _ => None
      )
    else if |name| == 12 then
      (
      match name[5]
      case 'B' =>
        if name == "RightBracket" then Some(Key.RightBracket) else None
      case 'C' =>
        if name == "RightControl" then Some(Key.RightControl) else None
      case 'd' =>
        if name == "NumpadDivide" then Some(Key.NumpadDivide) else None
      case _ => None
      )
    else if |name| == 14 then
      (
      if name == "NumpadMultiply" then Some(Key.NumpadMultiply) else None
      )
    else if |name| == 15 then
      (
      if name == "NumpadSubstract" then Some(Key.NumpadSubstract) else None
      )
    else None
  }

  /** Reading back the names of the punctuation and digit keys. */
  lemma KeyNamedPunctuation(key: Key)
    requires Key.Space <= key <= Key.Equal
    ensures KeyNamed(KeyToString(key)) == Some(key)
  {
  }

  /** Reading back the names of the letters A to M. */
  lemma KeyNamedLettersAToM(key: Key)
    requires Key.A <= key <= Key.M
    ensures KeyNamed(KeyToString(key)) == Some(key)
  {
  }

  /** Reading back the names of the letters N to Z. */
  lemma KeyNamedLettersNToZ(key: Key)
    requires Key.N <= key <= Key.Z
    ensures KeyNamed(KeyToString(key)) == Some(key)
  {
  }

  /** Reading back the names of the brackets, escape, enter, tab and the editing keys. */
  lemma KeyNamedEditing(key: Key)
    requires Key.LeftBracket <= key <= Key.Delete
    ensures KeyNamed(KeyToString(key)) == Some(key)
  {
  }

  /** Reading back the names of the arrow, paging and lock keys. */
  lemma KeyNamedNavigation(key: Key)
    requires Key.Right <= key <= Key.Pause
    ensures KeyNamed(KeyToString(key)) == Some(key)
  {
  }

  /** Reading back the names of the function keys F1 to F12. */
  lemma KeyNamedLowFunction(key: Key)
    requires Key.F1 <= key <= Key.F12
    ensures KeyNamed(KeyToString(key)) == Some(key)
  {
  }

  /** Reading back the names of the function keys F13 to F25. */
  lemma KeyNamedHighFunction(key: Key)
    requires Key.F13 <= key <= Key.F25
    ensures KeyNamed(KeyToString(key)) == Some(key)
  {
  }

  /** Reading back the names of the keypad keys. */
  lemma KeyNamedKeypad(key: Key)
    requires Key.Numpad0 <= key <= Key.NumpadEqual
    ensures KeyNamed(KeyToString(key)) == Some(key)
  {
  }

  /** Reading back the names of the modifier keys. */
  lemma KeyNamedModifiers(key: Key)
    requires Key.LeftShift <= key <= Key.RightSuper
    ensures KeyNamed(KeyToString(key)) == Some(key)
  {
  }

  /** Every named key's printed name reads back as that key. */
  lemma KeyNamedAll(key: Key)
    requires IsNamed(key)
    ensures KeyNamed(KeyToString(key)) == Some(key)
  {
    if key <= Key.Equal {
      KeyNamedPunctuation(key);
    } else if key <= Key.M {
      KeyNamedLettersAToM(key);
    } else if key <= Key.Z {
      KeyNamedLettersNToZ(key);
    } else if key <= Key.Delete {
      KeyNamedEditing(key);
    } else if key <= Key.Pause {
      KeyNamedNavigation(key);
    } else if key <= Key.F12 {
      KeyNamedLowFunction(key);
    } else if key <= Key.F25 {
      KeyNamedHighFunction(key);
    } else if key <= Key.NumpadEqual {
      KeyNamedKeypad(key);
    } else {
      KeyNamedModifiers(key);
    }
  }

  /** Every named key prints as its own enumerator spelling, which reads back as
      that key; the fallback text "Unknown" reads back as no key. */
  lemma KeyToStringSpelling(key: Key)
    ensures IsNamed(key) ==> KeyNamed(KeyToString(key)) == Some(key)
    ensures KeyNamed("Unknown") == None
  {
    if IsNamed(key) {
      KeyNamedAll(key);
    }
  }

  /** A key prints as "Unknown" exactly when it has no name of its own: it is
      `Unknown` or a value outside the enumerators. */
  lemma KeyToStringUnknown(key: Key)
    ensures KeyToString(key) == "Unknown" <==> !IsNamed(key)
  {
    KeyToStringSpelling(key);
  }

  /** Keys with the same name are the same key, unless both print "Unknown". */
  lemma KeyToStringInjective(a: Key, b: Key)
    requires KeyToString(a) == KeyToString(b)
    ensures a == b || (!IsNamed(a) && !IsNamed(b))
  {
    KeyToStringUnknown(a);
    KeyToStringUnknown(b);
    KeyToStringSpelling(a);
    KeyToStringSpelling(b);
  }

  /** The printed form of a key is "Key<", its name, then ">", so distinct named
      keys print differently. */
  lemma KeyTextInjective(a: Key, b: Key)
    requires KeyText(a) == KeyText(b)
    ensures a == b || (!IsNamed(a) && !IsNamed(b))
  {
    KeyToStringInjective(a, b);
  }

  /** A button prints as "Unknown" exactly when it has no case of its own, and
      the eight named buttons have eight distinct names. */
  lemma MouseButtonToStringNames(a: MouseButton, b: MouseButton)
    ensures MouseButtonToString(a) == "Unknown" <==> a.Other?
    ensures !a.Other? && !b.Other? && MouseButtonToString(a) == MouseButtonToString(b) ==> a == b
  {
  }

  /** The printed form of a button is "MouseButton<", its name, then ">", so two
      named buttons print differently. */
  lemma MouseButtonTextInjective(a: MouseButton, b: MouseButton)
    requires !a.Other? && !b.Other?
    requires MouseButtonText(a) == MouseButtonText(b)
    ensures a == b
  {
    MouseButtonToStringNames(a, b);
  }
}
