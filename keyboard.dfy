// `Keyboard::toVirtualKey` and `Keyboard::toKey`
// (src/platforms/windows_keyboard_impl.h): the two directions of the table
// between VKDL's keys and Win32 virtual-key codes.
module Keyboard {
  /** `Key`, an enumeration. Its header is not part of this model: the keys
      the table lists are numbered in table order from 0, `Unknown` is -1,
      and any other value stands for a key the table does not list. */
  type Key = int

  const A: Key := 0
  const B: Key := 1
  const C: Key := 2
  const D: Key := 3
  const E: Key := 4
  const F: Key := 5
  const G: Key := 6
  const H: Key := 7
  const I: Key := 8
  const J: Key := 9
  const K: Key := 10
  const L: Key := 11
  const M: Key := 12
  const N: Key := 13
  const O: Key := 14
  const P: Key := 15
  const Q: Key := 16
  const R: Key := 17
  const S: Key := 18
  const T: Key := 19
  const U: Key := 20
  const V: Key := 21
  const W: Key := 22
  const X: Key := 23
  const Y: Key := 24
  const Z: Key := 25
  const Num0: Key := 26
  const Num1: Key := 27
  const Num2: Key := 28
  const Num3: Key := 29
  const Num4: Key := 30
  const Num5: Key := 31
  const Num6: Key := 32
  const Num7: Key := 33
  const Num8: Key := 34
  const Num9: Key := 35
  const Escape: Key := 36
  const LControl: Key := 37
  const LShift: Key := 38
  const LAlt: Key := 39
  const LSystem: Key := 40
  const RControl: Key := 41
  const RShift: Key := 42
  const RAlt: Key := 43
  const RSystem: Key := 44
  const Menu: Key := 45
  const LBracket: Key := 46
  const RBracket: Key := 47
  const Semicolon: Key := 48
  const Comma: Key := 49
  const Period: Key := 50
  const Apostrophe: Key := 51
  const Slash: Key := 52
  const Backslash: Key := 53
  const Grave: Key := 54
  const Equal: Key := 55
  const Hyphen: Key := 56
  const Space: Key := 57
  const Enter: Key := 58
  const Backspace: Key := 59
  const Tab: Key := 60
  const PageUp: Key := 61
  const PageDown: Key := 62
  const End: Key := 63
  const Home: Key := 64
  const Insert: Key := 65
  const Delete: Key := 66
  const Add: Key := 67
  const Subtract: Key := 68
  const Multiply: Key := 69
  const Divide: Key := 70
  const Left: Key := 71
  const Right: Key := 72
  const Up: Key := 73
  const Down: Key := 74
  const Numpad0: Key := 75
  const Numpad1: Key := 76
  const Numpad2: Key := 77
  const Numpad3: Key := 78
  const Numpad4: Key := 79
  const Numpad5: Key := 80
  const Numpad6: Key := 81
  const Numpad7: Key := 82
  const Numpad8: Key := 83
  const Numpad9: Key := 84
  const F1: Key := 85
  const F2: Key := 86
  const F3: Key := 87
  const F4: Key := 88
  const F5: Key := 89
  const F6: Key := 90
  const F7: Key := 91
  const F8: Key := 92
  const F9: Key := 93
  const F10: Key := 94
  const F11: Key := 95
  const F12: Key := 96
  const F13: Key := 97
  const F14: Key := 98
  const F15: Key := 99
  const Pause: Key := 100
  const Unknown: Key := -1
  const KeyCount := 101

  // Win32 virtual-key codes used by the table (WinUser.h).
  const VK_BACK: nat := 0x08
  const VK_TAB: nat := 0x09
  const VK_RETURN: nat := 0x0D
  const VK_PAUSE: nat := 0x13
  const VK_ESCAPE: nat := 0x1B
  const VK_SPACE: nat := 0x20
  const VK_PRIOR: nat := 0x21
  const VK_NEXT: nat := 0x22
  const VK_END: nat := 0x23
  const VK_HOME: nat := 0x24
  const VK_LEFT: nat := 0x25
  const VK_UP: nat := 0x26
  const VK_RIGHT: nat := 0x27
  const VK_DOWN: nat := 0x28
  const VK_INSERT: nat := 0x2D
  const VK_DELETE: nat := 0x2E
  const VK_LWIN: nat := 0x5B
  const VK_RWIN: nat := 0x5C
  const VK_APPS: nat := 0x5D
  const VK_NUMPAD0: nat := 0x60
  const VK_NUMPAD1: nat := 0x61
  const VK_NUMPAD2: nat := 0x62
  const VK_NUMPAD3: nat := 0x63
  const VK_NUMPAD4: nat := 0x64
  const VK_NUMPAD5: nat := 0x65
  const VK_NUMPAD6: nat := 0x66
  const VK_NUMPAD7: nat := 0x67
  const VK_NUMPAD8: nat := 0x68
  const VK_NUMPAD9: nat := 0x69
  const VK_MULTIPLY: nat := 0x6A
  const VK_ADD: nat := 0x6B
  const VK_SUBTRACT: nat := 0x6D
  const VK_DIVIDE: nat := 0x6F
  const VK_F1: nat := 0x70
  const VK_F2: nat := 0x71
  const VK_F3: nat := 0x72
  const VK_F4: nat := 0x73
  const VK_F5: nat := 0x74
  const VK_F6: nat := 0x75
  const VK_F7: nat := 0x76
  const VK_F8: nat := 0x77
  const VK_F9: nat := 0x78
  const VK_F10: nat := 0x79
  const VK_F11: nat := 0x7A
  const VK_F12: nat := 0x7B
  const VK_F13: nat := 0x7C
  const VK_F14: nat := 0x7D
  const VK_F15: nat := 0x7E
  const VK_LSHIFT: nat := 0xA0
  const VK_RSHIFT: nat := 0xA1
  const VK_LCONTROL: nat := 0xA2
  const VK_RCONTROL: nat := 0xA3
  const VK_LMENU: nat := 0xA4
  const VK_RMENU: nat := 0xA5
  const VK_OEM_1: nat := 0xBA
  const VK_OEM_PLUS: nat := 0xBB
  const VK_OEM_COMMA: nat := 0xBC
  const VK_OEM_MINUS: nat := 0xBD
  const VK_OEM_PERIOD: nat := 0xBE
  const VK_OEM_2: nat := 0xBF
  const VK_OEM_3: nat := 0xC0
  const VK_OEM_4: nat := 0xDB
  const VK_OEM_5: nat := 0xDC
  const VK_OEM_6: nat := 0xDD
  const VK_OEM_7: nat := 0xDE

  /** The keys the table lists. */
  predicate Listed(k: Key) { 0 <= k < KeyCount }

  /** `toVirtualKey`: letters and digits map to their uppercase ASCII code,
      every other listed key to its `VK_` code, and any other key to 0. */
  function ToVirtualKey(k: Key): nat
  {
    if k == A then 'A' as nat
    else if k == B then 'B' as nat
    else if k == C then 'C' as nat
    else if k == D then 'D' as nat
    else if k == E then 'E' as nat
    else if k == F then 'F' as nat
    else if k == G then 'G' as nat
    else if k == H then 'H' as nat
    else if k == I then 'I' as nat
    else if k == J then 'J' as nat
    else if k == K then 'K' as nat
    else if k == L then 'L' as nat
    else if k == M then 'M' as nat
    else if k == N then 'N' as nat
    else if k == O then 'O' as nat
    else if k == P then 'P' as nat
    else if k == Q then 'Q' as nat
    else if k == R then 'R' as nat
    else if k == S then 'S' as nat
    else if k == T then 'T' as nat
    else if k == U then 'U' as nat
    else if k == V then 'V' as nat
    else if k == W then 'W' as nat
    else if k == X then 'X' as nat
    else if k == Y then 'Y' as nat
    else if k == Z then 'Z' as nat
    else if k == Num0 then '0' as nat
    else if k == Num1 then '1' as nat
    else if k == Num2 then '2' as nat
    else if k == Num3 then '3' as nat
    else if k == Num4 then '4' as nat
    else if k == Num5 then '5' as nat
    else if k == Num6 then '6' as nat
    else if k == Num7 then '7' as nat
    else if k == Num8 then '8' as nat
    else if k == Num9 then '9' as nat
    else if k == Escape then VK_ESCAPE
    else if k == LControl then VK_LCONTROL
    else if k == LShift then VK_LSHIFT
    else if k == LAlt then VK_LMENU
    else if k == LSystem then VK_LWIN
    else if k == RControl then VK_RCONTROL
    else if k == RShift then VK_RSHIFT
    else if k == RAlt then VK_RMENU
    else if k == RSystem then VK_RWIN
    else if k == Menu then VK_APPS
    else if k == LBracket then VK_OEM_4
    else if k == RBracket then VK_OEM_6
    else if k == Semicolon then VK_OEM_1
    else if k == Comma then VK_OEM_COMMA
    else if k == Period then VK_OEM_PERIOD
    else if k == Apostrophe then VK_OEM_7
    else if k == Slash then VK_OEM_2
    else if k == Backslash then VK_OEM_5
    else if k == Grave then VK_OEM_3
    else if k == Equal then VK_OEM_PLUS
    else if k == Hyphen then VK_OEM_MINUS
    else if k == Space then VK_SPACE
    else if k == Enter then VK_RETURN
    else if k == Backspace then VK_BACK
    else if k == Tab then VK_TAB
    else if k == PageUp then VK_PRIOR
    else if k == PageDown then VK_NEXT
    else if k == End then VK_END
    else if k == Home then VK_HOME
    else if k == Insert then VK_INSERT
    else if k == Delete then VK_DELETE
    else if k == Add then VK_ADD
    else if k == Subtract then VK_SUBTRACT
    else if k == Multiply then VK_MULTIPLY
    else if k == Divide then VK_DIVIDE
    else if k == Left then VK_LEFT
    else if k == Right then VK_RIGHT
    else if k == Up then VK_UP
    else if k == Down then VK_DOWN
    else if k == Numpad0 then VK_NUMPAD0
    else if k == Numpad1 then VK_NUMPAD1
    else if k == Numpad2 then VK_NUMPAD2
    else if k == Numpad3 then VK_NUMPAD3
    else if k == Numpad4 then VK_NUMPAD4
    else if k == Numpad5 then VK_NUMPAD5
    else if k == Numpad6 then VK_NUMPAD6
    else if k == Numpad7 then VK_NUMPAD7
    else if k == Numpad8 then VK_NUMPAD8
    else if k == Numpad9 then VK_NUMPAD9
    else if k == F1 then VK_F1
    else if k == F2 then VK_F2
    else if k == F3 then VK_F3
    else if k == F4 then VK_F4
    else if k == F5 then VK_F5
    else if k == F6 then VK_F6
    else if k == F7 then VK_F7
    else if k == F8 then VK_F8
    else if k == F9 then VK_F9
    else if k == F10 then VK_F10
    else if k == F11 then VK_F11
    else if k == F12 then VK_F12
    else if k == F13 then VK_F13
    else if k == F14 then VK_F14
    else if k == F15 then VK_F15
    else if k == Pause then VK_PAUSE
    else 0
  }

  /** `toKey`: the inverse lookup, `Unknown` for a code the table does not
      list. */
  function ToKey(vk: nat): Key
  {
    match vk
    case 65 => A
    case 66 => B
    case 67 => C
    case 68 => D
    case 69 => E
    case 70 => F
    case 71 => G
    case 72 => H
    case 73 => I
    case 74 => J
    case 75 => K
    case 76 => L
    case 77 => M
    case 78 => N
    case 79 => O
    case 80 => P
    case 81 => Q
    case 82 => R
    case 83 => S
    case 84 => T
    case 85 => U
    case 86 => V
    case 87 => W
    case 88 => X
    case 89 => Y
    case 90 => Z
    case 48 => Num0
    case 49 => Num1
    case 50 => Num2
    case 51 => Num3
    case 52 => Num4
    case 53 => Num5
    case 54 => Num6
    case 55 => Num7
    case 56 => Num8
    case 57 => Num9
    case 27 => Escape
    case 162 => LControl
    case 160 => LShift
    case 164 => LAlt
    case 91 => LSystem
    case 163 => RControl
    case 161 => RShift
    case 165 => RAlt
    case 92 => RSystem
    case 93 => Menu
    case 219 => LBracket
    case 221 => RBracket
    case 186 => Semicolon
    case 188 => Comma
    case 190 => Period
    case 222 => Apostrophe
    case 191 => Slash
    case 220 => Backslash
    case 192 => Grave
    case 187 => Equal
    case 189 => Hyphen
    case 32 => Space
    case 13 => Enter
    case 8 => Backspace
    case 9 => Tab
    case 33 => PageUp
    case 34 => PageDown
    case 35 => End
    case 36 => Home
    case 45 => Insert
    case 46 => Delete
    case 107 => Add
    case 109 => Subtract
    case 106 => Multiply
    case 111 => Divide
    case 37 => Left
    case 39 => Right
    case 38 => Up
    case 40 => Down
    case 96 => Numpad0
    case 97 => Numpad1
    case 98 => Numpad2
    case 99 => Numpad3
    case 100 => Numpad4
    case 101 => Numpad5
    case 102 => Numpad6
    case 103 => Numpad7
    case 104 => Numpad8
    case 105 => Numpad9
    case 112 => F1
    case 113 => F2
    case 114 => F3
    case 115 => F4
    case 116 => F5
    case 117 => F6
    case 118 => F7
    case 119 => F8
    case 120 => F9
    case 121 => F10
    case 122 => F11
    case 123 => F12
    case 124 => F13
    case 125 => F14
    case 126 => F15
    case 19 => Pause
    case _ => Unknown
  }

  /** Every listed key survives the round trip through its code; any other
      key gets code 0, and 0 reads back as `Unknown`. */
  lemma RoundTrip(k: Key)
    ensures Listed(k) ==> ToKey(ToVirtualKey(k)) == k
    ensures !Listed(k) ==> ToVirtualKey(k) == 0 && ToKey(ToVirtualKey(k)) == Unknown
  {
    if 0 <= k < 26 {
      RoundTrip0(k);
    } else if 26 <= k < 52 {
      RoundTrip26(k);
    } else if 52 <= k < 77 {
      RoundTrip52(k);
    } else if 77 <= k < KeyCount {
      RoundTrip77(k);
    }
  }

  // `RoundTrip` on the listed keys, in four parts of the table.

  lemma RoundTrip0(k: Key)
    requires 0 <= k < 26
    ensures ToKey(ToVirtualKey(k)) == k
  {
  }

  lemma RoundTrip26(k: Key)
    requires 26 <= k < 52
    ensures ToKey(ToVirtualKey(k)) == k
  {
  }

  lemma RoundTrip52(k: Key)
    requires 52 <= k < 77
    ensures ToKey(ToVirtualKey(k)) == k
  {
  }

  lemma RoundTrip77(k: Key)
    requires 77 <= k < KeyCount
    ensures ToKey(ToVirtualKey(k)) == k
  {
  }

  /** The other direction: a code that does not read back as `Unknown`
      reads back as a listed key whose code it is. */
  lemma CodeRoundTrip(vk: nat)
    ensures ToKey(vk) != Unknown ==> Listed(ToKey(vk)) && ToVirtualKey(ToKey(vk)) == vk
  {
  }

  /** Distinct listed keys have distinct codes, none of them 0. */
  lemma ToVirtualKeyInjective(k1: Key, k2: Key)
    requires Listed(k1) && Listed(k2) && k1 != k2
    ensures ToVirtualKey(k1) != ToVirtualKey(k2)
    ensures ToVirtualKey(k1) != 0
  {
    RoundTrip(k1);
    RoundTrip(k2);
  }

  /** Letter i (A + i) is the code 'A' + i and digit i (Num0 + i) the code
      '0' + i, in both directions. */
  lemma LettersAndDigits(i: nat)
    ensures i < 26 ==> ToVirtualKey(A + i) == 'A' as nat + i && ToKey('A' as nat + i) == A + i
    ensures i < 10 ==> ToVirtualKey(Num0 + i) == '0' as nat + i && ToKey('0' as nat + i) == Num0 + i
  {
    if i < 26 {
      LetterCode(i);
      RoundTrip0(A + i);
    }
    if i < 10 {
      DigitCode(i);
      RoundTrip26(Num0 + i);
    }
  }

  lemma LetterCode(i: nat)
    requires i < 26
    ensures ToVirtualKey(A + i) == 'A' as nat + i
  {
  }

  lemma DigitCode(i: nat)
    requires i < 10
    ensures ToVirtualKey(Num0 + i) == '0' as nat + i
  {
  }
}
