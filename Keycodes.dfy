/**
 * Translation of kernel scan codes into the portable key identifiers the controller works with
 * (`Keycode` and `Keycode::from_kernel_code` in src/lib.rs).
 */
module Keycodes {
  import opened Types

  datatype Keycode =
    | Key0
    | Key1
    | Key2
    | Key3
    | Key4
    | Key5
    | Key6
    | Key7
    | Key8
    | Key9
    | A
    | B
    | C
    | D
    | E
    | F
    | G
    | H
    | I
    | J
    | K
    | L
    | M
    | N
    | O
    | P
    | Q
    | R
    | S
    | T
    | U
    | V
    | W
    | X
    | Y
    | Z
    | Escape
    | Minus
    | Equal
    | Backspace
    | Tab
    | LeftBrace
    | RightBrace
    | Enter
    | Control
    | Semicolon
    | Apostrophe
    | Backtick
    | Shift
    | Backslash
    | Comma
    | Dot
    | Slash
    | Asterisk
    | Alt
    | Space
    | Capslock
    | F1
    | F2
    | F3
    | F4
    | F5
    | F6
    | F7
    | F8
    | F9
    | F10
    | F11
    | F12
    | Super
    | Unknown

  /** The kernel codes `from_kernel_code` names explicitly: 1 to 70, right Control (97) and Super (125). */
  predicate Mapped(code: u8) {
    1 <= code <= 70 || code == 97 || code == 125
  }

  /**
   * Translates a kernel scan code. The translation is total: every `u8` yields a key, and exactly
   * the codes outside `Mapped` fall back to `Unknown`.
   */
  function FromKernelCode(code: u8): (key: Keycode)
    ensures key != Unknown <==> Mapped(code)
  {
    match code
    case 125 => Super
    case 1 => Escape
    case 2 => Key1
    case 3 => Key2
    case 4 => Key3
    case 5 => Key4
    case 6 => Key5
    case 7 => Key6
    case 8 => Key7
    case 9 => Key8
    case 10 => Key9
    case 11 => Key0
    case 12 => Minus
    case 13 => Equal
    case 14 => Backspace
    case 15 => Tab
    case 16 => Q
    case 17 => W
    case 18 => E
    case 19 => R
    case 20 => T
    case 21 => Y
    case 22 => U
    case 23 => I
    case 24 => O
    case 25 => P
    case 30 => A
    case 31 => S
    case 32 => D
    case 33 => F
    case 34 => G
    case 35 => H
    case 36 => J
    case 37 => K
    case 38 => L
    case 44 => Z
    case 45 => X
    case 46 => C
    case 47 => V
    case 48 => B
    case 49 => N
    case 50 => M
    case 26 => LeftBrace
    case 27 => RightBrace
    case 28 => Enter
    case 29 | 97 => Control
    case 39 => Semicolon
    case 40 => Apostrophe
    case 41 => Backtick
    case 42 | 54 => Shift
    case 43 => Backslash
    case 51 => Comma
    case 52 => Dot
    case 53 => Slash
    case 55 => Asterisk
    case 56 => Alt
    case 57 => Space
    case 58 => Capslock
    case 59 => F1
    case 60 => F2
    case 61 => F3
    case 62 => F4
    case 63 => F5
    case 64 => F6
    case 65 => F7
    case 66 => F8
    case 67 => F9
    case 68 => F10
    case 69 => F11
    case 70 => F12
    case _ => Unknown
  }

  /**
   * The lowest kernel code of a key other than `Unknown`: a preimage, so every such key is
   * reachable from some scan code.
   */
  function KernelCode(key: Keycode): (code: u8)
    requires key != Unknown
    ensures Mapped(code) && FromKernelCode(code) == key
  {
    match key
    case Key0 => 11
    case Key1 => 2
    case Key2 => 3
    case Key3 => 4
    case Key4 => 5
    case Key5 => 6
    case Key6 => 7
    case Key7 => 8
    case Key8 => 9
    case Key9 => 10
    case A => 30
    case B => 48
    case C => 46
    case D => 32
    case E => 18
    case F => 33
    case G => 34
    case H => 35
    case I => 23
    case J => 36
    case K => 37
    case L => 38
    case M => 50
    case N => 49
    case O => 24
    case P => 25
    case Q => 16
    case R => 19
    case S => 31
    case T => 20
    case U => 22
    case V => 47
    case W => 17
    case X => 45
    case Y => 21
    case Z => 44
    case Escape => 1
    case Minus => 12
    case Equal => 13
    case Backspace => 14
    case Tab => 15
    case LeftBrace => 26
    case RightBrace => 27
    case Enter => 28
    case Control => 29
    case Semicolon => 39
    case Apostrophe => 40
    case Backtick => 41
    case Shift => 42
    case Backslash => 43
    case Comma => 51
    case Dot => 52
    case Slash => 53
    case Asterisk => 55
    case Alt => 56
    case Space => 57
    case Capslock => 58
    case F1 => 59
    case F2 => 60
    case F3 => 61
    case F4 => 62
    case F5 => 63
    case F6 => 64
    case F7 => 65
    case F8 => 66
    case F9 => 67
    case F10 => 68
    case F11 => 69
    case F12 => 70
    case Super => 125
  }

  /** Folds each alias pair onto its lower code: right Control (97) onto 29, right Shift (54) onto 42. */
  function Canonical(code: u8): u8 {
    if code == 97 then 29 else if code == 54 then 42 else code
  }

  /** Translating a named code and taking the key's lowest code again gives the code with its alias folded. */
  lemma KernelCodeOfTranslation(code: u8)
    requires Mapped(code)
    ensures KernelCode(FromKernelCode(code)) == Canonical(code)
  {
    if code <= 6 {
      TranslationRoundTrip1To6(code);
    } else if code <= 12 {
      TranslationRoundTrip7To12(code);
    } else if code <= 18 {
      TranslationRoundTrip13To18(code);
    } else if code <= 24 {
      TranslationRoundTrip19To24(code);
    } else if code <= 30 {
      TranslationRoundTrip25To30(code);
    } else if code <= 36 {
      TranslationRoundTrip31To36(code);
    } else if code <= 40 {
      TranslationRoundTrip37To40(code);
    } else if code <= 44 {
      TranslationRoundTrip41To44(code);
    } else if code <= 48 {
      TranslationRoundTrip45To48(code);
    } else if code <= 52 {
      TranslationRoundTrip49To52(code);
    } else if code <= 56 {
      TranslationRoundTrip53To56(code);
    } else if code <= 59 {
      TranslationRoundTrip57To59(code);
    } else if code <= 62 {
      TranslationRoundTrip60To62(code);
    } else if code <= 65 {
      TranslationRoundTrip63To65(code);
    } else if code <= 68 {
      TranslationRoundTrip66To68(code);
    } else if code <= 70 {
      TranslationRoundTrip69To70(code);
    } else {
      TranslationRoundTripRightControlSuper(code);
    }
  }

  /** KernelCodeOfTranslation for codes 1 to 6, few enough to be checked case by case. */
  lemma TranslationRoundTrip1To6(code: u8)
    requires 1 <= code <= 6
    ensures KernelCode(FromKernelCode(code)) == Canonical(code)
  {
    match code
    case 1 =>
    case 2 =>
    case 3 =>
    case 4 =>
    case 5 =>
    case _ =>
  }

  /** KernelCodeOfTranslation for codes 7 to 12, few enough to be checked case by case. */
  lemma TranslationRoundTrip7To12(code: u8)
    requires 7 <= code <= 12
    ensures KernelCode(FromKernelCode(code)) == Canonical(code)
  {
    match code
    case 7 =>
    case 8 =>
    case 9 =>
    case 10 =>
    case 11 =>
    case _ =>
  }

  /** KernelCodeOfTranslation for codes 13 to 18, few enough to be checked case by case. */
  lemma TranslationRoundTrip13To18(code: u8)
    requires 13 <= code <= 18
    ensures KernelCode(FromKernelCode(code)) == Canonical(code)
  {
    match code
    case 13 =>
    case 14 =>
    case 15 =>
    case 16 =>
    case 17 =>
    case _ =>
  }

  /** KernelCodeOfTranslation for codes 19 to 24, few enough to be checked case by case. */
  lemma TranslationRoundTrip19To24(code: u8)
    requires 19 <= code <= 24
    ensures KernelCode(FromKernelCode(code)) == Canonical(code)
  {
    match code
    case 19 =>
    case 20 =>
    case 21 =>
    case 22 =>
    case 23 =>
    case _ =>
  }

  /** KernelCodeOfTranslation for codes 25 to 30, few enough to be checked case by case. */
  lemma TranslationRoundTrip25To30(code: u8)
    requires 25 <= code <= 30
    ensures KernelCode(FromKernelCode(code)) == Canonical(code)
  {
    match code
    case 25 =>
    case 26 =>
    case 27 =>
    case 28 =>
    case 29 =>
    case _ =>
  }

  /** KernelCodeOfTranslation for codes 31 to 36, few enough to be checked case by case. */
  lemma TranslationRoundTrip31To36(code: u8)
    requires 31 <= code <= 36
    ensures KernelCode(FromKernelCode(code)) == Canonical(code)
  {
    match code
    case 31 =>
    case 32 =>
    case 33 =>
    case 34 =>
    case 35 =>
    case _ =>
  }

  /** KernelCodeOfTranslation for codes 37 to 40, few enough to be checked case by case. */
  lemma TranslationRoundTrip37To40(code: u8)
    requires 37 <= code <= 40
    ensures KernelCode(FromKernelCode(code)) == Canonical(code)
  {
    match code
    case 37 =>
    case 38 =>
    case 39 =>
    case _ =>
  }

  /** KernelCodeOfTranslation for codes 41 to 44, few enough to be checked case by case. */
  lemma TranslationRoundTrip41To44(code: u8)
    requires 41 <= code <= 44
    ensures KernelCode(FromKernelCode(code)) == Canonical(code)
  {
    match code
    case 41 =>
    case 42 =>
    case 43 =>
    case _ =>
  }

  /** KernelCodeOfTranslation for codes 45 to 48, few enough to be checked case by case. */
  lemma TranslationRoundTrip45To48(code: u8)
    requires 45 <= code <= 48
    ensures KernelCode(FromKernelCode(code)) == Canonical(code)
  {
    match code
    case 45 =>
    case 46 =>
    case 47 =>
    case _ =>
  }

  /** KernelCodeOfTranslation for codes 49 to 52, few enough to be checked case by case. */
  lemma TranslationRoundTrip49To52(code: u8)
    requires 49 <= code <= 52
    ensures KernelCode(FromKernelCode(code)) == Canonical(code)
  {
    match code
    case 49 =>
    case 50 =>
    case 51 =>
    case _ =>
  }

  /** KernelCodeOfTranslation for codes 53 to 56, few enough to be checked case by case. */
  lemma TranslationRoundTrip53To56(code: u8)
    requires 53 <= code <= 56
    ensures KernelCode(FromKernelCode(code)) == Canonical(code)
  {
    match code
    case 53 =>
    case 54 =>
    case 55 =>
    case _ =>
  }

  /** KernelCodeOfTranslation for codes 57 to 59, few enough to be checked case by case. */
  lemma TranslationRoundTrip57To59(code: u8)
    requires 57 <= code <= 59
    ensures KernelCode(FromKernelCode(code)) == Canonical(code)
  {
    match code
    case 57 =>
    case 58 =>
    case _ =>
  }

  /** KernelCodeOfTranslation for codes 60 to 62, few enough to be checked case by case. */
  lemma TranslationRoundTrip60To62(code: u8)
    requires 60 <= code <= 62
    ensures KernelCode(FromKernelCode(code)) == Canonical(code)
  {
    match code
    case 60 =>
    case 61 =>
    case _ =>
  }

  /** KernelCodeOfTranslation for codes 63 to 65, few enough to be checked case by case. */
  lemma TranslationRoundTrip63To65(code: u8)
    requires 63 <= code <= 65
    ensures KernelCode(FromKernelCode(code)) == Canonical(code)
  {
    match code
    case 63 =>
    case 64 =>
    case _ =>
  }

  /** KernelCodeOfTranslation for codes 66 to 68, few enough to be checked case by case. */
  lemma TranslationRoundTrip66To68(code: u8)
    requires 66 <= code <= 68
    ensures KernelCode(FromKernelCode(code)) == Canonical(code)
  {
    match code
    case 66 =>
    case 67 =>
    case _ =>
  }

  /** KernelCodeOfTranslation for codes 69 to 70, few enough to be checked case by case. */
  lemma TranslationRoundTrip69To70(code: u8)
    requires 69 <= code <= 70
    ensures KernelCode(FromKernelCode(code)) == Canonical(code)
  {
    match code
    case 69 =>
    case _ =>
  }

  /** KernelCodeOfTranslation for the two named codes above 70. */
  lemma TranslationRoundTripRightControlSuper(code: u8)
    requires code == 97 || code == 125
    ensures KernelCode(FromKernelCode(code)) == Canonical(code)
  {
  }

  /**
   * The two alias pairs are the only collisions: two distinct codes translate to the same named key
   * only when they are {29, 97} (Control) or {42, 54} (Shift).
   */
  lemma OnlyAliasesCollide(a: u8, b: u8)
    requires a != b && FromKernelCode(a) == FromKernelCode(b) != Unknown
    ensures {a, b} == {29, 97} || {a, b} == {42, 54}
  {
    KernelCodeOfTranslation(a);
    KernelCodeOfTranslation(b);
  }

  /** Both codes of each alias pair do translate to the same key. */
  lemma AliasPairs()
    ensures FromKernelCode(29) == FromKernelCode(97) == Control
    ensures FromKernelCode(42) == FromKernelCode(54) == Shift
  {
  }

  /** The number row and the keys the controller reacts to. */
  lemma ControllerKeys()
    ensures FromKernelCode(2) == Key1 && FromKernelCode(3) == Key2 && FromKernelCode(4) == Key3
    ensures FromKernelCode(5) == Key4 && FromKernelCode(6) == Key5 && FromKernelCode(7) == Key6
    ensures FromKernelCode(8) == Key7 && FromKernelCode(9) == Key8 && FromKernelCode(10) == Key9
    ensures FromKernelCode(11) == Key0
    ensures FromKernelCode(1) == Escape && FromKernelCode(23) == I
    ensures FromKernelCode(35) == H && FromKernelCode(36) == J
    ensures FromKernelCode(37) == K && FromKernelCode(38) == L
  {
  }
}
