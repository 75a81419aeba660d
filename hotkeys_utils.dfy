/**
 * Model of src/app/hotkeys_utils.rs: the two closed parsers that turn the
 * strings shown in the settings panel into a modifier and a key code, and the
 * `Hotkey` record that keeps a committed chord, a draft chord being edited,
 * and the chord registered with the operating system.
 */
module HotkeysUtils {
  import opened Wrappers

  /** The three modifiers the settings panel offers. */
  datatype Modifier = Alt | Ctrl | Shift

  /** The key codes a hotkey can use: the letter keys. */
  datatype Code =
    | KeyA | KeyB | KeyC | KeyD | KeyE | KeyF | KeyG | KeyH | KeyI
    | KeyJ | KeyK | KeyL | KeyM | KeyN | KeyO | KeyP | KeyQ | KeyR
    | KeyS | KeyT | KeyU | KeyV | KeyW | KeyX | KeyY | KeyZ

  /**
   * A chord as the hotkey library builds it from a modifier and a code. The
   * library derives a hotkey's id from its chord, so the chord stands for the
   * id in this model.
   */
  datatype HotKey = HotKey(mods: Modifier, key: Code)

  /** The letter written on a key. */
  function KeyLetter(c: Code): (r: char)
    ensures 'A' <= r <= 'Z'
  {
    match c
    case KeyA => 'A' case KeyB => 'B' case KeyC => 'C' case KeyD => 'D'
    case KeyE => 'E' case KeyF => 'F' case KeyG => 'G' case KeyH => 'H'
    case KeyI => 'I' case KeyJ => 'J' case KeyK => 'K' case KeyL => 'L'
    case KeyM => 'M' case KeyN => 'N' case KeyO => 'O' case KeyP => 'P'
    case KeyQ => 'Q' case KeyR => 'R' case KeyS => 'S' case KeyT => 'T'
    case KeyU => 'U' case KeyV => 'V' case KeyW => 'W' case KeyX => 'X'
    case KeyY => 'Y' case KeyZ => 'Z'
  }

  /** A string that names a key: exactly one upper-case ASCII letter. */
  predicate IsKeyName(s: string) {
    |s| == 1 && 'A' <= s[0] <= 'Z'
  }

  /**
   * Upper-casing of one character, as far as it matters for key names: the
   * ASCII letters, and the two characters outside ASCII whose upper case is
   * an ASCII letter (dotless i and long s). Every other character is kept.
   */
  function UpperChar(c: char): (r: char)
    ensures 'A' <= r <= 'Z' <==> 'A' <= c <= 'Z' || 'a' <= c <= 'z' || c == '\U{0131}' || c == '\U{017F}'
  {
    if 'a' <= c <= 'z' then (c as int - 32) as char
    else if c == '\U{0131}' then 'I'
    else if c == '\U{017F}' then 'S'
    else c
  }

  /** `str::to_uppercase`, character by character. */
  function Upper(s: string): (r: string)
    ensures |r| == |s|
    ensures forall k :: 0 <= k < |s| ==> r[k] == UpperChar(s[k])
  {
    seq(|s|, k requires 0 <= k < |s| => UpperChar(s[k]))
  }

  lemma UpperIdempotent(s: string)
    ensures Upper(Upper(s)) == Upper(s)
  {
    forall k | 0 <= k < |s|
      ensures Upper(Upper(s))[k] == Upper(s)[k]
    {
      var c := s[k];
      assert UpperChar(UpperChar(c)) == UpperChar(c);
    }
  }

  /** Key names are already upper case. */
  lemma UpperKeepsKeyName(s: string)
    requires IsKeyName(s)
    ensures Upper(s) == s
  {
    assert Upper(s)[0] == s[0];
  }

  /** The key with the letter `c` on it, if `c` is an upper-case letter. */
  function LetterKey(c: char): (r: Option<Code>)
    ensures r.Some? <==> 'A' <= c <= 'Z'
    ensures r.Some? ==> KeyLetter(r.value) == c
  {
    match c
    case 'A' => Some(KeyA)
    case 'B' => Some(KeyB)
    case 'C' => Some(KeyC)
    case 'D' => Some(KeyD)
    case 'E' => Some(KeyE)
    case 'F' => Some(KeyF)
    case 'G' => Some(KeyG)
    case 'H' => Some(KeyH)
    case 'I' => Some(KeyI)
    case 'J' => Some(KeyJ)
    case 'K' => Some(KeyK)
    case 'L' => Some(KeyL)
    case 'M' => Some(KeyM)
    case 'N' => Some(KeyN)
    case 'O' => Some(KeyO)
    case 'P' => Some(KeyP)
    case 'Q' => Some(KeyQ)
    case 'R' => Some(KeyR)
    case 'S' => Some(KeyS)
    case 'T' => Some(KeyT)
    case 'U' => Some(KeyU)
    case 'V' => Some(KeyV)
    case 'W' => Some(KeyW)
    case 'X' => Some(KeyX)
    case 'Y' => Some(KeyY)
    case 'Z' => Some(KeyZ)
    case _ => None
  }

  /**
   * `string_to_key`: the upper case of `s` matched against the 26 one-letter
   * names. Upper-casing keeps the number of characters here, so only a
   * one-character string can match, and it matches exactly when its character
   * upper-cases to a letter; the code is the key with that letter on it.
   */
  function StringToKey(s: string): (r: Option<Code>)
    ensures r.Some? <==> |s| == 1 && 'A' <= UpperChar(s[0]) <= 'Z'
    ensures r.Some? ==> KeyLetter(r.value) == UpperChar(s[0])
  {
    if |s| == 1 then LetterKey(UpperChar(s[0])) else None
  }

  /**
   * The same, said of the upper-cased string as the match in the source
   * sees it: `s` names a key exactly when its upper case is a key name, and
   * that key name is the letter of the code; the empty string and strings of
   * two or more characters name none.
   */
  lemma StringToKeyMatchesUpper(s: string)
    ensures StringToKey(s).Some? <==> IsKeyName(Upper(s))
    ensures StringToKey(s).Some? ==> Upper(s) == [KeyLetter(StringToKey(s).value)]
    ensures |s| != 1 ==> StringToKey(s).None?
  {
  }

  /** Parsing ignores case: a string and its upper case name the same key. */
  lemma StringToKeyIgnoresCase(s: string)
    ensures StringToKey(s) == StringToKey(Upper(s))
  {
    UpperIdempotent(s);
  }

  /** Every key is named by its letter, so the parser reaches all 26 codes. */
  lemma StringToKeyOfLetter(c: Code)
    ensures StringToKey([KeyLetter(c)]) == Some(c)
  {
  }

  /** Two strings that parse to the same key are the same letter up to case. */
  lemma StringToKeyInjective(a: string, b: string)
    requires StringToKey(a).Some? && StringToKey(a) == StringToKey(b)
    ensures Upper(a) == Upper(b)
  {
    StringToKeyMatchesUpper(a);
    StringToKeyMatchesUpper(b);
  }

  /** Distinct letters give distinct key codes. */
  lemma KeyLetterInjective(c: Code, d: Code)
    requires KeyLetter(c) == KeyLetter(d)
    ensures c == d
  {
  }

  /** The three strings `string_to_modifiers` accepts; it is case-sensitive. */
  predicate IsModifierName(s: string) {
    s == "ALT" || s == "CTRL" || s == "SHIFT"
  }

  /** The string the settings panel shows for a modifier. */
  function ModifierName(m: Modifier): (r: string)
    ensures IsModifierName(r)
  {
    match m
    case Alt => "ALT"
    case Ctrl => "CTRL"
    case Shift => "SHIFT"
  }

  /**
   * `string_to_modifiers`: any string other than the three names stops the
   * program, so the names are what callers must supply. The modifier it gives
   * is the one whose name was parsed.
   */
  function StringToModifiers(s: string): (r: Modifier)
    requires IsModifierName(s)
    ensures ModifierName(r) == s
  {
    match s
    case "ALT" => Alt
    case "CTRL" => Ctrl
    case "SHIFT" => Shift
  }

  /** Parsing a modifier's name gives the modifier back, so the three names map to three distinct modifiers. */
  lemma ModifierRoundTrip(m: Modifier)
    ensures StringToModifiers(ModifierName(m)) == m
  {
  }

  /** Case matters: the lower-case spellings are not modifier names. */
  lemma ModifiersAreCaseSensitive()
    ensures !IsModifierName("alt") && !IsModifierName("Ctrl") && !IsModifierName("shift")
  {
  }

  /** The chord a committed or draft pair of strings stands for. */
  function ChordOf(modifier: string, code: string): (r: HotKey)
    requires IsModifierName(modifier) && StringToKey(code).Some?
    ensures ModifierName(r.mods) == modifier && KeyLetter(r.key) == UpperChar(code[0])
  {
    HotKey(StringToModifiers(modifier), StringToKey(code).value)
  }

  /**
   * One configurable shortcut: its action label, the committed modifier and
   * key, the draft modifier and key that the settings panel edits, and the
   * chord currently registered for it.
   */
  class Hotkey {
    var actionLabel: string
    var modifier: string
    var tmpModifier: string
    var code: string
    var tmpCode: string
    var registered: HotKey

    /** The committed pair parses, and it is what is registered. */
    predicate Valid()
      reads this`modifier, this`code, this`registered
    {
      && IsModifierName(modifier) && StringToKey(code).Some?
      && registered == ChordOf(modifier, code)
    }

    /** `Hotkey::new`: the draft starts as a copy of the committed pair; the key must parse. */
    constructor(actionLabel: string, modifier: string, code: string)
      requires IsModifierName(modifier) && StringToKey(code).Some?
      ensures this.actionLabel == actionLabel
      ensures this.modifier == modifier && tmpModifier == modifier
      ensures this.code == code && tmpCode == code
      ensures Valid()
    {
      this.actionLabel := actionLabel;
      this.modifier := modifier;
      tmpModifier := modifier;
      this.code := code;
      tmpCode := code;
      registered := HotKey(StringToModifiers(modifier), StringToKey(code).value);
    }

    /**
     * `register`, for its effect on the record: the registered chord is
     * rebuilt from the committed pair and nothing else changes. Handing the
     * chord to the operating system is not part of this model.
     */
    method Register()
      requires IsModifierName(modifier) && StringToKey(code).Some?
      modifies this`registered
      ensures registered == ChordOf(modifier, code)
      ensures Valid()
    {
      registered := HotKey(StringToModifiers(modifier), StringToKey(code).value);
    }
  }
}
