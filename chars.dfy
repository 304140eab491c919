/** Character classes of java.util.regex as the validators use them, and the
    ASCII-only case folding that Java's CASE_INSENSITIVE flag (without
    UNICODE_CASE) applies. */
module Chars {

  /** `\s`: space, tab, newline, vertical tab, form feed, carriage return. */
  predicate IsSpace(ch: char) {
    ch == ' ' || ch == '\t' || ch == '\n' || ch == '\U{000B}' || ch == '\U{000C}' || ch == '\r'
  }

  /** `\d`: an ASCII digit. */
  predicate IsDigit(ch: char) {
    '0' <= ch <= '9'
  }

  predicate IsUpper(ch: char) {
    'A' <= ch <= 'Z'
  }

  predicate IsLower(ch: char) {
    'a' <= ch <= 'z'
  }

  /** `\w`: `[A-Za-z0-9_]`. */
  predicate IsWordChar(ch: char) {
    IsLower(ch) || IsUpper(ch) || IsDigit(ch) || ch == '_'
  }

  /** The characters `.` refuses: `\n`, `\r`, U+0085, U+2028 and U+2029. */
  predicate IsLineTerminator(ch: char) {
    ch == '\n' || ch == '\r' || ch == '\U{0085}' || ch == '\U{2028}' || ch == '\U{2029}'
  }

  /** ASCII lower-casing; every other character is left alone. */
  function ToLower(ch: char): (r: char)
    ensures IsUpper(ch) ==> IsLower(r)
    ensures !IsUpper(ch) ==> r == ch
  {
    if IsUpper(ch) then (ch as int - 'A' as int + 'a' as int) as char else ch
  }

  /** Two characters are equal once both are ASCII lower-cased. */
  predicate SameLetter(a: char, b: char) {
    ToLower(a) == ToLower(b)
  }

  /** ASCII-case-insensitive equality of two strings. */
  predicate EqualsIgnoreCase(a: string, b: string) {
    |a| == |b| && forall k :: 0 <= k < |a| ==> SameLetter(a[k], b[k])
  }

  /** The character classes the twelve command grammars are built from. */
  datatype CharClass =
    | Space          // \s
    | WordChar       // \w
    | Digit          // \d
    | AnyButLineEnd  // .
    | TypeLetter     // [fc] under (?i), and [cfCF]
    | UserListChar   // [\w\s,]
    | TaskChar       // [\w\s]

  predicate InClass(c: CharClass, ch: char) {
    match c
    case Space => IsSpace(ch)
    case WordChar => IsWordChar(ch)
    case Digit => IsDigit(ch)
    case AnyButLineEnd => !IsLineTerminator(ch)
    case TypeLetter => ch == 'f' || ch == 'c' || ch == 'F' || ch == 'C'
    case UserListChar => IsWordChar(ch) || IsSpace(ch) || ch == ','
    case TaskChar => IsWordChar(ch) || IsSpace(ch)
  }

  /** Under (?i) the class `[fc]` is exactly the characters that fold to `f` or `c`. */
  lemma TypeLetterIsFoldedFC(ch: char)
    ensures InClass(TypeLetter, ch) <==> SameLetter(ch, 'f') || SameLetter(ch, 'c')
  {
  }
}
