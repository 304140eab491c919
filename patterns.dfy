/** The language a fixed command pattern denotes. A pattern is a sequence of
    elements, each standing for one piece of the Java regular expression
    (a literal, a character class repeated, a time, an alternation of
    literals); the pattern matches a string when the string splits into
    consecutive pieces, one per element. Every literal is matched under
    (?i), that is ignoring ASCII case. */
module Patterns {
  import opened Chars

  datatype Elem =
    | Lit(word: string)          // literal text, e.g. `/on`
    | One(cls: CharClass)        // exactly one character of the class
    | Opt(cls: CharClass)        // `c?`
    | Plus(cls: CharClass)       // `c+`
    | Star(cls: CharClass)       // `c*`, also `(c+)?`
    | Time                       // `\d{1,2}:\d{2}`
    | OneOf(words: seq<string>)  // `(?:w1|w2|...)`
    | Words                      // `\w+(\s+\w+)*`

  type Pattern = seq<Elem>

  /** Every character of s[i..j] is in class c. */
  predicate AllIn(s: string, i: nat, j: nat, c: CharClass)
    requires i <= j <= |s|
  {
    forall k :: i <= k < j ==> InClass(c, s[k])
  }

  /** The literal w occurs at position i of s, ignoring ASCII case. */
  predicate LitAt(s: string, i: nat, w: string) {
    i + |w| <= |s| && forall k :: 0 <= k < |w| ==> SameLetter(s[i + k], w[k])
  }

  /** `\w+(\s+\w+)*` matches s[i..j], written as the regular expression reads. */
  ghost predicate WordListAt(s: string, i: nat, j: nat)
    requires i <= j <= |s|
    decreases j - i
  {
    exists m :: i < m <= j && AllIn(s, i, m, WordChar) &&
      (m == j || exists p :: m < p < j && AllIn(s, m, p, Space) && WordListAt(s, p, j))
  }

  /** Element e matches exactly the piece s[i..j]. */
  ghost predicate Matches(e: Elem, s: string, i: nat, j: nat)
    requires i <= j <= |s|
  {
    match e
    case Lit(w) => j == i + |w| && LitAt(s, i, w)
    case One(c) => j == i + 1 && InClass(c, s[i])
    case Opt(c) => j <= i + 1 && AllIn(s, i, j, c)
    case Plus(c) => i < j && AllIn(s, i, j, c)
    case Star(c) => AllIn(s, i, j, c)
    case Time =>
      (j == i + 4 || j == i + 5) && AllIn(s, i, j - 3, Digit) && s[j - 3] == ':' && AllIn(s, j - 2, j, Digit)
    case OneOf(ws) => exists k :: 0 <= k < |ws| && j == i + |ws[k]| && LitAt(s, i, ws[k])
    case Words => WordListAt(s, i, j)
  }

  /** The elements g[n..] match the suffix s[i..]. */
  ghost predicate Gen(g: Pattern, n: nat, s: string, i: nat)
    requires n <= |g| && i <= |s|
    decreases |g| - n
  {
    if n == |g| then i == |s|
    else exists j :: i <= j <= |s| && Matches(g[n], s, i, j) && Gen(g, n + 1, s, j)
  }

  /** The whole string is in the language of pattern g (Java's `String.matches`,
      which anchors both ends). */
  ghost predicate InLanguage(g: Pattern, s: string) {
    Gen(g, 0, s, 0)
  }

  /** g[m..] matches the suffix from some position in lo..hi. */
  ghost predicate GenFromSome(g: Pattern, m: nat, s: string, lo: nat, hi: nat)
    requires m <= |g| && hi <= |s|
  {
    exists k :: lo <= k <= hi && Gen(g, m, s, k)
  }

  /** g[m..] matches the suffix from some position k in lo..hi whose preceding
      character s[k - 1] is in class c. */
  ghost predicate GenAfterSome(g: Pattern, m: nat, s: string, lo: nat, hi: nat, c: CharClass)
    requires m <= |g| && 1 <= lo && hi <= |s|
  {
    exists k :: lo <= k <= hi && InClass(c, s[k - 1]) && Gen(g, m, s, k)
  }

  /** Element e matches the empty piece. */
  predicate Nullable(e: Elem) {
    match e
    case Lit(w) => w == []
    case Opt(_) => true
    case Star(_) => true
    case OneOf(ws) => [] in ws
    case _ => false
  }

  /** ch may be the first character of a non-empty piece that e matches. */
  ghost predicate CanStart(e: Elem, ch: char) {
    match e
    case Lit(w) => |w| > 0 && SameLetter(ch, w[0])
    case One(c) => InClass(c, ch)
    case Opt(c) => InClass(c, ch)
    case Plus(c) => InClass(c, ch)
    case Star(c) => InClass(c, ch)
    case Time => IsDigit(ch)
    case OneOf(ws) => exists k :: 0 <= k < |ws| && |ws[k]| > 0 && SameLetter(ch, ws[k][0])
    case Words => IsWordChar(ch)
  }

  /** ch may be the first character of a non-empty suffix that g[n..] matches. */
  ghost predicate StartsIn(g: Pattern, n: nat, ch: char)
    decreases |g| - n
  {
    n < |g| && (CanStart(g[n], ch) || (Nullable(g[n]) && StartsIn(g, n + 1, ch)))
  }

  /** No suffix that g[n..] matches begins with a character of class c: a run of
      c in front of g[n..] is therefore always taken whole. */
  ghost predicate Stops(g: Pattern, n: nat, c: CharClass) {
    forall ch :: StartsIn(g, n, ch) ==> !InClass(c, ch)
  }
}
