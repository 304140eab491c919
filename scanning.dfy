/** Deterministic scanning helpers, and the step lemmas that say when a
    scanner decision agrees with the language of a pattern: a literal occurs
    at one place, a time has a single possible end, a run in front of
    something it cannot start is taken whole, and a run followed by an
    overlapping run leaves a range of possible ends to search. */
module Scanning {
  import opened Chars
  import opened Optional
  import opened Patterns

  /** The end of the longest run of class c in s[i..j]. */
  function RunEnd(s: string, i: nat, j: nat, c: CharClass): (e: nat)
    requires i <= j <= |s|
    ensures i <= e <= j
    decreases j - i
  {
    if i < j && InClass(c, s[i]) then RunEnd(s, i + 1, j, c) else i
  }

  /** The run RunEnd finds is of class c throughout, and cannot be extended. */
  lemma {:induction false} RunEndMaximal(s: string, i: nat, j: nat, c: CharClass)
    requires i <= j <= |s|
    ensures var e := RunEnd(s, i, j, c); AllIn(s, i, e, c) && (e < j ==> !InClass(c, s[e]))
    decreases j - i
  {
    if i < j && InClass(c, s[i]) {
      RunEndMaximal(s, i + 1, j, c);
    }
  }

  /** The end of the longest run of class c starting at i. */
  function Span(s: string, i: nat, c: CharClass): (e: nat)
    requires i <= |s|
  {
    RunEnd(s, i, |s|, c)
  }

  /** A run of c from i reaches j exactly when j is at most the longest run. */
  lemma SpanCovers(s: string, i: nat, j: nat, c: CharClass)
    requires i <= j <= |s|
    ensures AllIn(s, i, j, c) <==> j <= Span(s, i, c)
  {
    var e := Span(s, i, c);
    RunEndMaximal(s, i, |s|, c);
    if e < j {
      assert !InClass(c, s[e]);
    }
  }

  /** Where a time `\d{1,2}:\d{2}` starting at i ends, if one does. */
  function TimeEnd(s: string, i: nat): (r: Option<nat>)
    requires i <= |s|
    ensures r.Some? ==> i + 4 <= r.value <= |s|
  {
    if i + 4 <= |s| && IsDigit(s[i]) && s[i + 1] == ':' && IsDigit(s[i + 2]) && IsDigit(s[i + 3]) then
      Some(i + 4)
    else if i + 5 <= |s| && IsDigit(s[i]) && IsDigit(s[i + 1]) && s[i + 2] == ':'
         && IsDigit(s[i + 3]) && IsDigit(s[i + 4]) then
      Some(i + 5)
    else
      None
  }

  /** A time has at most one end: the one TimeEnd finds. */
  lemma TimeEndExact(s: string, i: nat, j: nat)
    requires i <= j <= |s|
    ensures Matches(Time, s, i, j) <==> TimeEnd(s, i) == Some(j)
  {
  }

  /** Where the first of the literals ws[k..] that occurs at i ends, if any does. */
  function FirstLitEnd(s: string, i: nat, ws: seq<string>, k: nat): (r: Option<nat>)
    requires k <= |ws|
    ensures r.Some? ==> i <= r.value <= |s|
    decreases |ws| - k
  {
    if k == |ws| then None
    else if LitAt(s, i, ws[k]) then Some(i + |ws[k]|)
    else FirstLitEnd(s, i, ws, k + 1)
  }

  /** FirstLitEnd finds an alternative that occurs, and finds none only when
      none occurs. */
  lemma {:induction false} FirstLitEndSound(s: string, i: nat, ws: seq<string>, k: nat)
    requires k <= |ws|
    ensures var r := FirstLitEnd(s, i, ws, k);
      (r.Some? ==> exists m :: k <= m < |ws| && LitAt(s, i, ws[m]) && r.value == i + |ws[m]|) &&
      (r.None? ==> forall m :: k <= m < |ws| ==> !LitAt(s, i, ws[m]))
    decreases |ws| - k
  {
    if k < |ws| && !LitAt(s, i, ws[k]) {
      FirstLitEndSound(s, i, ws, k + 1);
    }
  }

  /** Two literals disagree, ignoring case, somewhere within both. */
  predicate Diverge(a: string, b: string) {
    exists k :: 0 <= k < |a| && k < |b| && !SameLetter(a[k], b[k])
  }

  /** No literal of ws is a prefix of another one, ignoring case. */
  predicate PrefixFree(ws: seq<string>) {
    forall a, b :: 0 <= a < b < |ws| ==> Diverge(ws[a], ws[b])
  }

  lemma LitAtUnique(s: string, i: nat, x: string, y: string)
    requires Diverge(x, y) && LitAt(s, i, x)
    ensures !LitAt(s, i, y)
  {
    var k :| 0 <= k < |x| && k < |y| && !SameLetter(x[k], y[k]);
    assert SameLetter(s[i + k], x[k]);
  }

  /** With prefix-free alternatives, an alternation has at most one end. */
  lemma OneOfEnd(s: string, i: nat, j: nat, ws: seq<string>)
    requires i <= j <= |s| && PrefixFree(ws)
    ensures Matches(OneOf(ws), s, i, j) <==> FirstLitEnd(s, i, ws, 0) == Some(j)
  {
    var r := FirstLitEnd(s, i, ws, 0);
    FirstLitEndSound(s, i, ws, 0);
    if Matches(OneOf(ws), s, i, j) {
      var k :| 0 <= k < |ws| && j == i + |ws[k]| && LitAt(s, i, ws[k]);
      var m :| 0 <= m < |ws| && LitAt(s, i, ws[m]) && r.value == i + |ws[m]|;
      if m < k {
        LitAtUnique(s, i, ws[m], ws[k]);
      } else if k < m {
        LitAtUnique(s, i, ws[k], ws[m]);
      }
    }
  }

  lemma MatchesStart(e: Elem, s: string, i: nat, j: nat)
    requires i < j <= |s| && Matches(e, s, i, j)
    ensures CanStart(e, s[i])
  {
    match e
    case OneOf(ws) =>
      var k :| 0 <= k < |ws| && j == i + |ws[k]| && LitAt(s, i, ws[k]);
      assert SameLetter(s[i + 0], ws[k][0]);
    case Words =>
      var m :| i < m <= j && AllIn(s, i, m, WordChar) &&
        (m == j || exists p :: m < p < j && AllIn(s, m, p, Space) && WordListAt(s, p, j));
      assert InClass(WordChar, s[i]);
    case Lit(w) =>
      assert SameLetter(s[i + 0], w[0]);
    case _ =>
      assert e.Time? || InClass(e.cls, s[i]);
  }

  lemma MatchesEmpty(e: Elem, s: string, i: nat)
    requires i <= |s| && Matches(e, s, i, i)
    ensures Nullable(e)
  {
    match e
    case OneOf(ws) =>
      var k :| 0 <= k < |ws| && i == i + |ws[k]| && LitAt(s, i, ws[k]);
      assert ws[k] == [] && ws[k] in ws;
    case _ =>
  }

  /** The first character of any non-empty suffix that g[n..] matches is one
      that StartsIn admits. */
  lemma {:induction false} FirstChar(g: Pattern, n: nat, s: string, i: nat)
    requires n <= |g| && i < |s| && Gen(g, n, s, i)
    ensures StartsIn(g, n, s[i])
    decreases |g| - n
  {
    if n < |g| {
      var j :| i <= j <= |s| && Matches(g[n], s, i, j) && Gen(g, n + 1, s, j);
      if i < j {
        MatchesStart(g[n], s, i, j);
      } else {
        MatchesEmpty(g[n], s, i);
        FirstChar(g, n + 1, s, i);
      }
    }
  }

  /** The classes c1 and c2 share no character (only the pairs the grammars need). */
  predicate Apart(c1: CharClass, c2: CharClass) {
    (c1 == Space && (c2 == WordChar || c2 == Digit || c2 == TypeLetter)) ||
    (c2 == Space && (c1 == WordChar || c1 == Digit || c1 == TypeLetter))
  }

  /** No character of c can begin a non-empty piece that e matches; decided by
      the shape of e. */
  predicate Excludes(e: Elem, c: CharClass) {
    match e
    case Lit(w) => |w| > 0 && w[0] == '/' && !InClass(c, '/')
    case Time => c == Space
    case OneOf(ws) => c == Space && forall k :: 0 <= k < |ws| ==> |ws[k]| > 0 && IsWordChar(ws[k][0])
    case Words => c == Space
    case _ => Apart(c, e.cls)
  }

  /** Excludes, for g[n..] as a whole, looking past nullable elements. */
  predicate ExcludesFrom(g: Pattern, n: nat, c: CharClass)
    decreases |g| - n
  {
    n >= |g| || (Excludes(g[n], c) && (Nullable(g[n]) ==> ExcludesFrom(g, n + 1, c)))
  }

  lemma ExcludesStart(e: Elem, c: CharClass, ch: char)
    requires Excludes(e, c) && CanStart(e, ch)
    ensures !InClass(c, ch)
  {
    match e
    case OneOf(ws) =>
      var k :| 0 <= k < |ws| && |ws[k]| > 0 && SameLetter(ch, ws[k][0]);
      assert IsWordChar(ws[k][0]);
    case _ =>
  }

  lemma {:induction false} ExcludesStops(g: Pattern, n: nat, c: CharClass)
    requires ExcludesFrom(g, n, c)
    ensures Stops(g, n, c)
    decreases |g| - n
  {
    forall ch | StartsIn(g, n, ch) ensures !InClass(c, ch) {
      if CanStart(g[n], ch) {
        ExcludesStart(g[n], c, ch);
      } else {
        ExcludesStops(g, n + 1, c);
      }
    }
  }

  lemma LitStep(g: Pattern, n: nat, s: string, i: nat)
    requires n < |g| && g[n].Lit? && i <= |s|
    ensures Gen(g, n, s, i) <==> LitAt(s, i, g[n].word) && Gen(g, n + 1, s, i + |g[n].word|)
  {
    var w := g[n].word;
    if LitAt(s, i, w) && Gen(g, n + 1, s, i + |w|) {
      assert Matches(g[n], s, i, i + |w|);
    }
  }

  lemma OneStep(g: Pattern, n: nat, s: string, i: nat)
    requires n < |g| && g[n].One? && i <= |s|
    ensures Gen(g, n, s, i) <==> i < |s| && InClass(g[n].cls, s[i]) && Gen(g, n + 1, s, i + 1)
  {
    if i < |s| && InClass(g[n].cls, s[i]) && Gen(g, n + 1, s, i + 1) {
      assert Matches(g[n], s, i, i + 1);
    }
  }

  /** A run in front of elements it cannot start is taken whole (greedy). */
  lemma RunStep(g: Pattern, n: nat, s: string, i: nat)
    requires n < |g| && (g[n].Plus? || g[n].Star?) && i <= |s| && ExcludesFrom(g, n + 1, g[n].cls)
    ensures Gen(g, n, s, i) <==>
      var e := Span(s, i, g[n].cls); (g[n].Plus? ==> i < e) && Gen(g, n + 1, s, e)
  {
    var c := g[n].cls;
    ExcludesStops(g, n + 1, c);
    var e := Span(s, i, c);
    SpanCovers(s, i, e, c);
    if Gen(g, n, s, i) {
      var j :| i <= j <= |s| && Matches(g[n], s, i, j) && Gen(g, n + 1, s, j);
      SpanCovers(s, i, j, c);
      if j < e {
        FirstChar(g, n + 1, s, j);
      }
      assert j == e;
    }
    if (g[n].Plus? ==> i < e) && Gen(g, n + 1, s, e) {
      assert Matches(g[n], s, i, e);
    }
  }

  /** An optional character in front of elements it cannot start is taken
      when present. */
  lemma OptStep(g: Pattern, n: nat, s: string, i: nat)
    requires n < |g| && g[n].Opt? && i <= |s| && ExcludesFrom(g, n + 1, g[n].cls)
    ensures Gen(g, n, s, i) <==>
      if i < |s| && InClass(g[n].cls, s[i]) then Gen(g, n + 1, s, i + 1) else Gen(g, n + 1, s, i)
  {
    var c := g[n].cls;
    ExcludesStops(g, n + 1, c);
    if Gen(g, n, s, i) {
      var j :| i <= j <= |s| && Matches(g[n], s, i, j) && Gen(g, n + 1, s, j);
      if j == i && i < |s| && InClass(c, s[i]) {
        FirstChar(g, n + 1, s, i);
      }
    }
    if i < |s| && InClass(c, s[i]) && Gen(g, n + 1, s, i + 1) {
      assert Matches(g[n], s, i, i + 1);
    }
    if Gen(g, n + 1, s, i) {
      assert Matches(g[n], s, i, i);
    }
  }

  lemma TimeStep(g: Pattern, n: nat, s: string, i: nat)
    requires n < |g| && g[n].Time? && i <= |s|
    ensures Gen(g, n, s, i) <==> TimeEnd(s, i).Some? && Gen(g, n + 1, s, TimeEnd(s, i).value)
  {
    var r := TimeEnd(s, i);
    if Gen(g, n, s, i) {
      var j :| i <= j <= |s| && Matches(g[n], s, i, j) && Gen(g, n + 1, s, j);
      TimeEndExact(s, i, j);
    }
    if r.Some? && Gen(g, n + 1, s, r.value) {
      TimeEndExact(s, i, r.value);
      assert Matches(g[n], s, i, r.value);
    }
  }

  lemma OneOfStep(g: Pattern, n: nat, s: string, i: nat)
    requires n < |g| && g[n].OneOf? && PrefixFree(g[n].words) && i <= |s|
    ensures var r := FirstLitEnd(s, i, g[n].words, 0);
      Gen(g, n, s, i) <==> r.Some? && Gen(g, n + 1, s, r.value)
  {
    var r := FirstLitEnd(s, i, g[n].words, 0);
    if Gen(g, n, s, i) {
      var j :| i <= j <= |s| && Matches(g[n], s, i, j) && Gen(g, n + 1, s, j);
      OneOfEnd(s, i, j, g[n].words);
    }
    if r.Some? && Gen(g, n + 1, s, r.value) {
      OneOfEnd(s, i, r.value, g[n].words);
    }
  }

  /** `c1+ c2*`: every end from i + 1 up to the longest c2 run after the
      longest c1 run is possible, and no other. */
  lemma PlusStarStep(g: Pattern, n: nat, s: string, i: nat)
    requires n + 1 < |g| && g[n].Plus? && g[n + 1].Star? && i <= |s|
    ensures Gen(g, n, s, i) <==>
      var e := Span(s, i, g[n].cls);
      i < e && GenFromSome(g, n + 2, s, i + 1, Span(s, e, g[n + 1].cls))
  {
    var c1, c2 := g[n].cls, g[n + 1].cls;
    var e := Span(s, i, c1);
    var h := Span(s, e, c2);
    SpanCovers(s, i, e, c1);
    SpanCovers(s, e, h, c2);
    if Gen(g, n, s, i) {
      var j :| i <= j <= |s| && Matches(g[n], s, i, j) && Gen(g, n + 1, s, j);
      var k :| j <= k <= |s| && Matches(g[n + 1], s, j, k) && Gen(g, n + 2, s, k);
      SpanCovers(s, i, j, c1);
      if e < k {
        SpanCovers(s, e, k, c2);
      }
      assert i + 1 <= k <= h && Gen(g, n + 2, s, k);
    }
    if i < e && GenFromSome(g, n + 2, s, i + 1, h) {
      var k :| i + 1 <= k <= h && Gen(g, n + 2, s, k);
      if k <= e {
        assert Matches(g[n + 1], s, k, k);
        assert Matches(g[n], s, i, k);
      } else {
        SpanCovers(s, e, k, c2);
        assert Matches(g[n + 1], s, e, k);
        assert Matches(g[n], s, i, e);
      }
    }
  }

  /** `c1+ c2+`: the ends are those of `c1+ c2*` at least i + 2 whose last
      character is in c2. */
  lemma PlusPlusStep(g: Pattern, n: nat, s: string, i: nat)
    requires n + 1 < |g| && g[n].Plus? && g[n + 1].Plus? && i <= |s|
    ensures Gen(g, n, s, i) <==>
      var e := Span(s, i, g[n].cls);
      i < e && GenAfterSome(g, n + 2, s, i + 2, Span(s, e, g[n + 1].cls), g[n + 1].cls)
  {
    if Gen(g, n, s, i) {
      PlusPlusSound(g, n, s, i);
    }
    PlusPlusComplete(g, n, s, i);
  }

  lemma PlusPlusSound(g: Pattern, n: nat, s: string, i: nat)
    requires n + 1 < |g| && g[n].Plus? && g[n + 1].Plus? && i <= |s| && Gen(g, n, s, i)
    ensures var e := Span(s, i, g[n].cls);
      i < e && GenAfterSome(g, n + 2, s, i + 2, Span(s, e, g[n + 1].cls), g[n + 1].cls)
  {
    var c1, c2 := g[n].cls, g[n + 1].cls;
    var e := Span(s, i, c1);
    var h := Span(s, e, c2);
    SpanCovers(s, i, e, c1);
    SpanCovers(s, e, h, c2);
    var j :| i <= j <= |s| && Matches(g[n], s, i, j) && Gen(g, n + 1, s, j);
    var k :| j <= k <= |s| && Matches(g[n + 1], s, j, k) && Gen(g, n + 2, s, k);
    SpanCovers(s, i, j, c1);
    if e < k {
      SpanCovers(s, e, k, c2);
    }
    assert i + 2 <= k <= h && InClass(c2, s[k - 1]) && Gen(g, n + 2, s, k);
  }

  lemma PlusPlusComplete(g: Pattern, n: nat, s: string, i: nat)
    requires n + 1 < |g| && g[n].Plus? && g[n + 1].Plus? && i <= |s|
    ensures var e := Span(s, i, g[n].cls);
      i < e && GenAfterSome(g, n + 2, s, i + 2, Span(s, e, g[n + 1].cls), g[n + 1].cls) ==> Gen(g, n, s, i)
  {
    var c1, c2 := g[n].cls, g[n + 1].cls;
    var e := Span(s, i, c1);
    var h := Span(s, e, c2);
    if i < e && GenAfterSome(g, n + 2, s, i + 2, h, c2) {
      SpanCovers(s, i, e, c1);
      var k :| i + 2 <= k <= h && InClass(c2, s[k - 1]) && Gen(g, n + 2, s, k);
      if k <= e {
        SpanCovers(s, i, k, c1);
        assert Matches(g[n + 1], s, k - 1, k);
        assert Matches(g[n], s, i, k - 1);
      } else {
        SpanCovers(s, e, h, c2);
        SpanCovers(s, e, k, c2);
        assert Matches(g[n + 1], s, e, k);
        assert Matches(g[n], s, i, e);
      }
    }
  }

  /** `\w+(\s+\w+)*` matches s[i..j] exactly when that piece is made of word
      and white-space characters and begins and ends with a word character. */
  lemma WordListShape(s: string, i: nat, j: nat)
    requires i <= j <= |s|
    ensures WordListAt(s, i, j) <==>
      i < j && IsWordChar(s[i]) && IsWordChar(s[j - 1]) && AllIn(s, i, j, TaskChar)
  {
    if WordListAt(s, i, j) {
      WordListSound(s, i, j);
    }
    if i < j && IsWordChar(s[i]) && IsWordChar(s[j - 1]) && AllIn(s, i, j, TaskChar) {
      WordListComplete(s, i, j);
    }
  }

  lemma {:induction false} WordListSound(s: string, i: nat, j: nat)
    requires i <= j <= |s| && WordListAt(s, i, j)
    ensures i < j && IsWordChar(s[i]) && IsWordChar(s[j - 1]) && AllIn(s, i, j, TaskChar)
    decreases j - i
  {
    var m :| i < m <= j && AllIn(s, i, m, WordChar) &&
      (m == j || exists p :: m < p < j && AllIn(s, m, p, Space) && WordListAt(s, p, j));
    if m < j {
      var p :| m < p < j && AllIn(s, m, p, Space) && WordListAt(s, p, j);
      WordListSound(s, p, j);
    }
  }

  lemma {:induction false} WordListComplete(s: string, i: nat, j: nat)
    requires i < j <= |s| && IsWordChar(s[i]) && IsWordChar(s[j - 1]) && AllIn(s, i, j, TaskChar)
    ensures WordListAt(s, i, j)
    decreases j - i
  {
    var m := RunEnd(s, i, j, WordChar);
    RunEndMaximal(s, i, j, WordChar);
    if m < j {
      var p := RunEnd(s, m, j, Space);
      RunEndMaximal(s, m, j, Space);
      assert IsSpace(s[m]) && !IsSpace(s[j - 1]);
      assert p < j;
      assert IsWordChar(s[p]);
      WordListComplete(s, p, j);
      assert m < p < j && AllIn(s, m, p, Space) && WordListAt(s, p, j);
    }
  }

  /** A word list is searched for: any end after i within the longest run of
      word and white-space characters that closes on a word character. */
  lemma WordsStep(g: Pattern, n: nat, s: string, i: nat)
    requires n < |g| && g[n].Words? && i <= |s|
    ensures Gen(g, n, s, i) <==>
      i < |s| && IsWordChar(s[i]) &&
      GenAfterSome(g, n + 1, s, i + 1, Span(s, i, TaskChar), WordChar)
  {
    var h := Span(s, i, TaskChar);
    if Gen(g, n, s, i) {
      var k :| i <= k <= |s| && Matches(g[n], s, i, k) && Gen(g, n + 1, s, k);
      WordListShape(s, i, k);
      SpanCovers(s, i, k, TaskChar);
    }
    if i < |s| && IsWordChar(s[i]) &&
       GenAfterSome(g, n + 1, s, i + 1, h, WordChar) {
      var k :| i < k <= h && IsWordChar(s[k - 1]) && Gen(g, n + 1, s, k);
      SpanCovers(s, i, k, TaskChar);
      WordListShape(s, i, k);
      assert Matches(g[n], s, i, k);
    }
  }
}
