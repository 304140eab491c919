/** What the validators' regular expressions promise beyond their own
    definition: which commands may end in white space and which may not,
    that the leading `(?i)` makes every command ignore ASCII case, and what
    the day and time slots accept. */
module Properties {
  import opened Chars
  import opened Patterns
  import opened Scanning
  import opened Grammars
  import opened InputValidator

  // ---------------------------------------------------------------------
  // General facts about patterns.

  /** A match of g[n..] passes through every later element boundary. */
  lemma {:induction false} GenReaches(g: Pattern, n: nat, m: nat, s: string, i: nat)
    requires n <= m <= |g| && i <= |s| && Gen(g, n, s, i)
    ensures exists j :: i <= j <= |s| && Gen(g, m, s, j)
    decreases m - n
  {
    if n < m {
      var j :| i <= j <= |s| && Matches(g[n], s, i, j) && Gen(g, n + 1, s, j);
      GenReaches(g, n + 1, m, s, j);
    }
  }

  /** Every piece that e matches is non-empty and ends in a character of class c. */
  predicate EndsIn(e: Elem, c: CharClass) {
    match e
    case One(d) => d == c
    case Plus(d) => d == c
    case Time => c == Digit
    case _ => false
  }

  lemma MatchesEndsIn(e: Elem, s: string, i: nat, j: nat, c: CharClass)
    requires i <= j <= |s| && EndsIn(e, c) && Matches(e, s, i, j)
    ensures i < j && InClass(c, s[j - 1])
  {
  }

  /** When the last element of g ends in class c, so does every input in the
      language of g. */
  lemma LastCharIn(g: Pattern, s: string, c: CharClass)
    requires |g| > 0 && EndsIn(g[|g| - 1], c) && InLanguage(g, s)
    ensures |s| > 0 && InClass(c, s[|s| - 1])
  {
    var n := |g| - 1;
    GenReaches(g, 0, n, s, 0);
    var j :| 0 <= j <= |s| && Gen(g, n, s, j);
    var k :| j <= k <= |s| && Matches(g[n], s, j, k) && Gen(g, n + 1, s, k);
    MatchesEndsIn(g[n], s, j, k, c);
  }

  /** Element e matches the same pieces of s inside s + t. */
  lemma MatchesPrefix(e: Elem, s: string, t: string, i: nat, j: nat)
    requires i <= j <= |s|
    ensures Matches(e, s + t, i, j) <==> Matches(e, s, i, j)
  {
    assert forall m :: 0 <= m < |s| ==> (s + t)[m] == s[m];
    match e
    case Lit(w) =>
    case One(c) =>
    case Opt(c) =>
    case Plus(c) =>
    case Star(c) =>
    case Time =>
    case OneOf(ws) =>
    case Words =>
      WordListShape(s + t, i, j);
      WordListShape(s, i, j);
  }

  /** When g ends in `c*`, appending characters of class c to an input of
      the language keeps it in the language. */
  lemma {:induction false} GenExtend(g: Pattern, n: nat, s: string, t: string, i: nat)
    requires n < |g| && g[|g| - 1].Star? && AllIn(t, 0, |t|, g[|g| - 1].cls)
    requires i <= |s| && Gen(g, n, s, i)
    ensures Gen(g, n, s + t, i)
    decreases |g| - n
  {
    var j :| i <= j <= |s| && Matches(g[n], s, i, j) && Gen(g, n + 1, s, j);
    if n == |g| - 1 {
      var c := g[n].cls;
      forall k | i <= k < |s + t| ensures InClass(c, (s + t)[k]) {
        if k >= |s| {
          assert (s + t)[k] == t[k - |s|];
        }
      }
      assert Matches(g[n], s + t, i, |s + t|);
      assert Gen(g, n + 1, s + t, |s + t|);
    } else {
      MatchesPrefix(g[n], s, t, i, j);
      GenExtend(g, n + 1, s, t, j);
    }
  }

  // ---------------------------------------------------------------------
  // Case: the leading `(?i)` governs the whole pattern.

  /** Characters equal up to ASCII case are in the same classes. */
  lemma ClassIgnoresCase(c: CharClass, a: char, b: char)
    requires SameLetter(a, b)
    ensures InClass(c, a) <==> InClass(c, b)
  {
    if !IsUpper(a) && !IsUpper(b) {
      assert a == b;
    } else {
      assert IsLower(ToLower(a)) || IsLower(ToLower(b));
    }
  }

  lemma AllInIgnoresCase(s: string, t: string, i: nat, j: nat, c: CharClass)
    requires EqualsIgnoreCase(s, t) && i <= j <= |s|
    ensures AllIn(s, i, j, c) <==> AllIn(t, i, j, c)
  {
    forall k | i <= k < j ensures InClass(c, s[k]) <==> InClass(c, t[k]) {
      ClassIgnoresCase(c, s[k], t[k]);
    }
  }

  lemma MatchesIgnoresCase(e: Elem, s: string, t: string, i: nat, j: nat)
    requires EqualsIgnoreCase(s, t) && i <= j <= |s|
    ensures Matches(e, s, i, j) <==> Matches(e, t, i, j)
  {
    match e
    case Lit(w) =>
    case One(c) => if j == i + 1 { ClassIgnoresCase(c, s[i], t[i]); }
    case Opt(c) => AllInIgnoresCase(s, t, i, j, c);
    case Plus(c) => AllInIgnoresCase(s, t, i, j, c);
    case Star(c) => AllInIgnoresCase(s, t, i, j, c);
    case Time =>
      if j == i + 4 || j == i + 5 {
        AllInIgnoresCase(s, t, i, j - 3, Digit);
        AllInIgnoresCase(s, t, j - 2, j, Digit);
        ClassIgnoresCase(AnyButLineEnd, s[j - 3], t[j - 3]);
        assert s[j - 3] == ':' <==> t[j - 3] == ':' by {
          assert !IsUpper(s[j - 3]) && !IsUpper(t[j - 3]) ==> s[j - 3] == t[j - 3];
        }
      }
    case OneOf(ws) =>
    case Words =>
      WordListShape(s, i, j);
      WordListShape(t, i, j);
      AllInIgnoresCase(s, t, i, j, TaskChar);
      if i < j {
        ClassIgnoresCase(WordChar, s[i], t[i]);
        ClassIgnoresCase(WordChar, s[j - 1], t[j - 1]);
      }
  }

  lemma {:induction false} GenIgnoresCase(g: Pattern, n: nat, s: string, t: string, i: nat)
    requires EqualsIgnoreCase(s, t) && n <= |g| && i <= |s| && Gen(g, n, s, i)
    ensures Gen(g, n, t, i)
    decreases |g| - n
  {
    if n < |g| {
      var j :| i <= j <= |s| && Matches(g[n], s, i, j) && Gen(g, n + 1, s, j);
      MatchesIgnoresCase(g[n], s, t, i, j);
      GenIgnoresCase(g, n + 1, s, t, j);
    }
  }

  /** Two inputs that differ only in ASCII case are both in the language of
      a pattern or both outside it. */
  lemma InLanguageIgnoresCase(g: Pattern, s: string, t: string)
    requires EqualsIgnoreCase(s, t)
    ensures InLanguage(g, s) <==> InLanguage(g, t)
  {
    if InLanguage(g, s) {
      GenIgnoresCase(g, 0, s, t, 0);
    }
    if InLanguage(g, t) {
      GenIgnoresCase(g, 0, t, s, 0);
    }
  }

  /** The grammar validators give the same outcome for inputs that differ
      only in ASCII case: command words, flags, day names and the type
      letter all match in any case. Here for compare, compareall, addtask and addtwdc. */
  lemma CompareAddTaskIgnoreCase(s: string, t: string)
    requires EqualsIgnoreCase(s, t)
    ensures ValidateCompareInput(s) == ValidateCompareInput(t)
    ensures ValidateCompareAllInput(s) == ValidateCompareAllInput(t)
    ensures ValidateAddTaskInput(s) == ValidateAddTaskInput(t)
    ensures ValidateAddTaskWdcInput(s) == ValidateAddTaskWdcInput(t)
  {
    InLanguageIgnoresCase(ComparePattern, s, t);
    InLanguageIgnoresCase(CompareAllPattern, s, t);
    InLanguageIgnoresCase(AddTaskPattern, s, t);
    InLanguageIgnoresCase(AddTwdcPattern, s, t);
  }

  /** The same for deletetask, adduser and switch. */
  lemma DeleteUserSwitchIgnoreCase(s: string, t: string)
    requires EqualsIgnoreCase(s, t)
    ensures ValidateDeleteTaskInput(s) == ValidateDeleteTaskInput(t)
    ensures ValidateAddUserInput(s) == ValidateAddUserInput(t)
    ensures ValidateSwitchInput(s) == ValidateSwitchInput(t)
  {
    InLanguageIgnoresCase(DeleteTaskPattern, s, t);
    InLanguageIgnoresCase(AddUserPattern, s, t);
    InLanguageIgnoresCase(SwitchPattern, s, t);
  }

  /** The same for changeTaskTiming, addforall, changeTaskType, addrepeattask and
      addfor. */
  lemma TimedCommandsIgnoreCase(s: string, t: string)
    requires EqualsIgnoreCase(s, t)
    ensures ValidateChangeTaskTiming(s) == ValidateChangeTaskTiming(t)
    ensures ValidateAddTaskForAll(s) == ValidateAddTaskForAll(t)
    ensures ValidateChangeTaskType(s) == ValidateChangeTaskType(t)
    ensures ValidateAddRepeatTask(s) == ValidateAddRepeatTask(t)
    ensures ValidAddFor(s) == ValidAddFor(t)
  {
    InLanguageIgnoresCase(ChangeTaskTimingPattern, s, t);
    InLanguageIgnoresCase(AddForAllPattern, s, t);
    InLanguageIgnoresCase(ChangeTaskTypePattern, s, t);
    InLanguageIgnoresCase(AddRepeatTaskPattern, s, t);
    InLanguageIgnoresCase(AddForPattern, s, t);
  }

  // ---------------------------------------------------------------------
  // What may follow the last field.

  /** compare, compareall, adduser and addtask end in `(\s+)?`: white space
      may be appended to any accepted input. Here compare. */
  lemma CompareTrailingSpace(s: string, t: string)
    requires AllIn(t, 0, |t|, Space)
    ensures ValidateCompareInput(s) == Pass ==> ValidateCompareInput(s + t) == Pass
  {
    if ValidateCompareInput(s) == Pass {
      GenExtend(ComparePattern, 0, s, t, 0);
    }
  }

  /** The same for compareall. */
  lemma CompareAllTrailingSpace(s: string, t: string)
    requires AllIn(t, 0, |t|, Space)
    ensures ValidateCompareAllInput(s) == Pass ==> ValidateCompareAllInput(s + t) == Pass
  {
    if ValidateCompareAllInput(s) == Pass {
      GenExtend(CompareAllPattern, 0, s, t, 0);
    }
  }

  /** The same for adduser. */
  lemma AddUserTrailingSpace(s: string, t: string)
    requires AllIn(t, 0, |t|, Space)
    ensures ValidateAddUserInput(s) == Pass ==> ValidateAddUserInput(s + t) == Pass
  {
    if ValidateAddUserInput(s) == Pass {
      GenExtend(AddUserPattern, 0, s, t, 0);
    }
  }

  /** The same for addtask. */
  lemma AddTaskTrailingSpace(s: string, t: string)
    requires AllIn(t, 0, |t|, Space)
    ensures ValidateAddTaskInput(s) == Pass ==> ValidateAddTaskInput(s + t) == Pass
  {
    if ValidateAddTaskInput(s) == Pass {
      GenExtend(AddTaskPattern, 0, s, t, 0);
    }
  }

  /** switch, deletetask, changeTaskTiming, changeTaskType, addtwdc,
      addrepeattask and addfor end at their last field: an accepted input
      ends in a character of that field, so one ending in white space is
      rejected. Here switch, whose last field is the user name. */
  lemma SwitchEndsAtName(s: string)
    ensures ValidateSwitchInput(s) == Pass ==> |s| > 0 && IsWordChar(s[|s| - 1])
    ensures |s| > 0 && IsSpace(s[|s| - 1]) ==> ValidateSwitchInput(s) == Fail(InvalidFormat(SwitchFormatError))
  {
    if ValidateSwitchInput(s) == Pass {
      LastCharIn(SwitchPattern, s, WordChar);
    }
  }

  /** The index field closes the input: `/index`, white space, and digits to
      the end. */
  ghost predicate IndexFieldCloses(s: string) {
    exists t: nat, j: nat :: t + 6 < j < |s| && LitAt(s, t, "/index") && AllIn(s, t + 6, j, Space) &&
                             AllIn(s, j, |s|, Digit)
  }

  /** Every input in the language of a pattern ending in `/index\s+\d+` is
      closed by that index. */
  lemma IndexLast(g: Pattern, s: string)
    requires |g| >= 3 && g[|g| - 3] == Lit("/index") && g[|g| - 2] == Plus(Space) && g[|g| - 1] == Plus(Digit)
    requires InLanguage(g, s)
    ensures IndexFieldCloses(s) && |s| > 0 && !IsSpace(s[|s| - 1])
  {
    var n := |g| - 3;
    GenReaches(g, 0, n, s, 0);
    var t: nat :| t <= |s| && Gen(g, n, s, t);
    var j := Peel(g, n, s, t);
    var k := Peel(g, n + 1, s, j);
    var m := Peel(g, n + 2, s, k);
    assert IsDigit(s[|s| - 1]);
  }

  lemma DeleteTaskIndexField(s: string)
    requires InLanguage(DeleteTaskPattern, s)
    ensures IndexFieldCloses(s) && |s| > 0 && !IsSpace(s[|s| - 1])
  {
    DeleteTaskElements0();
    DeleteTaskElements1();
    IndexLast(DeleteTaskPattern, s);
  }

  /** The same for deletetask, whose last field is the index: the input ends
      in `/index`, white space and the index digits. */
  lemma DeleteTaskEndsAtIndex(s: string)
    ensures ValidateDeleteTaskInput(s) == Pass ==> IndexFieldCloses(s)
    ensures |s| > 0 && IsSpace(s[|s| - 1]) ==> ValidateDeleteTaskInput(s) == Fail(InvalidFormat(DeleteTaskFormatError))
  {
    if ValidateDeleteTaskInput(s) == Pass {
      DeleteTaskIndexField(s);
    }
  }

  /** The `/to` time closes the input: `/to`, white space, and a time piece
      reaching the end. */
  ghost predicate ToTimeCloses(s: string) {
    exists t: nat, j: nat :: t + 3 < j < |s| && LitAt(s, t, "/to") && AllIn(s, t + 3, j, Space) &&
                             Matches(Time, s, j, |s|)
  }

  /** Every input in the language of a pattern ending in `/to\s+T` is closed
      by that time. */
  lemma TimeLast(g: Pattern, s: string)
    requires |g| >= 3 && g[|g| - 3] == Lit("/to") && g[|g| - 2] == Plus(Space) && g[|g| - 1] == Time
    requires InLanguage(g, s)
    ensures ToTimeCloses(s) && |s| > 0 && !IsSpace(s[|s| - 1])
  {
    var n := |g| - 3;
    GenReaches(g, 0, n, s, 0);
    var t: nat :| t <= |s| && Gen(g, n, s, t);
    var j := Peel(g, n, s, t);
    var k := Peel(g, n + 1, s, j);
    var m := Peel(g, n + 2, s, k);
    assert Matches(Time, s, k, |s|);
  }

  lemma ChangeTaskTimingTimeField(s: string)
    requires InLanguage(ChangeTaskTimingPattern, s)
    ensures ToTimeCloses(s) && |s| > 0 && !IsSpace(s[|s| - 1])
  {
    ChangeTaskTimingElements0();
    ChangeTaskTimingElements2();
    ChangeTaskTimingElements3();
    TimeLast(ChangeTaskTimingPattern, s);
  }

  /** The same for changeTaskTiming, whose last field is the end time: the
      input ends in `/to`, white space and the `/to` time. */
  lemma ChangeTaskTimingEndsAtTime(s: string)
    ensures ValidateChangeTaskTiming(s) == Pass ==> ToTimeCloses(s)
    ensures |s| > 0 && IsSpace(s[|s| - 1]) ==> ValidateChangeTaskTiming(s) == Fail(InvalidFormat(ChangeTaskTimingFormatError))
  {
    if ValidateChangeTaskTiming(s) == Pass {
      ChangeTaskTimingTimeField(s);
    }
  }

  /** The type field closes the input: `/type`, white space, and one type
      letter as the last character. */
  ghost predicate TypeFieldCloses(s: string) {
    |s| >= 2 && IsSpace(s[|s| - 2]) && InClass(TypeLetter, s[|s| - 1]) &&
    exists t: nat :: t + 5 < |s| - 1 && LitAt(s, t, "/type") && AllIn(s, t + 5, |s| - 1, Space)
  }

  /** The piece that g[n] matches at the front of a match of g[n..]. */
  lemma Peel(g: Pattern, n: nat, s: string, i: nat) returns (j: nat)
    requires n < |g| && i <= |s| && Gen(g, n, s, i)
    ensures i <= j <= |s| && Matches(g[n], s, i, j) && Gen(g, n + 1, s, j)
  {
    j :| i <= j <= |s| && Matches(g[n], s, i, j) && Gen(g, n + 1, s, j);
  }

  /** Every input in the language of a pattern ending in `/type\s+[fc]` is
      closed by its type field. */
  lemma TypeFieldLast(g: Pattern, n: nat, s: string)
    requires n + 3 == |g| && g[n] == Lit("/type") && g[n + 1] == Plus(Space) && g[n + 2] == One(TypeLetter)
    requires InLanguage(g, s)
    ensures TypeFieldCloses(s)
  {
    GenReaches(g, 0, n, s, 0);
    var t: nat :| t <= |s| && Gen(g, n, s, t);
    var j := Peel(g, n, s, t);
    var k := Peel(g, n + 1, s, j);
    var m := Peel(g, n + 2, s, k);
    assert m == |s| && k == |s| - 1;
    assert IsSpace(s[k - 1]);
  }

  lemma ChangeTaskTypeTypeField(s: string)
    requires InLanguage(ChangeTaskTypePattern, s)
    ensures TypeFieldCloses(s) && |s| > 0 && !IsSpace(s[|s| - 1])
  {
    ChangeTaskTypeElements0();
    ChangeTaskTypeElements2();
    TypeFieldLast(ChangeTaskTypePattern, 10, s);
  }

  /** The same for changeTaskType, whose last field is the type letter: the
      input ends in `/type`, white space and exactly one type letter. */
  lemma ChangeTaskTypeEndsAtType(s: string)
    ensures ValidateChangeTaskType(s) == Pass ==> TypeFieldCloses(s)
    ensures |s| > 0 && IsSpace(s[|s| - 1]) ==> ValidateChangeTaskType(s) == Fail(InvalidFormat(ChangeTaskTypeFormatError))
  {
    if ValidateChangeTaskType(s) == Pass {
      ChangeTaskTypeTypeField(s);
    }
  }

  lemma AddTwdcTypeField(s: string)
    requires InLanguage(AddTwdcPattern, s)
    ensures TypeFieldCloses(s) && |s| > 0 && !IsSpace(s[|s| - 1])
  {
    AddTwdcElements0();
    AddTwdcElements3();
    AddTwdcElements4();
    TypeFieldLast(AddTwdcPattern, 18, s);
  }

  /** The same for addtwdc. */
  lemma AddTwdcEndsAtType(s: string)
    ensures ValidateAddTaskWdcInput(s) == Pass ==> TypeFieldCloses(s)
    ensures |s| > 0 && IsSpace(s[|s| - 1]) ==> ValidateAddTaskWdcInput(s) == Fail(InvalidFormat(AddTwdcFormatError))
  {
    if ValidateAddTaskWdcInput(s) == Pass {
      AddTwdcTypeField(s);
    }
  }

  lemma AddRepeatTaskTypeField(s: string)
    requires InLanguage(AddRepeatTaskPattern, s)
    ensures TypeFieldCloses(s) && |s| > 0 && !IsSpace(s[|s| - 1])
  {
    AddRepeatTaskElements0();
    AddRepeatTaskElements3();
    AddRepeatTaskElements4();
    TypeFieldLast(AddRepeatTaskPattern, 18, s);
  }

  /** The same for addrepeattask. */
  lemma AddRepeatTaskEndsAtType(s: string)
    ensures ValidateAddRepeatTask(s) == Pass ==> TypeFieldCloses(s)
    ensures |s| > 0 && IsSpace(s[|s| - 1]) ==> ValidateAddRepeatTask(s) == Fail(InvalidFormat(AddRepeatTaskFormatError))
  {
    if ValidateAddRepeatTask(s) == Pass {
      AddRepeatTaskTypeField(s);
    }
  }

  lemma AddForTypeField(s: string)
    requires InLanguage(AddForPattern, s)
    ensures TypeFieldCloses(s) && |s| > 0 && !IsSpace(s[|s| - 1])
  {
    AddForElements0();
    AddForElements4();
    TypeFieldLast(AddForPattern, 22, s);
  }

  /** The same for addfor, whose type letter is `[cfCF]`. */
  lemma AddForEndsAtType(s: string)
    ensures ValidAddFor(s) == Pass ==> TypeFieldCloses(s)
    ensures |s| > 0 && IsSpace(s[|s| - 1]) ==> ValidAddFor(s) == Fail(InvalidFormat(AddForFormatError))
  {
    if ValidAddFor(s) == Pass {
      AddForTypeField(s);
    }
  }

  /** In a pattern ending in `/type\s+[fc]\s*`, the type field is one
      letter followed by white space alone. */
  lemma TypeLetterThenSpace(g: Pattern, s: string)
    requires |g| >= 4 && g[|g| - 4] == Lit("/type") && g[|g| - 3] == Plus(Space)
    requires g[|g| - 2] == One(TypeLetter) && g[|g| - 1] == Star(Space)
    requires InLanguage(g, s)
    ensures exists t: nat, k :: t + 5 < k < |s| && LitAt(s, t, "/type") && AllIn(s, t + 5, k, Space) &&
              InClass(TypeLetter, s[k]) && AllIn(s, k + 1, |s|, Space)
  {
    var n := |g| - 4;
    GenReaches(g, 0, n, s, 0);
    var t: nat :| t <= |s| && Gen(g, n, s, t);
    var j := Peel(g, n, s, t);
    var k := Peel(g, n + 1, s, j);
    var m := Peel(g, n + 2, s, k);
    var e := Peel(g, n + 3, s, m);
    assert InClass(TypeLetter, s[k]);
  }

  /** addtask's type field is `/type`, white space and one f/c letter, in
      either case, and only white space may follow it. */
  lemma AddTaskTypeLast(s: string)
    ensures ValidateAddTaskInput(s) == Pass ==>
      exists t: nat, k :: t + 5 < k < |s| && LitAt(s, t, "/type") && AllIn(s, t + 5, k, Space) &&
        InClass(TypeLetter, s[k]) && AllIn(s, k + 1, |s|, Space)
  {
    if ValidateAddTaskInput(s) == Pass {
      AddTaskElements3();
      AddTaskElements4();
      TypeLetterThenSpace(AddTaskPattern, s);
    }
  }

  /** In a pattern ending in `/to\s+T\s?`, the input ends at the time, or one
      white-space character after it. */
  lemma TimeThenOptSpace(g: Pattern, s: string)
    requires |g| >= 4 && g[|g| - 4] == Lit("/to") && g[|g| - 3] == Plus(Space)
    requires g[|g| - 2] == Time && g[|g| - 1] == Opt(Space)
    requires InLanguage(g, s)
    ensures exists t: nat, j: nat, k: nat :: t + 3 < j < k <= |s| <= k + 1 && LitAt(s, t, "/to") &&
              AllIn(s, t + 3, j, Space) && Matches(Time, s, j, k) && AllIn(s, k, |s|, Space)
  {
    var n := |g| - 4;
    GenReaches(g, 0, n, s, 0);
    var t: nat :| t <= |s| && Gen(g, n, s, t);
    var j := Peel(g, n, s, t);
    var k := Peel(g, n + 1, s, j);
    var m := Peel(g, n + 2, s, k);
    var e := Peel(g, n + 3, s, m);
    assert Matches(Time, s, k, m);
  }

  /** addforall ends at its `/to` time, followed by at most one white-space
      character. */
  lemma AddForAllTail(s: string)
    ensures ValidateAddTaskForAll(s) == Pass ==>
      exists t: nat, j: nat, k: nat :: t + 3 < j < k <= |s| <= k + 1 && LitAt(s, t, "/to") && AllIn(s, t + 3, j, Space) &&
        Matches(Time, s, j, k) && AllIn(s, k, |s|, Space)
  {
    if ValidateAddTaskForAll(s) == Pass {
      AddForAllElements2();
      AddForAllElements3();
      TimeThenOptSpace(AddForAllPattern, s);
    }
  }

  /** When g ends in `c?` and an input of its language does not end in a
      character of c, one character of c may be appended. */
  lemma {:induction false} GenAppendOpt(g: Pattern, n: nat, s: string, c: char, i: nat)
    requires n < |g| && g[|g| - 1].Opt? && InClass(g[|g| - 1].cls, c)
    requires |s| > 0 && !InClass(g[|g| - 1].cls, s[|s| - 1])
    requires i <= |s| && Gen(g, n, s, i)
    ensures Gen(g, n, s + [c], i)
    decreases |g| - n
  {
    var j :| i <= j <= |s| && Matches(g[n], s, i, j) && Gen(g, n + 1, s, j);
    if n == |g| - 1 {
      assert i == |s|;
      assert (s + [c])[|s|] == c;
      assert Matches(g[n], s + [c], |s|, |s| + 1);
      assert Gen(g, n + 1, s + [c], |s| + 1);
    } else {
      MatchesPrefix(g[n], s, [c], i, j);
      GenAppendOpt(g, n + 1, s, c, j);
    }
  }

  /** addforall does allow the one white-space character after its `/to`
      time. */
  lemma AddForAllOneTrailingSpace(s: string, c: char)
    requires IsSpace(c)
    ensures ValidateAddTaskForAll(s) == Pass && |s| > 0 && IsDigit(s[|s| - 1]) ==>
      ValidateAddTaskForAll(s + [c]) == Pass
  {
    if ValidateAddTaskForAll(s) == Pass && |s| > 0 && IsDigit(s[|s| - 1]) {
      AddForAllElements3();
      GenAppendOpt(AddForAllPattern, 0, s, c, 0);
    }
  }

  // ---------------------------------------------------------------------
  // compare takes exactly two user names.

  /** s[i..j] is white space and s[j..k] word characters, neither empty. */
  predicate SpaceThenWord(s: string, i: nat, j: nat, k: nat)
    requires i <= j <= k <= |s|
  {
    i < j < k && AllIn(s, i, j, Space) && AllIn(s, j, k, WordChar)
  }

  /** A run of class c in y is a run of c in x + y. */
  lemma RunAppended(x: string, y: string, c: CharClass)
    requires AllIn(y, 0, |y|, c)
    ensures AllIn(x + y, |x|, |x + y|, c)
  {
    forall k | |x| <= k < |x + y| ensures InClass(c, (x + y)[k]) {
      assert (x + y)[k] == y[k - |x|];
    }
  }

  /** A run of class c in a prefix x of s is a run of c in s. */
  lemma RunKept(x: string, s: string, i: nat, j: nat, c: CharClass)
    requires x <= s && i <= j <= |x| && AllIn(x, i, j, c)
    ensures AllIn(s, i, j, c)
  {
    forall k | i <= k < j ensures InClass(c, s[k]) {
      assert s[k] == x[k];
    }
  }

  /** Every input that extends w + y begins with the literal w. */
  lemma KeywordKept(w: string, y: string, s: string)
    requires w + y <= s
    ensures LitAt(s, 0, w)
  {
    forall k | 0 <= k < |w| ensures SameLetter(s[k], w[k]) {
      assert s[k] == (w + y)[k];
    }
  }

  /** A non-empty run of class c starts with a character of c. */
  lemma RunStart(s: string, i: nat, j: nat, c: CharClass)
    requires i < j <= |s| && AllIn(s, i, j, c)
    ensures InClass(c, s[i])
  {
  }

  /** The compare pattern does not match "compare" followed by white space
      alone. */
  lemma CompareNoNameGen(g: Pattern, s: string)
    requires CompareAt(g) && 7 <= |s| && AllIn(s, 7, |s|, Space)
    ensures !Gen(g, 0, s, 0)
  {
    if Gen(g, 0, s, 0) {
      var j1 := Peel(g, 0, s, 0);
      var j2 := Peel(g, 1, s, j1);
      var j3 := Peel(g, 2, s, j2);
      RunStart(s, j2, j3, WordChar);
      assert false;
    }
  }

  /** The compare pattern does not match "compare" followed by white space,
      a single word and white space. */
  lemma CompareOneNameGen(g: Pattern, s: string, p: nat, q: nat)
    requires CompareAt(g) && q <= |s| && 7 <= p <= q
    requires SpaceThenWord(s, 7, p, q) && AllIn(s, q, |s|, Space)
    ensures !Gen(g, 0, s, 0)
  {
    if Gen(g, 0, s, 0) {
      var j1 := Peel(g, 0, s, 0);
      var j2 := Peel(g, 1, s, j1);
      var j3 := Peel(g, 2, s, j2);
      assert IsWordChar(s[j2]);
      var j4 := Peel(g, 3, s, j3);
      assert IsSpace(s[j3]);
      var j5 := Peel(g, 4, s, j4);
      RunStart(s, j4, j5, WordChar);
      assert false;
    }
  }

  /** The compare pattern does not match "compare" followed by three words,
      each after white space, whatever follows them. */
  lemma CompareThreeNamesGen(g: Pattern, s: string, p1: nat, q1: nat, p2: nat, q2: nat, p3: nat, q3: nat)
    requires CompareAt(g) && 7 <= p1 <= q1 <= p2 <= q2 <= p3 <= q3 <= |s|
    requires SpaceThenWord(s, 7, p1, q1) && SpaceThenWord(s, q1, p2, q2) && SpaceThenWord(s, q2, p3, q3)
    ensures !Gen(g, 0, s, 0)
  {
    assert IsWordChar(s[p1]) && IsSpace(s[q1]) && IsWordChar(s[p2]) && IsSpace(s[q2]) && IsWordChar(s[p3]);
    if Gen(g, 0, s, 0) {
      var j1 := Peel(g, 0, s, 0);
      var j2 := Peel(g, 1, s, j1);
      var j3 := Peel(g, 2, s, j2);
      var j4 := Peel(g, 3, s, j3);
      var j5 := Peel(g, 4, s, j4);
      var e := Peel(g, 5, s, j5);
      assert false;
    }
  }

  /** The compare pattern matches "compare" followed by two words, each after
      white space, and white space. */
  lemma CompareTwoNamesGen(g: Pattern, s: string, p1: nat, q1: nat, p2: nat, q2: nat)
    requires CompareAt(g) && 7 <= p1 <= q1 <= p2 <= q2 <= |s|
    requires LitAt(s, 0, "compare") && SpaceThenWord(s, 7, p1, q1) && SpaceThenWord(s, q1, p2, q2)
    requires AllIn(s, q2, |s|, Space)
    ensures Gen(g, 0, s, 0)
  {
    assert Matches(g[5], s, q2, |s|) && Gen(g, 6, s, |s|);
    assert Matches(g[4], s, p2, q2) && Gen(g, 5, s, q2);
    assert Matches(g[3], s, q1, p2) && Gen(g, 4, s, p2);
    assert Matches(g[2], s, p1, q1) && Gen(g, 3, s, q1);
    assert Matches(g[1], s, 7, p1) && Gen(g, 2, s, p1);
    assert Matches(g[0], s, 0, 7) && Gen(g, 1, s, 7);
  }

  /** compare with no name fails, whatever white space follows the keyword. */
  lemma CompareNoNameFails(b: string)
    requires AllIn(b, 0, |b|, Space)
    ensures ValidateCompareInput("compare" + b) == Fail(InvalidFormat(CompareFormatError))
  {
    RunAppended("compare", b, Space);
    CompareShape();
    CompareNoNameGen(ComparePattern, "compare" + b);
  }

  /** compare with a single name fails, whatever white space surrounds it. */
  lemma CompareOneNameFails(a: string, w: string, b: string)
    requires |a| > 0 && AllIn(a, 0, |a|, Space)
    requires |w| > 0 && AllIn(w, 0, |w|, WordChar)
    requires AllIn(b, 0, |b|, Space)
    ensures ValidateCompareInput("compare" + a + w + b) == Fail(InvalidFormat(CompareFormatError))
  {
    var x1 := "compare" + a;
    var x2 := x1 + w;
    var s := x2 + b;
    RunAppended("compare", a, Space);
    RunAppended(x1, w, WordChar);
    RunAppended(x2, b, Space);
    RunKept(x1, s, 7, |x1|, Space);
    RunKept(x2, s, |x1|, |x2|, WordChar);
    CompareShape();
    CompareOneNameGen(ComparePattern, s, |x1|, |x2|);
  }

  /** compare with three or more names fails: three white-space-separated
      words after the keyword fail whatever follows them. */
  lemma CompareThreeNamesFail(a1: string, w1: string, a2: string, w2: string, a3: string, w3: string, b: string)
    requires |a1| > 0 && AllIn(a1, 0, |a1|, Space) && |w1| > 0 && AllIn(w1, 0, |w1|, WordChar)
    requires |a2| > 0 && AllIn(a2, 0, |a2|, Space) && |w2| > 0 && AllIn(w2, 0, |w2|, WordChar)
    requires |a3| > 0 && AllIn(a3, 0, |a3|, Space) && |w3| > 0 && AllIn(w3, 0, |w3|, WordChar)
    ensures ValidateCompareInput("compare" + a1 + w1 + a2 + w2 + a3 + w3 + b) == Fail(InvalidFormat(CompareFormatError))
  {
    var x1 := "compare" + a1;
    var x2 := x1 + w1;
    var x3 := x2 + a2;
    var x4 := x3 + w2;
    var x5 := x4 + a3;
    var x6 := x5 + w3;
    var s := x6 + b;
    RunAppended("compare", a1, Space);
    RunAppended(x1, w1, WordChar);
    RunAppended(x2, a2, Space);
    RunAppended(x3, w2, WordChar);
    RunAppended(x4, a3, Space);
    RunAppended(x5, w3, WordChar);
    RunKept(x1, s, 7, |x1|, Space);
    RunKept(x2, s, |x1|, |x2|, WordChar);
    RunKept(x3, s, |x2|, |x3|, Space);
    RunKept(x4, s, |x3|, |x4|, WordChar);
    RunKept(x5, s, |x4|, |x5|, Space);
    RunKept(x6, s, |x5|, |x6|, WordChar);
    CompareShape();
    CompareThreeNamesGen(ComparePattern, s, |x1|, |x2|, |x3|, |x4|, |x5|, |x6|);
  }

  /** compare with two names passes, whatever white space surrounds them. */
  lemma CompareTwoNamesPass(a1: string, w1: string, a2: string, w2: string, b: string)
    requires |a1| > 0 && AllIn(a1, 0, |a1|, Space) && |w1| > 0 && AllIn(w1, 0, |w1|, WordChar)
    requires |a2| > 0 && AllIn(a2, 0, |a2|, Space) && |w2| > 0 && AllIn(w2, 0, |w2|, WordChar)
    requires AllIn(b, 0, |b|, Space)
    ensures ValidateCompareInput("compare" + a1 + w1 + a2 + w2 + b) == Pass
  {
    var x1 := "compare" + a1;
    var x2 := x1 + w1;
    var x3 := x2 + a2;
    var x4 := x3 + w2;
    var s := x4 + b;
    KeywordKept("compare", a1, s);
    RunAppended("compare", a1, Space);
    RunAppended(x1, w1, WordChar);
    RunAppended(x2, a2, Space);
    RunAppended(x3, w2, WordChar);
    RunAppended(x4, b, Space);
    RunKept(x1, s, 7, |x1|, Space);
    RunKept(x2, s, |x1|, |x2|, WordChar);
    RunKept(x3, s, |x2|, |x3|, Space);
    CompareShape();
    CompareTwoNamesGen(ComparePattern, s, |x1|, |x2|, |x3|, |x4|);
  }

  // ---------------------------------------------------------------------
  // adduser with one name.

  /** The adduser pattern matches "adduser" followed by one word after white
      space, and white space. */
  lemma AddUserOneNameGen(g: Pattern, s: string, p: nat, q: nat)
    requires AddUserAt(g) && 7 <= p <= q <= |s|
    requires LitAt(s, 0, "adduser") && SpaceThenWord(s, 7, p, q) && AllIn(s, q, |s|, Space)
    ensures Gen(g, 0, s, 0)
  {
    assert Matches(g[3], s, q, |s|) && Gen(g, 4, s, |s|);
    assert Matches(g[2], s, p, q) && Gen(g, 3, s, q);
    assert Matches(g[1], s, 7, p) && Gen(g, 2, s, p);
    assert Matches(g[0], s, 0, 7) && Gen(g, 1, s, 7);
  }

  /** adduser with one name passes, whatever white space surrounds it (for
      example "adduser bob "). */
  lemma AddUserOneNamePass(a: string, w: string, b: string)
    requires |a| > 0 && AllIn(a, 0, |a|, Space) && |w| > 0 && AllIn(w, 0, |w|, WordChar)
    requires AllIn(b, 0, |b|, Space)
    ensures ValidateAddUserInput("adduser" + a + w + b) == Pass
  {
    var x1 := "adduser" + a;
    var x2 := x1 + w;
    var s := x2 + b;
    KeywordKept("adduser", a, s);
    RunAppended("adduser", a, Space);
    RunAppended(x1, w, WordChar);
    RunAppended(x2, b, Space);
    RunKept(x1, s, 7, |x1|, Space);
    RunKept(x2, s, |x1|, |x2|, WordChar);
    AddUserShape();
    AddUserOneNameGen(AddUserPattern, s, |x1|, |x2|);
  }

  // ---------------------------------------------------------------------
  // Days and times.

  /** The input, ASCII lower-cased. */
  function LowerAscii(s: string): (r: string)
    ensures |r| == |s| && forall k :: 0 <= k < |s| ==> r[k] == ToLower(s[k])
  {
    seq(|s|, k requires 0 <= k < |s| => ToLower(s[k]))
  }

  lemma LowerDaysAreLower()
    ensures forall k, m :: 0 <= k < |LowerDays| && 0 <= m < |LowerDays[k]| ==> !IsUpper(LowerDays[k][m])
  {
  }

  /** validateDay's test, read another way: the input lower-cased is one of
      the seven lower-case day names. */
  lemma WeekdayByLowering(s: string)
    ensures IsWeekday(s) <==> LowerAscii(s) in LowerDays
  {
    LowerDaysAreLower();
    if IsWeekday(s) {
      var k :| 0 <= k < |LowerDays| && EqualsIgnoreCase(LowerDays[k], s);
      assert LowerAscii(s) == LowerDays[k];
    }
    if LowerAscii(s) in LowerDays {
      var k :| 0 <= k < |LowerDays| && LowerDays[k] == LowerAscii(s);
      assert EqualsIgnoreCase(LowerDays[k], s);
    }
  }

  /** The capitalised and the lower-case day lists name the same days. */
  lemma DayListsAgree(k: nat)
    requires k < |LowerDays|
    ensures |CapitalDays| == |LowerDays| && EqualsIgnoreCase(CapitalDays[k], LowerDays[k])
  {
  }

  /** The day slot of changeTaskTiming and changeTaskType, and that of addfor,
      accept exactly the pieces that validateDay accepts: a weekday name in
      any case. */
  lemma DaySlotIsWeekday(s: string, i: nat, j: nat)
    requires i <= j <= |s|
    ensures Matches(OneOf(CapitalDays), s, i, j) <==> IsWeekday(s[i..j])
    ensures Matches(OneOf(LowerDays), s, i, j) <==> IsWeekday(s[i..j])
  {
    forall k | 0 <= k < |LowerDays|
      ensures (j == i + |CapitalDays[k]| && LitAt(s, i, CapitalDays[k])) <==> EqualsIgnoreCase(LowerDays[k], s[i..j])
      ensures (j == i + |LowerDays[k]| && LitAt(s, i, LowerDays[k])) <==> EqualsIgnoreCase(LowerDays[k], s[i..j])
    {
      DayListsAgree(k);
    }
  }

  /** An abbreviation such as "mon" is not a day, in any slot. */
  lemma AbbreviationNotDay()
    ensures !IsWeekday("mon") && !IsWeekday("Mon")
  {
  }

  /** Time fields: one or two hour digits, a colon and exactly two minute
      digits, with no range check. */
  lemma TimeExamples()
    ensures Matches(Time, "99:99", 0, 5)
    ensures Matches(Time, "9:05", 0, 4)
    ensures forall j :: 0 <= j <= 3 ==> !Matches(Time, "9:5", 0, j)
    ensures forall j :: 0 <= j <= 6 ==> !Matches(Time, "123:00", 0, j)
  {
  }
}
