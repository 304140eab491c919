/** The twelve command grammars of InputValidator.java, each written as the
    pattern its regular expression denotes, and for each a scanner (what
    `input.matches(regex)` computes) proved to accept exactly that language. */
module Grammars {
  import opened Chars
  import opened Optional
  import opened Patterns
  import opened Scanning

  /** `(?:Monday|Tuesday|...|Sunday)`, as changeTaskTiming and changeTaskType write it. */
  const CapitalDays: seq<string> :=
    ["Monday", "Tuesday", "Wednesday", "Thursday", "Friday", "Saturday", "Sunday"]

  /** `(monday|tuesday|...|sunday)`, as addfor writes it. validateDay keeps its
      own array of the same names; see `InputValidator.ValidDays`. */
  const LowerDays: seq<string> :=
    ["monday", "tuesday", "wednesday", "thursday", "friday", "saturday", "sunday"]

  /** `compare\s+\w+\s+\w+(\s+)?` */
  const ComparePattern: Pattern :=
    [Lit("compare"), Plus(Space), Plus(WordChar), Plus(Space), Plus(WordChar), Star(Space)]

  /** `compareall(\s+)?` */
  const CompareAllPattern: Pattern :=
    [Lit("compareall"), Star(Space)]

  /** `addtask\s+/on\s+(\w+)\s+/task\s+((.+)?)\s/from\s+(T)\s+/to\s+(T)\s+(/type\s+[fc](\s+)?)`
      where T is `\d{1,2}:\d{2}` */
  const AddTaskPattern: Pattern :=
    [Lit("addtask"), Plus(Space), Lit("/on"), Plus(Space), Plus(WordChar), Plus(Space),
     Lit("/task"), Plus(Space), Star(AnyButLineEnd), One(Space),
     Lit("/from"), Plus(Space), Time, Plus(Space), Lit("/to"), Plus(Space), Time,
     Plus(Space), Lit("/type"), Plus(Space), One(TypeLetter), Star(Space)]

  /** `addtwdc\s+/on\s+(\w+)\s+/task\s+(.+?)\s+/from\s+(T)\s+/to\s+(T)(\s+/type\s+[fc])` */
  const AddTwdcPattern: Pattern :=
    [Lit("addtwdc"), Plus(Space), Lit("/on"), Plus(Space), Plus(WordChar), Plus(Space),
     Lit("/task"), Plus(Space), Plus(AnyButLineEnd), Plus(Space),
     Lit("/from"), Plus(Space), Time, Plus(Space), Lit("/to"), Plus(Space), Time,
     Plus(Space), Lit("/type"), Plus(Space), One(TypeLetter)]

  /** `deletetask\s+/on\s+(\w+)\s+/index\s+(\d+)` */
  const DeleteTaskPattern: Pattern :=
    [Lit("deletetask"), Plus(Space), Lit("/on"), Plus(Space), Plus(WordChar), Plus(Space),
     Lit("/index"), Plus(Space), Plus(Digit)]

  /** `adduser\s+\w+(\s+)?` */
  const AddUserPattern: Pattern :=
    [Lit("adduser"), Plus(Space), Plus(WordChar), Star(Space)]

  /** `switch\s+\w+` */
  const SwitchPattern: Pattern :=
    [Lit("switch"), Plus(Space), Plus(WordChar)]

  /** `changeTaskTiming\s+/on\s+(?:Monday|...)\s+/index\s+\d+\s+/from\s+T\s+/to\s+T` */
  const ChangeTaskTimingPattern: Pattern :=
    [Lit("changeTaskTiming"), Plus(Space), Lit("/on"), Plus(Space), OneOf(CapitalDays), Plus(Space),
     Lit("/index"), Plus(Space), Plus(Digit), Plus(Space),
     Lit("/from"), Plus(Space), Time, Plus(Space), Lit("/to"), Plus(Space), Time]

  /** `addforall\s+/on\s+(\w+)\s+/task\s+((.+)?)\s/from\s+(T)\s+/to\s+(T)\s?` */
  const AddForAllPattern: Pattern :=
    [Lit("addforall"), Plus(Space), Lit("/on"), Plus(Space), Plus(WordChar), Plus(Space),
     Lit("/task"), Plus(Space), Star(AnyButLineEnd), One(Space),
     Lit("/from"), Plus(Space), Time, Plus(Space), Lit("/to"), Plus(Space), Time,
     Opt(Space)]

  /** `changeTaskType\s+/on\s+(?:Monday|...)\s+/index\s+\d+\s+/type\s+[fc]` */
  const ChangeTaskTypePattern: Pattern :=
    [Lit("changeTaskType"), Plus(Space), Lit("/on"), Plus(Space), OneOf(CapitalDays), Plus(Space),
     Lit("/index"), Plus(Space), Plus(Digit), Plus(Space),
     Lit("/type"), Plus(Space), One(TypeLetter)]

  /** `addrepeattask\s+/task\s+(.+?)\s+/on\s+(\w+(\s+\w+)*)\s+/from\s+(T)\s+/to\s+(T)\s+/type\s+([fc])` */
  const AddRepeatTaskPattern: Pattern :=
    [Lit("addrepeattask"), Plus(Space), Lit("/task"), Plus(Space), Plus(AnyButLineEnd), Plus(Space),
     Lit("/on"), Plus(Space), Words, Plus(Space),
     Lit("/from"), Plus(Space), Time, Plus(Space), Lit("/to"), Plus(Space), Time,
     Plus(Space), Lit("/type"), Plus(Space), One(TypeLetter)]

  /** `addfor\s+/user\s+([\w\s,]+)\s+/on\s+(monday|...)\s+/task\s+([\w\s]+)\s+/from\s+(T)\s+/to\s+(T)\s+/type\s+([cfCF])` */
  const AddForPattern: Pattern :=
    [Lit("addfor"), Plus(Space), Lit("/user"), Plus(Space), Plus(UserListChar), Plus(Space),
     Lit("/on"), Plus(Space), OneOf(LowerDays), Plus(Space),
     Lit("/task"), Plus(Space), Plus(TaskChar), Plus(Space),
     Lit("/from"), Plus(Space), Time, Plus(Space), Lit("/to"), Plus(Space), Time,
     Plus(Space), Lit("/type"), Plus(Space), One(TypeLetter)]

  // ---------------------------------------------------------------------
  // Segments shared by several commands. Each has a shape predicate on the
  // pattern (`...At`), a scanner, and a step lemma connecting the two; the
  // lemmas are stated for any pattern of that shape, which keeps each proof
  // small.

  /** `\s+w` where w is a flag such as `/on`. */
  predicate SpaceLitAt(g: Pattern, n: nat) {
    n + 2 <= |g| && g[n] == Plus(Space) && g[n + 1].Lit? &&
    |g[n + 1].word| > 0 && g[n + 1].word[0] == '/'
  }

  /** Where `\s+w`, starting at i, ends, if it matches there. */
  function SpaceLitEnd(s: string, i: nat, w: string): (r: Option<nat>)
    requires i <= |s|
    ensures r.Some? ==> i < r.value <= |s|
  {
    var a := Span(s, i, Space);
    if a > i && LitAt(s, a, w) then Some(a + |w|) else None
  }

  lemma SpaceLitStep(g: Pattern, n: nat, s: string, i: nat)
    requires SpaceLitAt(g, n) && i <= |s|
    ensures var r := SpaceLitEnd(s, i, g[n + 1].word);
      Gen(g, n, s, i) <==> r.Some? && Gen(g, n + 2, s, r.value)
  {
    RunStep(g, n, s, i);
    LitStep(g, n + 1, s, Span(s, i, Space));
  }

  /** `w\s+T` where T is a time `\d{1,2}:\d{2}`. */
  predicate LabelTimeAt(g: Pattern, n: nat, w: string) {
    n + 3 <= |g| && g[n] == Lit(w) && g[n + 1] == Plus(Space) && g[n + 2] == Time
  }

  function LabelTimeEnd(s: string, i: nat, w: string): (r: Option<nat>)
    requires i <= |s|
    ensures r.Some? ==> i < r.value <= |s|
  {
    if !LitAt(s, i, w) then None
    else
      var a := Span(s, i + |w|, Space);
      if a == i + |w| then None else TimeEnd(s, a)
  }

  lemma LabelTimeStep(g: Pattern, n: nat, s: string, i: nat, w: string)
    requires LabelTimeAt(g, n, w) && i <= |s|
    ensures var r := LabelTimeEnd(s, i, w);
      Gen(g, n, s, i) <==> r.Some? && Gen(g, n + 3, s, r.value)
  {
    LitStep(g, n, s, i);
    if LitAt(s, i, w) {
      RunStep(g, n + 1, s, i + |w|);
      TimeStep(g, n + 2, s, Span(s, i + |w|, Space));
    }
  }

  /** `/from\s+T\s+/to\s+T`, shared by six commands. */
  predicate FromToAt(g: Pattern, n: nat) {
    n + 7 <= |g| && LabelTimeAt(g, n, "/from") && g[n + 3] == Plus(Space) && LabelTimeAt(g, n + 4, "/to")
  }

  function FromToEnd(s: string, i: nat): (r: Option<nat>)
    requires i <= |s|
    ensures r.Some? ==> i < r.value <= |s|
  {
    match LabelTimeEnd(s, i, "/from")
    case None => None
    case Some(b) =>
      var c := Span(s, b, Space);
      if c == b then None else LabelTimeEnd(s, c, "/to")
  }

  lemma FromToStep(g: Pattern, n: nat, s: string, i: nat)
    requires FromToAt(g, n) && i <= |s|
    ensures Gen(g, n, s, i) <==> FromToEnd(s, i).Some? && Gen(g, n + 7, s, FromToEnd(s, i).value)
  {
    LabelTimeStep(g, n, s, i, "/from");
    if LabelTimeEnd(s, i, "/from").Some? {
      var b := LabelTimeEnd(s, i, "/from").value;
      RunStep(g, n + 3, s, b);
      LabelTimeStep(g, n + 4, s, Span(s, b, Space), "/to");
    }
  }

  /** `\s+/on\s+\w+\s+` and a flag: shared by addtask, addtwdc, addforall
      (flag `/task`) and deletetask (flag `/index`). */
  predicate OnWordAt(g: Pattern, n: nat, flag: string) {
    n + 6 <= |g| && |flag| > 0 && flag[0] == '/' &&
    g[n] == Plus(Space) && g[n + 1] == Lit("/on") && g[n + 2] == Plus(Space) &&
    g[n + 3] == Plus(WordChar) && g[n + 4] == Plus(Space) && g[n + 5] == Lit(flag)
  }

  function OnWordEnd(s: string, i: nat, flag: string): (r: Option<nat>)
    requires i <= |s|
    ensures r.Some? ==> i < r.value <= |s|
  {
    match SpaceLitEnd(s, i, "/on")
    case None => None
    case Some(a) =>
      var b := Span(s, a, Space);
      if b == a then None
      else
        var c := Span(s, b, WordChar);
        if c == b then None else SpaceLitEnd(s, c, flag)
  }

  lemma OnWordStep(g: Pattern, n: nat, s: string, i: nat, flag: string)
    requires OnWordAt(g, n, flag) && i <= |s|
    ensures Gen(g, n, s, i) <==> OnWordEnd(s, i, flag).Some? && Gen(g, n + 6, s, OnWordEnd(s, i, flag).value)
  {
    SpaceLitStep(g, n, s, i);
    if SpaceLitEnd(s, i, "/on").Some? {
      var a := SpaceLitEnd(s, i, "/on").value;
      RunStep(g, n + 2, s, a);
      var b := Span(s, a, Space);
      RunStep(g, n + 3, s, b);
      SpaceLitStep(g, n + 4, s, Span(s, b, WordChar));
    }
  }

  /** `\s+/on\s+` and one of the weekday names ws. */
  predicate OnDayAt(g: Pattern, n: nat, ws: seq<string>) {
    n + 4 <= |g| && g[n] == Plus(Space) && g[n + 1] == Lit("/on") && g[n + 2] == Plus(Space) &&
    g[n + 3] == OneOf(ws)
  }

  /** The day names are prefix-free and each begins with a word character. */
  predicate DaysOk(ws: seq<string>) {
    PrefixFree(ws) && forall k :: 0 <= k < |ws| ==> |ws[k]| > 0 && IsWordChar(ws[k][0])
  }

  function OnDayEnd(s: string, i: nat, ws: seq<string>): (r: Option<nat>)
    requires i <= |s|
    ensures r.Some? ==> i < r.value <= |s|
  {
    match SpaceLitEnd(s, i, "/on")
    case None => None
    case Some(a) =>
      var b := Span(s, a, Space);
      if b == a then None else FirstLitEnd(s, b, ws, 0)
  }

  lemma OnDayStep(g: Pattern, n: nat, s: string, i: nat, ws: seq<string>)
    requires OnDayAt(g, n, ws) && DaysOk(ws) && i <= |s|
    ensures Gen(g, n, s, i) <==> OnDayEnd(s, i, ws).Some? && Gen(g, n + 4, s, OnDayEnd(s, i, ws).value)
  {
    SpaceLitStep(g, n, s, i);
    if SpaceLitEnd(s, i, "/on").Some? {
      var a := SpaceLitEnd(s, i, "/on").value;
      RunStep(g, n + 2, s, a);
      OneOfStep(g, n + 3, s, Span(s, a, Space));
    }
  }

  /** `\s+/on\s+(?:Monday|...)\s+/index\s+\d+`, and the white space that must
      follow the digits. */
  predicate DayIndexAt(g: Pattern, n: nat, ws: seq<string>) {
    n + 9 <= |g| && OnDayAt(g, n, ws) && g[n + 4] == Plus(Space) &&
    g[n + 5] == Lit("/index") && g[n + 6] == Plus(Space) && g[n + 7] == Plus(Digit) &&
    g[n + 8] == Plus(Space)
  }

  function DayIndexEnd(s: string, i: nat, ws: seq<string>): (r: Option<nat>)
    requires i <= |s|
    ensures r.Some? ==> i < r.value <= |s|
  {
    match OnDayEnd(s, i, ws)
    case None => None
    case Some(c) =>
      match SpaceLitEnd(s, c, "/index")
      case None => None
      case Some(d) =>
        var e := Span(s, d, Space);
        if e == d then None
        else
          var f := Span(s, e, Digit);
          if f == e then None else Some(f)
  }

  lemma DayIndexStep(g: Pattern, n: nat, s: string, i: nat, ws: seq<string>)
    requires DayIndexAt(g, n, ws) && DaysOk(ws) && i <= |s|
    ensures Gen(g, n, s, i) <==> DayIndexEnd(s, i, ws).Some? && Gen(g, n + 8, s, DayIndexEnd(s, i, ws).value)
  {
    OnDayStep(g, n, s, i, ws);
    if OnDayEnd(s, i, ws).Some? {
      var c := OnDayEnd(s, i, ws).value;
      SpaceLitStep(g, n + 4, s, c);
      if SpaceLitEnd(s, c, "/index").Some? {
        var d := SpaceLitEnd(s, c, "/index").value;
        RunStep(g, n + 6, s, d);
        RunStep(g, n + 7, s, Span(s, d, Space));
      }
    }
  }

  /** `\s+/type\s+[fc]` to the end of the input, with `(\s+)?` after it when
      trailing. */
  predicate TypeFieldAt(g: Pattern, n: nat, trailing: bool) {
    |g| == n + 4 + (if trailing then 1 else 0) &&
    g[n] == Plus(Space) && g[n + 1] == Lit("/type") && g[n + 2] == Plus(Space) &&
    g[n + 3] == One(TypeLetter) && (trailing ==> g[n + 4] == Star(Space))
  }

  predicate TypeFieldFrom(s: string, i: nat, trailing: bool)
    requires i <= |s|
  {
    match SpaceLitEnd(s, i, "/type")
    case None => false
    case Some(u) =>
      var v := Span(s, u, Space);
      u < v < |s| && InClass(TypeLetter, s[v]) &&
      if trailing then Span(s, v + 1, Space) == |s| else v + 1 == |s|
  }

  lemma TypeFieldStep(g: Pattern, n: nat, s: string, i: nat, trailing: bool)
    requires TypeFieldAt(g, n, trailing) && i <= |s|
    ensures Gen(g, n, s, i) <==> TypeFieldFrom(s, i, trailing)
  {
    SpaceLitStep(g, n, s, i);
    if SpaceLitEnd(s, i, "/type").Some? {
      var u := SpaceLitEnd(s, i, "/type").value;
      RunStep(g, n + 2, s, u);
      var v := Span(s, u, Space);
      OneStep(g, n + 3, s, v);
      if trailing && v < |s| {
        RunStep(g, n + 4, s, v + 1);
      }
    }
  }

  /** `\s+/from\s+T\s+/to\s+T\s+/type\s+[fc]` to the end: the tail of addtwdc,
      addrepeattask and addfor. */
  predicate FromToTypeAt(g: Pattern, n: nat) {
    n < |g| && g[n] == Plus(Space) && FromToAt(g, n + 1) && TypeFieldAt(g, n + 8, false)
  }

  predicate FromToTypeFrom(s: string, i: nat)
    requires i <= |s|
  {
    var u := Span(s, i, Space);
    i < u &&
    match FromToEnd(s, u)
    case None => false
    case Some(t) => TypeFieldFrom(s, t, false)
  }

  lemma FromToTypeStep(g: Pattern, n: nat, s: string, i: nat)
    requires FromToTypeAt(g, n) && i <= |s|
    ensures Gen(g, n, s, i) <==> FromToTypeFrom(s, i)
  {
    RunStep(g, n, s, i);
    var u := Span(s, i, Space);
    FromToStep(g, n + 1, s, u);
    if FromToEnd(s, u).Some? {
      TypeFieldStep(g, n + 8, s, FromToEnd(s, u).value, false);
    }
  }

  lemma CapitalDaysOk()
    ensures DaysOk(CapitalDays)
  {
    CapitalDaysPrefixFree();
  }

  lemma LowerDaysOk()
    ensures DaysOk(LowerDays)
  {
    LowerDaysPrefixFree();
  }

  lemma CapitalDaysPrefixFree()
    ensures PrefixFree(CapitalDays)
  {
    var ws := CapitalDays;
    forall a, b | 0 <= a < b < |ws| ensures Diverge(ws[a], ws[b]) {
      if ws[a][0] == ws[b][0] {
        assert !SameLetter(ws[a][1], ws[b][1]);
      } else {
        assert !SameLetter(ws[a][0], ws[b][0]);
      }
    }
  }

  lemma LowerDaysPrefixFree()
    ensures PrefixFree(LowerDays)
  {
    var ws := LowerDays;
    forall a, b | 0 <= a < b < |ws| ensures Diverge(ws[a], ws[b]) {
      if ws[a][0] == ws[b][0] {
        assert !SameLetter(ws[a][1], ws[b][1]);
      } else {
        assert !SameLetter(ws[a][0], ws[b][0]);
      }
    }
  }

  // ---------------------------------------------------------------------
  // Each command below has a scanner `ScanX`, the shape `XAt` of its
  // pattern, a lemma `XGen` proving the scanner right for every pattern of
  // that shape, a lemma `XShape` saying that the command's pattern has it,
  // and `ScanXCorrect`, the two combined.

  // ---------------------------------------------------------------------
  // compare and compareall

  /** The compare scanner: the keyword, two words, optional trailing white space. */
  predicate ScanCompare(s: string) {
    LitAt(s, 0, "compare") &&
    var a := Span(s, 7, Space);
    7 < a &&
    var b := Span(s, a, WordChar);
    a < b &&
    var c := Span(s, b, Space);
    b < c &&
    var d := Span(s, c, WordChar);
    c < d && Span(s, d, Space) == |s|
  }

  predicate CompareAt(g: Pattern) {
    |g| == 6 && g[0] == Lit("compare") && g[1] == Plus(Space) && g[2] == Plus(WordChar) &&
    g[3] == Plus(Space) && g[4] == Plus(WordChar) && g[5] == Star(Space)
  }

  lemma CompareGen(g: Pattern, s: string)
    requires CompareAt(g)
    ensures ScanCompare(s) <==> Gen(g, 0, s, 0)
  {
    LitStep(g, 0, s, 0);
    if LitAt(s, 0, "compare") {
      RunStep(g, 1, s, 7);
      var a := Span(s, 7, Space);
      RunStep(g, 2, s, a);
      var b := Span(s, a, WordChar);
      RunStep(g, 3, s, b);
      var c := Span(s, b, Space);
      RunStep(g, 4, s, c);
      RunStep(g, 5, s, Span(s, c, WordChar));
    }
  }

  lemma CompareShape()
    ensures CompareAt(ComparePattern)
  {
  }

  lemma ScanCompareCorrect(s: string)
    ensures ScanCompare(s) <==> InLanguage(ComparePattern, s)
  {
    CompareShape();
    CompareGen(ComparePattern, s);
  }

  /** The compareall scanner: the keyword and optional trailing white space. */
  predicate ScanCompareAll(s: string) {
    LitAt(s, 0, "compareall") && Span(s, 10, Space) == |s|
  }

  lemma ScanCompareAllCorrect(s: string)
    ensures ScanCompareAll(s) <==> InLanguage(CompareAllPattern, s)
  {
    var g := CompareAllPattern;
    LitStep(g, 0, s, 0);
    if LitAt(s, 0, "compareall") {
      RunStep(g, 1, s, 10);
    }
  }

  // ---------------------------------------------------------------------
  // addtask and addforall: `\s+((.+)?)\s/from...`, where the description
  // ends at one white-space character in front of `/from`.

  predicate AddTaskAt(g: Pattern) {
    |g| == 22 && g[0] == Lit("addtask") && OnWordAt(g, 1, "/task") &&
    g[7] == Plus(Space) && g[8] == Star(AnyButLineEnd) && g[9] == One(Space) &&
    FromToAt(g, 10) && TypeFieldAt(g, 17, true)
  }

  /** What addtask requires from position k, the white-space character that
      closes the description, to the end. */
  predicate AddTaskAfterText(s: string, k: nat)
    requires k <= |s|
  {
    k < |s| && IsSpace(s[k]) &&
    match FromToEnd(s, k + 1)
    case None => false
    case Some(t) => TypeFieldFrom(s, t, true)
  }

  /** The addtask scanner: the keyword, the day word, a possibly empty
      description and one white-space character before `/from`, the times,
      the type letter and optional trailing white space. */
  predicate ScanAddTask(s: string) {
    LitAt(s, 0, "addtask") &&
    match OnWordEnd(s, 7, "/task")
    case None => false
    case Some(p) =>
      var e := Span(s, p, Space);
      p < e &&
      exists k :: p + 1 <= k <= Span(s, e, AnyButLineEnd) && AddTaskAfterText(s, k)
  }

  lemma AddTaskTail(g: Pattern, s: string, k: nat)
    requires AddTaskAt(g) && k <= |s|
    ensures AddTaskAfterText(s, k) <==> Gen(g, 9, s, k)
  {
    OneStep(g, 9, s, k);
    if k < |s| && IsSpace(s[k]) {
      AddTaskFromToType(g, s, k + 1);
    }
  }

  lemma AddTaskFromToType(g: Pattern, s: string, p: nat)
    requires AddTaskAt(g) && p <= |s|
    ensures Gen(g, 10, s, p) <==>
      match FromToEnd(s, p)
      case None => false
      case Some(t) => TypeFieldFrom(s, t, true)
  {
    FromToStep(g, 10, s, p);
    if FromToEnd(s, p).Some? {
      TypeFieldStep(g, 17, s, FromToEnd(s, p).value, true);
    }
  }

  lemma AddTaskGen(g: Pattern, s: string)
    requires AddTaskAt(g)
    ensures ScanAddTask(s) <==> Gen(g, 0, s, 0)
  {
    LitStep(g, 0, s, 0);
    if LitAt(s, 0, "addtask") {
      OnWordStep(g, 1, s, 7, "/task");
      if OnWordEnd(s, 7, "/task").Some? {
        var p := OnWordEnd(s, 7, "/task").value;
        PlusStarStep(g, 7, s, p);
        var h := Span(s, Span(s, p, Space), AnyButLineEnd);
        forall k | p + 1 <= k <= h ensures AddTaskAfterText(s, k) <==> Gen(g, 9, s, k) {
          AddTaskTail(g, s, k);
        }
      }
    }
  }

  lemma AddTaskShape()
    ensures AddTaskAt(AddTaskPattern)
  {
    AddTaskElements0();
    AddTaskElements1();
    AddTaskElements2();
    AddTaskElements3();
    AddTaskElements4();
  }

  lemma AddTaskElements0()
    ensures var g := AddTaskPattern; |g| == 22 && g[0] == Lit("addtask") && g[1] == Plus(Space) && g[2] == Lit("/on") && g[3] == Plus(Space) && g[4] == Plus(WordChar)
  {
  }

  lemma AddTaskElements1()
    ensures var g := AddTaskPattern; g[5] == Plus(Space) && g[6] == Lit("/task") && g[7] == Plus(Space) && g[8] == Star(AnyButLineEnd) && g[9] == One(Space)
  {
  }

  lemma AddTaskElements2()
    ensures var g := AddTaskPattern; g[10] == Lit("/from") && g[11] == Plus(Space) && g[12] == Time && g[13] == Plus(Space) && g[14] == Lit("/to")
  {
  }

  lemma AddTaskElements3()
    ensures var g := AddTaskPattern; g[15] == Plus(Space) && g[16] == Time && g[17] == Plus(Space) && g[18] == Lit("/type") && g[19] == Plus(Space)
  {
  }

  lemma AddTaskElements4()
    ensures var g := AddTaskPattern; g[20] == One(TypeLetter) && g[21] == Star(Space)
  {
  }

  lemma ScanAddTaskCorrect(s: string)
    ensures ScanAddTask(s) <==> InLanguage(AddTaskPattern, s)
  {
    AddTaskShape();
    AddTaskGen(AddTaskPattern, s);
  }

  predicate AddForAllAt(g: Pattern) {
    |g| == 18 && g[0] == Lit("addforall") && OnWordAt(g, 1, "/task") &&
    g[7] == Plus(Space) && g[8] == Star(AnyButLineEnd) && g[9] == One(Space) &&
    FromToAt(g, 10) && g[17] == Opt(Space)
  }

  /** What addforall requires from position k, the white-space character that
      closes the description, to the end. */
  predicate AddForAllAfterText(s: string, k: nat)
    requires k <= |s|
  {
    k < |s| && IsSpace(s[k]) &&
    match FromToEnd(s, k + 1)
    case None => false
    case Some(t) => t == |s| || (t + 1 == |s| && IsSpace(s[t]))
  }

  /** The addforall scanner: as addtask without the type field, ending in at most
      one white-space character. */
  predicate ScanAddForAll(s: string) {
    LitAt(s, 0, "addforall") &&
    match OnWordEnd(s, 9, "/task")
    case None => false
    case Some(p) =>
      var e := Span(s, p, Space);
      p < e &&
      exists k :: p + 1 <= k <= Span(s, e, AnyButLineEnd) && AddForAllAfterText(s, k)
  }

  lemma AddForAllTail(g: Pattern, s: string, k: nat)
    requires AddForAllAt(g) && k <= |s|
    ensures AddForAllAfterText(s, k) <==> Gen(g, 9, s, k)
  {
    OneStep(g, 9, s, k);
    if k < |s| && IsSpace(s[k]) {
      FromToStep(g, 10, s, k + 1);
      if FromToEnd(s, k + 1).Some? {
        OptStep(g, 17, s, FromToEnd(s, k + 1).value);
      }
    }
  }

  lemma AddForAllGen(g: Pattern, s: string)
    requires AddForAllAt(g)
    ensures ScanAddForAll(s) <==> Gen(g, 0, s, 0)
  {
    LitStep(g, 0, s, 0);
    if LitAt(s, 0, "addforall") {
      OnWordStep(g, 1, s, 9, "/task");
      if OnWordEnd(s, 9, "/task").Some? {
        var p := OnWordEnd(s, 9, "/task").value;
        PlusStarStep(g, 7, s, p);
        var h := Span(s, Span(s, p, Space), AnyButLineEnd);
        forall k | p + 1 <= k <= h ensures AddForAllAfterText(s, k) <==> Gen(g, 9, s, k) {
          AddForAllTail(g, s, k);
        }
      }
    }
  }

  lemma AddForAllShape()
    ensures AddForAllAt(AddForAllPattern)
  {
    AddForAllElements0();
    AddForAllElements1();
    AddForAllElements2();
    AddForAllElements3();
  }

  lemma AddForAllElements0()
    ensures var g := AddForAllPattern; |g| == 18 && g[0] == Lit("addforall") && g[1] == Plus(Space) && g[2] == Lit("/on") && g[3] == Plus(Space) && g[4] == Plus(WordChar)
  {
  }

  lemma AddForAllElements1()
    ensures var g := AddForAllPattern; g[5] == Plus(Space) && g[6] == Lit("/task") && g[7] == Plus(Space) && g[8] == Star(AnyButLineEnd) && g[9] == One(Space)
  {
  }

  lemma AddForAllElements2()
    ensures var g := AddForAllPattern; g[10] == Lit("/from") && g[11] == Plus(Space) && g[12] == Time && g[13] == Plus(Space) && g[14] == Lit("/to")
  {
  }

  lemma AddForAllElements3()
    ensures var g := AddForAllPattern; g[15] == Plus(Space) && g[16] == Time && g[17] == Opt(Space)
  {
  }

  lemma ScanAddForAllCorrect(s: string)
    ensures ScanAddForAll(s) <==> InLanguage(AddForAllPattern, s)
  {
    AddForAllShape();
    AddForAllGen(AddForAllPattern, s);
  }

  // ---------------------------------------------------------------------
  // addtwdc

  predicate AddTwdcAt(g: Pattern) {
    |g| == 21 && g[0] == Lit("addtwdc") && OnWordAt(g, 1, "/task") &&
    g[7] == Plus(Space) && g[8] == Plus(AnyButLineEnd) && FromToTypeAt(g, 9)
  }

  /** The addtwdc scanner: as addtask, with a non-empty description and nothing
      after the type letter. */
  predicate ScanAddTwdc(s: string) {
    LitAt(s, 0, "addtwdc") &&
    match OnWordEnd(s, 7, "/task")
    case None => false
    case Some(p) =>
      var e := Span(s, p, Space);
      p < e &&
      exists k :: p + 2 <= k <= Span(s, e, AnyButLineEnd) && InClass(AnyButLineEnd, s[k - 1]) && FromToTypeFrom(s, k)
  }

  lemma AddTwdcGen(g: Pattern, s: string)
    requires AddTwdcAt(g)
    ensures ScanAddTwdc(s) <==> Gen(g, 0, s, 0)
  {
    LitStep(g, 0, s, 0);
    if LitAt(s, 0, "addtwdc") {
      OnWordStep(g, 1, s, 7, "/task");
      if OnWordEnd(s, 7, "/task").Some? {
        var p := OnWordEnd(s, 7, "/task").value;
        PlusPlusStep(g, 7, s, p);
        var h := Span(s, Span(s, p, Space), AnyButLineEnd);
        forall k | p + 2 <= k <= h ensures FromToTypeFrom(s, k) <==> Gen(g, 9, s, k) {
          FromToTypeStep(g, 9, s, k);
        }
      }
    }
  }

  lemma AddTwdcShape()
    ensures AddTwdcAt(AddTwdcPattern)
  {
    AddTwdcElements0();
    AddTwdcElements1();
    AddTwdcElements2();
    AddTwdcElements3();
    AddTwdcElements4();
  }

  lemma AddTwdcElements0()
    ensures var g := AddTwdcPattern; |g| == 21 && g[0] == Lit("addtwdc") && g[1] == Plus(Space) && g[2] == Lit("/on") && g[3] == Plus(Space) && g[4] == Plus(WordChar)
  {
  }

  lemma AddTwdcElements1()
    ensures var g := AddTwdcPattern; g[5] == Plus(Space) && g[6] == Lit("/task") && g[7] == Plus(Space) && g[8] == Plus(AnyButLineEnd) && g[9] == Plus(Space)
  {
  }

  lemma AddTwdcElements2()
    ensures var g := AddTwdcPattern; g[10] == Lit("/from") && g[11] == Plus(Space) && g[12] == Time && g[13] == Plus(Space) && g[14] == Lit("/to")
  {
  }

  lemma AddTwdcElements3()
    ensures var g := AddTwdcPattern; g[15] == Plus(Space) && g[16] == Time && g[17] == Plus(Space) && g[18] == Lit("/type") && g[19] == Plus(Space)
  {
  }

  lemma AddTwdcElements4()
    ensures var g := AddTwdcPattern; g[20] == One(TypeLetter)
  {
  }

  lemma ScanAddTwdcCorrect(s: string)
    ensures ScanAddTwdc(s) <==> InLanguage(AddTwdcPattern, s)
  {
    AddTwdcShape();
    AddTwdcGen(AddTwdcPattern, s);
  }

  // ---------------------------------------------------------------------
  // deletetask

  predicate DeleteTaskAt(g: Pattern) {
    |g| == 9 && g[0] == Lit("deletetask") && OnWordAt(g, 1, "/index") &&
    g[7] == Plus(Space) && g[8] == Plus(Digit)
  }

  /** From the end p of `/index`: `\s+\d+` to the end of the input. */
  predicate IndexDigitsFrom(s: string, p: nat)
    requires p <= |s|
  {
    var e := Span(s, p, Space);
    p < e && e < Span(s, e, Digit) == |s|
  }

  /** The deletetask scanner: the keyword, the day word and the index digits. */
  predicate ScanDeleteTask(s: string) {
    LitAt(s, 0, "deletetask") &&
    match OnWordEnd(s, 10, "/index")
    case None => false
    case Some(p) => IndexDigitsFrom(s, p)
  }

  lemma IndexDigitsGen(g: Pattern, s: string, p: nat)
    requires DeleteTaskAt(g) && p <= |s|
    ensures IndexDigitsFrom(s, p) <==> Gen(g, 7, s, p)
  {
    RunStep(g, 7, s, p);
    RunStep(g, 8, s, Span(s, p, Space));
  }

  /** The keyword step, with the keyword's length worked out. */
  lemma DeleteTaskKeyword(g: Pattern, s: string)
    requires DeleteTaskAt(g)
    ensures Gen(g, 0, s, 0) <==> LitAt(s, 0, "deletetask") && Gen(g, 1, s, 10)
  {
    LitStep(g, 0, s, 0);
  }

  lemma DeleteTaskGen(g: Pattern, s: string)
    requires DeleteTaskAt(g)
    ensures ScanDeleteTask(s) <==> Gen(g, 0, s, 0)
  {
    DeleteTaskKeyword(g, s);
    if LitAt(s, 0, "deletetask") {
      OnWordStep(g, 1, s, 10, "/index");
      if OnWordEnd(s, 10, "/index").Some? {
        IndexDigitsGen(g, s, OnWordEnd(s, 10, "/index").value);
      }
    }
  }

  lemma DeleteTaskShape()
    ensures DeleteTaskAt(DeleteTaskPattern)
  {
    DeleteTaskElements0();
    DeleteTaskElements1();
  }

  lemma DeleteTaskElements0()
    ensures var g := DeleteTaskPattern; |g| == 9 && g[0] == Lit("deletetask") && g[1] == Plus(Space) && g[2] == Lit("/on") && g[3] == Plus(Space) && g[4] == Plus(WordChar)
  {
  }

  lemma DeleteTaskElements1()
    ensures var g := DeleteTaskPattern; g[5] == Plus(Space) && g[6] == Lit("/index") && g[7] == Plus(Space) && g[8] == Plus(Digit)
  {
  }

  lemma ScanDeleteTaskCorrect(s: string)
    ensures ScanDeleteTask(s) <==> InLanguage(DeleteTaskPattern, s)
  {
    DeleteTaskShape();
    DeleteTaskGen(DeleteTaskPattern, s);
  }

  // ---------------------------------------------------------------------
  // adduser and switch

  /** The adduser scanner: the keyword, one word, optional trailing white space. */
  predicate ScanAddUser(s: string) {
    LitAt(s, 0, "adduser") &&
    var a := Span(s, 7, Space);
    7 < a &&
    var b := Span(s, a, WordChar);
    a < b && Span(s, b, Space) == |s|
  }

  predicate AddUserAt(g: Pattern) {
    |g| == 4 && g[0] == Lit("adduser") && g[1] == Plus(Space) && g[2] == Plus(WordChar) &&
    g[3] == Star(Space)
  }

  lemma AddUserGen(g: Pattern, s: string)
    requires AddUserAt(g)
    ensures ScanAddUser(s) <==> Gen(g, 0, s, 0)
  {
    LitStep(g, 0, s, 0);
    if LitAt(s, 0, "adduser") {
      RunStep(g, 1, s, 7);
      var a := Span(s, 7, Space);
      RunStep(g, 2, s, a);
      RunStep(g, 3, s, Span(s, a, WordChar));
    }
  }

  lemma AddUserShape()
    ensures AddUserAt(AddUserPattern)
  {
  }

  lemma ScanAddUserCorrect(s: string)
    ensures ScanAddUser(s) <==> InLanguage(AddUserPattern, s)
  {
    AddUserShape();
    AddUserGen(AddUserPattern, s);
  }

  /** The switch scanner: the keyword and one word, nothing after it. */
  predicate ScanSwitch(s: string) {
    LitAt(s, 0, "switch") &&
    var a := Span(s, 6, Space);
    6 < a && a < Span(s, a, WordChar) == |s|
  }

  lemma ScanSwitchCorrect(s: string)
    ensures ScanSwitch(s) <==> InLanguage(SwitchPattern, s)
  {
    var g := SwitchPattern;
    LitStep(g, 0, s, 0);
    if LitAt(s, 0, "switch") {
      RunStep(g, 1, s, 6);
      RunStep(g, 2, s, Span(s, 6, Space));
    }
  }

  // ---------------------------------------------------------------------
  // changeTaskTiming and changeTaskType. Their proofs hold for any list of
  // day names that is DaysOk; the scanners use the one the source writes.

  predicate ChangeTaskTimingAt(g: Pattern, days: seq<string>) {
    |g| == 17 && g[0] == Lit("changeTaskTiming") && DayIndexAt(g, 1, days) && FromToAt(g, 10)
  }

  /** After the keyword: `\s+/on\s+(days)\s+/index\s+\d+\s+/from\s+T\s+/to\s+T` to the end. */
  predicate TimingArgs(s: string, i: nat, days: seq<string>)
    requires i <= |s|
  {
    match DayIndexEnd(s, i, days)
    case None => false
    case Some(p) =>
      var e := Span(s, p, Space);
      p < e && FromToEnd(s, e) == Some(|s|)
  }

  /** The changeTaskTiming scanner: the keyword, a weekday name, the index and
      the two times. */
  predicate ScanChangeTaskTiming(s: string) {
    LitAt(s, 0, "changeTaskTiming") && TimingArgs(s, 16, CapitalDays)
  }

  lemma TimingArgsGen(g: Pattern, s: string, i: nat, days: seq<string>)
    requires ChangeTaskTimingAt(g, days) && DaysOk(days) && i <= |s|
    ensures TimingArgs(s, i, days) <==> Gen(g, 1, s, i)
  {
    DayIndexStep(g, 1, s, i, days);
    if DayIndexEnd(s, i, days).Some? {
      var p := DayIndexEnd(s, i, days).value;
      RunStep(g, 9, s, p);
      FromToStep(g, 10, s, Span(s, p, Space));
    }
  }

  /** The keyword step, with the keyword's length worked out. */
  lemma ChangeTaskTimingKeyword(g: Pattern, s: string, days: seq<string>)
    requires ChangeTaskTimingAt(g, days)
    ensures Gen(g, 0, s, 0) <==> LitAt(s, 0, "changeTaskTiming") && Gen(g, 1, s, 16)
  {
    LitStep(g, 0, s, 0);
  }

  lemma ChangeTaskTimingGen(g: Pattern, s: string, days: seq<string>)
    requires ChangeTaskTimingAt(g, days) && DaysOk(days)
    ensures LitAt(s, 0, "changeTaskTiming") && TimingArgs(s, 16, days) <==> Gen(g, 0, s, 0)
  {
    ChangeTaskTimingKeyword(g, s, days);
    if LitAt(s, 0, "changeTaskTiming") {
      TimingArgsGen(g, s, 16, days);
    }
  }

  lemma ChangeTaskTimingShape()
    ensures ChangeTaskTimingAt(ChangeTaskTimingPattern, CapitalDays)
  {
    ChangeTaskTimingElements0();
    ChangeTaskTimingElements1();
    ChangeTaskTimingElements2();
    ChangeTaskTimingElements3();
  }

  lemma ChangeTaskTimingElements0()
    ensures var g := ChangeTaskTimingPattern; |g| == 17 && g[0] == Lit("changeTaskTiming") && g[1] == Plus(Space) && g[2] == Lit("/on") && g[3] == Plus(Space) && g[4] == OneOf(CapitalDays)
  {
  }

  lemma ChangeTaskTimingElements1()
    ensures var g := ChangeTaskTimingPattern; g[5] == Plus(Space) && g[6] == Lit("/index") && g[7] == Plus(Space) && g[8] == Plus(Digit) && g[9] == Plus(Space)
  {
  }

  lemma ChangeTaskTimingElements2()
    ensures var g := ChangeTaskTimingPattern; g[10] == Lit("/from") && g[11] == Plus(Space) && g[12] == Time && g[13] == Plus(Space) && g[14] == Lit("/to")
  {
  }

  lemma ChangeTaskTimingElements3()
    ensures var g := ChangeTaskTimingPattern; g[15] == Plus(Space) && g[16] == Time
  {
  }

  lemma ScanChangeTaskTimingCorrect(s: string)
    ensures ScanChangeTaskTiming(s) <==> InLanguage(ChangeTaskTimingPattern, s)
  {
    CapitalDaysOk();
    ChangeTaskTimingShape();
    ChangeTaskTimingGen(ChangeTaskTimingPattern, s, CapitalDays);
  }

  predicate ChangeTaskTypeAt(g: Pattern, days: seq<string>) {
    |g| == 13 && g[0] == Lit("changeTaskType") && DayIndexAt(g, 1, days) && TypeFieldAt(g, 9, false)
  }

  /** After the keyword: `\s+/on\s+(days)\s+/index\s+\d+\s+/type\s+[fc]` to the end. */
  predicate TypeArgs(s: string, i: nat, days: seq<string>)
    requires i <= |s|
  {
    match DayIndexEnd(s, i, days)
    case None => false
    case Some(p) => TypeFieldFrom(s, p, false)
  }

  /** The changeTaskType scanner: the keyword, a weekday name, the index and the
      type letter. */
  predicate ScanChangeTaskType(s: string) {
    LitAt(s, 0, "changeTaskType") && TypeArgs(s, 14, CapitalDays)
  }

  lemma TypeArgsGen(g: Pattern, s: string, i: nat, days: seq<string>)
    requires ChangeTaskTypeAt(g, days) && DaysOk(days) && i <= |s|
    ensures TypeArgs(s, i, days) <==> Gen(g, 1, s, i)
  {
    DayIndexStep(g, 1, s, i, days);
    if DayIndexEnd(s, i, days).Some? {
      TypeFieldStep(g, 9, s, DayIndexEnd(s, i, days).value, false);
    }
  }

  /** The keyword step, with the keyword's length worked out. */
  lemma ChangeTaskTypeKeyword(g: Pattern, s: string, days: seq<string>)
    requires ChangeTaskTypeAt(g, days)
    ensures Gen(g, 0, s, 0) <==> LitAt(s, 0, "changeTaskType") && Gen(g, 1, s, 14)
  {
    LitStep(g, 0, s, 0);
  }

  lemma ChangeTaskTypeGen(g: Pattern, s: string, days: seq<string>)
    requires ChangeTaskTypeAt(g, days) && DaysOk(days)
    ensures LitAt(s, 0, "changeTaskType") && TypeArgs(s, 14, days) <==> Gen(g, 0, s, 0)
  {
    ChangeTaskTypeKeyword(g, s, days);
    if LitAt(s, 0, "changeTaskType") {
      TypeArgsGen(g, s, 14, days);
    }
  }

  lemma ChangeTaskTypeShape()
    ensures ChangeTaskTypeAt(ChangeTaskTypePattern, CapitalDays)
  {
    ChangeTaskTypeElements0();
    ChangeTaskTypeElements1();
    ChangeTaskTypeElements2();
  }

  lemma ChangeTaskTypeElements0()
    ensures var g := ChangeTaskTypePattern; |g| == 13 && g[0] == Lit("changeTaskType") && g[1] == Plus(Space) && g[2] == Lit("/on") && g[3] == Plus(Space) && g[4] == OneOf(CapitalDays)
  {
  }

  lemma ChangeTaskTypeElements1()
    ensures var g := ChangeTaskTypePattern; g[5] == Plus(Space) && g[6] == Lit("/index") && g[7] == Plus(Space) && g[8] == Plus(Digit) && g[9] == Plus(Space)
  {
  }

  lemma ChangeTaskTypeElements2()
    ensures var g := ChangeTaskTypePattern; g[10] == Lit("/type") && g[11] == Plus(Space) && g[12] == One(TypeLetter)
  {
  }

  lemma ScanChangeTaskTypeCorrect(s: string)
    ensures ScanChangeTaskType(s) <==> InLanguage(ChangeTaskTypePattern, s)
  {
    CapitalDaysOk();
    ChangeTaskTypeShape();
    ChangeTaskTypeGen(ChangeTaskTypePattern, s, CapitalDays);
  }

  // ---------------------------------------------------------------------
  // addrepeattask

  predicate AddRepeatTaskAt(g: Pattern) {
    |g| == 21 && g[0] == Lit("addrepeattask") && SpaceLitAt(g, 1) && g[2] == Lit("/task") &&
    g[3] == Plus(Space) && g[4] == Plus(AnyButLineEnd) && SpaceLitAt(g, 5) && g[6] == Lit("/on") &&
    g[7] == Plus(Space) && g[8] == Words && FromToTypeAt(g, 9)
  }

  /** From the first character w of the day list: `\w+(\s+\w+)*` and the
      `/from ... /type` tail. */
  predicate RepeatDaysFrom(s: string, w: nat)
    requires w <= |s|
  {
    w < |s| && IsWordChar(s[w]) &&
    exists m :: w + 1 <= m <= Span(s, w, TaskChar) && InClass(WordChar, s[m - 1]) && FromToTypeFrom(s, m)
  }

  /** From the end k of the description: `\s+/on\s+`, the day list and the tail. */
  predicate RepeatAfterText(s: string, k: nat)
    requires k <= |s|
  {
    match SpaceLitEnd(s, k, "/on")
    case None => false
    case Some(u) =>
      var w := Span(s, u, Space);
      u < w && RepeatDaysFrom(s, w)
  }

  /** The addrepeattask scanner: the keyword, the description, the list of day
      words, the times and the type letter. */
  predicate ScanAddRepeatTask(s: string) {
    LitAt(s, 0, "addrepeattask") &&
    match SpaceLitEnd(s, 13, "/task")
    case None => false
    case Some(a) =>
      var e := Span(s, a, Space);
      a < e &&
      exists k :: a + 2 <= k <= Span(s, e, AnyButLineEnd) && InClass(AnyButLineEnd, s[k - 1]) && RepeatAfterText(s, k)
  }

  lemma RepeatDaysGen(g: Pattern, s: string, w: nat)
    requires AddRepeatTaskAt(g) && w <= |s|
    ensures RepeatDaysFrom(s, w) <==> Gen(g, 8, s, w)
  {
    if RepeatDaysFrom(s, w) {
      RepeatDaysSound(g, s, w);
    }
    if Gen(g, 8, s, w) {
      RepeatDaysComplete(g, s, w);
    }
  }

  lemma RepeatDaysSound(g: Pattern, s: string, w: nat)
    requires AddRepeatTaskAt(g) && w <= |s| && RepeatDaysFrom(s, w)
    ensures Gen(g, 8, s, w)
  {
    var m :| w + 1 <= m <= Span(s, w, TaskChar) && InClass(WordChar, s[m - 1]) && FromToTypeFrom(s, m);
    AddRepeatTaskFromToType(g, s, m);
    RepeatDaysWitness(g, s, w, m);
  }

  /** A day list from w ending at m, followed by a match of the tail. */
  lemma RepeatDaysWitness(g: Pattern, s: string, w: nat, m: nat)
    requires AddRepeatTaskAt(g) && w < |s| && IsWordChar(s[w])
    requires w + 1 <= m <= Span(s, w, TaskChar) && InClass(WordChar, s[m - 1]) && Gen(g, 9, s, m)
    ensures Gen(g, 8, s, w)
  {
    WordsStep(g, 8, s, w);
    assert GenAfterSome(g, 9, s, w + 1, Span(s, w, TaskChar), WordChar);
  }

  lemma RepeatDaysComplete(g: Pattern, s: string, w: nat)
    requires AddRepeatTaskAt(g) && w <= |s| && Gen(g, 8, s, w)
    ensures RepeatDaysFrom(s, w)
  {
    WordsStep(g, 8, s, w);
    var m :| w + 1 <= m <= Span(s, w, TaskChar) && InClass(WordChar, s[m - 1]) && Gen(g, 9, s, m);
    AddRepeatTaskFromToType(g, s, m);
  }

  lemma AddRepeatTaskFromToType(g: Pattern, s: string, m: nat)
    requires AddRepeatTaskAt(g) && m <= |s|
    ensures FromToTypeFrom(s, m) <==> Gen(g, 9, s, m)
  {
    FromToTypeStep(g, 9, s, m);
  }

  lemma AddRepeatTaskTail(g: Pattern, s: string, k: nat)
    requires AddRepeatTaskAt(g) && k <= |s|
    ensures RepeatAfterText(s, k) <==> Gen(g, 5, s, k)
  {
    SpaceLitStep(g, 5, s, k);
    if SpaceLitEnd(s, k, "/on").Some? {
      var u := SpaceLitEnd(s, k, "/on").value;
      RunStep(g, 7, s, u);
      RepeatDaysGen(g, s, Span(s, u, Space));
    }
  }

  lemma AddRepeatTaskGen(g: Pattern, s: string)
    requires AddRepeatTaskAt(g)
    ensures ScanAddRepeatTask(s) <==> Gen(g, 0, s, 0)
  {
    LitStep(g, 0, s, 0);
    if LitAt(s, 0, "addrepeattask") {
      SpaceLitStep(g, 1, s, 13);
      if SpaceLitEnd(s, 13, "/task").Some? {
        var a := SpaceLitEnd(s, 13, "/task").value;
        PlusPlusStep(g, 3, s, a);
        var h := Span(s, Span(s, a, Space), AnyButLineEnd);
        forall k | a + 2 <= k <= h ensures RepeatAfterText(s, k) <==> Gen(g, 5, s, k) {
          AddRepeatTaskTail(g, s, k);
        }
      }
    }
  }

  lemma AddRepeatTaskShape()
    ensures AddRepeatTaskAt(AddRepeatTaskPattern)
  {
    AddRepeatTaskElements0();
    AddRepeatTaskElements1();
    AddRepeatTaskElements2();
    AddRepeatTaskElements3();
    AddRepeatTaskElements4();
  }

  lemma AddRepeatTaskElements0()
    ensures var g := AddRepeatTaskPattern; |g| == 21 && g[0] == Lit("addrepeattask") && g[1] == Plus(Space) && g[2] == Lit("/task") && g[3] == Plus(Space) && g[4] == Plus(AnyButLineEnd)
  {
  }

  lemma AddRepeatTaskElements1()
    ensures var g := AddRepeatTaskPattern; g[5] == Plus(Space) && g[6] == Lit("/on") && g[7] == Plus(Space) && g[8] == Words && g[9] == Plus(Space)
  {
  }

  lemma AddRepeatTaskElements2()
    ensures var g := AddRepeatTaskPattern; g[10] == Lit("/from") && g[11] == Plus(Space) && g[12] == Time && g[13] == Plus(Space) && g[14] == Lit("/to")
  {
  }

  lemma AddRepeatTaskElements3()
    ensures var g := AddRepeatTaskPattern; g[15] == Plus(Space) && g[16] == Time && g[17] == Plus(Space) && g[18] == Lit("/type") && g[19] == Plus(Space)
  {
  }

  lemma AddRepeatTaskElements4()
    ensures var g := AddRepeatTaskPattern; g[20] == One(TypeLetter)
  {
  }

  lemma ScanAddRepeatTaskCorrect(s: string)
    ensures ScanAddRepeatTask(s) <==> InLanguage(AddRepeatTaskPattern, s)
  {
    AddRepeatTaskShape();
    AddRepeatTaskGen(AddRepeatTaskPattern, s);
  }

  // ---------------------------------------------------------------------
  // addfor

  predicate AddForAt(g: Pattern, days: seq<string>) {
    |g| == 25 && g[0] == Lit("addfor") && SpaceLitAt(g, 1) && g[2] == Lit("/user") &&
    g[3] == Plus(Space) && g[4] == Plus(UserListChar) && OnDayAt(g, 5, days) &&
    SpaceLitAt(g, 9) && g[10] == Lit("/task") && g[11] == Plus(Space) && g[12] == Plus(TaskChar) &&
    FromToTypeAt(g, 13)
  }

  /** From the end d of the day name: `\s+/task\s+([\w\s]+)` and the tail. */
  predicate AddForAfterDay(s: string, d: nat)
    requires d <= |s|
  {
    match SpaceLitEnd(s, d, "/task")
    case None => false
    case Some(x) =>
      var y := Span(s, x, Space);
      x < y &&
      exists m :: x + 2 <= m <= Span(s, y, TaskChar) && InClass(TaskChar, s[m - 1]) && FromToTypeFrom(s, m)
  }

  /** From the end k of the user list: `\s+/on\s+(days)` and what follows it. */
  predicate AddForAfterUsers(s: string, k: nat, days: seq<string>)
    requires k <= |s|
  {
    match OnDayEnd(s, k, days)
    case None => false
    case Some(d) => AddForAfterDay(s, d)
  }

  /** After the keyword: `\s+/user\s+([\w\s,]+)` and what follows it. */
  predicate AddForArgs(s: string, i: nat, days: seq<string>)
    requires i <= |s|
  {
    match SpaceLitEnd(s, i, "/user")
    case None => false
    case Some(a) =>
      var e := Span(s, a, Space);
      a < e &&
      exists k :: a + 2 <= k <= Span(s, e, UserListChar) && InClass(UserListChar, s[k - 1]) && AddForAfterUsers(s, k, days)
  }

  /** The addfor scanner: the keyword, the user list, a lower-case weekday name,
      the description, the times and the type letter. */
  predicate ScanAddFor(s: string) {
    LitAt(s, 0, "addfor") && AddForArgs(s, 6, LowerDays)
  }

  lemma AddForDayGen(g: Pattern, s: string, d: nat, days: seq<string>)
    requires AddForAt(g, days) && DaysOk(days) && d <= |s|
    ensures AddForAfterDay(s, d) <==> Gen(g, 9, s, d)
  {
    SpaceLitStep(g, 9, s, d);
    if SpaceLitEnd(s, d, "/task").Some? {
      var x := SpaceLitEnd(s, d, "/task").value;
      PlusPlusStep(g, 11, s, x);
      var h := Span(s, Span(s, x, Space), TaskChar);
      forall m | x + 2 <= m <= h ensures FromToTypeFrom(s, m) <==> Gen(g, 13, s, m) {
        FromToTypeStep(g, 13, s, m);
      }
    }
  }

  lemma AddForUsersGen(g: Pattern, s: string, k: nat, days: seq<string>)
    requires AddForAt(g, days) && DaysOk(days) && k <= |s|
    ensures AddForAfterUsers(s, k, days) <==> Gen(g, 5, s, k)
  {
    OnDayStep(g, 5, s, k, days);
    if OnDayEnd(s, k, days).Some? {
      AddForDayGen(g, s, OnDayEnd(s, k, days).value, days);
    }
  }

  lemma AddForArgsGen(g: Pattern, s: string, i: nat, days: seq<string>)
    requires AddForAt(g, days) && DaysOk(days) && i <= |s|
    ensures AddForArgs(s, i, days) <==> Gen(g, 1, s, i)
  {
    SpaceLitStep(g, 1, s, i);
    if SpaceLitEnd(s, i, "/user").Some? {
      var a := SpaceLitEnd(s, i, "/user").value;
      PlusPlusStep(g, 3, s, a);
      var h := Span(s, Span(s, a, Space), UserListChar);
      forall k | a + 2 <= k <= h ensures AddForAfterUsers(s, k, days) <==> Gen(g, 5, s, k) {
        AddForUsersGen(g, s, k, days);
      }
    }
  }

  /** The keyword step, with the keyword's length worked out. */
  lemma AddForKeyword(g: Pattern, s: string, days: seq<string>)
    requires AddForAt(g, days)
    ensures Gen(g, 0, s, 0) <==> LitAt(s, 0, "addfor") && Gen(g, 1, s, 6)
  {
    LitStep(g, 0, s, 0);
  }

  lemma AddForGen(g: Pattern, s: string, days: seq<string>)
    requires AddForAt(g, days) && DaysOk(days)
    ensures LitAt(s, 0, "addfor") && AddForArgs(s, 6, days) <==> Gen(g, 0, s, 0)
  {
    AddForKeyword(g, s, days);
    if LitAt(s, 0, "addfor") {
      AddForArgsGen(g, s, 6, days);
    }
  }

  lemma AddForShape()
    ensures AddForAt(AddForPattern, LowerDays)
  {
    AddForElements0();
    AddForElements1();
    AddForElements2();
    AddForElements3();
    AddForElements4();
  }

  lemma AddForElements0()
    ensures var g := AddForPattern; |g| == 25 && g[0] == Lit("addfor") && g[1] == Plus(Space) && g[2] == Lit("/user") && g[3] == Plus(Space) && g[4] == Plus(UserListChar)
  {
  }

  lemma AddForElements1()
    ensures var g := AddForPattern; g[5] == Plus(Space) && g[6] == Lit("/on") && g[7] == Plus(Space) && g[8] == OneOf(LowerDays) && g[9] == Plus(Space)
  {
  }

  lemma AddForElements2()
    ensures var g := AddForPattern; g[10] == Lit("/task") && g[11] == Plus(Space) && g[12] == Plus(TaskChar) && g[13] == Plus(Space) && g[14] == Lit("/from")
  {
  }

  lemma AddForElements3()
    ensures var g := AddForPattern; g[15] == Plus(Space) && g[16] == Time && g[17] == Plus(Space) && g[18] == Lit("/to") && g[19] == Plus(Space)
  {
  }

  lemma AddForElements4()
    ensures var g := AddForPattern; g[20] == Time && g[21] == Plus(Space) && g[22] == Lit("/type") && g[23] == Plus(Space) && g[24] == One(TypeLetter)
  {
  }

  lemma ScanAddForCorrect(s: string)
    ensures ScanAddFor(s) <==> InLanguage(AddForPattern, s)
  {
    LowerDaysOk();
    AddForShape();
    AddForGen(AddForPattern, s, LowerDays);
  }

}
