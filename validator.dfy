/** The validators of InputValidator.java. A validator that would return
    normally yields `Pass`; one that would throw yields `Fail` with the
    exception's kind and its exact message. */
module InputValidator {
  import opened Chars
  import opened Optional
  import opened Patterns
  import opened Grammars

  /** The exceptions the validators throw, each with its message. */
  datatype ValidationError =
    | InvalidFormat(message: string)  // InvalidFormatException
    | InvalidUser(message: string)    // InvalidUserException
    | InvalidDay(message: string)     // InvalidDayException
    | NullTimetable(message: string)  // NullPointerException

  datatype Outcome = Pass | Fail(error: ValidationError)

  // ---------------------------------------------------------------------
  // The messages, as the source spells them.

  const CompareFormatError :=
    "[ERROR] Invalid compare format. Expected format: compare <user1> <user2>"
  const CompareAllFormatError :=
    "[ERROR] Invalid compareall format. Expected format: compareall"
  const AddTaskFormatError :=
    "[ERROR] Invalid addtask format. Expected format: addtask /on [day] /task [description] /from [start time] /to [end time] /type [f/c]"
  const AddTwdcFormatError :=
    "[ERROR] Invalid addTaskWithDuplicationCheck format. Expected format: addtwdc /on [day] /task [description] /from [start time] /to [end time] /type [f/c]"
  const DeleteTaskFormatError :=
    "[ERROR] Invalid deleteTask format. Expected format: deleteTask /on [day] /index [index]"
  const AddUserFormatError :=
    "[ERROR] Invalid addUser format. Expected format: adduser <desired user's name>"
  const SwitchFormatError :=
    "[ERROR] Invalid switch format. Expected format: switch <desired user's name>"
  const ChangeTaskTimingFormatError :=
    "[ERROR] Invalid changeTaskTiming format. Expected format: changeTaskTiming /on [day] /index [index] /from [new start time] /to [new end time]"
  const AddForAllFormatError :=
    "[ERROR] Invalid addforall format. Expected format: addforall /on [day] /task [description] /from [start time] /to [end time]"
  const ChangeTaskTypeFormatError :=
    "[ERROR] Invalid changeTaskType format. Expected format: changeTaskType /on [day] /index [index] /type [f/c]"
  const AddRepeatTaskFormatError :=
    "[ERROR] Invalid addRepeatTask format. Expected format: addRepeatTask /task [description] /on [day(s)] /from [start time] /to [end time] /type [f/c]"
  const AddForFormatError :=
    "[ERROR] Invalid addfor format. Expected format: addfor /user [user1], [user2], ... /on [day] /task [description] /from [start time] /to [end time] /type [f/c]"

  const EmptyUserListError := "[ERROR] Current User List is empty. Please add users."
  const InvalidDayError := "[ERROR] Invalid day. Please enter a day from Monday - Sunday."
  const NullTimetableError := "Timetable object is null."

  function UnknownUserError(input: string): string {
    "[ERROR] Invalid User: " + input + ". Please input a existing user name"
  }

  // ---------------------------------------------------------------------
  // The twelve grammar validators: each passes exactly the inputs in the
  // language of its command's pattern and otherwise fails with its own
  // format message.

  function ValidateCompareInput(input: string): (r: Outcome)
    ensures r == Pass <==> InLanguage(ComparePattern, input)
    ensures r != Pass ==> r == Fail(InvalidFormat(CompareFormatError))
  {
    ScanCompareCorrect(input);
    if ScanCompare(input) then Pass else Fail(InvalidFormat(CompareFormatError))
  }

  function ValidateCompareAllInput(input: string): (r: Outcome)
    ensures r == Pass <==> InLanguage(CompareAllPattern, input)
    ensures r != Pass ==> r == Fail(InvalidFormat(CompareAllFormatError))
  {
    ScanCompareAllCorrect(input);
    if ScanCompareAll(input) then Pass else Fail(InvalidFormat(CompareAllFormatError))
  }

  function ValidateAddTaskInput(input: string): (r: Outcome)
    ensures r == Pass <==> InLanguage(AddTaskPattern, input)
    ensures r != Pass ==> r == Fail(InvalidFormat(AddTaskFormatError))
  {
    ScanAddTaskCorrect(input);
    if ScanAddTask(input) then Pass else Fail(InvalidFormat(AddTaskFormatError))
  }

  function ValidateAddTaskWdcInput(input: string): (r: Outcome)
    ensures r == Pass <==> InLanguage(AddTwdcPattern, input)
    ensures r != Pass ==> r == Fail(InvalidFormat(AddTwdcFormatError))
  {
    ScanAddTwdcCorrect(input);
    if ScanAddTwdc(input) then Pass else Fail(InvalidFormat(AddTwdcFormatError))
  }

  function ValidateDeleteTaskInput(input: string): (r: Outcome)
    ensures r == Pass <==> InLanguage(DeleteTaskPattern, input)
    ensures r != Pass ==> r == Fail(InvalidFormat(DeleteTaskFormatError))
  {
    ScanDeleteTaskCorrect(input);
    if ScanDeleteTask(input) then Pass else Fail(InvalidFormat(DeleteTaskFormatError))
  }

  function ValidateAddUserInput(input: string): (r: Outcome)
    ensures r == Pass <==> InLanguage(AddUserPattern, input)
    ensures r != Pass ==> r == Fail(InvalidFormat(AddUserFormatError))
  {
    ScanAddUserCorrect(input);
    if ScanAddUser(input) then Pass else Fail(InvalidFormat(AddUserFormatError))
  }

  function ValidateSwitchInput(input: string): (r: Outcome)
    ensures r == Pass <==> InLanguage(SwitchPattern, input)
    ensures r != Pass ==> r == Fail(InvalidFormat(SwitchFormatError))
  {
    ScanSwitchCorrect(input);
    if ScanSwitch(input) then Pass else Fail(InvalidFormat(SwitchFormatError))
  }

  function ValidateChangeTaskTiming(input: string): (r: Outcome)
    ensures r == Pass <==> InLanguage(ChangeTaskTimingPattern, input)
    ensures r != Pass ==> r == Fail(InvalidFormat(ChangeTaskTimingFormatError))
  {
    ScanChangeTaskTimingCorrect(input);
    if ScanChangeTaskTiming(input) then Pass else Fail(InvalidFormat(ChangeTaskTimingFormatError))
  }

  function ValidateAddTaskForAll(input: string): (r: Outcome)
    ensures r == Pass <==> InLanguage(AddForAllPattern, input)
    ensures r != Pass ==> r == Fail(InvalidFormat(AddForAllFormatError))
  {
    ScanAddForAllCorrect(input);
    if ScanAddForAll(input) then Pass else Fail(InvalidFormat(AddForAllFormatError))
  }

  function ValidateChangeTaskType(input: string): (r: Outcome)
    ensures r == Pass <==> InLanguage(ChangeTaskTypePattern, input)
    ensures r != Pass ==> r == Fail(InvalidFormat(ChangeTaskTypeFormatError))
  {
    ScanChangeTaskTypeCorrect(input);
    if ScanChangeTaskType(input) then Pass else Fail(InvalidFormat(ChangeTaskTypeFormatError))
  }

  function ValidateAddRepeatTask(input: string): (r: Outcome)
    ensures r == Pass <==> InLanguage(AddRepeatTaskPattern, input)
    ensures r != Pass ==> r == Fail(InvalidFormat(AddRepeatTaskFormatError))
  {
    ScanAddRepeatTaskCorrect(input);
    if ScanAddRepeatTask(input) then Pass else Fail(InvalidFormat(AddRepeatTaskFormatError))
  }

  function ValidAddFor(input: string): (r: Outcome)
    ensures r == Pass <==> InLanguage(AddForPattern, input)
    ensures r != Pass ==> r == Fail(InvalidFormat(AddForFormatError))
  {
    ScanAddForCorrect(input);
    if ScanAddFor(input) then Pass else Fail(InvalidFormat(AddForFormatError))
  }

  // ---------------------------------------------------------------------
  // The semantic validators.

  /** validateUserInput: userNames are the names of the users of the user
      list, in list order. An empty list fails whatever the input; otherwise
      the input passes exactly when some user's name equals it (case
      sensitively), and fails naming the input when none does. */
  method ValidateUserInput(input: string, userNames: seq<string>) returns (r: Outcome)
    ensures |userNames| == 0 ==> r == Fail(InvalidUser(EmptyUserListError))
    ensures |userNames| > 0 ==> (r == Pass <==> exists k :: 0 <= k < |userNames| && userNames[k] == input)
    ensures |userNames| > 0 && r != Pass ==> r == Fail(InvalidUser(UnknownUserError(input)))
  {
    if |userNames| == 0 {
      return Fail(InvalidUser(EmptyUserListError));
    }
    var i := 0;
    while i < |userNames|
      invariant 0 <= i <= |userNames|
      invariant forall k :: 0 <= k < i ==> userNames[k] != input
    {
      if userNames[i] == input {
        return Pass;
      }
      i := i + 1;
    }
    return Fail(InvalidUser(UnknownUserError(input)));
  }

  /** validateDay's own array of day names, declared inside that method. It
      spells the same seven lower-case names as addfor's day alternation. */
  const ValidDays: seq<string> := LowerDays

  /** The input is one of the seven weekday names, ignoring ASCII case. */
  predicate IsWeekday(input: string) {
    exists k :: 0 <= k < |ValidDays| && EqualsIgnoreCase(ValidDays[k], input)
  }

  /** validateDay: passes exactly the weekday names in any case, and fails
      every other input with the one fixed message. */
  method ValidateDay(input: string) returns (r: Outcome)
    ensures r == Pass <==> IsWeekday(input)
    ensures r != Pass ==> r == Fail(InvalidDay(InvalidDayError))
  {
    var validDays := ValidDays;
    var i := 0;
    while i < |validDays|
      invariant 0 <= i <= |validDays|
      invariant forall k :: 0 <= k < i ==> !EqualsIgnoreCase(validDays[k], input)
    {
      if EqualsIgnoreCase(validDays[i], input) {
        return Pass;
      }
      i := i + 1;
    }
    return Fail(InvalidDay(InvalidDayError));
  }

  /** validateTableExistence: a null timetable (None) fails with the
      NullPointerException message; any timetable passes. */
  function ValidateTableExistence<T>(table: Option<T>): (r: Outcome)
    ensures r == Pass <==> table.Some?
    ensures r != Pass ==> r == Fail(NullTimetable(NullTimetableError))
  {
    if table.None? then Fail(NullTimetable(NullTimetableError)) else Pass
  }
}
