# InputValidator — a verified model of the command-input validators

This project models `InputValidator`, the command-input validation layer of a
timetable and task manager (the Java class
`src/main/java/seedu/duke/InputValidator.java`). Before a command runs, the
class checks the raw input line. It has three kinds of check:

- **Twelve grammar validators**, one per command (`compare`, `compareall`,
  `addtask`, `addtwdc`, `deletetask`, `adduser`, `switch`, `changeTaskTiming`,
  `addforall`, `changeTaskType`, `addrepeattask`, `addfor`). Each tests
  `input.matches(regex)` against a fixed Java regular expression. On a
  mismatch it throws `InvalidFormatException` with a fixed message.
- **Two semantic validators.** `validateUserInput` searches the user list
  for a name equal to the input. `validateDay` tests the input against the
  seven weekday names, ignoring case.
- **A null guard**, `validateTableExistence`.

How the model is built:

- `chars.dfy` (module `Chars`) gives the character classes of
  `java.util.regex` as the validators use them: `\s`, `\w`, `\d`, `.`, `[fc]`,
  `[\w\s,]` and `[\w\s]`. It also gives the ASCII-only case folding that Java's
  `(?i)` applies.
- `patterns.dfy` (module `Patterns`) gives the *language* of a pattern. A
  pattern is a sequence of elements: literal, one character, `c?`, `c+`, `c*`,
  a time, an alternation of literals, and `\w+(\s+\w+)*`.
  - `Gen` says that a string splits into consecutive pieces, one per
    element. It is an existential statement over the split points, with no
    matching strategy in it.
  - `InLanguage(g, s)` is `Gen(g, 0, s, 0)`. It anchors both ends, as
    `String.matches` does.
- `grammars.dfy` (module `Grammars`) writes each command's regex as such a
  pattern. For each command it gives a deterministic scanner `ScanX`, built
  from greedy runs (`Span`), literal tests and day-name lookup. The lemma
  `ScanXCorrect` proves that `ScanX(s) <==> InLanguage(XPattern, s)` for
  every string `s`.
  - `scanning.dfy` (module `Scanning`) holds the step lemmas these proofs
    are built from: a greedy run is always right when the next element cannot
    start with that class; lazy and optional pieces become bounded searches.
- `validator.dfy` (module `InputValidator`) holds the validators:
  - The grammar validators are functions returning `Pass` or
    `Fail(InvalidFormat(message))`. Each is proved to pass exactly the
    language of its pattern, and to fail with its exact message otherwise.
  - `validateUserInput` and `validateDay` are methods with the source's
    linear-search loops. Their loop invariants prove them equal to existential
    specifications.
  - `validateTableExistence` is an `Option` check.
- `properties.dfy` (module `Properties`) proves what the regexes promise:
  - every grammar validator ignores ASCII case in the whole input;
  - which commands accept trailing white space, and which end exactly at
    their last field;
  - what the `addtask` and `addforall` tails allow;
  - that `compare` takes exactly two names: none, one, or three or more fail,
    and two pass;
  - that `adduser` with one name passes;
  - that the weekday slots accept exactly what `validateDay` accepts;
  - what a time field accepts.

Four consequences of the regexes are easy to miss:

- The leading `(?i)` governs the whole regex, so the flags (`/on`, `/task`,
  ...), the weekday names and the type letter match in any case.
- Trailing white space is accepted only by `compare`, `compareall`, `adduser`
  and `addtask`. `addforall` accepts at most one white-space character after
  the `/to` time and nothing else: `matches` anchors the end even without `$`.
  Every other command must end at its last field.
- The `addtask` and `addforall` descriptions are `((.+)?)`, so they may be
  empty when two white-space characters separate `/task` from `/from`.
- The `addfor` description is `[\w\s]+` and its user list is `[\w\s,]+`.

## Model

| member | source | states |
|---|---|---|
| Grammars.ScanCompareCorrect | src/main/java/seedu/duke/InputValidator.java:16 | the compare scanner accepts exactly the strings matching `(?i)^compare\s+\w+\s+\w+(\s+)?$` as a whole |
| Grammars.ScanCompareAllCorrect | src/main/java/seedu/duke/InputValidator.java:25 | the compareall scanner accepts exactly the language of `(?i)^compareall(\s+)?$` |
| Grammars.ScanAddTaskCorrect | src/main/java/seedu/duke/InputValidator.java:49-50 | the addtask scanner accepts exactly the language of its regex. That regex has an optional free-text description ending at one white-space character before `/from`, two times, and `/type [fc]` with optional trailing white space |
| Grammars.ScanAddTwdcCorrect | src/main/java/seedu/duke/InputValidator.java:59-60 | the addtwdc scanner accepts exactly the language of its regex (lazy non-empty description, `\s+/from`, nothing after the type letter) |
| Grammars.ScanDeleteTaskCorrect | src/main/java/seedu/duke/InputValidator.java:78 | the deletetask scanner accepts exactly the language of `(?i)^deletetask\s+/on\s+(\w+)\s+/index\s+(\d+)$` |
| Grammars.ScanAddUserCorrect | src/main/java/seedu/duke/InputValidator.java:93 | the adduser scanner accepts exactly the language of `(?i)^adduser\s+\w+(\s+)?$` |
| Grammars.ScanSwitchCorrect | src/main/java/seedu/duke/InputValidator.java:108 | the switch scanner accepts exactly the language of `(?i)^switch\s+\w+$` |
| Grammars.ScanChangeTaskTimingCorrect | src/main/java/seedu/duke/InputValidator.java:164-171 | the changeTaskTiming scanner accepts exactly the language of the concatenated regex, whose day slot is one of the seven capitalised weekday names (matched in any case under `(?i)`) |
| Grammars.ScanAddForAllCorrect | src/main/java/seedu/duke/InputValidator.java:180-181 | the addforall scanner accepts exactly the language of its regex, anchored at the end although the regex has no `$`, with at most one white-space character after the `/to` time |
| Grammars.ScanChangeTaskTypeCorrect | src/main/java/seedu/duke/InputValidator.java:190-195 | the changeTaskType scanner accepts exactly the language of the concatenated regex (weekday slot, digits, one type letter at the end) |
| Grammars.ScanAddRepeatTaskCorrect | src/main/java/seedu/duke/InputValidator.java:203-204 | the addrepeattask scanner accepts exactly the language of its regex: a lazy description and a day list `\w+(\s+\w+)*`, found by a bounded search |
| Grammars.ScanAddForCorrect | src/main/java/seedu/duke/InputValidator.java:214-223 | the addfor scanner accepts exactly the language of the concatenated pattern (user list `[\w\s,]+`, lower-case weekday slot, `[\w\s]+` description, `[cfCF]`), anchored at both ends by `matches` |
| InputValidator.ValidateCompareInput | src/main/java/seedu/duke/InputValidator.java:15-22 | passes iff the input is in the compare language; otherwise fails with InvalidFormat and the exact compare message |
| InputValidator.ValidateCompareAllInput | src/main/java/seedu/duke/InputValidator.java:24-31 | passes iff the input is in the compareall language; otherwise fails with the exact compareall message |
| InputValidator.ValidateAddTaskInput | src/main/java/seedu/duke/InputValidator.java:48-57 | passes iff the input is in the addtask language; otherwise fails with the exact addtask message |
| InputValidator.ValidateAddTaskWdcInput | src/main/java/seedu/duke/InputValidator.java:58-67 | passes iff the input is in the addtwdc language; otherwise fails with the exact addTaskWithDuplicationCheck message |
| InputValidator.ValidateDeleteTaskInput | src/main/java/seedu/duke/InputValidator.java:77-84 | passes iff the input is in the deletetask language; otherwise fails with the exact deleteTask message |
| InputValidator.ValidateAddUserInput | src/main/java/seedu/duke/InputValidator.java:92-99 | passes iff the input is in the adduser language; otherwise fails with the exact addUser message |
| InputValidator.ValidateSwitchInput | src/main/java/seedu/duke/InputValidator.java:107-114 | passes iff the input is in the switch language; otherwise fails with the exact switch message |
| InputValidator.ValidateChangeTaskTiming | src/main/java/seedu/duke/InputValidator.java:163-177 | passes iff the input is in the changeTaskTiming language; otherwise fails with the exact changeTaskTiming message |
| InputValidator.ValidateAddTaskForAll | src/main/java/seedu/duke/InputValidator.java:179-187 | passes iff the input is in the addforall language; otherwise fails with the exact addforall message |
| InputValidator.ValidateChangeTaskType | src/main/java/seedu/duke/InputValidator.java:189-200 | passes iff the input is in the changeTaskType language; otherwise fails with the exact changeTaskType message |
| InputValidator.ValidateAddRepeatTask | src/main/java/seedu/duke/InputValidator.java:202-211 | passes iff the input is in the addrepeattask language; otherwise fails with the exact addRepeatTask message |
| InputValidator.ValidAddFor | src/main/java/seedu/duke/InputValidator.java:213-230 | passes iff the input is in the addfor language; otherwise fails with the exact addfor message |
| InputValidator.ValidateUserInput | src/main/java/seedu/duke/InputValidator.java:122-132 | an empty user list fails with the empty-list message whatever the input. Otherwise the method passes iff some user's name equals the input exactly (case-sensitive), and fails with "[ERROR] Invalid User: " + input + ". Please input a existing user name" when none does |
| InputValidator.ValidateDay | src/main/java/seedu/duke/InputValidator.java:140-149 | loops over its array `ValidDays` (line 141); passes iff the input equals one of monday…sunday ignoring case, and otherwise fails with the single fixed InvalidDay message |
| InputValidator.ValidateTableExistence | src/main/java/seedu/duke/InputValidator.java:157-161 | passes iff a timetable is present; an absent (null) one fails with "Timetable object is null." |
| Properties.WeekdayByLowering | src/main/java/seedu/duke/InputValidator.java:141-147 | the day test is the same as: the input, ASCII lower-cased, is one of the seven lower-case day names |
| Properties.DaySlotIsWeekday | src/main/java/seedu/duke/InputValidator.java:165 | the weekday slot `(?:Monday|...|Sunday)` (line 165, again at line 191) and addfor's `(monday|...|sunday)` (line 216) accept exactly the pieces validateDay accepts; any other word is rejected there |
| Properties.AbbreviationNotDay | src/main/java/seedu/duke/InputValidator.java:165 | "mon" and "Mon" are not weekday names, so a day slot rejects them |
| Properties.InLanguageIgnoresCase | src/main/java/seedu/duke/InputValidator.java:16 | for any pattern, two inputs that differ only in ASCII case are both in its language or both outside it |
| Properties.CompareAddTaskIgnoreCase | src/main/java/seedu/duke/InputValidator.java:16-60 | compare, compareall, addtask and addtwdc give the same outcome for inputs equal up to ASCII case: under the leading `(?i)` the keyword, `/on`, `/task`, `/from`, `/to`, `/type` and the type letter match in any case |
| Properties.DeleteUserSwitchIgnoreCase | src/main/java/seedu/duke/InputValidator.java:78-108 | deletetask, adduser and switch give the same outcome for inputs equal up to ASCII case |
| Properties.TimedCommandsIgnoreCase | src/main/java/seedu/duke/InputValidator.java:164-223 | changeTaskTiming, addforall, changeTaskType, addrepeattask and addfor give the same outcome for inputs equal up to ASCII case; this includes the weekday names and `[cfCF]` |
| Properties.CompareTrailingSpace | src/main/java/seedu/duke/InputValidator.java:16 | appending white space to an accepted compare input keeps it accepted |
| Properties.CompareAllTrailingSpace | src/main/java/seedu/duke/InputValidator.java:25 | appending white space to an accepted compareall input keeps it accepted |
| Properties.AddUserTrailingSpace | src/main/java/seedu/duke/InputValidator.java:93 | appending white space to an accepted adduser input keeps it accepted |
| Properties.AddTaskTrailingSpace | src/main/java/seedu/duke/InputValidator.java:50 | appending white space to an accepted addtask input keeps it accepted |
| Properties.SwitchEndsAtName | src/main/java/seedu/duke/InputValidator.java:108 | an accepted switch input ends in a word character; any input ending in white space fails with the switch message |
| Properties.DeleteTaskEndsAtIndex | src/main/java/seedu/duke/InputValidator.java:78 | an accepted deletetask input ends in `/index`, white space and the index digits running to the end, with nothing after them; one ending in white space fails with the deleteTask message |
| Properties.ChangeTaskTimingEndsAtTime | src/main/java/seedu/duke/InputValidator.java:167-171 | an accepted changeTaskTiming input ends in `/to`, white space and the `\d{1,2}:\d{2}` end time, with nothing after it; one ending in white space fails with the changeTaskTiming message |
| Properties.ChangeTaskTypeEndsAtType | src/main/java/seedu/duke/InputValidator.java:193-195 | an accepted changeTaskType input ends in `/type`, white space and exactly one type letter (the character before it is white space, so `/type fc` is rejected); one ending in white space fails with the changeTaskType message |
| Properties.AddTwdcEndsAtType | src/main/java/seedu/duke/InputValidator.java:60 | an accepted addtwdc input ends in `/type`, white space and exactly one type letter, with nothing after it; one ending in white space fails with the addtwdc message |
| Properties.AddRepeatTaskEndsAtType | src/main/java/seedu/duke/InputValidator.java:204 | an accepted addrepeattask input ends in `/type`, white space and exactly one type letter, with nothing after it; one ending in white space fails with the addRepeatTask message |
| Properties.AddForEndsAtType | src/main/java/seedu/duke/InputValidator.java:220-223 | an accepted addfor input ends in `/type`, white space and exactly one `[cfCF]` letter, with nothing after it; one ending in white space fails with the addfor message |
| Properties.AddTaskTypeLast | src/main/java/seedu/duke/InputValidator.java:50 | an accepted addtask input has `/type`, then white space, then exactly one type letter (f or c in either case), then white space alone to the end |
| Properties.AddForAllTail | src/main/java/seedu/duke/InputValidator.java:180-181 | an accepted addforall input ends with `/to`, white space and a `\d{1,2}:\d{2}` time, followed by at most one white-space character and nothing else |
| Properties.AddForAllOneTrailingSpace | src/main/java/seedu/duke/InputValidator.java:180-181 | one white-space character may be appended to an accepted addforall input that ends in the time's digit, and the result is still accepted |
| Properties.CompareOneNameFails | src/main/java/seedu/duke/InputValidator.java:16-20 | "compare" followed by white space and a single word, with any trailing white space (for example "compare alice"), fails with the compare message |
| Properties.CompareTwoNamesPass | src/main/java/seedu/duke/InputValidator.java:16 | "compare" followed by two words, each after white space, with any trailing white space, passes |
| Properties.CompareThreeNamesFail | src/main/java/seedu/duke/InputValidator.java:16-20 | "compare" followed by three white-space-separated words fails with the compare message whatever follows them, so three or more names fail |
| Properties.CompareNoNameFails | src/main/java/seedu/duke/InputValidator.java:16-20 | "compare" followed only by white space (or nothing) fails with the compare message |
| Properties.AddUserOneNamePass | src/main/java/seedu/duke/InputValidator.java:93 | "adduser" followed by white space, one word and any trailing white space (for example "adduser bob ") passes |
| Properties.TimeExamples | src/main/java/seedu/duke/InputValidator.java:49-50 | `\d{1,2}:\d{2}` accepts "99:99" and "9:05" (no range check) and rejects "9:5" and "123:00" |
| Scanning.TimeEndExact | src/main/java/seedu/duke/InputValidator.java:167-168 | the time scanner finds exactly the end of the piece that `\d{1,2}:\d{2}` matches |
| Scanning.WordListShape | src/main/java/seedu/duke/InputValidator.java:203 | `\w+(\s+\w+)*` matches a piece iff it consists of word and white-space characters and begins and ends with a word character |
| Chars.TypeLetterIsFoldedFC | src/main/java/seedu/duke/InputValidator.java:50 | under `(?i)` the class `[fc]` is the same as `[cfCF]` |

## Left out

- Unicode: all case folding is ASCII-only, as Java's `(?i)` without
  UNICODE_CASE is. `String.equalsIgnoreCase` in `validateDay` also folds a few
  non-ASCII characters (for example U+0130 and U+017F); the model does not.
  Strings are sequences of Dafny `char`, not UTF-16 code units.
- The exception classes `InvalidFormatException`, `InvalidUserException`,
  `InvalidDayException` and `NullPointerException` are modelled as variants
  of `ValidationError`, each carrying its message.
- `User`, `UserList` and `Timetable` are not part of this model. The user list
  is the sequence of its users' names in list order, and a timetable is an
  `Option` whose `None` stands for `null`.
- The command dispatcher, console I/O and persistence are not part of this
  model.
- The regex engine itself (backtracking, capture groups) is not modelled. Only
  the language each fixed pattern denotes is, and each scanner is proved to
  decide it.
- Full commands evaluated on concrete literal strings (for example a
  `changeTaskTiming` line with "mon" as the day) are not proved.
- Inputs are non-null strings. In the source, `input.matches` on a null input
  throws NullPointerException, and `validateUserInput` would report
  "Invalid User: null"; the model has no null string.
