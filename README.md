# tkl-dialog, modelled in Dafny

tkl-dialog is a small Python facade over the `dialog` terminal-widget
binding. It is used by TurnKey GNU/Linux configuration scripts. The
repository ships two variants of the same `Dialog` class:

- `tkl_dialog/__init__.py`;
- the older `libtkl_dialog/__init__.py`.

Each variant configures the binding's persistent command-line arguments. It
wraps every widget in a retry loop: ESC asks "really quit?", OK exits, and
any other answer shows the widget again. It computes widget heights from
the text. On top of this it offers entry loops that keep asking until a
password, an e-mail address or a required value is acceptable. Both
variants score password strength with `password_complexity`. So does
`libtkl_dialog/utils.py`, and all three copies agree.

The model replaces the `dialog` binding with a scripted console (module
`Console`):

- a fixed list of replies, handed out one per widget shown;
- a set of widget names the binding supports, which stands in for `getattr`;
- the persistent argument list, a field that methods update in place;
- a log of every widget put on screen.

A call into the facade ends in one of four ways. It returns a value. It
raises one of the exceptions the code raises. It exits, as `sys.exit(0)`
does after a confirmed quit. Or the script runs out, where the real program
would wait for the user forever.

Modules:

- `Text`: ASCII character classes, `list.remove`, `//`, `str(int)`, `', '.join`, and `repr` of strings and of lists of strings: the delimiter Python picks, its escapes, and the proof that the escaped text reads back as the string.
- `Strength`: `password_complexity` and its properties.
- `Layout`: `str.splitlines` on `\n` and `_calc_height`.
- `Email`: `EMAIL_RE.match`, and a proof that the simple test equals the pattern spelled out.
- `Blacklist`: collecting the blacklisted items found in a password.
- `Console`: the scripted binding. It holds the reference function `RetryRun` for the `wrapper`/`_handle_exitcode` loop and the loop that implements it, `DispatchRun` for one `wrapper` call, and the predicates `Follows` and `Stepped` that tie a method's effect on the console to a reference run or to one pass of a loop.
- `Prompts`: what the entry loops of both variants share. `EntryRun` is the reference function of a whole `while 1` entry loop, read off the remaining replies: each pass asks, a rejected entry shows its error and the loop starts over, an accepted entry is returned (after a matching confirmation where the loop asks for one). Lemmas about it state what a returned entry satisfies, when the loop runs out, what it can raise, and which attempt of a cooperative user it returns.
- `LibTklDialog`: the `libtkl_dialog` facade.
- `TklDialog`: the `tkl_dialog` facade, its quirks included.

## Model

| member | source | states |
|---|---|---|
| Strength.Complexity | tkl_dialog/utils.py:42-50 | the score is at most 4; it is 4 exactly when all four classes occur and 0 exactly when none does |
| Strength.PasswordComplexity | tkl_dialog/utils.py:42-50 | the `cracklib` parameter has no effect: the score equals `Complexity` |
| Strength.ComplexityCountsCategories | libtkl_dialog/__init__.py:27-35 | the score is the number of distinct character categories the password contains |
| Strength.CategoriesMembers | libtkl_dialog/utils.py:21-26 | a category is among a password's categories exactly when its presence test holds |
| Strength.CountMembers | libtkl_dialog/utils.py:26 | the size of a set of categories is the sum of its four membership tests |
| Strength.PresenceSplits | libtkl_dialog/utils.py:21-24 | each presence test holds for a string exactly when it holds for the first character or for the rest |
| Strength.ComplexityDependsOnCharacterSet | tkl_dialog/utils.py:45-50 | two strings with the same characters score the same, whatever the order or repetition |
| Strength.SameCharactersSameCategories | tkl_dialog/utils.py:45-48 | each presence test depends only on which characters occur |
| Strength.ComplexityOfPermutation | tkl_dialog/utils.py:45-50 | reordering a password does not change its score |
| Strength.ComplexityMonotone | tkl_dialog/utils.py:45-50 | appending characters on either side never lowers the score |
| Strength.UnderscoreIsNoSymbol | tkl_dialog/utils.py:48 | `_` alone scores 0, and appending `_` never changes a score, because `\W` excludes the underscore |
| Strength.ComplexityExamples | libtkl_dialog/__init__.py:27-35 | the empty password scores 0; `aA1!` and `abcABC123!` score 4; `password` scores 1 |
| Text.RemoveFirst | tkl_dialog/__init__.py:73 | `list.remove` drops exactly one occurrence, the first, and keeps the other elements in order |
| Text.FirstIndex | tkl_dialog/__init__.py:73 | the index found holds the element, and no earlier index does |
| Text.FloorDiv | tkl_dialog/__init__.py:92 | `a // b` rounds towards minus infinity: for a positive divisor it is Euclidean division and never negative for a non-negative dividend |
| Text.NatToString | tkl_dialog/__init__.py:265 | `str(n)` is a non-empty run of digits with no leading zero, one digit exactly below ten |
| Text.DecimalValue | tkl_dialog/__init__.py:265 | the number a run of digits denotes is never negative |
| Text.NatToStringValue | tkl_dialog/__init__.py:265 | the digits `str(n)` writes denote `n` |
| Text.IntToString | tkl_dialog/__init__.py:229-231 | `str(i)` starts with a minus sign exactly for a negative number, followed by the digits of its magnitude |
| Text.IntToStringValue | tkl_dialog/__init__.py:229-236 | the text `str(i)` writes reads back as `i` |
| Text.JoinHasItems | tkl_dialog/__init__.py:238 | every item occurs in `sep.join(items)`, and joining no items gives the empty string |
| Text.QuoteAll | tkl_dialog/__init__.py:238 | quoting yields one item per item of the blacklist |
| Text.QuoteAllItems | tkl_dialog/__init__.py:238 | `f'"{item}"'` for each item keeps the items in order, each between double quotes |
| Text.ReprQuote | libtkl_dialog/__init__.py:180 | `repr` delimits a string with double quotes exactly when it holds a single quote and no double quote |
| Text.Escape | libtkl_dialog/__init__.py:180 | a character is written with a backslash exactly when it is the backslash, the delimiter, or a control or other character `repr` writes as `\t`, `\n`, `\r` or `\xhh` |
| Text.StrRepr | libtkl_dialog/__init__.py:180 | `repr(s)` opens and closes with the delimiter `ReprQuote` picks |
| Text.UnescapeEscapeAll | libtkl_dialog/__init__.py:180 | the escaped text reads back as the string, whichever delimiter is used |
| Text.StrReprRoundTrip | libtkl_dialog/__init__.py:180 | what `repr(s)` writes between its delimiters reads back as `s`: nothing is lost |
| Text.StrReprPlain | libtkl_dialog/__init__.py:180 | a string with nothing to escape and no single quote is written as it is, between single quotes |
| Text.ListRepr | libtkl_dialog/__init__.py:180 | `str(list)` is enclosed in brackets |
| Text.ListReprItems | libtkl_dialog/__init__.py:180 | the `repr` of every item occurs in `str(list)` |
| Layout.LineEnd | tkl_dialog/__init__.py:91 | the end of the first line lies within the text, and a line break sits there unless the text ends first |
| Layout.LineEndIsFirst | tkl_dialog/__init__.py:91 | no line break occurs before the end of the first line |
| Layout.SplitLines | tkl_dialog/__init__.py:91 | `splitlines` yields no more lines than the text has characters |
| Layout.SplitLinesHaveNoBreak | tkl_dialog/__init__.py:91 | no line produced by `splitlines` contains a line break |
| Layout.SplitThenJoin | tkl_dialog/__init__.py:91 | joining the lines with `\n` and restoring a final line break gives back the text |
| Layout.JoinThenSplit | tkl_dialog/__init__.py:91 | splitting the join of break-free lines whose last line is not empty gives back the lines |
| Layout.SplitLinesAppend | tkl_dialog/__init__.py:91 | the lines of `a + "\n" + b` are the lines of `a` followed by those of `b`, when `a` does not end in a break |
| Layout.LineEndOfLine | tkl_dialog/__init__.py:91 | a break-free line followed by a break or by nothing ends where the line ends |
| Layout.LineEndAppend | tkl_dialog/__init__.py:91 | appending a break and more text does not move the end of the first line |
| Layout.LinesHeight | tkl_dialog/__init__.py:91-92 | for a positive width the lines never take a negative number of rows |
| Layout.TextHeight | tkl_dialog/__init__.py:89-93 | for a positive width the height is at least the frame of 6 rows |
| Layout.CalcHeight | tkl_dialog/__init__.py:89-93 | the loop that adds `len(line) // width + 1` per line to 6 computes `TextHeight` |
| Layout.HeightLowerBound | libtkl_dialog/__init__.py:64-68 | for a positive width the height is at least 6 plus the number of lines |
| Layout.LinesHeightAtLeastCount | libtkl_dialog/__init__.py:66-67 | every line adds at least one row |
| Layout.SingleLineHeight | tkl_dialog/__init__.py:89-93 | a single non-empty line needs `6 + len // width + 1` rows |
| Layout.EmptyTextHeight | tkl_dialog/__init__.py:89-93 | the empty text needs exactly 6 rows |
| Layout.LinesHeightAppend | tkl_dialog/__init__.py:91-92 | the rows of two runs of lines add up |
| Layout.HeightOfJoinedTexts | tkl_dialog/__init__.py:89-93 | joining two texts with a line break costs their heights minus one frame |
| Layout.TrailingNewlineHeight | tkl_dialog/__init__.py:89-93 | a trailing line break does not change the height |
| Email.EmailMatches | libtkl_dialog/__init__.py:10 | a value the pattern accepts has at least three characters |
| Email.RunEnd | tkl_dialog/__init__.py:26 | the greedy `\S+` stops at whitespace or at the end of the string and covers only non-space characters |
| Email.EmailMatchesIsRegexMatch | tkl_dialog/__init__.py:26 | the simple test accepts exactly the strings the pattern, spelled out group by group, matches |
| Email.AcceptedHasAt | libtkl_dialog/__init__.py:10 | every accepted value contains `@` and is at least three characters long |
| Email.EmailExamples | tkl_dialog/__init__.py:26 | sample addresses accepted and rejected, among them leading and trailing whitespace and text after a space |
| Blacklist.Found | tkl_dialog/__init__.py:284-287 | no more items are collected than the blacklist holds |
| Blacklist.CollectFound | tkl_dialog/__init__.py:284-287 | the appending loop collects exactly `Found`: the blacklisted items that occur, in blacklist order |
| Blacklist.FoundMembers | libtkl_dialog/__init__.py:217-220 | an item is collected exactly when it is blacklisted and occurs in the password, and never more often than listed |
| Blacklist.FoundEmpty | libtkl_dialog/__init__.py:221 | nothing is collected exactly when no blacklisted item occurs |
| Blacklist.EmptyItemAlwaysFound | tkl_dialog/__init__.py:286 | a blacklist holding the empty string rejects every password |
| Console.Outcome.Cast | tkl_dialog/__init__.py:109 | a non-value ending keeps its kind and its exception when passed on |
| Console.RetryRun | tkl_dialog/__init__.py:111-119 | one dispatch uses no more replies than the script holds |
| Console.RetryRunShape | tkl_dialog/__init__.py:111-119 | the widget is shown first; a returned reply is the last one read and is not ESC; an exit follows ESC then OK; running out uses up the script; the loop itself raises nothing |
| Console.RetryRunRounds | libtkl_dialog/__init__.py:82-100 | a returned reply comes after zero or more rounds of ESC and a declined quit prompt, each round showing the widget and the prompt |
| Console.RetryRunDeclined | tkl_dialog/__init__.py:79-83 | ESC followed by a declined prompt starts the loop over, two replies later |
| Console.RetryRunIgnoresLaterReplies | tkl_dialog/__init__.py:111-119 | once a dispatch ends, replies after it do not affect it |
| Console.ExtendTwice | tkl_dialog/__init__.py:111-119 | two declined rounds in a row compose into one longer prefix |
| Console.DispatchRun | tkl_dialog/__init__.py:111-119 | one `wrapper` call reads no more replies than remain, and a value it returns is the caller's reading of the last reply read |
| Console.Console.constructor | tkl_dialog/__init__.py:55 | a fresh binding has read no reply, shown nothing and holds no persistent argument |
| Console.Console.SetBackgroundTitle | tkl_dialog/__init__.py:56 | sets the background title |
| Console.Console.AddPersistentArgs | tkl_dialog/__init__.py:57 | appends the arguments to the persistent list |
| Console.Console.RemovePersistentArg | tkl_dialog/__init__.py:72-73 | removes the first occurrence of the argument from the persistent list |
| Console.Console.Show | tkl_dialog/__init__.py:113 | logs the widget and hands out the next reply, or none when the script is used up |
| Console.Console.HandleExitcode | libtkl_dialog/__init__.py:53-62 | a non-ESC reply is accepted with nothing shown; ESC shows the quit prompt and then exits on OK, asks again on any other answer, or runs out |
| Console.Console.Attempt | libtkl_dialog/__init__.py:82-89 | one pass of the loop either ends the dispatch as `RetryRun` says, or reads ESC and a declined prompt and leaves the rest to `RetryRun` on the remaining script |
| Console.Console.Retry | tkl_dialog/__init__.py:111-119 | the loop's outcome, the replies it reads and the widgets it shows are exactly those of `RetryRun` |
| Prompts.ErrorBox | libtkl_dialog/__init__.py:102-104 | `error(text)` is a message box showing the text after a line break |
| Prompts.NoticeRound | tkl_dialog/__init__.py:303-305 | a box whose answer is ignored: a caller that goes on has read at least one reply; a box that ends the caller returns no value and raises only for its own missing widget |
| Prompts.NoticeRoundFollowsBox | tkl_dialog/__init__.py:303-305 | the caller goes on exactly when the box returned, after what the box's retry loop read and showed; otherwise it ends exactly as the box ended |
| Prompts.ComplainRound | libtkl_dialog/__init__.py:191 | `self.error(...)` in a loop: the caller goes on after at least one reply, or ends without a value, raising only a missing `msgbox` |
| Prompts.RejectRound | libtkl_dialog/__init__.py:204-215 | a rejection without a message goes on at once, having read and shown nothing |
| Prompts.ConfirmRound | libtkl_dialog/__init__.py:227-230 | a value returned is the entry being confirmed; a mismatch that goes on has read at least the confirmation |
| Prompts.AfterEntry | libtkl_dialog/__init__.py:190-230 | handling an entry never reads more replies than remain |
| Prompts.EntryRound | libtkl_dialog/__init__.py:188-230 | a pass that goes on has read at least the prompt's reply |
| Prompts.EntryRun | libtkl_dialog/__init__.py:188-230 | the whole loop reads no more replies than remain |
| Prompts.EntryRunContinues | libtkl_dialog/__init__.py:190-192 | after a pass that goes on, the run is that pass followed by the loop over the remaining replies: every `continue` starts over with nothing kept |
| Prompts.EntryRunAccepts | libtkl_dialog/__init__.py:227-228 | a returned entry passed every check and is what the last reply read yields |
| Prompts.EntryRunExhausted | tkl_dialog/__init__.py:256-257 | the loop runs out only after reading every reply |
| Prompts.EntryRunRaises | tkl_dialog/__init__.py:256-310 | the loop raises only what reading an entry raises, or a missing prompt, message box or confirmation widget |
| Prompts.EntryRunEnds | libtkl_dialog/__init__.py:188-230 | the three facts above, stated over the console's reply positions: a returned entry is acceptable and read last, running out reads to the end, and the exceptions are the listed ones |
| Prompts.TakesFirst | tkl_dialog/__init__.py:111-119 | a widget handed a tuple or OK takes it at once |
| Prompts.TypedRound | libtkl_dialog/__init__.py:188-230 | one attempt typed by a cooperative user is returned after exactly its replies when it is good, and lets the loop go on after exactly its replies otherwise |
| Prompts.EntryRunFirstGood | libtkl_dialog/__init__.py:188-230 | the loop returns the first good attempt, after reading its replies and those of every attempt before it |
| Prompts.EntryRunNoneGood | tkl_dialog/__init__.py:315-326 | when no attempt is good the loop reads them all and runs out |
| Prompts.EmailVerdict | tkl_dialog/__init__.py:318-326 | an entry is accepted exactly when it is non-empty and matches `EMAIL_RE`; every rejection has a message |
| Prompts.InputVerdictAccepts | tkl_dialog/__init__.py:331-335 | an entry is accepted exactly when it is non-empty; the empty one is rejected with "<title> is required." |
| LibTklDialog.Second | libtkl_dialog/__init__.py:186 | `[1]` of a tuple is its value; of a code string, its second character or `IndexError` |
| LibTklDialog.Unpack | libtkl_dialog/__init__.py:159 | `retcode, choice = ...` yields a tuple's value, or unpacks a two-character code string, or raises `ValueError` |
| LibTklDialog.PasswordVerdict | libtkl_dialog/__init__.py:190-225 | an entry is accepted exactly when it is `Acceptable` (non-empty, long enough, complex enough, no blacklisted item); it is rejected without a message exactly when only the complexity fails and the required score is above 4 |
| LibTklDialog.ComplexityMessage | libtkl_dialog/__init__.py:204-215 | no message exactly for a required score above 4; the first message for a score up to 3 |
| LibTklDialog.RequirementsMentions | libtkl_dialog/__init__.py:172-180 | the requirements list the `repr` of every blacklisted item |
| LibTklDialog.Dialog.constructor | libtkl_dialog/__init__.py:39-51 | the persistent arguments are `--no-collapse`, then `--no-mouse` exactly when the mouse is off |
| LibTklDialog.Dialog.Wrapper | libtkl_dialog/__init__.py:70-100 | an unsupported widget raises before anything is shown; otherwise the run is `RetryRun` on the widget with `\n` before its text, and the raw reply comes back |
| LibTklDialog.Dialog.Error | libtkl_dialog/__init__.py:102-104 | one `wrapper` call of `ErrorBox`, the raw reply coming back |
| LibTklDialog.Dialog.Msgbox | libtkl_dialog/__init__.py:106-109 | a message box with the given title and the text's height |
| LibTklDialog.Dialog.Infobox | libtkl_dialog/__init__.py:111-114 | an info box with the text's height and no keyword arguments |
| LibTklDialog.Dialog.Inputbox | libtkl_dialog/__init__.py:116-134 | the height is three more than the text needs, and `no_cancel` is set exactly when the cancel label is empty |
| LibTklDialog.Dialog.Yesno | libtkl_dialog/__init__.py:136-149 | the answer is true exactly when the reply is the `ok` code |
| LibTklDialog.Dialog.Menu | libtkl_dialog/__init__.py:151-163 | the menu is one row taller than its number of choices and always has `no_cancel`; the choice comes from unpacking the reply |
| LibTklDialog.Dialog.PasswordPrompt | libtkl_dialog/__init__.py:183-230 | the loop of `get_password` as data is well formed |
| LibTklDialog.Dialog.EntryPrompt | libtkl_dialog/__init__.py:232-254 | the loop of `get_email` or `get_input` as data is well formed and asks for no confirmation |
| LibTklDialog.Dialog.Ask | libtkl_dialog/__init__.py:183-186 | one `wrapper('passwordbox', text + req_string, ...)` call; the entry is `[1]` of its reply |
| LibTklDialog.Dialog.Complain | libtkl_dialog/__init__.py:191 | exactly `ComplainRound`: the caller goes on exactly when the error box returned, after what the box read and showed |
| LibTklDialog.Dialog.CheckEntry | libtkl_dialog/__init__.py:190-225 | the entry is accepted exactly when it is `Acceptable`, and then nothing is read or shown; otherwise the console does exactly the `RejectRound` of the verdict's message |
| LibTklDialog.Dialog.Confirm | libtkl_dialog/__init__.py:227-230 | exactly `ConfirmRound`: the password comes back when the confirmation equals it; a mismatch shows its error and the loop goes on |
| LibTklDialog.Dialog.PasswordPass | libtkl_dialog/__init__.py:188-230 | one pass of the loop does exactly what `EntryRound` says |
| LibTklDialog.Dialog.GetPassword | libtkl_dialog/__init__.py:165-230 | the call does exactly what `EntryRun` says for the prompt with the requirements text and its height; a returned password is `Acceptable` |
| LibTklDialog.Dialog.PasswordLoop | libtkl_dialog/__init__.py:188-230 | follows `EntryRun`; a returned password is acceptable and is the confirmation read last; running out means every reply was read; only a missing widget or `IndexError` is raised |
| LibTklDialog.Dialog.PasswordRounds | libtkl_dialog/__init__.py:188-230 | the loop, pass by pass, does exactly what `EntryRun` says |
| LibTklDialog.Dialog.AskEntry | libtkl_dialog/__init__.py:235 | the entry is `[1]` of the reply to an input box with label "Apply" and an empty cancel label |
| LibTklDialog.Dialog.EntryPass | libtkl_dialog/__init__.py:234-245 | one pass of the loop does exactly what `EntryRound` says |
| LibTklDialog.Dialog.EntryLoop | libtkl_dialog/__init__.py:234-254 | the loop does exactly what `EntryRun` says |
| LibTklDialog.Dialog.GetEmail | libtkl_dialog/__init__.py:232-245 | follows `EntryRun`; a returned address is non-empty, matches `EMAIL_RE` and is the entry read last; running out means every reply was read; only a missing widget or `IndexError` is raised |
| LibTklDialog.Dialog.GetInput | libtkl_dialog/__init__.py:247-254 | follows `EntryRun`; a returned value is non-empty and is the entry read last; running out means every reply was read; only a missing widget or `IndexError` is raised |
| TklDialog.InitialArgsShape | tkl_dialog/__init__.py:57-67 | the constructor's list starts with `--no-collapse`, with one entry per flag and two per label asked for |
| TklDialog.InitialArgsMembers | tkl_dialog/__init__.py:57-67 | the list holds exactly the fixed flag and what each option added |
| TklDialog.InitialArgsFlags | tkl_dialog/__init__.py:62-67 | `--no-cancel`, `--colors` and `--no-mouse` are present exactly when their options ask for them, unless a label is spelled like a flag |
| TklDialog.AddIf | tkl_dialog/__init__.py:58-67 | a conditional append adds the extra arguments' length only when its option is set |
| TklDialog.AddIfMembers | tkl_dialog/__init__.py:58-67 | a conditional append adds its arguments only when its option is set |
| TklDialog.Without | tkl_dialog/__init__.py:69-75 | the list without an argument no longer holds it and holds nothing the original did not |
| TklDialog.WithoutAppend | tkl_dialog/__init__.py:69-75 | filtering distributes over concatenation |
| TklDialog.WithoutRemoveFirst | tkl_dialog/__init__.py:73 | removing the first `--no-cancel` leaves the other arguments as they were |
| TklDialog.NoCancelKeepsOthers | tkl_dialog/__init__.py:69-75 | `_no_cancel` changes nothing but `--no-cancel`: every other argument stays, in order |
| TklDialog.NoCancelEnable | tkl_dialog/__init__.py:74-75 | enabling leaves `--no-cancel` present, never adds a second copy, and is idempotent |
| TklDialog.NoCancelDisable | tkl_dialog/__init__.py:72-73 | disabling takes out one `--no-cancel`, and leaves none when there was at most one |
| TklDialog.AsList | tkl_dialog/__init__.py:129-131 | a bare code becomes a one-element list and a tuple a two-element one, with the code first |
| TklDialog.At | tkl_dialog/__init__.py:254 | indexing within the list yields the element, beyond it `IndexError` |
| TklDialog.Unpack | tkl_dialog/__init__.py:208 | a two-element list unpacks to its second element, anything else raises `ValueError` |
| TklDialog.Second | tkl_dialog/__init__.py:254 | `[1]` of what `wrapper` returns: a tuple's value; a bare code raises `IndexError` |
| TklDialog.InputboxKwargs | tkl_dialog/__init__.py:164-171 | title and initial value are always passed; each label only when truthy; `no_cancel` only when the cancel label is the empty string |
| TklDialog.YesnoKwargs | tkl_dialog/__init__.py:183-187 | the title always, each label only when given, never `no_cancel` |
| TklDialog.MenuKwargs | tkl_dialog/__init__.py:204-207 | `menu_height` is one more than the number of choices, and `no_cancel` is passed only when asked for |
| TklDialog.PasswordSettings | tkl_dialog/__init__.py:221-226 | a falsy length becomes 8 and a falsy complexity 3, a truthy one is kept, and neither is ever 0; a missing limit is 28 while an explicit value, 0 included, is kept |
| TklDialog.OverrideNote | tkl_dialog/__init__.py:233-236 | the override note is a line of its own, indented, ending with `str(limit)` and `)` |
| TklDialog.OverrideNoteLimit | tkl_dialog/__init__.py:235-236 | the digits before the closing parenthesis read back as the limit |
| TklDialog.BlacklistNote | tkl_dialog/__init__.py:237-240 | the blacklist line is there exactly when the blacklist is non-empty, on a line of its own opening with a bullet |
| TklDialog.BlacklistNoteItems | tkl_dialog/__init__.py:238-240 | every blacklisted item occurs in that line between double quotes |
| TklDialog.CracklibNote | tkl_dialog/__init__.py:241-243 | the cracklib line is there exactly when it is asked for, on a line of its own opening with a bullet |
| TklDialog.RequirementsMentions | tkl_dialog/__init__.py:228-240 | every blacklisted item occurs in the requirements between double quotes |
| TklDialog.RequirementsEndWithCracklib | tkl_dialog/__init__.py:241-243 | a forced cracklib check puts the cracklib line at the end of the requirements |
| TklDialog.OverrideNoteIff | tkl_dialog/__init__.py:228-243 | the requirements open with the length and complexity lines, and the override note follows exactly when the limit exceeds the length |
| TklDialog.ComplexityGateIgnoresLength | tkl_dialog/__init__.py:268 | for any non-empty password the complexity gate is open exactly when the limit is non-zero; the length never overrides it |
| TklDialog.PasswordVerdict | tkl_dialog/__init__.py:257-266 | no entry is ever accepted; the entry is rejected silently exactly when it is non-empty and long enough (the bare `continue`); the empty entry gets "Please enter non-empty passw!" |
| TklDialog.ComplexityMessage | tkl_dialog/__init__.py:269-281 | no message exactly for a required score above 4; the first message for a score up to 3 |
| TklDialog.CracklibQuestion | tkl_dialog/__init__.py:300-302 | the question opens with the fixed head followed by cracklib's complaint |
| TklDialog.PasswordLoopRunsOut | tkl_dialog/__init__.py:256-266 | whatever a cooperative user types, the loop reads the whole script and runs out |
| TklDialog.NeverAccepted | tkl_dialog/__init__.py:256-266 | the loop's run never returns a password |
| TklDialog.Dialog.constructor | tkl_dialog/__init__.py:39-67 | a falsy width or height becomes 60 or 20, and the persistent arguments are `InitialArgs` of the options |
| TklDialog.Dialog.AddArgsIf | tkl_dialog/__init__.py:58-67 | one conditional `add_persistent_args` |
| TklDialog.Dialog.NoCancel | tkl_dialog/__init__.py:69-75 | updates the persistent list in place as `NoCancelArgs` describes |
| TklDialog.Dialog.Wrapper | tkl_dialog/__init__.py:95-131 | a `no_cancel` keyword removes `--no-cancel` and is dropped; an unsupported widget then raises before anything is shown; otherwise the run is `RetryRun`, and the reply comes back as a list |
| TklDialog.Dialog.Error | tkl_dialog/__init__.py:133-136 | one `wrapper` call of `ErrorBox`; returns the exit code; the persistent list is unchanged |
| TklDialog.Dialog.Msgbox | tkl_dialog/__init__.py:138-143 | a message box with the given title; returns the exit code |
| TklDialog.Dialog.Infobox | tkl_dialog/__init__.py:145-148 | an info box with the text's height; returns the exit code |
| TklDialog.Dialog.Inputbox | tkl_dialog/__init__.py:150-174 | the height is three more than the text needs; an empty cancel label removes `--no-cancel` instead of hiding the button |
| TklDialog.Dialog.Yesno | tkl_dialog/__init__.py:175-193 | a returned answer is always false: the list from `wrapper` never equals `'ok'` |
| TklDialog.Dialog.Menu | tkl_dialog/__init__.py:195-210 | `no_cancel=True` removes `--no-cancel`; a bare exit code cannot be unpacked and raises `ValueError` |
| TklDialog.Dialog.AskBox | tkl_dialog/__init__.py:250-254 | the widget is `passwbox` and shows the literal text `text\nreq_string` |
| TklDialog.Dialog.PasswordPrompt | tkl_dialog/__init__.py:256-266 | the loop as data is well formed, asks for no confirmation, and checks with `PasswordVerdict` |
| TklDialog.Dialog.SettledPrompt | tkl_dialog/__init__.py:221-266 | the loop's checks use the settled length |
| TklDialog.Dialog.EntryPrompt | tkl_dialog/__init__.py:312-335 | the loop of `get_email` or `get_input` as data is well formed, asks for no confirmation and uses the given checks |
| TklDialog.Dialog.QueryBox | tkl_dialog/__init__.py:303-305 | the cracklib question is a `yesno` box |
| TklDialog.Dialog.ComplexityRound | tkl_dialog/__init__.py:268-282 | with the gate closed, a sufficient score, or a minimum above 4, the step goes on having read and shown nothing; it never returns a value |
| TklDialog.Dialog.CracklibRound | tkl_dialog/__init__.py:293-305 | without cracklib, or with a passing verdict, the step goes on having read and shown nothing; it never returns a value |
| TklDialog.Dialog.FinalRound | tkl_dialog/__init__.py:284-310 | a returned value is the password, and the password is free of blacklisted items |
| TklDialog.Dialog.Ask | tkl_dialog/__init__.py:250-254 | one `wrapper` call of `AskBox` that removes `--no-cancel`; the entry is `[1]` of the last reply read |
| TklDialog.Dialog.Complain | tkl_dialog/__init__.py:259 | exactly `ComplainRound`: the caller goes on exactly when the error box returned, after what the box read and showed; the persistent list is unchanged |
| TklDialog.Dialog.GetPassword | tkl_dialog/__init__.py:212-310 | a forced but missing cracklib raises before anything is shown; otherwise the call does exactly what `EntryRun` says for the settled prompt, and no password is ever returned; arguments other than `--no-cancel` are kept |
| TklDialog.Dialog.SizedPasswordLoop | tkl_dialog/__init__.py:248-266 | the loop with the computed height does exactly what `EntryRun` says and never returns a password |
| TklDialog.Dialog.PromptHeight | tkl_dialog/__init__.py:248 | the prompt is three rows taller than the caller's text followed by the requirements |
| TklDialog.Dialog.PasswordPass | tkl_dialog/__init__.py:256-266 | one pass of the loop does exactly what `EntryRound` says, and removes `--no-cancel` |
| TklDialog.Dialog.PasswordLoop | tkl_dialog/__init__.py:256-266 | follows `EntryRun`; because the `continue` after the length check always runs, no password is returned; running out means every reply was read |
| TklDialog.Dialog.ComplexityStep | tkl_dialog/__init__.py:268-282 | exactly `ComplexityRound`; when the step goes on, the loop restarts exactly when the gate is open |
| TklDialog.Dialog.FinalSteps | tkl_dialog/__init__.py:284-310 | exactly `FinalRound`; a password comes back only when it is free of blacklisted items and equals the confirmation |
| TklDialog.Dialog.CracklibStep | tkl_dialog/__init__.py:293-305 | exactly `CracklibRound`; a step that goes on has nothing to return |
| TklDialog.Dialog.CracklibQuery | tkl_dialog/__init__.py:299-305 | exactly `NoticeRound` of the question: the answer is discarded, and the caller goes on exactly when the box returned |
| TklDialog.Dialog.ConfirmStep | tkl_dialog/__init__.py:307-310 | exactly `ConfirmRound` on `AskBox`; a password comes back only when the confirmation read last equals it |
| TklDialog.Dialog.AskEntry | tkl_dialog/__init__.py:316 | the entry is `[1]` of the reply to an input box with label "Apply" whose empty cancel label removes `--no-cancel` |
| TklDialog.Dialog.EntryPass | tkl_dialog/__init__.py:315-326 | one pass of the loop does exactly what `EntryRound` says, and removes `--no-cancel` |
| TklDialog.Dialog.EntryLoop | tkl_dialog/__init__.py:315-335 | the loop does exactly what `EntryRun` says, and keeps every argument but `--no-cancel` |
| TklDialog.Dialog.GetEmail | tkl_dialog/__init__.py:312-326 | follows `EntryRun`; a returned address is non-empty, matches `EMAIL_RE` and is the entry read last; running out means every reply was read; only a missing widget or `IndexError` is raised |
| TklDialog.Dialog.GetInput | tkl_dialog/__init__.py:328-335 | follows `EntryRun`; a returned value is non-empty and is the entry read last; running out means every reply was read; only a missing widget or `IndexError` is raised |

The two `_handle_exitcode` methods, at libtkl_dialog/__init__.py:53-62
and tkl_dialog/__init__.py:77-87, are identical. Both are modelled once, by
`Console.Console.HandleExitcode`.

## Left out

- Rendering by the `dialog` binding is replaced by the scripted console. What a widget returns is the next scripted reply.
- An exhausted script ends a call with `Exhausted`. The real program would block, waiting for input.
- `sys.exit(0)` after a confirmed quit is the outcome `Exited`, not process termination.
- `password_cracklib` and the optional `crack` import are one optional parameter. `None` means cracklib is not installed, and the function stands for cracklib's verdict.
- Exception messages are left out. `TklDialogError` becomes `NotSupported(name)` and `TklDialogImportError` becomes `CracklibMissing`. Exceptions raised inside the binding are not modelled.
- Python's `None` defaults are read by truthiness: `0` for numbers, `""` for labels, `false` for flags. The one place where `None` and `""` differ is the `tkl_dialog` inputbox cancel label, which is an `Option`.
- Character classes are ASCII only. `\d`, `\W`, `\s` and `splitlines` do not cover the Unicode digits, letters and line separators Python also accepts, and `splitlines` splits on `\n` only.
- Text.StrRepr: characters above U+00FF that Python's `repr` treats as non-printable (for example U+2028, or unassigned code points) are written with `\u` or `\U` escapes by Python; the model keeps them as they are. Escapes up to U+00FF follow Python.
- Logging (tkl_dialog/logger.py and the `logging` calls) is not part of this model. Neither is `run_cmd` (a subprocess with `tee` and a temporary file), nor `fatal`/`usage` in the utils files, nor setup.py.
- libtkl_dialog/utils.py uses `re` and `sys` without importing them. Its `password_complexity` is modelled as the function body reads.
- The `libtkl_dialog` branch for a non-int `pass_req`, a caller-supplied regular expression (libtkl_dialog/__init__.py:198-202), is not modelled. Only integer length requirements are.
- In `tkl_dialog`, only integer lengths are modelled. For an integer `pass_len` the `continue` at tkl_dialog/__init__.py:266 always runs, so the complexity, blacklist, cracklib and confirmation steps (tkl_dialog/__init__.py:268-310) are never reached and `PasswordLoop` ends its pass after the length check. A `pass_len` that is not an `int` (a float, say) skips the length check and does reach those steps; that path is not modelled as a loop. The steps themselves are modelled, as the methods `ComplexityStep`, `FinalSteps`, `CracklibStep`, `CracklibQuery` and `ConfirmStep` with the reference rounds `ComplexityRound`, `FinalRound`, `CracklibRound`, `NoticeRound` and `ConfirmRound`, which no loop calls.
- LibTklDialog.Dialog.constructor: requires a non-zero width, so the model has no runs at width 0, a value the source accepts and that `dialog` itself reads as auto-size. At width 0 the source raises `ZeroDivisionError` only where `_calc_height` meets a text with at least one line, since it divides inside its loop over the lines (libtkl_dialog/__init__.py:64-68). `get_password` always raises there, because its prompt holds the requirements (:181). `menu` (:151-163), which computes no height, and `error`, `msgbox`, `infobox`, `inputbox` and `yesno` on an empty text run normally. The model leaves out both these runs and the exception.
