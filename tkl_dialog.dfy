/** The `Dialog` facade of tkl_dialog/__init__.py over a scripted console:
    the constructor's persistent arguments, `_no_cancel`, the widget wrapper
    (which also drops a `no_cancel` keyword and wraps a bare exit code in a
    list), the thin widgets, and the entry loops for passwords, e-mail
    addresses and required input, as the source writes them. */
module TklDialog {
  import opened Text
  import opened Strength
  import opened Layout
  import opened Email
  import opened Blacklist
  import opened Console
  import opened Prompts

  const DefaultWidth: int := 60
  const DefaultHeight: int := 20
  const DefaultPassLength: int := 8
  const DefaultComplexity: int := 3
  const DefaultComplexityLimit: int := 28

  const NoCancelFlag: string := "--no-cancel"

  /** The persistent arguments the constructor adds, in order: always
      `--no-collapse`; the OK and Cancel labels when given; `--no-cancel`
      and `--colors` when asked for; `--no-mouse` unless the mouse is on. */
  function InitialArgs(okLabel: string, cancelLabel: string, noCancel: bool, colors: bool, mouse: bool)
    : seq<string>
  {
    AddIf(AddIf(AddIf(AddIf(AddIf(["--no-collapse"],
      okLabel != "", ["--ok-label", okLabel]),
      cancelLabel != "", ["--cancel-label", cancelLabel]),
      noCancel, [NoCancelFlag]),
      colors, ["--colors"]),
      !mouse, ["--no-mouse"])
  }

  /** One conditional `add_persistent_args`. */
  function AddIf(args: seq<string>, cond: bool, extra: seq<string>): (r: seq<string>)
    ensures |r| == |args| + (if cond then |extra| else 0)
  {
    if cond then args + extra else args
  }

  lemma AddIfMembers(args: seq<string>, cond: bool, extra: seq<string>, x: string)
    ensures x in AddIf(args, cond, extra) <==> x in args || (cond && x in extra)
  {
  }

  /** The list starts with `--no-collapse` and holds one entry per flag and
      two per label asked for. */
  lemma InitialArgsShape(okLabel: string, cancelLabel: string, noCancel: bool, colors: bool, mouse: bool)
    ensures var args := InitialArgs(okLabel, cancelLabel, noCancel, colors, mouse);
      args[0] == "--no-collapse"
      && |args| == 1 + 2 * Count(okLabel != "") + 2 * Count(cancelLabel != "")
                     + Count(noCancel) + Count(colors) + Count(!mouse)
  {
  }

  /** Each flag is present exactly when its option asks for it, as long as
      neither label is spelled like that flag. */
  lemma InitialArgsFlags(okLabel: string, cancelLabel: string, noCancel: bool, colors: bool, mouse: bool)
    requires okLabel !in {"--no-mouse", NoCancelFlag, "--colors"}
    requires cancelLabel !in {"--no-mouse", NoCancelFlag, "--colors"}
    ensures var args := InitialArgs(okLabel, cancelLabel, noCancel, colors, mouse);
      ("--no-mouse" in args <==> !mouse)
      && (NoCancelFlag in args <==> noCancel)
      && ("--colors" in args <==> colors)
  {
    InitialArgsMembers(okLabel, cancelLabel, noCancel, colors, mouse, "--no-mouse");
    InitialArgsMembers(okLabel, cancelLabel, noCancel, colors, mouse, NoCancelFlag);
    InitialArgsMembers(okLabel, cancelLabel, noCancel, colors, mouse, "--colors");
  }

  /** What the constructor's list holds: the fixed flag and whatever each
      option added. */
  lemma InitialArgsMembers(okLabel: string, cancelLabel: string, noCancel: bool, colors: bool, mouse: bool,
                           x: string)
    ensures x in InitialArgs(okLabel, cancelLabel, noCancel, colors, mouse) <==>
      x == "--no-collapse"
      || (okLabel != "" && (x == "--ok-label" || x == okLabel))
      || (cancelLabel != "" && (x == "--cancel-label" || x == cancelLabel))
      || (noCancel && x == NoCancelFlag)
      || (colors && x == "--colors")
      || (!mouse && x == "--no-mouse")
  {
    var a0 := ["--no-collapse"];
    var a1 := AddIf(a0, okLabel != "", ["--ok-label", okLabel]);
    var a2 := AddIf(a1, cancelLabel != "", ["--cancel-label", cancelLabel]);
    var a3 := AddIf(a2, noCancel, [NoCancelFlag]);
    var a4 := AddIf(a3, colors, ["--colors"]);
    AddIfMembers(a0, okLabel != "", ["--ok-label", okLabel], x);
    AddIfMembers(a1, cancelLabel != "", ["--cancel-label", cancelLabel], x);
    AddIfMembers(a2, noCancel, [NoCancelFlag], x);
    AddIfMembers(a3, colors, ["--colors"], x);
    AddIfMembers(a4, !mouse, ["--no-mouse"], x);
  }

  /** `_no_cancel(enable)` on the argument list: a falsy `enable` removes the
      first `--no-cancel`, a true one appends it when it is missing. */
  function NoCancelArgs(args: seq<string>, enable: bool): seq<string> {
    if !enable && NoCancelFlag in args then RemoveFirst(args, NoCancelFlag)
    else if enable && NoCancelFlag !in args then args + [NoCancelFlag]
    else args
  }

  /** The list with every occurrence of `x` taken out. */
  function Without(args: seq<string>, x: string): (r: seq<string>)
    ensures x !in r
    ensures multiset(r) <= multiset(args)
  {
    if args == [] then []
    else
      assert args == [args[0]] + args[1..];
      (if args[0] == x then [] else [args[0]]) + Without(args[1..], x)
  }

  lemma {:induction false} WithoutAppend(a: seq<string>, b: seq<string>, x: string)
    ensures Without(a + b, x) == Without(a, x) + Without(b, x)
  {
    if a != [] {
      assert (a + b)[1..] == a[1..] + b;
      WithoutAppend(a[1..], b, x);
      AppendAssoc(if a[0] == x then [] else [a[0]], Without(a[1..], x), Without(b, x));
    } else {
      assert a + b == b;
    }
  }

  /** Removing the first `x` changes nothing about the other entries. */
  lemma WithoutRemoveFirst(s: seq<string>, x: string)
    requires x in s
    ensures Without(RemoveFirst(s, x), x) == Without(s, x)
  {
    var i := FirstIndex(s, x);
    SplitAround(s, i);
    WithoutAround(s[..i], s[i + 1..], x);
  }

  lemma SplitAround(s: seq<string>, i: nat)
    requires i < |s|
    ensures s == s[..i] + ([s[i]] + s[i + 1..])
  {
  }

  lemma WithoutAround(before: seq<string>, after: seq<string>, x: string)
    ensures Without(before + ([x] + after), x) == Without(before + after, x)
  {
    WithoutAppend(before, [x] + after, x);
    WithoutDrops(x, after);
    WithoutAppend(before, after, x);
  }

  lemma WithoutDrops(x: string, s: seq<string>)
    ensures Without([x] + s, x) == Without(s, x)
  {
    assert ([x] + s)[1..] == s;
  }

  /** `_no_cancel` touches `--no-cancel` only: every other argument stays,
      in its order. */
  lemma NoCancelKeepsOthers(args: seq<string>, enable: bool)
    ensures Without(NoCancelArgs(args, enable), NoCancelFlag) == Without(args, NoCancelFlag)
  {
    if !enable && NoCancelFlag in args {
      WithoutRemoveFirst(args, NoCancelFlag);
    } else if enable && NoCancelFlag !in args {
      WithoutAppend(args, [NoCancelFlag], NoCancelFlag);
      assert Without([NoCancelFlag], NoCancelFlag) == [];
      assert Without(args, NoCancelFlag) + [] == Without(args, NoCancelFlag);
    }
  }

  /** Enabling leaves `--no-cancel` in the list, never adds a second one,
      and a second enable changes nothing. */
  lemma NoCancelEnable(args: seq<string>)
    ensures NoCancelFlag in NoCancelArgs(args, true)
    ensures multiset(NoCancelArgs(args, true))[NoCancelFlag] == if NoCancelFlag in args then multiset(args)[NoCancelFlag] else 1
    ensures NoCancelArgs(NoCancelArgs(args, true), true) == NoCancelArgs(args, true)
  {
    if NoCancelFlag !in args {
      assert multiset(args)[NoCancelFlag] == 0;
      assert NoCancelArgs(args, true)[|args|] == NoCancelFlag;
    }
  }

  /** Disabling takes out one `--no-cancel`; from a list that held at most
      one, it leaves none. */
  lemma NoCancelDisable(args: seq<string>)
    ensures multiset(NoCancelArgs(args, false)) == multiset(args) - multiset{NoCancelFlag}
    ensures multiset(args)[NoCancelFlag] <= 1 ==> NoCancelFlag !in NoCancelArgs(args, false)
  {
    var r := NoCancelArgs(args, false);
    if NoCancelFlag !in args {
      assert multiset(args)[NoCancelFlag] == 0;
      assert multiset(args) - multiset{NoCancelFlag} == multiset(args);
    } else if multiset(args)[NoCancelFlag] <= 1 {
      assert multiset(r)[NoCancelFlag] == 0;
    }
  }

  /** What `wrapper` returns: a bare exit code wrapped in a one-element
      list, a tuple as it is. */
  function AsList(r: Reply): (l: seq<string>)
    ensures 1 <= |l| <= 2 && l[0] == r.code
    ensures |l| == 2 <==> r.Pair?
  {
    match r
    case Code(c) => [c]
    case Pair(c, v) => [c, v]
  }

  /** Python's `l[i]` on a list: the element, or `IndexError`. */
  function At(l: seq<string>, i: nat): (o: Outcome<string>)
    ensures i < |l| ==> o == Returned(l[i])
    ensures i >= |l| ==> o == Raised(IndexError)
  {
    if i < |l| then Returned(l[i]) else Raised(IndexError)
  }

  /** `retcode, choice = l`: the second element of a two-element list, or
      `ValueError`. */
  function Unpack(l: seq<string>): (o: Outcome<string>)
    ensures |l| == 2 ==> o == Returned(l[1])
    ensures |l| != 2 ==> o == Raised(UnpackError)
  {
    if |l| == 2 then Returned(l[1]) else Raised(UnpackError)
  }

  /** `inputbox`'s keyword arguments: title and initial value always, each
      label when it is truthy, and `no_cancel='True'` when the cancel label
      is the empty string (a missing label, `None`, does not count). */
  function InputboxKwargs(title: string, init: string, okLabel: string, cancelLabel: Option<string>)
    : (kw: map<string, Arg>)
    ensures kw.Keys <= {"title", "init", "ok_label", "cancel_label", "no_cancel"}
    ensures "title" in kw && kw["title"] == Str(title) && "init" in kw && kw["init"] == Str(init)
    ensures "ok_label" in kw <==> okLabel != ""
    ensures "cancel_label" in kw <==> cancelLabel.Some? && cancelLabel.value != ""
    ensures "no_cancel" in kw <==> cancelLabel == Some("")
  {
    var kw := map["title" := Str(title), "init" := Str(init)];
    var kw := if okLabel != "" then kw["ok_label" := Str(okLabel)] else kw;
    var kw := if cancelLabel.Some? && cancelLabel.value != "" then kw["cancel_label" := Str(cancelLabel.value)] else kw;
    if cancelLabel == Some("") then kw["no_cancel" := Str("True")] else kw
  }

  /** `yesno`'s keyword arguments: the title, and each label when given. */
  function YesnoKwargs(title: string, yesLabel: string, noLabel: string): (kw: map<string, Arg>)
    ensures "title" in kw && kw["title"] == Str(title)
    ensures "yes_label" in kw <==> yesLabel != ""
    ensures "no_label" in kw <==> noLabel != ""
    ensures "no_cancel" !in kw
  {
    var kw := map["title" := Str(title)];
    var kw := if yesLabel != "" then kw["yes_label" := Str(yesLabel)] else kw;
    if noLabel != "" then kw["no_label" := Str(noLabel)] else kw
  }

  /** `menu`'s keyword arguments: a menu one row taller than the number of
      choices, and `no_cancel` only when asked for. */
  function MenuKwargs(title: string, choices: seq<(string, string)>, noCancel: bool): (kw: map<string, Arg>)
    ensures "menu_height" in kw && kw["menu_height"] == Int(|choices| + 1)
    ensures "choices" in kw && kw["choices"] == Choices(choices)
    ensures "title" in kw && kw["title"] == Str(title)
    ensures "no_cancel" in kw <==> noCancel
  {
    var kw := map["title" := Str(title), "menu_height" := Int(|choices| + 1), "choices" := Choices(choices)];
    if noCancel then kw["no_cancel" := Flag(noCancel)] else kw
  }

  /** The keyword arguments of `ask` inside `get_password`. */
  function AskKwargs(title: string): map<string, Arg> {
    map["title" := Str(title), "ok_label" := Str("OK"), "no_cancel" := Str("True"), "insecure" := Flag(true)]
  }

  /** The text `ask` shows: the literal characters `text\nreq_string`, not
      the caller's text. */
  const AskText: string := "text\nreq_string"

  /** The settings `get_password` works with: a falsy length or complexity
      takes its default; a missing complexity limit is 28, an explicit 0
      stays 0. */
  function PasswordSettings(passLen: int, minComplexity: int, complexityLenLmt: Option<int>)
    : (s: (int, int, int))
    ensures s.0 != 0 && s.1 != 0
    ensures passLen != 0 ==> s.0 == passLen
    ensures passLen == 0 ==> s.0 == DefaultPassLength
    ensures minComplexity != 0 ==> s.1 == minComplexity
    ensures minComplexity == 0 ==> s.1 == DefaultComplexity
    ensures complexityLenLmt.Some? ==> s.2 == complexityLenLmt.value
    ensures complexityLenLmt.None? ==> s.2 == DefaultComplexityLimit
  {
    (if passLen == 0 then DefaultPassLength else passLen,
     if minComplexity == 0 then DefaultComplexity else minComplexity,
     if complexityLenLmt.None? then DefaultComplexityLimit else complexityLenLmt.value)
  }

  /** The requirements `get_password` lists: length and complexity; the
      override note when the limit exceeds the length; the blacklist, each
      item in double quotes; the cracklib line when cracklib is forced and
      present. */
  function RequirementsText(passLen: int, minComplexity: int, limit: int, blacklist: seq<string>,
                            cracklibLine: bool): string
  {
    RequirementsBase(passLen, minComplexity)
    + (if limit > passLen then OverrideNote(limit) else "")
    + BlacklistNote(blacklist)
    + CracklibNote(cracklibLine)
  }

  function RequirementsBase(passLen: int, minComplexity: int): string {
    "\n\nPassword Requirements\n - must be at least " + IntToString(passLen)
    + " characters long\n - must contain characters from at least " + IntToString(minComplexity)
    + " of the following categories: uppercase, lowercase, numbers, symbols\n"
  }

  /** The override note: a line of its own, indented, ending with the
      limit in parentheses. */
  function OverrideNote(limit: int): (note: string)
    ensures |note| > 2 && note[0] == '\n' && note[2] == ' ' && note[|note| - 1] == ')'
    ensures |OverrideHead| < |note| && IntToString(limit) <= note[|OverrideHead|..]
  {
    OverrideHead + IntToString(limit) + ")"
  }

  const OverrideHead: string := "\n   " + "(override complexity overridden if longer than "

  /** The digits in the override note read back as the limit. */
  lemma OverrideNoteLimit(limit: int)
    requires limit >= 0
    ensures var note := OverrideNote(limit);
      var digits := note[|OverrideHead|..|note| - 1];
      (forall i | 0 <= i < |digits| :: IsDigit(digits[i])) && DecimalValue(digits) == limit
  {
    var note := OverrideNote(limit);
    assert note[|OverrideHead|..|note| - 1] == IntToString(limit);
    IntToStringValue(limit);
  }

  /** The blacklist line: present exactly when the blacklist is non-empty,
      on a line of its own. */
  function BlacklistNote(blacklist: seq<string>): (note: string)
    ensures note == [] <==> blacklist == []
    ensures note != [] ==> |note| > 2 && note[0] == '\n' && note[2] == '-'
  {
    if blacklist == [] then ""
    else "\n - must NOT contain these chars: " + Join(", ", QuoteAll("\"", blacklist))
  }

  /** Each blacklisted item appears in the blacklist line between double
      quotes. */
  lemma BlacklistNoteItems(blacklist: seq<string>, k: nat)
    requires k < |blacklist|
    ensures IsSubstring("\"" + blacklist[k] + "\"", BlacklistNote(blacklist))
  {
    var head := "\n - must NOT contain these chars: ";
    var joined := Join(", ", QuoteAll("\"", blacklist));
    QuoteAllItems("\"", blacklist, k);
    JoinHasItems(", ", QuoteAll("\"", blacklist), k);
    var i :| 0 <= i <= |joined| && OccursAt("\"" + blacklist[k] + "\"", joined, i);
    OccursAfter("\"" + blacklist[k] + "\"", head, joined, i);
  }

  /** The cracklib line: present exactly when asked for, on a line of its
      own. */
  function CracklibNote(cracklibLine: bool): (note: string)
    ensures note == [] <==> !cracklibLine
    ensures note != [] ==> |note| > 2 && note[0] == '\n' && note[2] == '-'
  {
    if cracklibLine then "\n - must pass cracklib checks" else ""
  }

  /** Every blacklisted item appears in the requirements between double
      quotes. */
  lemma RequirementsMentions(passLen: int, minComplexity: int, limit: int, blacklist: seq<string>,
                             cracklibLine: bool, k: nat)
    requires k < |blacklist|
    ensures IsSubstring("\"" + blacklist[k] + "\"", RequirementsText(passLen, minComplexity, limit, blacklist, cracklibLine))
  {
    var item := "\"" + blacklist[k] + "\"";
    var note := BlacklistNote(blacklist);
    BlacklistNoteItems(blacklist, k);
    var i :| 0 <= i <= |note| && OccursAt(item, note, i);
    OccursBetween(item, RequirementsBase(passLen, minComplexity) + (if limit > passLen then OverrideNote(limit) else ""),
                  note, CracklibNote(cracklibLine), i);
  }

  /** The cracklib line, when asked for, closes the requirements. */
  lemma RequirementsEndWithCracklib(passLen: int, minComplexity: int, limit: int, blacklist: seq<string>)
    ensures var text := RequirementsText(passLen, minComplexity, limit, blacklist, true);
      var line := CracklibNote(true);
      |line| <= |text| && text[|text| - |line|..] == line
  {
    var front := RequirementsBase(passLen, minComplexity) + (if limit > passLen then OverrideNote(limit) else "")
      + BlacklistNote(blacklist);
    EndsWith(front, CracklibNote(true));
  }

  lemma OccursBetween(item: string, front: string, middle: string, back: string, i: nat)
    requires OccursAt(item, middle, i)
    ensures IsSubstring(item, front + middle + back)
  {
    OccursAfter(item, front, middle, i);
    OccursBefore(item, front + middle, back, |front| + i);
  }

  lemma EndsWith(front: string, back: string)
    ensures (front + back)[|front + back| - |back|..] == back
  {
  }

  /** The requirements open with the length and complexity lines, and the
      override note follows them exactly when the limit exceeds the
      length. */
  lemma OverrideNoteIff(passLen: int, minComplexity: int, limit: int, blacklist: seq<string>, cracklibLine: bool)
    ensures var text := RequirementsText(passLen, minComplexity, limit, blacklist, cracklibLine);
      var base := RequirementsBase(passLen, minComplexity);
      base <= text && (base + OverrideNote(limit) <= text <==> limit > passLen)
  {
    var base := RequirementsBase(passLen, minComplexity);
    var note := OverrideNote(limit);
    var over := if limit > passLen then note else "";
    var later := BlacklistNote(blacklist) + CracklibNote(cracklibLine);
    var text := RequirementsText(passLen, minComplexity, limit, blacklist, cracklibLine);
    AppendAssoc(base + over, BlacklistNote(blacklist), CracklibNote(cracklibLine));
    AppendAssoc(base, over, later);
    LaterNotesShape(blacklist, cracklibLine);
    NoteAfterBase(base, note, over, later);
  }

  /** `base + note` is a prefix of `base + over + later` exactly when the
      note is there, given that what may follow instead starts differently. */
  lemma NoteAfterBase(base: string, note: string, over: string, later: string)
    requires |note| > 2 && note[2] == ' '
    requires over == note || over == ""
    requires later == [] || (|later| > 2 && later[2] == '-')
    ensures base <= base + (over + later)
    ensures base + note <= base + (over + later) <==> over == note
  {
    if over == note {
      AppendAssoc(base, note, later);
    } else if later == [] {
      assert base + (over + later) == base;
    } else {
      assert over + later == later;
      var i := |base| + 2;
      if |base + note| <= |base + later| {
        assert (base + note)[i] == note[2] && (base + later)[i] == later[2];
      }
    }
  }

  lemma LaterNotesShape(blacklist: seq<string>, cracklibLine: bool)
    ensures var later := BlacklistNote(blacklist) + CracklibNote(cracklibLine);
      later == [] || (|later| > 2 && later[2] == '-')
  {
  }

  /** The condition at the head of the complexity check: the limit is
      non-zero, or the password is no longer than the limit. */
  predicate ComplexityGate(limit: int, length: int) {
    limit != 0 || length <= limit
  }

  /** The gate never lets a length override the complexity test: for any non-empty
      password it is open exactly when the limit is non-zero, whatever the
      password's length. */
  lemma ComplexityGateIgnoresLength(limit: int, length: int)
    requires length >= 1
    ensures ComplexityGate(limit, length) <==> limit != 0
  {
  }

  const WeakMixCaseNumber: string :=
    "Insecure passw! Mix uppercase, lowercase, and at least one number. Multiple words and"
    + " punctuation are highly recommended but not strictly required."
  const WeakMixCaseNumberSymbol: string :=
    "Insecure passw! Mix uppercase, lowercase, numbers and at least one special/punctuation"
    + " character. Multiple words are highly recommended but not strictly required."

  /** `[1]` of the list `wrapper` returns: the value of a tuple; a bare
      exit code, wrapped in a one-element list, raises `IndexError`. */
  function Second(r: Reply): (o: Outcome<string>)
    ensures r.Pair? ==> o == Returned(r.value)
    ensures r.Code? ==> o == Raised(IndexError)
  {
    At(AsList(r), 1)
  }

  /** The tests of the loop of `get_password` as written: an empty entry
      and a short one show their messages, and every other entry goes back
      to the prompt without one, because the `continue` after the length
      check runs whatever the length. No entry is ever accepted. */
  function PasswordVerdict(password: string, passLen: int): (v: Verdict)
    ensures v != Accept
    ensures v.message.None? <==> password != "" && |password| >= passLen
    ensures password == "" ==> v.message == Some("Please enter non-empty passw!")
  {
    if password == "" then Reject(Some("Please enter non-empty passw!"))
    else if |password| < passLen then Reject(Some("Password must be at least " + IntToString(passLen) + " characters."))
    else Reject(None)
  }

  /** The tests, applied as the loop applies them. */
  function PasswordCheck(passLen: int): string -> Verdict {
    password => PasswordVerdict(password, passLen)
  }

  /** The complexity message, chosen by the required score: none above 4. */
  function ComplexityMessage(minComplexity: int): (m: Option<string>)
    ensures m.None? <==> minComplexity > 4
    ensures minComplexity <= 3 ==> m == Some(WeakMixCaseNumber)
  {
    if minComplexity <= 3 then Some(WeakMixCaseNumber)
    else if minComplexity == 4 then Some(WeakMixCaseNumberSymbol)
    else None
  }

  const CracklibQuestionHead: string := "Your password doesn't pass Cracklib (password checking library):\n - "

  /** The question put to the user when cracklib rejects a password and
      cracklib is not forced: the complaint follows the fixed head. */
  function CracklibQuestion(complaint: string): (q: string)
    ensures CracklibQuestionHead + complaint <= q
  {
    CracklibQuestionHead + complaint + ".\n\nDo you wish to set a new password?"
  }

  /** Whatever a user types, the loop of `get_password` as written never
      hands a password back: a user who answers every prompt and
      acknowledges every error reads the whole script and runs out. */
  lemma {:induction false} PasswordLoopRunsOut(p: Prompt, passLen: int, attempts: seq<(string, string)>)
    requires Cooperative(p) && p.check == PasswordCheck(passLen)
    ensures var run := EntryRun(p, Script(p, attempts));
      run.outcome == Exhausted && run.used == |Script(p, attempts)|
  {
    forall j | 0 <= j < |attempts|
      ensures !Good(p, attempts[j])
    {
      assert p.check(attempts[j].0) == PasswordVerdict(attempts[j].0, passLen);
    }
    EntryRunNoneGood(p, attempts);
  }

  class Dialog {
    const width: int
    const height: int
    const console: Console

    ghost predicate Valid()
      reads this, console
    {
      console.Valid() && width != 0
    }

    /** `Dialog(title, width, height, ok_label, cancel_label, colors, mouse,
        no_cancel)`, where 0, "" and false stand for the falsy `None`
        defaults; the renderer binding is the scripted console given by
        `replies` and `supported`. */
    constructor (replies: seq<Reply>, supported: set<string>, title: string,
                 width: int := 0, height: int := 0, okLabel: string := "", cancelLabel: string := "",
                 colors: bool := false, mouse: bool := false, noCancel: bool := false)
      ensures Valid() && fresh(console)
      ensures this.width == (if width == 0 then DefaultWidth else width)
      ensures this.height == (if height == 0 then DefaultHeight else height)
      ensures console.replies == replies && console.supported == supported
      ensures console.next == 0 && console.shown == [] && console.backgroundTitle == title
      ensures console.persistentArgs == InitialArgs(okLabel, cancelLabel, noCancel, colors, mouse)
    {
      this.width := if width == 0 then DefaultWidth else width;
      this.height := if height == 0 then DefaultHeight else height;
      console := new Console(replies, supported);
      new;
      console.SetBackgroundTitle(title);
      console.AddPersistentArgs(["--no-collapse"]);
      assert console.persistentArgs == ["--no-collapse"];
      AddArgsIf(okLabel != "", ["--ok-label", okLabel]);
      AddArgsIf(cancelLabel != "", ["--cancel-label", cancelLabel]);
      AddArgsIf(noCancel, [NoCancelFlag]);
      AddArgsIf(colors, ["--colors"]);
      AddArgsIf(!mouse, ["--no-mouse"]);
    }

    /** One `if <option>: add_persistent_args(extra)` of the constructor. */
    method AddArgsIf(cond: bool, extra: seq<string>)
      modifies console`persistentArgs
      ensures console.persistentArgs == AddIf(old(console.persistentArgs), cond, extra)
    {
      if cond {
        console.AddPersistentArgs(extra);
      }
    }

    /** `_no_cancel(enable)` */
    method NoCancel(enable: bool)
      modifies console`persistentArgs
      ensures console.persistentArgs == NoCancelArgs(old(console.persistentArgs), enable)
    {
      if !enable && NoCancelFlag in console.persistentArgs {
        console.RemovePersistentArg(NoCancelFlag);
      }
      if enable && NoCancelFlag !in console.persistentArgs {
        console.AddPersistentArgs([NoCancelFlag]);
      }
    }

    /** `wrapper`: a `no_cancel` keyword, whatever its value, removes
        `--no-cancel` and is dropped; then the widget is looked up and shown
        (text prefixed with a line break) until `_handle_exitcode` accepts
        the reply, which is returned as a list. */
    method Wrapper(name: string, text: string, h: int, kwargs: map<string, Arg>) returns (o: Outcome<seq<string>>)
      requires Valid()
      modifies console`next, console`shown, console`persistentArgs
      ensures Valid()
      ensures console.persistentArgs ==
        if "no_cancel" in kwargs then NoCancelArgs(old(console.persistentArgs), false) else old(console.persistentArgs)
      ensures console.Dispatched(Widget(name, "\n" + text, h, width, kwargs - {"no_cancel"}), o,
                                 r => Returned(AsList(r)))
    {
      var kw := kwargs;
      if "no_cancel" in kw {
        NoCancel(false);
        kw := kw - {"no_cancel"};
      } else {
        assert kw == kwargs - {"no_cancel"};
      }
      if name !in console.supported {
        return Raised(NotSupported(name));
      }
      var retcode := console.Retry(Widget(name, "\n" + text, h, width, kw));
      if !retcode.Returned? {
        return retcode.Cast();
      }
      return Returned(AsList(retcode.value));
    }

    /** `error`: a message box titled "Error", as tall as its text needs;
        returns the exit code. */
    method Error(text: string) returns (o: Outcome<string>)
      requires Valid()
      modifies console`next, console`shown, console`persistentArgs
      ensures Valid() && unchanged(console`persistentArgs)
      ensures console.Dispatched(ErrorBox(text, width), o, (r: Reply) => Returned(r.code))
    {
      var h := CalcHeight(text, width);
      assert map["title" := Str("Error")] - {"no_cancel"} == map["title" := Str("Error")];
      var l := Wrapper("msgbox", text, h, map["title" := Str("Error")]);
      if !l.Returned? {
        return l.Cast();
      }
      return Returned(l.value[0]);
    }

    /** `msgbox` */
    method Msgbox(title: string, text: string) returns (o: Outcome<string>)
      requires Valid()
      modifies console`next, console`shown, console`persistentArgs
      ensures Valid() && unchanged(console`persistentArgs)
      ensures console.Dispatched(Widget("msgbox", "\n" + text, TextHeight(text, width), width,
                                        map["title" := Str(title)]), o, (r: Reply) => Returned(r.code))
    {
      var h := CalcHeight(text, width);
      assert map["title" := Str(title)] - {"no_cancel"} == map["title" := Str(title)];
      var l := Wrapper("msgbox", text, h, map["title" := Str(title)]);
      if !l.Returned? {
        return l.Cast();
      }
      return Returned(l.value[0]);
    }

    /** `infobox` */
    method Infobox(text: string) returns (o: Outcome<string>)
      requires Valid()
      modifies console`next, console`shown, console`persistentArgs
      ensures Valid() && unchanged(console`persistentArgs)
      ensures console.Dispatched(Widget("infobox", "\n" + text, TextHeight(text, width), width, map[]),
                                 o, (r: Reply) => Returned(r.code))
    {
      var h := CalcHeight(text, width);
      var kw: map<string, Arg> := map[];
      assert kw - {"no_cancel"} == kw;
      var l := Wrapper("infobox", text, h, kw);
      if !l.Returned? {
        return l.Cast();
      }
      return Returned(l.value[0]);
    }

    /** `inputbox`: three rows taller than its text; an empty cancel label
        asks for no Cancel button, which `wrapper` turns into removing
        `--no-cancel`. Returns the reply as a list. */
    method Inputbox(title: string, text: string, init: string := "", okLabel: string := "",
                    cancelLabel: Option<string> := None) returns (o: Outcome<seq<string>>)
      requires Valid()
      modifies console`next, console`shown, console`persistentArgs
      ensures Valid()
      ensures console.persistentArgs ==
        if cancelLabel == Some("") then NoCancelArgs(old(console.persistentArgs), false) else old(console.persistentArgs)
      ensures console.Dispatched(
        Widget("inputbox", "\n" + text, TextHeight(text, width) + 3, width,
               InputboxKwargs(title, init, okLabel, cancelLabel) - {"no_cancel"}),
        o, r => Returned(AsList(r)))
    {
      var h := CalcHeight(text, width);
      h := h + 3;
      o := Wrapper("inputbox", text, h, InputboxKwargs(title, init, okLabel, cancelLabel));
    }

    /** `yesno`: `wrapper` returns a list, which never equals the string
        `'ok'`, so a returned answer is always false. */
    method Yesno(title: string, text: string, yesLabel: string := "", noLabel: string := "")
      returns (o: Outcome<bool>)
      requires Valid()
      modifies console`next, console`shown, console`persistentArgs
      ensures Valid() && unchanged(console`persistentArgs)
      ensures console.Dispatched(
        Widget("yesno", "\n" + text, TextHeight(text, width), width, YesnoKwargs(title, yesLabel, noLabel)),
        o, r => Returned(false))
      ensures o.Returned? ==> !o.value
    {
      var h := CalcHeight(text, width);
      var kw := YesnoKwargs(title, yesLabel, noLabel);
      assert kw - {"no_cancel"} == kw;
      var retcode := Wrapper("yesno", text, h, kw);
      if !retcode.Returned? {
        return retcode.Cast();
      }
      return Returned(false);
    }

    /** `menu`: the dialog's own height; `retcode, choice = ...` needs a
        two-element result, so a bare exit code raises `ValueError`. */
    method Menu(title: string, text: string, choices: seq<(string, string)>, noCancel: bool := false)
      returns (o: Outcome<string>)
      requires Valid()
      modifies console`next, console`shown, console`persistentArgs
      ensures Valid()
      ensures console.persistentArgs ==
        if noCancel then NoCancelArgs(old(console.persistentArgs), false) else old(console.persistentArgs)
      ensures console.Dispatched(
        Widget("menu", "\n" + text, height, width, MenuKwargs(title, choices, noCancel) - {"no_cancel"}),
        o, r => Unpack(AsList(r)))
    {
      var l := Wrapper("menu", text, height, MenuKwargs(title, choices, noCancel));
      if !l.Returned? {
        return l.Cast();
      }
      return Unpack(l.value);
    }

    /** The password box of `ask` inside `get_password`: widget `passwbox`
        with the literal text `text\nreq_string`. */
    function AskBox(title: string, h: int): (w: Shown)
      ensures w.Widget? && w.name == "passwbox" && w.text == "\n" + AskText
    {
      Widget("passwbox", "\n" + AskText, h, width, AskKwargs(title) - {"no_cancel"})
    }

    /** The loop of `get_password` as written, as data: no confirmation is
        ever asked for, since no entry gets that far. */
    function PasswordPrompt(title: string, h: int, passLen: int): (p: Prompt)
      requires width != 0
      ensures p.WellFormed() && p.confirm.None? && p.check == PasswordCheck(passLen)
    {
      Prompt(AskBox(title, h), Second, PasswordCheck(passLen), None, width, console.supported)
    }

    /** The loop `get_password` runs once it has settled its defaults and
        sized the prompt for the text followed by the requirements. */
    function SettledPrompt(title: string, text: string, passLen: int, minComplexity: int,
                           complexityLenLmt: Option<int>, forceCracklib: bool, blacklist: seq<string>): (p: Prompt)
      requires width != 0
      ensures p.WellFormed() && p.check == PasswordCheck(PasswordSettings(passLen, minComplexity, complexityLenLmt).0)
    {
      var s := PasswordSettings(passLen, minComplexity, complexityLenLmt);
      PasswordPrompt(title, PromptRows(text, s.0, s.1, s.2, blacklist, forceCracklib), s.0)
    }

    /** The input box of `get_email` and `get_input`:
        `inputbox(title, text, init, "Apply", "")`, whose empty cancel label
        `wrapper` turns into removing `--no-cancel`. */
    function EntryBox(title: string, text: string, init: string): Shown
      requires width != 0
    {
      Widget("inputbox", "\n" + text, TextHeight(text, width) + 3, width,
             InputboxKwargs(title, init, "Apply", Some("")) - {"no_cancel"})
    }

    /** The loop of `get_email` or `get_input`, with its checks, as data. */
    function EntryPrompt(title: string, text: string, init: string, check: string -> Verdict): (p: Prompt)
      requires width != 0
      ensures p.WellFormed() && p.confirm.None? && p.check == check
    {
      Prompt(EntryBox(title, text, init), Second, check, None, width, console.supported)
    }

    /** The yes/no box of an unforced cracklib failure. */
    function QueryBox(complaint: string): (w: Shown)
      requires width != 0
      ensures w.Widget? && w.name == "yesno"
    {
      Widget("yesno", "\n" + CracklibQuestion(complaint), TextHeight(CracklibQuestion(complaint), width), width,
             YesnoKwargs("Cracklib failure", "New Password", "Use pass anyway"))
    }

    /** The complexity check: behind the gate, a score below the minimum
        shows the message the minimum chooses (none above 4); the caller
        goes on unless that box fails. */
    function ComplexityRound(passw: string, limit: int, minComplexity: int, rs: seq<Reply>): (r: Round<string>)
      requires width != 0
      ensures r.Continued? ==> r.used <= |rs|
      ensures r.Ended? ==> r.run.used <= |rs| && !r.run.outcome.Returned?
      ensures !ComplexityGate(limit, |passw|) || Complexity(passw) >= minComplexity || minComplexity > 4 ==>
        r == Continued(0, [])
    {
      if ComplexityGate(limit, |passw|) && Complexity(passw) < minComplexity then
        RejectRound(ComplexityMessage(minComplexity), width, console.supported, rs)
      else Continued(0, [])
    }

    /** Cracklib's verdict on a password, when cracklib is present and has
        a complaint: a forced check shows it as an error, an unforced one
        asks the yes/no question; either answer is ignored, so the caller
        goes on unless that box fails. */
    function CracklibRound(passw: string, forceCracklib: bool, cracklib: Option<string -> Option<string>>,
                           rs: seq<Reply>): (r: Round<string>)
      requires width != 0
      ensures r.Continued? ==> r.used <= |rs|
      ensures r.Ended? ==> r.run.used <= |rs| && !r.run.outcome.Returned?
      ensures cracklib.None? || cracklib.value(passw).None? || cracklib.value(passw).value == "" ==>
        r == Continued(0, [])
    {
      if cracklib.None? || cracklib.value(passw).None? || cracklib.value(passw).value == "" then Continued(0, [])
      else if forceCracklib then
        ComplainRound("Password doesn't pass cracklib test: " + cracklib.value(passw).value, width,
                      console.supported, rs)
      else NoticeRound(QueryBox(cracklib.value(passw).value), console.supported, rs)
    }

    /** The steps after the complexity check: a blacklisted item shows its
        error and restarts; otherwise cracklib, then the confirmation,
        which hands the password back when it matches. */
    function FinalRound(title: string, h: int, passw: string, blacklist: seq<string>, forceCracklib: bool,
                        cracklib: Option<string -> Option<string>>, rs: seq<Reply>): (r: Round<string>)
      requires width != 0
      ensures r.Continued? ==> r.used <= |rs|
      ensures r.Ended? ==> r.run.used <= |rs|
      ensures r.Ended? && r.run.outcome.Returned? ==>
        r.run.outcome.value == passw && Found(blacklist, passw) == []
    {
      if Found(blacklist, passw) != [] then
        ComplainRound(BlacklistMessage(blacklist, Found(blacklist, passw)), width, console.supported, rs)
      else
        match CracklibRound(passw, forceCracklib, cracklib, rs)
        case Ended(run) => Ended(run)
        case Continued(n, pre) =>
          Shift(ConfirmRound(AskBox(title, h), Second, passw, width, console.supported, rs[n..]), n, pre)
    }

    /** `ask` inside `get_password`: `[1]` of the list `wrapper` returns
        for the password box; the `no_cancel` keyword removes
        `--no-cancel`. */
    method Ask(title: string, h: int) returns (o: Outcome<string>)
      requires Valid()
      modifies console`next, console`shown, console`persistentArgs
      ensures Valid() && old(console.next) <= console.next
      ensures console.persistentArgs == NoCancelArgs(old(console.persistentArgs), false)
      ensures console.Dispatched(AskBox(title, h), o, Second)
      ensures o.Returned? ==>
        old(console.next) < console.next && Second(console.replies[console.next - 1]) == o
      ensures o.Raised? ==> o.error in {NotSupported("passwbox"), IndexError}
    {
      RetryRunShape(AskBox(title, h), console.replies[console.next..]);
      var l := Wrapper("passwbox", AskText, h, AskKwargs(title));
      if !l.Returned? {
        return l.Cast();
      }
      return At(l.value, 1);
    }

    /** `self.error(text)` inside a loop that ignores its result: the loop
        goes on exactly when the message box returns. */
    method Complain(text: string) returns (stop: Outcome<string>, goOn: bool)
      requires Valid()
      modifies console`next, console`shown, console`persistentArgs
      ensures Valid() && old(console.next) <= console.next && unchanged(console`persistentArgs)
      ensures console.Stepped(ComplainRound(text, width, console.supported, console.replies[old(console.next)..]),
                              goOn, stop)
      ensures goOn ==> stop == Exhausted
      ensures !goOn ==> !stop.Returned? && (stop.Raised? ==> stop.error == NotSupported("msgbox"))
    {
      var e := Error(text);
      goOn := e.Returned?;
      stop := if goOn then Exhausted else e.Cast();
    }

    /** `get_password`: settles the defaults, builds the requirements,
        raises before any prompt when cracklib is forced but missing, and
        then runs its loop with the prompt height the requirements need. */
    method GetPassword(title: string, text: string, passLen: int := 0, minComplexity: int := 0,
                       complexityLenLmt: Option<int> := None, forceCracklib: bool := false,
                       blacklist: seq<string> := [], cracklib: Option<string -> Option<string>> := None)
      returns (o: Outcome<string>)
      requires Valid()
      modifies console`next, console`shown, console`persistentArgs
      ensures Valid()
      ensures forceCracklib && cracklib.None? ==>
        o == Raised(CracklibMissing) && unchanged(console`next, console`shown, console`persistentArgs)
      ensures !(forceCracklib && cracklib.None?) ==>
        console.Follows(EntryRun(SettledPrompt(title, text, passLen, minComplexity, complexityLenLmt, forceCracklib,
                                               blacklist), console.replies[old(console.next)..]), o)
      ensures !o.Returned?
      ensures o.Raised? ==> o.error in {CracklibMissing, NotSupported("passwbox"), NotSupported("msgbox"), IndexError}
      ensures Without(console.persistentArgs, NoCancelFlag) == Without(old(console.persistentArgs), NoCancelFlag)
    {
      var settings := PasswordSettings(passLen, minComplexity, complexityLenLmt);
      var passReq, minScore, limit := settings.0, settings.1, settings.2;
      if forceCracklib && cracklib.None? {
        return Raised(CracklibMissing);
      }
      o := SizedPasswordLoop(title, text, passReq, minScore, limit, blacklist, forceCracklib);
    }

    /** The rest of `get_password` once the settings are known: the prompt
        is sized for the text followed by the requirements, then the loop
        runs. */
    method SizedPasswordLoop(title: string, text: string, passLen: int, minComplexity: int, limit: int,
                             blacklist: seq<string>, cracklibLine: bool) returns (o: Outcome<string>)
      requires Valid()
      modifies console`next, console`shown, console`persistentArgs
      ensures Valid()
      ensures console.Follows(EntryRun(PasswordPrompt(title, PromptRows(text, passLen, minComplexity, limit, blacklist,
                                                                        cracklibLine), passLen),
                                       console.replies[old(console.next)..]), o)
      ensures !o.Returned?
      ensures o.Raised? ==> o.error in {NotSupported("passwbox"), NotSupported("msgbox"), IndexError}
      ensures Without(console.persistentArgs, NoCancelFlag) == Without(old(console.persistentArgs), NoCancelFlag)
    {
      var h := PromptHeight(text, passLen, minComplexity, limit, blacklist, cracklibLine);
      o := PasswordLoop(title, h, passLen);
    }

    /** The height of the password prompt: three rows more than the
        caller's text followed by the requirements needs. */
    function PromptRows(text: string, passLen: int, minComplexity: int, limit: int, blacklist: seq<string>,
                        cracklibLine: bool): int
      requires width != 0
    {
      TextHeight(text + RequirementsText(passLen, minComplexity, limit, blacklist, cracklibLine), width) + 3
    }

    /** `_calc_height(text + req_string) + 3` */
    method PromptHeight(text: string, passLen: int, minComplexity: int, limit: int, blacklist: seq<string>,
                        cracklibLine: bool) returns (h: int)
      requires width != 0
      ensures h == PromptRows(text, passLen, minComplexity, limit, blacklist, cracklibLine)
    {
      var reqString := RequirementsText(passLen, minComplexity, limit, blacklist, cracklibLine);
      h := CalcHeight(text + reqString, width);
      h := h + 3;
    }

    /** One pass of the `while 1` loop of `get_password` as written: ask,
        then the empty and the length checks, each showing its error; the
        `continue` after the length check runs whatever the length. */
    method PasswordPass(title: string, h: int, passLen: int) returns (goOn: bool, o: Outcome<string>)
      requires Valid()
      modifies console`next, console`shown, console`persistentArgs
      ensures Valid()
      ensures console.Stepped(EntryRound(PasswordPrompt(title, h, passLen), console.replies[old(console.next)..]),
                              goOn, o)
      ensures console.persistentArgs == NoCancelArgs(old(console.persistentArgs), false)
    {
      ghost var p := PasswordPrompt(title, h, passLen);
      ghost var rs := console.replies[console.next..];
      ghost var a := DispatchRun(p.ask, p.supported, rs, p.get);
      var passw := Ask(title, h);
      if !passw.Returned? {
        return false, passw;
      }
      assert console.replies[console.next..] == rs[a.used..];
      ghost var shownBefore := console.shown;
      if passw.value == "" {
        o, goOn := Complain("Please enter non-empty passw!");
      } else if |passw.value| < passLen {
        o, goOn := Complain("Password must be at least " + IntToString(passLen) + " characters.");
      } else {
        o, goOn := Exhausted, true;
      }
      AppendAssoc(old(console.shown), a.shown, console.shown[|shownBefore|..]);
    }

    /** The `while 1` loop of `get_password` as written. It goes on exactly
        as `EntryRun` reads the remaining replies, so it never hands a
        password back and, left to a user who answers, runs until the
        script is used up. */
    method PasswordLoop(title: string, h: int, passLen: int) returns (o: Outcome<string>)
      requires Valid()
      modifies console`next, console`shown, console`persistentArgs
      ensures Valid()
      ensures console.Follows(EntryRun(PasswordPrompt(title, h, passLen), console.replies[old(console.next)..]), o)
      ensures !o.Returned?
      ensures o.Exhausted? ==> console.next == |console.replies|
      ensures o.Raised? ==> o.error in {NotSupported("passwbox"), NotSupported("msgbox"), IndexError}
      ensures Without(console.persistentArgs, NoCancelFlag) == Without(old(console.persistentArgs), NoCancelFlag)
    {
      ghost var p := PasswordPrompt(title, h, passLen);
      ghost var start := console.next;
      ghost var before := console.shown;
      ghost var all := console.replies[start..];
      ghost var pre: seq<Shown> := [];
      NeverAccepted(p, passLen, all);
      EntryRunEnds(p, console.replies, start, {IndexError});
      while true
        invariant Valid() && start <= console.next
        invariant console.shown == before + pre
        invariant EntryRun(p, all) == Extend(EntryRun(p, console.replies[console.next..]), console.next - start, pre)
        invariant Without(console.persistentArgs, NoCancelFlag) == Without(old(console.persistentArgs), NoCancelFlag)
        decreases |console.replies| - console.next
      {
        ghost var rs := console.replies[console.next..];
        ghost var n := console.next - start;
        ghost var args := console.persistentArgs;
        var goOn;
        goOn, o := PasswordPass(title, h, passLen);
        NoCancelKeepsOthers(args, false);
        ghost var r := EntryRound(p, rs);
        if !goOn {
          AppendAssoc(before, pre, r.run.shown);
          return;
        }
        assert console.replies[console.next..] == rs[r.used..];
        EntryRunContinues(p, all, rs, n, pre);
        AppendAssoc(before, pre, r.shown);
        pre := pre + r.shown;
      }
    }

    /** The complexity check of `get_password`, which the loop as written
        never reaches: behind the gate, a score below the minimum shows the
        message chosen by the minimum (none for a minimum above 4), and the
        `continue` that follows runs whatever the score. `restart` exactly
        when the gate is open. */
    method ComplexityStep(passw: string, limit: int, minComplexity: int)
      returns (stop: Outcome<string>, goOn: bool, restart: bool)
      requires Valid()
      modifies console`next, console`shown, console`persistentArgs
      ensures Valid() && unchanged(console`persistentArgs)
      ensures console.Stepped(ComplexityRound(passw, limit, minComplexity, console.replies[old(console.next)..]),
                              goOn, stop)
      ensures goOn ==> (restart <==> ComplexityGate(limit, |passw|))
    {
      stop, goOn, restart := Exhausted, true, false;
      if ComplexityGate(limit, |passw|) {
        if Complexity(passw) < minComplexity {
          if minComplexity <= 3 {
            stop, goOn := Complain(WeakMixCaseNumber);
          } else if minComplexity == 4 {
            stop, goOn := Complain(WeakMixCaseNumberSymbol);
          } else {
            assert console.shown == old(console.shown) + [];
          }
        } else {
          assert console.shown == old(console.shown) + [];
        }
        restart := true;
      } else {
        assert console.shown == old(console.shown) + [];
      }
    }

    /** The steps of `get_password` after the complexity check, which the
        loop as written never reaches: the blacklist (an error and a
        restart when an item occurs), cracklib, then the confirmation
        prompt. A password comes back only when it is free of blacklisted
        items and the confirmation entry equals it. */
    method FinalSteps(title: string, h: int, passw: string, blacklist: seq<string>, forceCracklib: bool,
                      cracklib: Option<string -> Option<string>>)
      returns (stop: Outcome<string>, goOn: bool)
      requires Valid()
      modifies console`next, console`shown, console`persistentArgs
      ensures Valid()
      ensures console.Stepped(FinalRound(title, h, passw, blacklist, forceCracklib, cracklib,
                                         console.replies[old(console.next)..]), goOn, stop)
      ensures Found(blacklist, passw) != [] ==> unchanged(console`persistentArgs)
      ensures Without(console.persistentArgs, NoCancelFlag) == Without(old(console.persistentArgs), NoCancelFlag)
      ensures stop.Returned? ==> !goOn && stop.value == passw && Found(blacklist, passw) == []
    {
      var found := CollectFound(blacklist, passw);
      if found != [] {
        stop, goOn := Complain(BlacklistMessage(blacklist, found));
        return;
      }
      ghost var rs := console.replies[console.next..];
      ghost var c := CracklibRound(passw, forceCracklib, cracklib, rs);
      stop, goOn := CracklibStep(passw, forceCracklib, cracklib);
      if !goOn {
        return;
      }
      assert console.replies[console.next..] == rs[c.used..];
      ghost var shownBefore := console.shown;
      ghost var args := console.persistentArgs;
      stop, goOn := ConfirmStep(title, h, passw);
      NoCancelKeepsOthers(args, false);
      AppendAssoc(old(console.shown), c.shown, console.shown[|shownBefore|..]);
    }

    /** Cracklib's verdict on a password, when cracklib is present. */
    method CracklibStep(passw: string, forceCracklib: bool, cracklib: Option<string -> Option<string>>)
      returns (stop: Outcome<string>, goOn: bool)
      requires Valid()
      modifies console`next, console`shown, console`persistentArgs
      ensures Valid() && unchanged(console`persistentArgs)
      ensures console.Stepped(CracklibRound(passw, forceCracklib, cracklib, console.replies[old(console.next)..]),
                              goOn, stop)
      ensures goOn ==> stop == Exhausted
    {
      stop, goOn := Exhausted, true;
      if cracklib.Some? {
        var check := cracklib.value(passw);
        if check.Some? && check.value != "" {
          if forceCracklib {
            stop, goOn := Complain("Password doesn't pass cracklib test: " + check.value);
          } else {
            stop, goOn := CracklibQuery(check.value);
          }
          return;
        }
      }
      assert console.shown == old(console.shown) + [];
    }

    /** The unforced cracklib failure: asks whether to set a new password
        and, as written, throws the answer away, so the caller goes on
        exactly when the yes/no box returns. */
    method CracklibQuery(complaint: string) returns (stop: Outcome<string>, goOn: bool)
      requires Valid()
      modifies console`next, console`shown, console`persistentArgs
      ensures Valid() && unchanged(console`persistentArgs)
      ensures console.Stepped(NoticeRound(QueryBox(complaint), console.supported, console.replies[old(console.next)..]),
                              goOn, stop)
      ensures goOn ==> stop == Exhausted
    {
      var restart := Yesno("Cracklib failure", CracklibQuestion(complaint), "New Password", "Use pass anyway");
      goOn := restart.Returned?;
      stop := if goOn then Exhausted else restart.Cast();
    }

    /** `if passw == ask(title, 'Confirm password')`: the password comes
        back when the confirmation entry equals it; a mismatch shows an
        error and restarts. */
    method ConfirmStep(title: string, h: int, passw: string) returns (stop: Outcome<string>, goOn: bool)
      requires Valid()
      modifies console`next, console`shown, console`persistentArgs
      ensures Valid()
      ensures console.Stepped(ConfirmRound(AskBox(title, h), Second, passw, width, console.supported,
                                           console.replies[old(console.next)..]), goOn, stop)
      ensures console.persistentArgs == NoCancelArgs(old(console.persistentArgs), false)
      ensures stop.Returned? ==>
        !goOn && stop.value == passw
        && old(console.next) < console.next && Second(console.replies[console.next - 1]) == stop
    {
      ghost var rs := console.replies[console.next..];
      ghost var c := DispatchRun(AskBox(title, h), console.supported, rs, Second);
      var confirmation := Ask(title, h);
      if !confirmation.Returned? || passw == confirmation.value {
        return confirmation, false;
      }
      assert console.replies[console.next..] == rs[c.used..];
      ghost var shownBefore := console.shown;
      stop, goOn := Complain(Mismatch);
      AppendAssoc(old(console.shown), c.shown, console.shown[|shownBefore|..]);
    }

    /** `inputbox(title, text, init, "Apply", "")[1]`, the prompt of both
        required-entry loops. */
    method AskEntry(title: string, text: string, init: string) returns (o: Outcome<string>)
      requires Valid()
      modifies console`next, console`shown, console`persistentArgs
      ensures Valid() && old(console.next) <= console.next
      ensures console.persistentArgs == NoCancelArgs(old(console.persistentArgs), false)
      ensures console.Dispatched(EntryBox(title, text, init), o, Second)
    {
      var l := Inputbox(title, text, init, "Apply", Some(""));
      if !l.Returned? {
        return l.Cast();
      }
      return At(l.value, 1);
    }

    /** One pass of the loop of `get_email` or `get_input`: ask, and show
        the error of a rejected entry. */
    method EntryPass(title: string, text: string, init: string, check: string -> Verdict)
      returns (goOn: bool, o: Outcome<string>)
      requires Valid()
      modifies console`next, console`shown, console`persistentArgs
      ensures Valid()
      ensures console.Stepped(EntryRound(EntryPrompt(title, text, init, check), console.replies[old(console.next)..]),
                              goOn, o)
      ensures console.persistentArgs == NoCancelArgs(old(console.persistentArgs), false)
      ensures Without(console.persistentArgs, NoCancelFlag) == Without(old(console.persistentArgs), NoCancelFlag)
    {
      NoCancelKeepsOthers(console.persistentArgs, false);
      ghost var p := EntryPrompt(title, text, init, check);
      ghost var rs := console.replies[console.next..];
      ghost var a := DispatchRun(p.ask, p.supported, rs, p.get);
      var entry := AskEntry(title, text, init);
      if !entry.Returned? {
        return false, entry;
      }
      assert console.replies[console.next..] == rs[a.used..];
      var verdict := check(entry.value);
      if verdict.Accept? {
        assert console.shown == old(console.shown) + (a.shown + []);
        return false, entry;
      }
      if verdict.message.None? {
        assert console.shown == old(console.shown) + (a.shown + []);
        return true, Exhausted;
      }
      ghost var shownBefore := console.shown;
      o, goOn := Complain(verdict.message.value);
      AppendAssoc(old(console.shown), a.shown, console.shown[|shownBefore|..]);
    }

    /** The `while 1` loop of `get_email` and `get_input`: asks until an
        entry passes `check`, exactly as `EntryRun` reads the remaining
        replies. */
    method EntryLoop(title: string, text: string, init: string, check: string -> Verdict) returns (o: Outcome<string>)
      requires Valid()
      modifies console`next, console`shown, console`persistentArgs
      ensures Valid()
      ensures console.Follows(EntryRun(EntryPrompt(title, text, init, check), console.replies[old(console.next)..]), o)
      ensures Without(console.persistentArgs, NoCancelFlag) == Without(old(console.persistentArgs), NoCancelFlag)
    {
      ghost var p := EntryPrompt(title, text, init, check);
      ghost var start := console.next;
      ghost var before := console.shown;
      ghost var all := console.replies[start..];
      ghost var pre: seq<Shown> := [];
      while true
        invariant Valid() && start <= console.next
        invariant console.shown == before + pre
        invariant EntryRun(p, all) == Extend(EntryRun(p, console.replies[console.next..]), console.next - start, pre)
        invariant Without(console.persistentArgs, NoCancelFlag) == Without(old(console.persistentArgs), NoCancelFlag)
        decreases |console.replies| - console.next
      {
        ghost var rs := console.replies[console.next..];
        ghost var n := console.next - start;
        var goOn;
        goOn, o := EntryPass(title, text, init, check);
        ghost var r := EntryRound(p, rs);
        if !goOn {
          AppendAssoc(before, pre, r.run.shown);
          return;
        }
        assert console.replies[console.next..] == rs[r.used..];
        EntryRunContinues(p, all, rs, n, pre);
        AppendAssoc(before, pre, r.shown);
        pre := pre + r.shown;
      }
    }

    /** `get_email`: asks until the entry is non-empty and matches
        `EMAIL_RE`, and returns that entry. */
    method GetEmail(title: string, text: string, init: string := "") returns (o: Outcome<string>)
      requires Valid()
      modifies console`next, console`shown, console`persistentArgs
      ensures Valid()
      ensures console.Follows(EntryRun(EntryPrompt(title, text, init, EmailVerdict),
                                       console.replies[old(console.next)..]), o)
      ensures o.Returned? ==> o.value != "" && EmailMatches(o.value)
      ensures o.Returned? ==>
        old(console.next) < console.next && Second(console.replies[console.next - 1]) == o
      ensures o.Exhausted? ==> console.next == |console.replies|
      ensures o.Raised? ==> o.error in {NotSupported("inputbox"), NotSupported("msgbox"), IndexError}
      ensures Without(console.persistentArgs, NoCancelFlag) == Without(old(console.persistentArgs), NoCancelFlag)
    {
      ghost var all := console.replies[console.next..];
      ghost var p := EntryPrompt(title, text, init, EmailVerdict);
      EntryRunEnds(p, console.replies, console.next, {IndexError});
      o := EntryLoop(title, text, init, EmailVerdict);
    }

    /** `get_input`: asks until the entry is non-empty and returns it. */
    method GetInput(title: string, text: string, init: string := "") returns (o: Outcome<string>)
      requires Valid()
      modifies console`next, console`shown, console`persistentArgs
      ensures Valid()
      ensures console.Follows(EntryRun(EntryPrompt(title, text, init, InputVerdict(title)),
                                       console.replies[old(console.next)..]), o)
      ensures o.Returned? ==> o.value != ""
      ensures o.Returned? ==>
        old(console.next) < console.next && Second(console.replies[console.next - 1]) == o
      ensures o.Exhausted? ==> console.next == |console.replies|
      ensures o.Raised? ==> o.error in {NotSupported("inputbox"), NotSupported("msgbox"), IndexError}
      ensures Without(console.persistentArgs, NoCancelFlag) == Without(old(console.persistentArgs), NoCancelFlag)
    {
      ghost var all := console.replies[console.next..];
      ghost var p := EntryPrompt(title, text, init, InputVerdict(title));
      EntryRunEnds(p, console.replies, console.next, {IndexError});
      o := EntryLoop(title, text, init, InputVerdict(title));
    }
  }

  /** The loop of `get_password` as written never accepts an entry, so it
      never hands one back. */
  lemma NeverAccepted(p: Prompt, passLen: int, rs: seq<Reply>)
    requires p.WellFormed() && p.check == PasswordCheck(passLen)
    ensures !EntryRun(p, rs).outcome.Returned?
  {
    EntryRunAccepts(p, rs);
    var run := EntryRun(p, rs);
    assert run.outcome.Returned? ==> p.check(run.outcome.value) == PasswordVerdict(run.outcome.value, passLen);
  }
}
