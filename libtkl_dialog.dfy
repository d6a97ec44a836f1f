/** The `Dialog` facade of libtkl_dialog/__init__.py over a scripted
    console: configuration, the widget wrapper with its ESC/quit loop, the
    thin widgets and the validated entry loops for passwords, e-mail
    addresses and required input. */
module LibTklDialog {
  import opened Text
  import opened Strength
  import opened Layout
  import opened Email
  import opened Blacklist
  import opened Console
  import opened Prompts

  /** `result[1]` on what this variant's `wrapper` returns: the value of a
      tuple, or the second character of a bare code string. */
  function Second(r: Reply): (o: Outcome<string>)
    ensures r.Pair? ==> o == Returned(r.value)
    ensures o.Raised? ==> o.error == IndexError && r.Code? && |r.code| < 2
    ensures !o.Exited? && !o.Exhausted?
  {
    match r
    case Pair(_, v) => Returned(v)
    case Code(c) => if |c| >= 2 then Returned([c[1]]) else Raised(IndexError)
  }

  /** `retcode, choice = result`: a tuple, or a code string of exactly two
      characters, unpacks into two; anything else raises `ValueError`. */
  function Unpack(r: Reply): (o: Outcome<string>)
    ensures r.Pair? ==> o == Returned(r.value)
    ensures o.Raised? ==> o.error == UnpackError && r.Code? && |r.code| != 2
    ensures !o.Exited? && !o.Exhausted?
  {
    match r
    case Pair(_, v) => Returned(v)
    case Code(c) => if |c| == 2 then Returned([c[1]]) else Raised(UnpackError)
  }

  /** Everything `get_password` checks before it asks for confirmation. */
  predicate Acceptable(password: string, passReq: int, minComplexity: int, blacklist: seq<string>) {
    password != "" && |password| >= passReq && Complexity(password) >= minComplexity
    && Found(blacklist, password) == []
  }

  /** The tests of `get_password` on a first entry, in order: empty,
      length, complexity, blacklist. The first that fails decides the
      message; a complexity failure with a required score above 4 has
      none. */
  function PasswordVerdict(password: string, passReq: int, minComplexity: int, blacklist: seq<string>)
    : (v: Verdict)
    ensures v == Accept <==> Acceptable(password, passReq, minComplexity, blacklist)
    ensures v.Reject? && v.message.None? <==>
      password != "" && |password| >= passReq && Complexity(password) < minComplexity && minComplexity > 4
  {
    if password == "" then Reject(Some("Please enter non-empty password!"))
    else if |password| < passReq then Reject(Some("Password must be at least " + IntToString(passReq) + " characters."))
    else if Complexity(password) < minComplexity then Reject(ComplexityMessage(minComplexity))
    else if Found(blacklist, password) != [] then Reject(Some(BlacklistMessage(blacklist, Found(blacklist, password))))
    else Accept
  }

  /** Every check, applied as the loop applies them. */
  function PasswordCheck(passReq: int, minComplexity: int, blacklist: seq<string>): string -> Verdict {
    password => PasswordVerdict(password, passReq, minComplexity, blacklist)
  }

  /** The complexity message, chosen by the required score: none above 4. */
  function ComplexityMessage(minComplexity: int): (m: Option<string>)
    ensures m.None? <==> minComplexity > 4
    ensures minComplexity <= 3 ==> m == Some(WeakMixCaseNumber)
  {
    if minComplexity <= 3 then Some(WeakMixCaseNumber)
    else if minComplexity == 4 then Some(WeakMixCaseNumberSymbol)
    else None
  }

  /** The requirements appended to both password prompts. */
  function RequirementsText(passReq: int, minComplexity: int, blacklist: seq<string>): string {
    "\n\nPassword Requirements\n - must be at least " + IntToString(passReq)
    + " characters long\n - must contain characters from at least " + IntToString(minComplexity)
    + " of the following categories: uppercase, lowercase, numbers, symbols"
    + (if blacklist != [] then ". Also must NOT contain these characters: " + ListRepr(blacklist) else "")
  }

  /** The requirements name the length and the score, and list the `repr`
      of every blacklisted item. */
  lemma RequirementsMentions(passReq: int, minComplexity: int, blacklist: seq<string>, k: nat)
    requires k < |blacklist|
    ensures IsSubstring(StrRepr(blacklist[k]), RequirementsText(passReq, minComplexity, blacklist))
  {
    var item := StrRepr(blacklist[k]);
    var head := "\n\nPassword Requirements\n - must be at least " + IntToString(passReq)
      + " characters long\n - must contain characters from at least " + IntToString(minComplexity)
      + " of the following categories: uppercase, lowercase, numbers, symbols";
    var also := ". Also must NOT contain these characters: ";
    var list := ListRepr(blacklist);
    ListReprItems(blacklist, k);
    var i :| 0 <= i <= |list| && OccursAt(item, list, i);
    OccursAfter(item, also, list, i);
    OccursAfter(item, head, also + list, |also| + i);
    assert RequirementsText(passReq, minComplexity, blacklist) == head + (also + list);
  }

  const WeakMixCaseNumber: string :=
    "Insecure password! Mix uppercase, lowercase, and at least one number. Multiple words and"
    + " punctuation are highly recommended but not strictly required."
  const WeakMixCaseNumberSymbol: string :=
    "Insecure password! Mix uppercase, lowercase, numbers and at least one special/punctuation"
    + " character. Multiple words are highly recommended but not strictly required."

  class Dialog {
    const width: int
    const height: int
    const console: Console

    ghost predicate Valid()
      reads this, console
    {
      console.Valid() && width != 0
    }

    /** `Dialog(title, width=60, height=20, mouse=False)`; the renderer
        binding it creates is the scripted console given by `replies` and
        `supported`. */
    constructor (replies: seq<Reply>, supported: set<string>, title: string,
                 width: int := 60, height: int := 20, mouse: bool := false)
      requires width != 0
      ensures Valid() && fresh(console)
      ensures this.width == width && this.height == height
      ensures console.replies == replies && console.supported == supported
      ensures console.next == 0 && console.shown == [] && console.backgroundTitle == title
      ensures console.persistentArgs == ["--no-collapse"] + (if mouse then [] else ["--no-mouse"])
    {
      this.width := width;
      this.height := height;
      console := new Console(replies, supported);
      new;
      console.SetBackgroundTitle(title);
      console.AddPersistentArgs(["--no-collapse"]);
      if !mouse {
        console.AddPersistentArgs(["--no-mouse"]);
      }
    }

    /** `wrapper`: looks the widget up, then shows it (text prefixed with a
        line break) until `_handle_exitcode` accepts the reply, which it
        returns as it is. */
    method Wrapper(name: string, text: string, h: int, kwargs: map<string, Arg>) returns (o: Outcome<Reply>)
      requires Valid()
      modifies console`next, console`shown
      ensures Valid()
      ensures console.Ran(Widget(name, "\n" + text, h, width, kwargs), o)
    {
      if name !in console.supported {
        return Raised(NotSupported(name));
      }
      o := console.Retry(Widget(name, "\n" + text, h, width, kwargs));
    }

    /** `error`: a message box titled "Error", as tall as its text needs. */
    method Error(text: string) returns (o: Outcome<Reply>)
      requires Valid()
      modifies console`next, console`shown
      ensures Valid()
      ensures console.Dispatched(ErrorBox(text, width), o, r => Returned(r))
    {
      var h := CalcHeight(text, width);
      o := Wrapper("msgbox", text, h, map["title" := Str("Error")]);
    }

    /** `msgbox` */
    method Msgbox(title: string, text: string) returns (o: Outcome<Reply>)
      requires Valid()
      modifies console`next, console`shown
      ensures Valid()
      ensures console.Dispatched(Widget("msgbox", "\n" + text, TextHeight(text, width), width,
                                        map["title" := Str(title)]), o, r => Returned(r))
    {
      var h := CalcHeight(text, width);
      o := Wrapper("msgbox", text, h, map["title" := Str(title)]);
    }

    /** `infobox` */
    method Infobox(text: string) returns (o: Outcome<Reply>)
      requires Valid()
      modifies console`next, console`shown
      ensures Valid()
      ensures console.Dispatched(Widget("infobox", "\n" + text, TextHeight(text, width), width, map[]),
                                 o, r => Returned(r))
    {
      var h := CalcHeight(text, width);
      o := Wrapper("infobox", text, h, map[]);
    }

    /** `inputbox`: three rows taller than its text, and without a Cancel
        button exactly when the cancel label is empty. */
    method Inputbox(title: string, text: string, init: string := "", okLabel: string := "OK",
                    cancelLabel: string := "Cancel") returns (o: Outcome<Reply>)
      requires Valid()
      modifies console`next, console`shown
      ensures Valid()
      ensures console.Dispatched(
        Widget("inputbox", "\n" + text, TextHeight(text, width) + 3, width,
               map["title" := Str(title), "init" := Str(init), "ok_label" := Str(okLabel),
                   "cancel_label" := Str(cancelLabel), "no_cancel" := Flag(cancelLabel == "")]),
        o, r => Returned(r))
    {
      var h := CalcHeight(text, width);
      h := h + 3;
      var noCancel := cancelLabel == "";
      o := Wrapper("inputbox", text, h,
                   map["title" := Str(title), "init" := Str(init), "ok_label" := Str(okLabel),
                       "cancel_label" := Str(cancelLabel), "no_cancel" := Flag(noCancel)]);
    }

    /** `yesno`: true exactly when the accepted reply is the OK code. */
    method Yesno(title: string, text: string, yesLabel: string := "Yes", noLabel: string := "No")
      returns (o: Outcome<bool>)
      requires Valid()
      modifies console`next, console`shown
      ensures Valid()
      ensures console.Dispatched(
        Widget("yesno", "\n" + text, TextHeight(text, width), width,
               map["title" := Str(title), "yes_label" := Str(yesLabel), "no_label" := Str(noLabel)]),
        o, r => Returned(r == Code(OK)))
    {
      var h := CalcHeight(text, width);
      var retcode := Wrapper("yesno", text, h,
                             map["title" := Str(title), "yes_label" := Str(yesLabel), "no_label" := Str(noLabel)]);
      if !retcode.Returned? {
        return retcode.Cast();
      }
      return Returned(retcode.value == Code(OK));
    }

    /** `menu`: the dialog's own height, a menu one row taller than the
        number of choices, no Cancel button; returns the chosen tag. */
    method Menu(title: string, text: string, choices: seq<(string, string)>) returns (o: Outcome<string>)
      requires Valid()
      modifies console`next, console`shown
      ensures Valid()
      ensures console.Dispatched(
        Widget("menu", "\n" + text, height, width,
               map["menu_height" := Int(|choices| + 1), "title" := Str(title),
                   "choices" := Choices(choices), "no_cancel" := Flag(true)]),
        o, Unpack)
    {
      var retcode := Wrapper("menu", text, height,
                             map["menu_height" := Int(|choices| + 1), "title" := Str(title),
                                 "choices" := Choices(choices), "no_cancel" := Flag(true)]);
      if !retcode.Returned? {
        return retcode.Cast();
      }
      return Unpack(retcode.value);
    }

    /** The masked password box of `ask` inside `get_password`: the text
        followed by the requirements. */
    function PasswordBox(title: string, text: string, reqString: string, h: int): Shown {
      Widget("passwordbox", "\n" + (text + reqString), h, width,
             map["title" := Str(title), "ok_label" := Str("OK"), "no_cancel" := Str("True"),
                 "insecure" := Flag(true)])
    }

    /** The loop of `get_password`, as data. */
    function PasswordPrompt(title: string, text: string, reqString: string, h: int,
                            passReq: int, minComplexity: int, blacklist: seq<string>): (p: Prompt)
      requires width != 0
      ensures p.WellFormed()
    {
      Prompt(PasswordBox(title, text, reqString, h), Second, PasswordCheck(passReq, minComplexity, blacklist),
             Some(PasswordBox(title, "Confirm password", reqString, h)), width, console.supported)
    }

    /** The input box of `get_email` and `get_input`:
        `inputbox(title, text, init, "Apply", "")`. */
    function EntryBox(title: string, text: string, init: string): Shown
      requires width != 0
    {
      Widget("inputbox", "\n" + text, TextHeight(text, width) + 3, width,
             map["title" := Str(title), "init" := Str(init), "ok_label" := Str("Apply"),
                 "cancel_label" := Str(""), "no_cancel" := Flag(true)])
    }

    /** The loop of `get_email` or `get_input`, with its checks, as data. */
    function EntryPrompt(title: string, text: string, init: string, check: string -> Verdict): (p: Prompt)
      requires width != 0
      ensures p.WellFormed() && p.confirm.None?
    {
      Prompt(EntryBox(title, text, init), Second, check, None, width, console.supported)
    }

    /** `ask` inside `get_password`: `[1]` of the password box's reply. */
    method Ask(title: string, text: string, reqString: string, h: int) returns (o: Outcome<string>)
      requires Valid()
      modifies console`next, console`shown
      ensures Valid()
      ensures console.Dispatched(PasswordBox(title, text, reqString, h), o, Second)
    {
      var retcode := Wrapper("passwordbox", text + reqString, h,
                             map["title" := Str(title), "ok_label" := Str("OK"), "no_cancel" := Str("True"),
                                 "insecure" := Flag(true)]);
      if !retcode.Returned? {
        return retcode.Cast();
      }
      return Second(retcode.value);
    }

    /** `self.error(text)` inside a loop that ignores its result: the loop
        goes on exactly when the message box returns. */
    method Complain(text: string) returns (stop: Outcome<string>, goOn: bool)
      requires Valid()
      modifies console`next, console`shown
      ensures Valid()
      ensures console.Stepped(ComplainRound(text, width, console.supported, console.replies[old(console.next)..]),
                              goOn, stop)
    {
      var e := Error(text);
      goOn := e.Returned?;
      stop := if goOn then Exhausted else e.Cast();
    }

    /** The tests of `get_password` on a first entry, each failure showing
        its error: an accepted entry shows nothing, a rejected one shows
        the message of the first check that fails (if it has one). */
    method CheckEntry(p: string, passReq: int, minComplexity: int, blacklist: seq<string>)
      returns (stop: Outcome<string>, goOn: bool, accepted: bool)
      requires Valid()
      modifies console`next, console`shown
      ensures Valid()
      ensures accepted <==> Acceptable(p, passReq, minComplexity, blacklist)
      ensures accepted ==> goOn && console.next == old(console.next) && console.shown == old(console.shown)
      ensures !accepted ==>
        console.Stepped(RejectRound(PasswordVerdict(p, passReq, minComplexity, blacklist).message, width,
                                    console.supported, console.replies[old(console.next)..]), goOn, stop)
    {
      accepted, stop, goOn := false, Exhausted, true;
      if p == "" {
        stop, goOn := Complain("Please enter non-empty password!");
        return;
      }

      if |p| < passReq {
        stop, goOn := Complain("Password must be at least " + IntToString(passReq) + " characters.");
        return;
      }

      if Complexity(p) < minComplexity {
        if minComplexity <= 3 {
          stop, goOn := Complain(WeakMixCaseNumber);
        } else if minComplexity == 4 {
          stop, goOn := Complain(WeakMixCaseNumberSymbol);
        } else {
          assert console.shown == old(console.shown) + [];
        }
        return;
      }

      var found := CollectFound(blacklist, p);
      if found != [] {
        stop, goOn := Complain(BlacklistMessage(blacklist, found));
        return;
      }
      accepted := true;
    }

    /** The confirmation of `get_password`: asks again; the password comes
        back when the second entry equals it, and a mismatch shows its
        error. */
    method Confirm(title: string, reqString: string, h: int, p: string) returns (stop: Outcome<string>, goOn: bool)
      requires Valid()
      modifies console`next, console`shown
      ensures Valid()
      ensures console.Stepped(ConfirmRound(PasswordBox(title, "Confirm password", reqString, h), Second, p, width,
                                           console.supported, console.replies[old(console.next)..]), goOn, stop)
    {
      ghost var rs := console.replies[console.next..];
      ghost var c := DispatchRun(PasswordBox(title, "Confirm password", reqString, h), console.supported, rs, Second);
      var confirmation := Ask(title, "Confirm password", reqString, h);
      if !confirmation.Returned? || p == confirmation.value {
        return confirmation, false;
      }
      assert console.replies[console.next..] == rs[c.used..];
      ghost var shownBefore := console.shown;
      stop, goOn := Complain(Mismatch);
      AppendAssoc(old(console.shown), c.shown, console.shown[|shownBefore|..]);
    }

    /** One pass of the `while 1` loop of `get_password`. */
    method PasswordPass(title: string, text: string, reqString: string, h: int,
                        passReq: int, minComplexity: int, blacklist: seq<string>) returns (goOn: bool, o: Outcome<string>)
      requires Valid()
      modifies console`next, console`shown
      ensures Valid()
      ensures console.Stepped(EntryRound(PasswordPrompt(title, text, reqString, h, passReq, minComplexity, blacklist),
                                         console.replies[old(console.next)..]), goOn, o)
    {
      ghost var p := PasswordPrompt(title, text, reqString, h, passReq, minComplexity, blacklist);
      ghost var rs := console.replies[console.next..];
      ghost var a := DispatchRun(p.ask, p.supported, rs, p.get);
      var password := Ask(title, text, reqString, h);
      if !password.Returned? {
        return false, password;
      }
      assert console.replies[console.next..] == rs[a.used..];
      ghost var shownBefore := console.shown;
      var accepted;
      o, goOn, accepted := CheckEntry(password.value, passReq, minComplexity, blacklist);
      if accepted {
        o, goOn := Confirm(title, reqString, h, password.value);
      }
      AppendAssoc(old(console.shown), a.shown, console.shown[|shownBefore|..]);
    }

    /** `get_password` with an integer length requirement: the loop with
        the requirements text and the prompt height it computes first. */
    method GetPassword(title: string, text: string, passReq: int := 8, minComplexity: int := 3,
                       blacklist: seq<string> := []) returns (o: Outcome<string>)
      requires Valid()
      modifies console`next, console`shown
      ensures Valid()
      ensures var reqString := RequirementsText(passReq, minComplexity, blacklist);
        console.Follows(EntryRun(PasswordPrompt(title, text, reqString, TextHeight(text + reqString, width) + 3,
                                                passReq, minComplexity, blacklist),
                                 console.replies[old(console.next)..]), o)
      ensures o.Returned? ==> Acceptable(o.value, passReq, minComplexity, blacklist)
    {
      var reqString := RequirementsText(passReq, minComplexity, blacklist);
      var h := CalcHeight(text + reqString, width);
      h := h + 3;
      o := PasswordLoop(title, text, reqString, h, passReq, minComplexity, blacklist);
    }

    /** The `while 1` loop of `get_password`, with the requirements text
        and the widget height already computed. It goes on exactly as
        `EntryRun` reads the remaining replies: a returned password passed
        every check and was confirmed by the last reply read, and running
        out means every reply was read. */
    method PasswordLoop(title: string, text: string, reqString: string, h: int,
                        passReq: int, minComplexity: int, blacklist: seq<string>) returns (o: Outcome<string>)
      requires Valid()
      modifies console`next, console`shown
      ensures Valid()
      ensures console.Follows(EntryRun(PasswordPrompt(title, text, reqString, h, passReq, minComplexity, blacklist),
                                       console.replies[old(console.next)..]), o)
      ensures o.Returned? ==> Acceptable(o.value, passReq, minComplexity, blacklist)
      ensures o.Returned? ==>
        old(console.next) < console.next && Second(console.replies[console.next - 1]) == o
      ensures o.Exhausted? ==> console.next == |console.replies|
      ensures o.Raised? ==> o.error in {NotSupported("passwordbox"), NotSupported("msgbox"), IndexError}
    {
      ghost var p := PasswordPrompt(title, text, reqString, h, passReq, minComplexity, blacklist);
      EntryRunEnds(p, console.replies, console.next, {IndexError});
      o := PasswordRounds(title, text, reqString, h, passReq, minComplexity, blacklist);
    }

    /** The loop itself: one `PasswordPass` per round until a round ends
        the run. */
    method PasswordRounds(title: string, text: string, reqString: string, h: int,
                          passReq: int, minComplexity: int, blacklist: seq<string>) returns (o: Outcome<string>)
      requires Valid()
      modifies console`next, console`shown
      ensures Valid()
      ensures console.Follows(EntryRun(PasswordPrompt(title, text, reqString, h, passReq, minComplexity, blacklist),
                                       console.replies[old(console.next)..]), o)
    {
      ghost var p := PasswordPrompt(title, text, reqString, h, passReq, minComplexity, blacklist);
      ghost var start := console.next;
      ghost var before := console.shown;
      ghost var all := console.replies[start..];
      ghost var pre: seq<Shown> := [];
      while true
        invariant Valid() && start <= console.next
        invariant console.shown == before + pre
        invariant EntryRun(p, all) == Extend(EntryRun(p, console.replies[console.next..]), console.next - start, pre)
        decreases |console.replies| - console.next
      {
        ghost var rs := console.replies[console.next..];
        ghost var n := console.next - start;
        var goOn;
        goOn, o := PasswordPass(title, text, reqString, h, passReq, minComplexity, blacklist);
        ghost var r := EntryRound(p, rs);
        if !goOn {
          AppendAssoc(before, pre, r.run.shown);
          return;
        }
        assert console.replies[console.next..] == rs[r.used..];
        EntryRunContinues(p, all, rs, n, pre);
        AppendAssoc(before, pre, r.shown);
        pre := pre + r.shown;
      }
    }

    /** `inputbox(title, text, init, "Apply", "")[1]`, the prompt of both
        required-entry loops. */
    method AskEntry(title: string, text: string, init: string) returns (o: Outcome<string>)
      requires Valid()
      modifies console`next, console`shown
      ensures Valid()
      ensures console.Dispatched(EntryBox(title, text, init), o, Second)
    {
      var retcode := Inputbox(title, text, init, "Apply", "");
      if !retcode.Returned? {
        return retcode.Cast();
      }
      return Second(retcode.value);
    }

    /** One pass of the loop of `get_email` or `get_input`: ask, and show
        the error of a rejected entry. */
    method EntryPass(title: string, text: string, init: string, check: string -> Verdict)
      returns (goOn: bool, o: Outcome<string>)
      requires Valid()
      modifies console`next, console`shown
      ensures Valid()
      ensures console.Stepped(EntryRound(EntryPrompt(title, text, init, check), console.replies[old(console.next)..]),
                              goOn, o)
    {
      ghost var p := EntryPrompt(title, text, init, check);
      ghost var rs := console.replies[console.next..];
      ghost var a := DispatchRun(p.ask, p.supported, rs, p.get);
      var entry := AskEntry(title, text, init);
      if !entry.Returned? {
        return false, entry;
      }
      assert console.replies[console.next..] == rs[a.used..];
      var verdict := check(entry.value);
      if verdict.Accept? {
        assert console.shown == old(console.shown) + (a.shown + []);
        return false, entry;
      }
      if verdict.message.None? {
        assert console.shown == old(console.shown) + (a.shown + []);
        return true, Exhausted;
      }
      ghost var shownBefore := console.shown;
      o, goOn := Complain(verdict.message.value);
      AppendAssoc(old(console.shown), a.shown, console.shown[|shownBefore|..]);
    }

    /** The `while 1` loop of `get_email` and `get_input`: asks until an
        entry passes `check`, exactly as `EntryRun` reads the remaining
        replies. */
    method EntryLoop(title: string, text: string, init: string, check: string -> Verdict) returns (o: Outcome<string>)
      requires Valid()
      modifies console`next, console`shown
      ensures Valid()
      ensures console.Follows(EntryRun(EntryPrompt(title, text, init, check), console.replies[old(console.next)..]), o)
    {
      ghost var p := EntryPrompt(title, text, init, check);
      ghost var start := console.next;
      ghost var before := console.shown;
      ghost var all := console.replies[start..];
      ghost var pre: seq<Shown> := [];
      while true
        invariant Valid() && start <= console.next
        invariant console.shown == before + pre
        invariant EntryRun(p, all) == Extend(EntryRun(p, console.replies[console.next..]), console.next - start, pre)
        decreases |console.replies| - console.next
      {
        ghost var rs := console.replies[console.next..];
        ghost var n := console.next - start;
        var goOn;
        goOn, o := EntryPass(title, text, init, check);
        ghost var r := EntryRound(p, rs);
        if !goOn {
          AppendAssoc(before, pre, r.run.shown);
          return;
        }
        assert console.replies[console.next..] == rs[r.used..];
        EntryRunContinues(p, all, rs, n, pre);
        AppendAssoc(before, pre, r.shown);
        pre := pre + r.shown;
      }
    }

    /** `get_email`: asks until the entry is non-empty and matches
        `EMAIL_RE`, and returns that entry. */
    method GetEmail(title: string, text: string, init: string := "") returns (o: Outcome<string>)
      requires Valid()
      modifies console`next, console`shown
      ensures Valid()
      ensures console.Follows(EntryRun(EntryPrompt(title, text, init, EmailVerdict), console.replies[old(console.next)..]), o)
      ensures o.Returned? ==> o.value != "" && EmailMatches(o.value)
      ensures o.Returned? ==>
        old(console.next) < console.next && Second(console.replies[console.next - 1]) == o
      ensures o.Exhausted? ==> console.next == |console.replies|
      ensures o.Raised? ==> o.error in {NotSupported("inputbox"), NotSupported("msgbox"), IndexError}
    {
      ghost var all := console.replies[console.next..];
      ghost var p := EntryPrompt(title, text, init, EmailVerdict);
      EntryRunEnds(p, console.replies, console.next, {IndexError});
      o := EntryLoop(title, text, init, EmailVerdict);
    }

    /** `get_input`: asks until the entry is non-empty and returns it. */
    method GetInput(title: string, text: string, init: string := "") returns (o: Outcome<string>)
      requires Valid()
      modifies console`next, console`shown
      ensures Valid()
      ensures console.Follows(EntryRun(EntryPrompt(title, text, init, InputVerdict(title)),
                                       console.replies[old(console.next)..]), o)
      ensures o.Returned? ==> o.value != ""
      ensures o.Returned? ==>
        old(console.next) < console.next && Second(console.replies[console.next - 1]) == o
      ensures o.Exhausted? ==> console.next == |console.replies|
      ensures o.Raised? ==> o.error in {NotSupported("inputbox"), NotSupported("msgbox"), IndexError}
    {
      ghost var all := console.replies[console.next..];
      ghost var p := EntryPrompt(title, text, init, InputVerdict(title));
      EntryRunEnds(p, console.replies, console.next, {IndexError});
      o := EntryLoop(title, text, init, InputVerdict(title));
    }
  }
}
