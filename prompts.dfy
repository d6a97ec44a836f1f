/** What the entry loops of both facades share: the error box, the verdict
    of every check on one entry, the confirmation prompt, and the reference
    semantics of a whole `while 1` entry loop read off the remaining
    replies. Each loop pass asks once; a rejected entry shows its error
    (when it has one) and the loop starts over with nothing kept; an
    accepted entry is returned, after an identical confirmation where the
    loop asks for one. */
module Prompts {
  import opened Text
  import opened Layout
  import opened Email
  import opened Console

  /** `error(text)` of either facade: a message box titled "Error", as tall
      as its text needs. */
  function ErrorBox(text: string, width: int): (w: Shown)
    requires width != 0
    ensures w.Widget? && w.name == "msgbox" && w.text == "\n" + text
  {
    Widget("msgbox", "\n" + text, TextHeight(text, width), width, map["title" := Str("Error")])
  }

  /** The error both password loops show when the confirmation differs. */
  const Mismatch: string := "Password mismatch, please try again."

  /** A box whose answer the caller ignores: the caller carries on exactly
      when the box returns, and otherwise ends with what ended the box. */
  function NoticeRound<T>(w: Shown, supported: set<string>, rs: seq<Reply>): (r: Round<T>)
    requires w.Widget?
    ensures r.Continued? ==> 0 < r.used <= |rs|
    ensures r.Ended? ==> r.run.used <= |rs| && !r.run.outcome.Returned?
    ensures r.Ended? && r.run.outcome.Raised? ==> r.run.outcome.error == NotSupported(w.name)
  {
    if w.name !in supported then Ended(Run(Raised(NotSupported(w.name)), 0, []))
    else
      var e := RetryRun(w, rs);
      RetryRunShape(w, rs);
      if e.outcome.Returned? then Continued(e.used, e.shown) else Ended(Run(e.outcome.Cast(), e.used, e.shown))
  }

  /** The caller of a notice goes on exactly when the box returned, after
      the replies and widgets of the box's own retry loop; otherwise it
      ends as the box ended. */
  lemma NoticeRoundFollowsBox<T>(w: Shown, supported: set<string>, rs: seq<Reply>)
    requires w.Widget?
    ensures var r: Round<T> := NoticeRound(w, supported, rs); var e := RetryRun(w, rs);
      (r.Continued? <==> w.name in supported && e.outcome.Returned?)
      && (r.Continued? ==> r.used == e.used && r.shown == e.shown)
      && (w.name in supported && r.Ended? ==> r.run == Run(e.outcome.Cast(), e.used, e.shown))
  {
  }

  /** `self.error(text)` in an entry loop, whose result the loop ignores. */
  function ComplainRound<T>(text: string, width: int, supported: set<string>, rs: seq<Reply>): (r: Round<T>)
    requires width != 0
    ensures r.Continued? ==> 0 < r.used <= |rs|
    ensures r.Ended? ==> r.run.used <= |rs| && !r.run.outcome.Returned?
    ensures r.Ended? && r.run.outcome.Raised? ==> r.run.outcome.error == NotSupported("msgbox")
  {
    NoticeRound(ErrorBox(text, width), supported, rs)
  }

  /** The blacklist error of both password loops: the whole blacklist, then
      the items found, each as a Python list. */
  function BlacklistMessage(blacklist: seq<string>, found: seq<string>): string {
    "Password can NOT include these characters: " + ListRepr(blacklist) + ". Found " + ListRepr(found)
  }

  /** What the entry loop makes of one entry: accept it, or reject it and show
      the message, if there is one, before the loop starts over. */
  datatype Verdict = Accept | Reject(message: Option<string>)

  /** A rejection: the error, when there is one, then the caller goes on. */
  function RejectRound<T>(message: Option<string>, width: int, supported: set<string>, rs: seq<Reply>)
    : (r: Round<T>)
    requires width != 0
    ensures r.Continued? ==> r.used <= |rs|
    ensures r.Ended? ==> r.run.used <= |rs| && !r.run.outcome.Returned?
    ensures message.None? ==> r == Continued(0, [])
  {
    if message.None? then Continued(0, []) else ComplainRound(message.value, width, supported, rs)
  }

  /** `if passw == ask(title, 'Confirm password')`: the entry comes back
      when the confirmation equals it; a mismatch shows its error and the
      loop starts over. */
  function ConfirmRound(confirm: Shown, get: Reply -> Outcome<string>, entry: string, width: int,
                        supported: set<string>, rs: seq<Reply>): (r: Round<string>)
    requires confirm.Widget? && width != 0
    ensures r.Continued? ==> 0 < r.used <= |rs|
    ensures r.Ended? ==> r.run.used <= |rs|
    ensures r.Ended? && r.run.outcome.Returned? ==> r.run.outcome.value == entry
  {
    var c := DispatchRun(confirm, supported, rs, get);
    if !c.outcome.Returned? || c.outcome.value == entry then Ended(c)
    else Shift(ComplainRound(Mismatch, width, supported, rs[c.used..]), c.used, c.shown)
  }

  /** An entry loop as data: the prompt widget and what the loop takes out
      of its reply, every check, the confirmation widget if the loop asks
      for one, the width of the error boxes and the widgets the binding
      has. */
  datatype Prompt = Prompt(ask: Shown, get: Reply -> Outcome<string>, check: string -> Verdict,
                           confirm: Option<Shown>, width: int, supported: set<string>)
  {
    predicate WellFormed() {
      ask.Widget? && (confirm.Some? ==> confirm.value.Widget?) && width != 0
    }
  }

  /** What the loop does with an entry it has read. */
  function AfterEntry(p: Prompt, entry: string, rs: seq<Reply>): (r: Round<string>)
    requires p.WellFormed()
    ensures r.Continued? ==> r.used <= |rs|
    ensures r.Ended? ==> r.run.used <= |rs|
  {
    match p.check(entry)
    case Reject(message) => RejectRound(message, p.width, p.supported, rs)
    case Accept =>
      if p.confirm.None? then Ended(Run(Returned(entry), 0, []))
      else ConfirmRound(p.confirm.value, p.get, entry, p.width, p.supported, rs)
  }

  /** One pass of the loop: ask, then handle the entry. A pass that goes
      on has used at least the prompt's reply. */
  function EntryRound(p: Prompt, rs: seq<Reply>): (r: Round<string>)
    requires p.WellFormed()
    ensures r.Continued? ==> 0 < r.used <= |rs|
    ensures r.Ended? ==> r.run.used <= |rs|
  {
    var a := DispatchRun(p.ask, p.supported, rs, p.get);
    if !a.outcome.Returned? then Ended(a)
    else Shift(AfterEntry(p, a.outcome.value, rs[a.used..]), a.used, a.shown)
  }

  /** The whole `while 1` loop: passes until one ends the call. */
  function EntryRun(p: Prompt, rs: seq<Reply>): (run: Run<string>)
    requires p.WellFormed()
    ensures run.used <= |rs|
    decreases |rs|
  {
    match EntryRound(p, rs)
    case Ended(run) => run
    case Continued(n, pre) => Extend(EntryRun(p, rs[n..]), n, pre)
  }

  /** The loop invariant of every entry loop, one pass further: after a
      pass that goes on, the loop is still the prefix followed by the loop
      on what is left. */
  lemma EntryRunContinues(p: Prompt, all: seq<Reply>, rs: seq<Reply>, n: nat, pre: seq<Shown>)
    requires p.WellFormed() && EntryRound(p, rs).Continued?
    requires EntryRun(p, all) == Extend(EntryRun(p, rs), n, pre)
    ensures var r := EntryRound(p, rs);
      EntryRun(p, all) == Extend(EntryRun(p, rs[r.used..]), n + r.used, pre + r.shown)
  {
    var r := EntryRound(p, rs);
    ExtendTwice(EntryRun(p, rs[r.used..]), r.used, r.shown, n, pre);
  }

  // ----- What an entry loop returns, and how it ends -----

  /** A returned entry passed every check, and it is what the last reply
      the loop read holds (for a confirming loop, the confirmation). */
  lemma {:induction false} EntryRunAccepts(p: Prompt, rs: seq<Reply>)
    requires p.WellFormed()
    ensures var run := EntryRun(p, rs);
      run.outcome.Returned? ==>
        p.check(run.outcome.value) == Accept && 0 < run.used && p.get(rs[run.used - 1]) == run.outcome
    decreases |rs|
  {
    var r := EntryRound(p, rs);
    var a := DispatchRun(p.ask, p.supported, rs, p.get);
    if r.Continued? {
      var rest := rs[r.used..];
      EntryRunAccepts(p, rest);
      var run := EntryRun(p, rest);
      if run.outcome.Returned? {
        assert rest[run.used - 1] == rs[r.used + run.used - 1];
      }
    } else if a.outcome.Returned? {
      var rest := rs[a.used..];
      var after := AfterEntry(p, a.outcome.value, rest);
      if p.check(a.outcome.value).Accept? && p.confirm.Some? {
        var c := DispatchRun(p.confirm.value, p.supported, rest, p.get);
        if c.outcome.Returned? && c.outcome.value == a.outcome.value {
          assert rest[c.used - 1] == rs[a.used + c.used - 1];
        }
      }
    }
  }

  /** The loop runs out of replies only by reading every one of them, as
      long as taking the value out of a reply never does. */
  lemma {:induction false} EntryRunExhausted(p: Prompt, rs: seq<Reply>)
    requires p.WellFormed()
    requires forall r :: !p.get(r).Exhausted?
    ensures var run := EntryRun(p, rs); run.outcome.Exhausted? ==> run.used == |rs|
    decreases |rs|
  {
    var r := EntryRound(p, rs);
    if r.Continued? {
      EntryRunExhausted(p, rs[r.used..]);
    } else {
      EntryRoundExhausted(p, rs);
    }
  }

  lemma EntryRoundExhausted(p: Prompt, rs: seq<Reply>)
    requires p.WellFormed()
    requires forall r :: !p.get(r).Exhausted?
    ensures var r := EntryRound(p, rs); r.Ended? && r.run.outcome.Exhausted? ==> r.run.used == |rs|
  {
    var a := DispatchRun(p.ask, p.supported, rs, p.get);
    DispatchRunExhausted(p.ask, p.supported, rs, p.get);
    if a.outcome.Returned? {
      var rest := rs[a.used..];
      match p.check(a.outcome.value)
      case Reject(message) =>
        if message.Some? {
          ComplainRoundExhausted<string>(message.value, p.width, p.supported, rest);
        }
      case Accept =>
        if p.confirm.Some? {
          var c := DispatchRun(p.confirm.value, p.supported, rest, p.get);
          DispatchRunExhausted(p.confirm.value, p.supported, rest, p.get);
          if c.outcome.Returned? && c.outcome.value != a.outcome.value {
            ComplainRoundExhausted<string>(Mismatch, p.width, p.supported, rest[c.used..]);
          }
        }
    }
  }

  lemma DispatchRunExhausted<T>(w: Shown, supported: set<string>, rs: seq<Reply>, f: Reply -> Outcome<T>)
    requires w.Widget?
    requires forall r :: !f(r).Exhausted?
    ensures var run := DispatchRun(w, supported, rs, f); run.outcome.Exhausted? ==> run.used == |rs|
  {
    RetryRunShape(w, rs);
  }

  lemma ComplainRoundExhausted<T>(text: string, width: int, supported: set<string>, rs: seq<Reply>)
    requires width != 0
    ensures var r: Round<T> := ComplainRound(text, width, supported, rs);
      r.Ended? && r.run.outcome.Exhausted? ==> r.run.used == |rs|
  {
    RetryRunShape(ErrorBox(text, width), rs);
  }

  /** The exceptions a loop can raise: a widget the binding lacks, or
      what taking the value out of a reply raises. */
  lemma {:induction false} EntryRunRaises(p: Prompt, rs: seq<Reply>, errors: set<Error>)
    requires p.WellFormed()
    requires forall r :: p.get(r).Raised? ==> p.get(r).error in errors
    ensures var run := EntryRun(p, rs);
      run.outcome.Raised? ==>
        run.outcome.error in errors || run.outcome.error == NotSupported(p.ask.name)
        || run.outcome.error == NotSupported("msgbox")
        || (p.confirm.Some? && run.outcome.error == NotSupported(p.confirm.value.name))
    decreases |rs|
  {
    var r := EntryRound(p, rs);
    if r.Continued? {
      EntryRunRaises(p, rs[r.used..], errors);
    } else {
      var a := DispatchRun(p.ask, p.supported, rs, p.get);
      RetryRunShape(p.ask, rs);
      if a.outcome.Returned? {
        var rest := rs[a.used..];
        match p.check(a.outcome.value)
        case Reject(message) =>
          if message.Some? {
            RetryRunShape(ErrorBox(message.value, p.width), rest);
          }
        case Accept =>
          if p.confirm.Some? {
            var c := DispatchRun(p.confirm.value, p.supported, rest, p.get);
            RetryRunShape(p.confirm.value, rest);
            if c.outcome.Returned? && c.outcome.value != a.outcome.value {
              RetryRunShape(ErrorBox(Mismatch, p.width), rest[c.used..]);
            }
          }
      }
    }
  }

  /** How a loop that read `EntryRun(p, replies[start..])` ends, in terms
      of the whole script: a returned entry passed every check and came from
      the last reply read; running out means the script is used up; an
      exception is one the reply handling raises or a missing widget. */
  lemma EntryRunEnds(p: Prompt, replies: seq<Reply>, start: nat, errors: set<Error>)
    requires p.WellFormed() && start <= |replies|
    requires forall r :: !p.get(r).Exhausted?
    requires forall r :: p.get(r).Raised? ==> p.get(r).error in errors
    ensures var run := EntryRun(p, replies[start..]); var next := start + run.used;
      next <= |replies|
      && (run.outcome.Returned? ==>
            p.check(run.outcome.value) == Accept && start < next && p.get(replies[next - 1]) == run.outcome)
      && (run.outcome.Exhausted? ==> next == |replies|)
      && (run.outcome.Raised? ==>
            run.outcome.error in errors || run.outcome.error == NotSupported(p.ask.name)
            || run.outcome.error == NotSupported("msgbox")
            || (p.confirm.Some? && run.outcome.error == NotSupported(p.confirm.value.name)))
  {
    var rs := replies[start..];
    EntryRunAccepts(p, rs);
    EntryRunExhausted(p, rs);
    EntryRunRaises(p, rs, errors);
    var run := EntryRun(p, rs);
    if run.outcome.Returned? {
      assert rs[run.used - 1] == replies[start + run.used - 1];
    }
  }

  // ----- A cooperative user -----

  /** The binding has every widget the loop shows, and a tuple reply
      yields its value. */
  ghost predicate Cooperative(p: Prompt) {
    p.WellFormed() && p.ask.name in p.supported && "msgbox" in p.supported
    && (p.confirm.Some? ==> p.confirm.value.name in p.supported)
    && forall code: string, value: string :: p.get(Pair(code, value)) == Returned(value)
  }

  /** An attempt that the loop accepts: the entry passes every check and,
      where the loop confirms, the confirmation is the same. */
  predicate Good(p: Prompt, attempt: (string, string)) {
    p.check(attempt.0) == Accept && (p.confirm.None? || attempt.1 == attempt.0)
  }

  /** The replies of a user who types `attempt.0` (and `attempt.1` when
      asked to confirm), never presses ESC and acknowledges every error
      box with OK. */
  function Typed(p: Prompt, attempt: (string, string)): seq<Reply> {
    [Pair(OK, attempt.0)]
    + match p.check(attempt.0)
      case Reject(message) => if message.Some? then [Code(OK)] else []
      case Accept =>
        if p.confirm.None? then [] else [Pair(OK, attempt.1)] + (if attempt.1 != attempt.0 then [Code(OK)] else [])
  }

  /** The replies of that user over several attempts. */
  function Script(p: Prompt, attempts: seq<(string, string)>): seq<Reply> {
    if attempts == [] then [] else Typed(p, attempts[0]) + Script(p, attempts[1..])
  }

  /** A tuple reply is never ESC, and a bare OK is not either, so every
      widget takes the first reply it gets. */
  lemma TakesFirst(w: Shown, r: Reply, rest: seq<Reply>)
    requires r.Pair? || r == Code(OK)
    ensures RetryRun(w, [r] + rest) == Run(Returned(r), 1, [w])
  {
  }

  /** One attempt of that user is one pass of the loop: it ends the loop,
      with the entry, exactly when the attempt is good, and it uses
      exactly the attempt's replies. */
  lemma TypedRound(p: Prompt, attempt: (string, string), rest: seq<Reply>)
    requires Cooperative(p)
    ensures var typed := Typed(p, attempt); var r := EntryRound(p, typed + rest);
      (Good(p, attempt) ==> r.Ended? && r.run.outcome == Returned(attempt.0) && r.run.used == |typed|)
      && (!Good(p, attempt) ==> r.Continued? && r.used == |typed|)
  {
    var typed := Typed(p, attempt);
    var entry := attempt.0;
    var tail := typed[1..] + rest;
    assert typed + rest == [Pair(OK, entry)] + tail;
    TakesFirst(p.ask, Pair(OK, entry), tail);
    assert (typed + rest)[1..] == tail;
    match p.check(entry)
    case Reject(message) =>
      if message.Some? {
        assert tail == [Code(OK)] + rest;
        TakesFirst(ErrorBox(message.value, p.width), Code(OK), rest);
      } else {
        assert tail == rest;
      }
    case Accept =>
      if p.confirm.Some? {
        var more := (if attempt.1 != entry then [Code(OK)] else []) + rest;
        assert tail == [Pair(OK, attempt.1)] + more;
        TakesFirst(p.confirm.value, Pair(OK, attempt.1), more);
        assert tail[1..] == more;
        if attempt.1 != entry {
          assert more == [Code(OK)] + rest;
          TakesFirst(ErrorBox(Mismatch, p.width), Code(OK), rest);
        }
      }
  }

  /** The loop returns the first good attempt of a cooperative user, after
      reading exactly the replies up to and including that attempt. */
  lemma {:induction false} EntryRunFirstGood(p: Prompt, attempts: seq<(string, string)>, i: nat)
    requires Cooperative(p)
    requires i < |attempts| && Good(p, attempts[i])
    requires forall j | 0 <= j < i :: !Good(p, attempts[j])
    ensures var run := EntryRun(p, Script(p, attempts));
      run.outcome == Returned(attempts[i].0) && run.used == |Script(p, attempts[..i + 1])|
    decreases i
  {
    var typed := Typed(p, attempts[0]);
    var later := Script(p, attempts[1..]);
    TypedRound(p, attempts[0], later);
    assert attempts[..i + 1][1..] == attempts[1..][..i];
    if i == 0 {
      assert Script(p, attempts[..1]) == typed + Script(p, []);
    } else {
      assert (typed + later)[|typed|..] == later;
      EntryRunFirstGood(p, attempts[1..], i - 1);
    }
  }

  /** When no attempt is good the loop keeps asking until the script is
      used up. */
  lemma {:induction false} EntryRunNoneGood(p: Prompt, attempts: seq<(string, string)>)
    requires Cooperative(p)
    requires forall j | 0 <= j < |attempts| :: !Good(p, attempts[j])
    ensures var run := EntryRun(p, Script(p, attempts));
      run.outcome == Exhausted && run.used == |Script(p, attempts)|
  {
    if attempts != [] {
      var typed := Typed(p, attempts[0]);
      var later := Script(p, attempts[1..]);
      TypedRound(p, attempts[0], later);
      assert (typed + later)[|typed|..] == later;
      EntryRunNoneGood(p, attempts[1..]);
    }
  }

  // ----- Entry tests of `get_email` and `get_input`, shared by both facades -----

  /** `get_email`: an empty entry is required, a non-matching one is not
      valid. */
  function EmailVerdict(entry: string): (v: Verdict)
    ensures v == Accept <==> entry != "" && EmailMatches(entry)
    ensures v.Reject? ==> v.message.Some?
  {
    if entry == "" then Reject(Some("Email is required."))
    else if !EmailMatches(entry) then Reject(Some("Email is not valid"))
    else Accept
  }

  /** `get_input`: only an empty entry is rejected, with the title in the
      message. */
  function InputVerdict(title: string): string -> Verdict {
    entry => if entry == "" then Reject(Some(title + " is required.")) else Accept
  }

  lemma InputVerdictAccepts(title: string, entry: string)
    ensures InputVerdict(title)(entry) == Accept <==> entry != ""
    ensures entry == "" ==> InputVerdict(title)(entry) == Reject(Some(title + " is required."))
  {
  }
}
