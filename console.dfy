/** The terminal-dialog renderer as the facade sees it, replaced by a
    scripted console: a fixed sequence of replies handed out one per widget
    shown, a set of widget names the binding supports (what `getattr` finds
    on the binding), the persistent argument list and a log of every widget
    shown. Also the retry behaviour shared by both `wrapper` variants:
    show the widget, and on ESC ask "really quit?". */
module Console {
  import opened Text

  /** The binding's exit codes. */
  const OK: string := "ok"
  const ESC: string := "esc"

  /** The question `_handle_exitcode` asks after ESC. */
  const QuitQuestion: string := "Do you really want to quit?"

  /** What the binding returns for one widget: a bare exit code (message
      boxes, yes/no) or a `(code, value)` tuple (input, password, menu). */
  datatype Reply = Code(code: string) | Pair(code: string, value: string)

  /** The exceptions the core raises: `TklDialogError` for an unsupported
      widget, `TklDialogImportError` for a required cracklib that is
      missing, and the `IndexError`/`ValueError` Python raises when a
      result is indexed or unpacked beyond its length. */
  datatype Error = NotSupported(name: string) | CracklibMissing | IndexError | UnpackError

  /** How a call into the facade ends: with a value, with an exception,
      with `sys.exit(0)` after a confirmed quit, or because the scripted
      user has no reply left (the real program would wait forever). */
  datatype Outcome<T> = Returned(value: T) | Raised(error: Error) | Exited | Exhausted {
    /** The same non-value ending, at another value type. */
    function Cast<U>(): (o: Outcome<U>)
      requires !Returned?
      ensures !o.Returned? && (Raised? <==> o.Raised?) && (Exited? <==> o.Exited?)
      ensures Raised? ==> o.error == error
    {
      match this
      case Raised(e) => Raised(e)
      case Exited => Exited
      case Exhausted => Exhausted
    }
  }

  /** Continues a reply-valued outcome with what the caller does to the
      reply. */
  function Then<T>(raw: Outcome<Reply>, f: Reply -> Outcome<T>): Outcome<T> {
    if raw.Returned? then f(raw.value) else raw.Cast()
  }

  /** A keyword argument given to a widget. */
  datatype Arg = Str(s: string) | Int(i: int) | Flag(b: bool) | Choices(items: seq<(string, string)>)

  /** One widget put on screen: a named widget with its text, geometry and
      keyword arguments, or the binding's own "really quit?" yes/no. */
  datatype Shown =
    | Widget(name: string, text: string, height: int, width: int, kwargs: map<string, Arg>)
    | QuitPrompt(question: string)

  /** The prompt `_handle_exitcode` puts up after ESC. */
  const Quit: Shown := QuitPrompt(QuitQuestion)

  /** `retcode == self.console.ESC`: only a bare ESC code compares equal,
      a tuple never does. */
  predicate IsEsc(r: Reply) { r == Code(ESC) }

  /** What one dispatch of a widget does to the script: its outcome, how
      many replies it used and what it put on screen. */
  datatype Run<T> = Run(outcome: Outcome<T>, used: nat, shown: seq<Shown>)

  /** The retry loop of `wrapper` with `_handle_exitcode`, read off the
      remaining replies: show the widget; a non-ESC reply is the result; on
      ESC show the quit prompt, exit on OK and show the widget again on any
      other answer. */
  function RetryRun(w: Shown, rs: seq<Reply>): (run: Run<Reply>)
    ensures run.used <= |rs|
    ensures run.outcome.Returned? ==> 0 < run.used
    decreases |rs|
  {
    if rs == [] then Run(Exhausted, 0, [w])
    else if !IsEsc(rs[0]) then Run(Returned(rs[0]), 1, [w])
    else if |rs| == 1 then Run(Exhausted, 1, [w, Quit])
    else if rs[1] == Code(OK) then Run(Exited, 2, [w, Quit])
    else
      var more := RetryRun(w, rs[2..]);
      Run(more.outcome, more.used + 2, [w, Quit] + more.shown)
  }

  /** The retry loop reads only the replies it uses; it starts by showing
      the widget; it returns the last reply it read, which is no ESC; it
      exits only on an ESC answered by OK; it runs out only by reading
      every reply; and it raises nothing. */
  lemma {:induction false} RetryRunShape(w: Shown, rs: seq<Reply>)
    ensures var run := RetryRun(w, rs);
      |run.shown| >= 1 && run.shown[0] == w
      && (run.outcome.Returned? ==>
            0 < run.used && rs[run.used - 1] == run.outcome.value && !IsEsc(run.outcome.value))
      && (run.outcome.Exited? ==>
            2 <= run.used && IsEsc(rs[run.used - 2]) && rs[run.used - 1] == Code(OK))
      && (run.outcome.Exhausted? ==> run.used == |rs|)
      && !run.outcome.Raised?
    decreases |rs|
  {
    if |rs| >= 2 && IsEsc(rs[0]) && rs[1] != Code(OK) {
      RetryRunShape(w, rs[2..]);
      assert forall m | 0 <= m < |rs| - 2 :: rs[2..][m] == rs[m + 2];
    }
  }

  /** A run that starts after `n` replies already used and `pre` already
      shown. */
  function Extend<T>(run: Run<T>, n: nat, pre: seq<Shown>): Run<T> {
    Run(run.outcome, run.used + n, pre + run.shown)
  }

  lemma ExtendTwice<T>(run: Run<T>, m: nat, a: seq<Shown>, n: nat, b: seq<Shown>)
    ensures Extend(Extend(run, m, a), n, b) == Extend(run, m + n, b + a)
  {
    assert b + (a + run.shown) == (b + a) + run.shown;
  }

  /** One declined round of the retry loop, unfolded. */
  lemma RetryRunDeclined(w: Shown, rs: seq<Reply>)
    requires |rs| >= 2 && IsEsc(rs[0]) && rs[1] != Code(OK)
    ensures RetryRun(w, rs) == Extend(RetryRun(w, rs[2..]), 2, [w, Quit])
  {
  }

  /** `n` rounds of the widget followed by a declined quit prompt. */
  function Rounds(w: Shown, n: nat): (s: seq<Shown>)
    ensures |s| == 2 * n
  {
    if n == 0 then [] else [w, Quit] + Rounds(w, n - 1)
  }

  /** Before its result the widget was escaped from and the quit declined
      round after round: the replies used alternate ESC and a non-OK
      answer, and the screen shows widget and quit prompt alternately. */
  lemma {:induction false} RetryRunRounds(w: Shown, rs: seq<Reply>)
    requires RetryRun(w, rs).outcome.Returned?
    ensures var run := RetryRun(w, rs);
      run.used % 2 == 1
      && (forall m | 0 <= m < run.used - 1 :: if m % 2 == 0 then IsEsc(rs[m]) else rs[m] != Code(OK))
      && run.shown == Rounds(w, run.used / 2) + [w]
    decreases |rs|
  {
    RetryRunShape(w, rs);
    if IsEsc(rs[0]) {
      var rest := rs[2..];
      RetryRunRounds(w, rest);
      var more := RetryRun(w, rest);
      assert RetryRun(w, rs).used == more.used + 2;
      forall m | 2 <= m < more.used + 1
        ensures if m % 2 == 0 then IsEsc(rs[m]) else rs[m] != Code(OK)
      {
        assert rs[m] == rest[m - 2];
        assert (m - 2) % 2 == m % 2;
      }
      assert (more.used + 2) / 2 == more.used / 2 + 1;
    }
  }

  /** The retry loop never reads past the reply that ends it: more replies
      after that change nothing. */
  lemma {:induction false} RetryRunIgnoresLaterReplies(w: Shown, rs: seq<Reply>, later: seq<Reply>)
    requires !RetryRun(w, rs).outcome.Exhausted?
    ensures RetryRun(w, rs + later) == RetryRun(w, rs)
    decreases |rs|
  {
    var all := rs + later;
    assert all[0] == rs[0];
    if IsEsc(rs[0]) {
      assert all[1] == rs[1];
    }
    if IsEsc(rs[0]) && rs[1] != Code(OK) {
      assert all[2..] == rs[2..] + later;
      RetryRunIgnoresLaterReplies(w, rs[2..], later);
    }
  }

  /** One call of `wrapper` for the widget `w`, read off the remaining
      replies, with `f` the caller's use of the accepted reply: the error
      for a name the binding lacks (before anything is shown), otherwise
      the retry loop. */
  function DispatchRun<T>(w: Shown, supported: set<string>, rs: seq<Reply>, f: Reply -> Outcome<T>): (run: Run<T>)
    requires w.Widget?
    ensures run.used <= |rs|
    ensures run.outcome.Returned? ==> 0 < run.used && f(rs[run.used - 1]) == run.outcome
  {
    if w.name !in supported then Run(Raised(NotSupported(w.name)), 0, [])
    else
      var raw := RetryRun(w, rs);
      RetryRunShape(w, rs);
      Run(Then(raw.outcome, f), raw.used, raw.shown)
  }

  /** How one pass of a loop, or one step of it, ends: the whole call
      ends with `run`, or the caller carries on after `used` replies and
      the widgets `shown`. */
  datatype Round<T> = Ended(run: Run<T>) | Continued(used: nat, shown: seq<Shown>)

  /** The same pass, preceded by `n` replies already used and `pre` already
      shown. */
  function Shift<T>(r: Round<T>, n: nat, pre: seq<Shown>): Round<T> {
    match r
    case Ended(run) => Ended(Extend(run, n, pre))
    case Continued(m, s) => Continued(m + n, pre + s)
  }

  /** The pythondialog object the facade holds, scripted. */
  class Console {
    /** The user's replies, in the order the widgets will receive them. */
    const replies: seq<Reply>
    /** The widget names the binding has; `getattr` fails for the rest. */
    const supported: set<string>
    /** How many replies have been handed out. */
    var next: nat
    /** Every widget put on screen, in order. */
    var shown: seq<Shown>
    /** `dialog_persistent_arglist` */
    var persistentArgs: seq<string>
    var backgroundTitle: string

    ghost predicate Valid()
      reads this
    {
      next <= |replies|
    }

    constructor (replies: seq<Reply>, supported: set<string>)
      ensures Valid() && this.replies == replies && this.supported == supported
      ensures next == 0 && shown == [] && persistentArgs == [] && backgroundTitle == ""
    {
      this.replies := replies;
      this.supported := supported;
      next := 0;
      shown := [];
      persistentArgs := [];
      backgroundTitle := "";
    }

    /** `set_background_title` */
    method SetBackgroundTitle(title: string)
      modifies this`backgroundTitle
      ensures backgroundTitle == title
    {
      backgroundTitle := title;
    }

    /** `add_persistent_args`: appends to the argument list. */
    method AddPersistentArgs(args: seq<string>)
      modifies this`persistentArgs
      ensures persistentArgs == old(persistentArgs) + args
    {
      persistentArgs := persistentArgs + args;
    }

    /** `dialog_persistent_arglist.remove(arg)` */
    method RemovePersistentArg(arg: string)
      requires arg in persistentArgs
      modifies this`persistentArgs
      ensures persistentArgs == RemoveFirst(old(persistentArgs), arg)
    {
      persistentArgs := RemoveFirst(persistentArgs, arg);
    }

    /** Puts a widget on screen and hands out the next reply, if any. */
    method Show(w: Shown) returns (r: Option<Reply>)
      requires Valid()
      modifies this`next, this`shown
      ensures Valid() && shown == old(shown) + [w]
      ensures old(next) < |replies| ==> r == Some(replies[old(next)]) && next == old(next) + 1
      ensures old(next) == |replies| ==> r == None && next == old(next)
    {
      shown := shown + [w];
      if next < |replies| {
        r := Some(replies[next]);
        next := next + 1;
      } else {
        r := None;
      }
    }

    /** `_handle_exitcode` (the same in both facades): anything but ESC is
        handled (true); ESC puts the quit question on screen, exits on OK
        and otherwise asks for the widget again (false). */
    method HandleExitcode(retcode: Reply) returns (o: Outcome<bool>)
      requires Valid()
      modifies this`next, this`shown
      ensures Valid()
      ensures !IsEsc(retcode) ==> o == Returned(true) && next == old(next) && shown == old(shown)
      ensures IsEsc(retcode) ==> shown == old(shown) + [Quit]
      ensures IsEsc(retcode) && old(next) == |replies| ==> o == Exhausted && next == old(next)
      ensures IsEsc(retcode) && old(next) < |replies| ==>
        next == old(next) + 1 && o == if replies[old(next)] == Code(OK) then Exited else Returned(false)
    {
      if IsEsc(retcode) {
        var answer := Show(Quit);
        if answer.None? {
          return Exhausted;
        }
        if answer.value == Code(OK) {
          return Exited;
        }
        return Returned(false);
      }
      return Returned(true);
    }

    /** One pass of `wrapper`'s loop: show the widget and hand the reply
        to `_handle_exitcode`. Either the call ends here (`done`), as the
        retry loop on the remaining replies says, or the quit was declined
        and the loop goes on with two replies and two screens used. */
    method Attempt(w: Shown) returns (done: bool, o: Outcome<Reply>)
      requires Valid()
      modifies this`next, this`shown
      ensures Valid() && old(next) <= next
      ensures var run := RetryRun(w, replies[old(next)..]);
        if done then
          o == run.outcome && next == old(next) + run.used && shown == old(shown) + run.shown
        else
          next == old(next) + 2 && shown == old(shown) + [w, Quit]
          && run == Extend(RetryRun(w, replies[next..]), 2, [w, Quit])
    {
      ghost var rest := replies[next..];
      var reply := Show(w);
      if reply.None? {
        return true, Exhausted;
      }
      var retcode := reply.value;
      assert retcode == rest[0];
      var handled := HandleExitcode(retcode);
      if !handled.Returned? {
        return true, handled.Cast();
      }
      if handled.value {
        return true, Returned(retcode);
      }
      assert rest[2..] == replies[next..];
      RetryRunDeclined(w, rest);
      return false, Exhausted;
    }

    /** The `while 1` loop of `wrapper`: shows `w` until `_handle_exitcode`
        accepts a reply, exactly as `RetryRun` reads the remaining script. */
    method Retry(w: Shown) returns (o: Outcome<Reply>)
      requires Valid()
      modifies this`next, this`shown
      ensures Valid()
      ensures var run := RetryRun(w, replies[old(next)..]);
        o == run.outcome && next == old(next) + run.used && shown == old(shown) + run.shown
    {
      ghost var start := next;
      ghost var before := shown;
      ghost var all := replies[start..];
      ghost var pre: seq<Shown> := [];
      while true
        invariant Valid() && start <= next
        invariant shown == before + pre
        invariant RetryRun(w, all) == Extend(RetryRun(w, replies[next..]), next - start, pre)
        decreases |replies| - next
      {
        ghost var rest := replies[next..];
        ghost var n := next - start;
        var done;
        done, o := Attempt(w);
        if done {
          ghost var run := RetryRun(w, rest);
          assert RetryRun(w, all) == Extend(run, n, pre);
          assert shown == (before + pre) + run.shown;
          AppendAssoc(before, pre, run.shown);
          return;
        }
        assert RetryRun(w, all) == Extend(RetryRun(w, replies[next..]), n + 2, pre + [w, Quit]) by {
          ExtendTwice(RetryRun(w, replies[next..]), 2, [w, Quit], n, pre);
        }
        pre := pre + [w, Quit];
      }
    }

    /** What a call of `wrapper` for the widget `w` did between the old and
      the new state, when it returns the reply itself. */
    twostate predicate Ran(w: Shown, new o: Outcome<Reply>)
      reads this
    {
      old(next) <= |replies| && w.Widget? &&
      if w.name !in supported then
        o == Raised(NotSupported(w.name)) && next == old(next) && shown == old(shown)
      else
        var run := RetryRun(w, replies[old(next)..]);
        o == run.outcome && next == old(next) + run.used && shown == old(shown) + run.shown
    }

    /** What a call of `wrapper` for the widget `w` did between the old and
      the new state, with `f` the caller's use of the reply. */
    twostate predicate Dispatched<T>(w: Shown, new o: Outcome<T>, new f: Reply -> Outcome<T>)
      reads this
    {
      old(next) <= |replies| && w.Widget? &&
      var run := DispatchRun(w, supported, replies[old(next)..], f);
      o == run.outcome && next == old(next) + run.used && shown == old(shown) + run.shown
    }

    /** Between the old and the new state the console did what `run` says,
        ending with `o`. */
    twostate predicate Follows<T>(new run: Run<T>, new o: Outcome<T>)
      reads this
    {
      o == run.outcome && next == old(next) + run.used && shown == old(shown) + run.shown
    }

    /** Between the old and the new state the console did what the pass
        `r` says: the caller goes on exactly when `r` continues, and
        otherwise ends with `stop`. */
    twostate predicate Stepped<T>(new r: Round<T>, goOn: bool, new stop: Outcome<T>)
      reads this
    {
      if goOn then r.Continued? && next == old(next) + r.used && shown == old(shown) + r.shown
      else r.Ended? && stop == r.run.outcome && next == old(next) + r.run.used && shown == old(shown) + r.run.shown
    }
  }
}
