/**
 * The command pipeline runner (mlBuildThread): runs an ordered list of
 * (program, arguments) commands one after another, emits each command's
 * invocation line and then its output, stops on an abnormal exit, and stops or
 * carries on after a non-zero exit code as mIgnoreErrors says.
 */
module BuildRunner {
  import opened Wrappers
  import opened Process

  /** Output chunks of a child, as OutputReady events. */
  function Chunks(output: seq<seq<byte>>): (r: seq<OutputEvent>)
    ensures |r| == |output|
    ensures forall i :: 0 <= i < |r| ==> r[i] == Data(output[i])
  {
    seq(|output|, i requires 0 <= i < |output| => Data(output[i]))
  }

  /** The events one started command contributes: its invocation line, then what it printed. */
  function CommandEvents(c: Command, o: Outcome): seq<OutputEvent> {
    [Text(InvocationLine(c))] + Chunks(o.output)
  }

  /** A child that exited normally with exit code 0. */
  predicate Clean(o: Outcome) {
    o.Normal? && o.code == 0
  }

  /** A child after which no further command is started. */
  predicate Halts(o: Outcome, ignoreErrors: bool) {
    o.Abnormal? || (o.code != 0 && !ignoreErrors)
  }

  /** The state of a run between two commands: still going (with the local Success flag), or returned early. */
  datatype RunState = Running(events: seq<OutputEvent>, ok: bool) | Stopped(events: seq<OutputEvent>)

  /** One iteration of the command loop. */
  function Step(s: RunState, c: Command, o: Outcome, ignoreErrors: bool): RunState {
    match s
    case Stopped(_) => s
    case Running(events, ok) =>
      var after := events + CommandEvents(c, o);
      if o.Abnormal? then Stopped(after)
      else if o.code == 0 then Running(after, ok)
      else if ignoreErrors then Running(after, false)
      else Stopped(after)
  }

  /** The state after the first k iterations of the command loop. */
  function Replay(cmds: seq<Command>, outs: seq<Outcome>, ignoreErrors: bool, k: nat): RunState
    requires k <= |cmds| && |cmds| == |outs|
    decreases k
  {
    if k == 0 then Running([], true)
    else Step(Replay(cmds, outs, ignoreErrors, k - 1), cmds[k - 1], outs[k - 1], ignoreErrors)
  }

  /** The value of mSuccess once run() returns, from its value before. */
  function FinalSuccess(s: RunState, before: bool): bool {
    if s.Running? then s.ok else before
  }

  // ---------------------------------------------------------------------
  // An independent description of a run: where it halts and what it prints.

  /** Index of the first outcome that halts the run, or |outs| if none does. */
  function FirstHalt(outs: seq<Outcome>, ignoreErrors: bool): (r: nat)
    ensures r <= |outs|
    ensures r < |outs| ==> Halts(outs[r], ignoreErrors)
    ensures forall j :: 0 <= j < r ==> !Halts(outs[j], ignoreErrors)
    decreases |outs|
  {
    if |outs| == 0 then 0
    else if Halts(outs[0], ignoreErrors) then 0
    else 1 + FirstHalt(outs[1..], ignoreErrors)
  }

  /** The events of commands lo..hi-1 run back to back. */
  function Transcript(cmds: seq<Command>, outs: seq<Outcome>, lo: nat, hi: nat): seq<OutputEvent>
    requires lo <= hi <= |cmds| && |cmds| == |outs|
    decreases hi - lo
  {
    if lo == hi then [] else Transcript(cmds, outs, lo, hi - 1) + CommandEvents(cmds[hi - 1], outs[hi - 1])
  }

  lemma {:induction false} TranscriptSplit(cmds: seq<Command>, outs: seq<Outcome>, lo: nat, mid: nat, hi: nat)
    requires lo <= mid <= hi <= |cmds| && |cmds| == |outs|
    ensures Transcript(cmds, outs, lo, hi) == Transcript(cmds, outs, lo, mid) + Transcript(cmds, outs, mid, hi)
    decreases hi - mid
  {
    if mid < hi {
      TranscriptSplit(cmds, outs, lo, mid, hi - 1);
    }
  }

  /** Until a halting outcome, the run is still going, has printed the transcript so far, and Success says whether every exit was clean. */
  lemma {:induction false} ReplayBeforeHalt(cmds: seq<Command>, outs: seq<Outcome>, ignoreErrors: bool, k: nat)
    requires k <= |cmds| && |cmds| == |outs|
    requires forall j :: 0 <= j < k ==> !Halts(outs[j], ignoreErrors)
    ensures Replay(cmds, outs, ignoreErrors, k)
         == Running(Transcript(cmds, outs, 0, k), forall j :: 0 <= j < k ==> Clean(outs[j]))
    decreases k
  {
    if k > 0 {
      ReplayBeforeHalt(cmds, outs, ignoreErrors, k - 1);
    }
  }

  /** Once the loop has returned, later iterations change nothing. */
  lemma {:induction false} StoppedStays(cmds: seq<Command>, outs: seq<Outcome>, ignoreErrors: bool, j: nat, m: nat)
    requires j <= m <= |cmds| && |cmds| == |outs|
    requires Replay(cmds, outs, ignoreErrors, j).Stopped?
    ensures Replay(cmds, outs, ignoreErrors, m) == Replay(cmds, outs, ignoreErrors, j)
    decreases m - j
  {
    if j < m {
      StoppedStays(cmds, outs, ignoreErrors, j, m - 1);
    }
  }

  /**
   * The whole run, described without the loop: if some command halts it, the run
   * returns after the first such command having printed the commands up to and
   * including it; otherwise all commands run and Success is "every exit was clean".
   */
  lemma ReplayMatchesReference(cmds: seq<Command>, outs: seq<Outcome>, ignoreErrors: bool)
    requires |cmds| == |outs|
    ensures var h := FirstHalt(outs, ignoreErrors);
      Replay(cmds, outs, ignoreErrors, |cmds|)
      == if h < |cmds| then Stopped(Transcript(cmds, outs, 0, h + 1))
         else Running(Transcript(cmds, outs, 0, |cmds|), forall j :: 0 <= j < |cmds| ==> Clean(outs[j]))
  {
    var h := FirstHalt(outs, ignoreErrors);
    if h < |cmds| {
      ReplayBeforeHalt(cmds, outs, ignoreErrors, h);
      var before := Replay(cmds, outs, ignoreErrors, h);
      assert before.events == Transcript(cmds, outs, 0, h);
      assert Replay(cmds, outs, ignoreErrors, h + 1) == Step(before, cmds[h], outs[h], ignoreErrors);
      assert Transcript(cmds, outs, 0, h + 1) == before.events + CommandEvents(cmds[h], outs[h]);
      assert Replay(cmds, outs, ignoreErrors, h + 1) == Stopped(Transcript(cmds, outs, 0, h + 1));
      StoppedStays(cmds, outs, ignoreErrors, h + 1, |cmds|);
    } else {
      ReplayBeforeHalt(cmds, outs, ignoreErrors, |cmds|);
    }
  }

  // ---------------------------------------------------------------------
  // The properties the runner promises, stated on the replayed run.

  /** A run started with mSuccess false ends with it true exactly when every command exited normally with code 0 (so an empty list succeeds). */
  lemma BuildSucceedsIff(cmds: seq<Command>, outs: seq<Outcome>, ignoreErrors: bool)
    requires |cmds| == |outs|
    ensures FinalSuccess(Replay(cmds, outs, ignoreErrors, |cmds|), false)
        <==> forall j :: 0 <= j < |cmds| ==> Clean(outs[j])
  {
    ReplayMatchesReference(cmds, outs, ignoreErrors);
    var h := FirstHalt(outs, ignoreErrors);
    if h < |cmds| {
      assert !Clean(outs[h]);
    }
  }

  /** An abnormal exit of command k (no earlier command having halted the run) ends the run after k's output: no later command is started and Success stays as it was. */
  lemma AbnormalExitEndsBuild(cmds: seq<Command>, outs: seq<Outcome>, ignoreErrors: bool, k: nat)
    requires |cmds| == |outs| && k < |cmds|
    requires outs[k].Abnormal?
    requires forall j :: 0 <= j < k ==> !Halts(outs[j], ignoreErrors)
    ensures Replay(cmds, outs, ignoreErrors, |cmds|) == Stopped(Transcript(cmds, outs, 0, k + 1))
  {
    ReplayMatchesReference(cmds, outs, ignoreErrors);
    assert FirstHalt(outs, ignoreErrors) == k;
  }

  /** With ignoreErrors off, a non-zero exit code of command k ends the run in the same way. */
  lemma NonZeroExitEndsBuild(cmds: seq<Command>, outs: seq<Outcome>, k: nat)
    requires |cmds| == |outs| && k < |cmds|
    requires outs[k].Normal? && outs[k].code != 0
    requires forall j :: 0 <= j < k ==> !Halts(outs[j], false)
    ensures Replay(cmds, outs, false, |cmds|) == Stopped(Transcript(cmds, outs, 0, k + 1))
  {
    ReplayMatchesReference(cmds, outs, false);
    assert FirstHalt(outs, false) == k;
  }

  /** With ignoreErrors on, a non-zero exit code of command k does not stop the run, but the run cannot succeed. */
  lemma NonZeroExitIgnored(cmds: seq<Command>, outs: seq<Outcome>, k: nat)
    requires |cmds| == |outs| && k < |cmds|
    requires outs[k].Normal? && outs[k].code != 0
    requires forall j :: 0 <= j <= k ==> !Halts(outs[j], true)
    ensures Replay(cmds, outs, true, k + 1) == Running(Transcript(cmds, outs, 0, k + 1), false)
    ensures !FinalSuccess(Replay(cmds, outs, true, |cmds|), false)
  {
    ReplayBeforeHalt(cmds, outs, true, k + 1);
    BuildSucceedsIff(cmds, outs, true);
  }

  /** Cancelling during command k (nothing having halted the run before it) ends the run after k; the run does not succeed. */
  lemma CancelEndsBuild(cmds: seq<Command>, outs: seq<Outcome>, ignoreErrors: bool, k: nat)
    requires |cmds| == |outs| && k < |cmds|
    requires forall j :: 0 <= j < k ==> !Halts(outs[j], ignoreErrors)
    ensures var observed := Observed(outs, Some(k));
      Replay(cmds, observed, ignoreErrors, |cmds|) == Stopped(Transcript(cmds, observed, 0, k + 1))
    ensures !FinalSuccess(Replay(cmds, Observed(outs, Some(k)), ignoreErrors, |cmds|), false)
  {
    var observed := Observed(outs, Some(k));
    AbnormalExitEndsBuild(cmds, observed, ignoreErrors, k);
  }

  /** Text lines only: the invocation lines, since child output is emitted as data. */
  function Texts(events: seq<OutputEvent>): seq<string>
    decreases |events|
  {
    if |events| == 0 then []
    else Texts(events[..|events| - 1]) + (if events[|events| - 1].Text? then [events[|events| - 1].text] else [])
  }

  lemma {:induction false} TextsAppend(a: seq<OutputEvent>, b: seq<OutputEvent>)
    ensures Texts(a + b) == Texts(a) + Texts(b)
    decreases |b|
  {
    if |b| > 0 {
      var b' := b[..|b| - 1];
      assert (a + b)[..|a + b| - 1] == a + b';
      TextsAppend(a, b');
    } else {
      assert a + b == a;
    }
  }

  lemma {:induction false} TextsOfChunks(output: seq<seq<byte>>)
    ensures Texts(Chunks(output)) == []
    decreases |output|
  {
    if |output| > 0 {
      var shorter := output[..|output| - 1];
      assert Chunks(output)[..|output| - 1] == Chunks(shorter);
      TextsOfChunks(shorter);
    }
  }

  /** The invocation lines of the first k commands, in list order. */
  function InvocationLines(cmds: seq<Command>, k: nat): seq<string>
    requires k <= |cmds|
  {
    seq(k, i requires 0 <= i < k <= |cmds| => InvocationLine(cmds[i]))
  }

  /** The first k commands print exactly one invocation line each, in list order. */
  lemma {:induction false} InvocationLinesInOrder(cmds: seq<Command>, outs: seq<Outcome>, k: nat)
    requires k <= |cmds| && |cmds| == |outs|
    ensures Texts(Transcript(cmds, outs, 0, k)) == InvocationLines(cmds, k)
    decreases k
  {
    if k > 0 {
      InvocationLinesInOrder(cmds, outs, k - 1);
      var prev := Transcript(cmds, outs, 0, k - 1);
      var c, o := cmds[k - 1], outs[k - 1];
      var line := InvocationLine(c);
      assert Transcript(cmds, outs, 0, k) == prev + CommandEvents(c, o);
      TextsAppend(prev, CommandEvents(c, o));
      TextsAppend([Text(line)], Chunks(o.output));
      TextsOfChunks(o.output);
      assert Texts([Text(line)]) == [line] by {
        assert [Text(line)][..0] == [];
      }
      assert InvocationLines(cmds, k) == InvocationLines(cmds, k - 1) + [line];
    }
  }

  /** Command i's output comes right after its invocation line, and the next command's invocation line comes right after that. */
  lemma OutputBetweenInvocations(cmds: seq<Command>, outs: seq<Outcome>, i: nat, k: nat)
    requires i < k <= |cmds| && |cmds| == |outs|
    ensures Transcript(cmds, outs, 0, k)
         == Transcript(cmds, outs, 0, i) + [Text(InvocationLine(cmds[i]))] + Chunks(outs[i].output)
            + Transcript(cmds, outs, i + 1, k)
    ensures i + 1 < k ==> Transcript(cmds, outs, i + 1, k)[0] == Text(InvocationLine(cmds[i + 1]))
  {
    var head := Transcript(cmds, outs, 0, i);
    var line: seq<OutputEvent> := [Text(InvocationLine(cmds[i]))];
    var chunks := Chunks(outs[i].output);
    var tail := Transcript(cmds, outs, i + 1, k);
    TranscriptSplit(cmds, outs, 0, i + 1, k);
    assert Transcript(cmds, outs, 0, i + 1) == head + (line + chunks);
    assert head + (line + chunks) + tail == head + line + chunks + tail;
    if i + 1 < k {
      TranscriptSplit(cmds, outs, i + 1, i + 2, k);
      var next := Transcript(cmds, outs, i + 1, i + 2);
      assert next == [] + CommandEvents(cmds[i + 1], outs[i + 1]);
      assert next[0] == Text(InvocationLine(cmds[i + 1]));
      assert tail == next + Transcript(cmds, outs, i + 2, k);
    }
  }

  // ---------------------------------------------------------------------

  /** mlBuildThread: the commands, the ignore policy and the two flags. */
  class BuildThread {
    const commands: seq<Command>
    const ignoreErrors: bool
    var success: bool
    var cancel: bool

    constructor (commands: seq<Command>, ignoreErrors: bool)
      ensures this.commands == commands && this.ignoreErrors == ignoreErrors
      ensures !success && !cancel
    {
      this.commands := commands;
      this.ignoreErrors := ignoreErrors;
      success := false;
      cancel := false;
    }

    /** The success flag; a function, so reading it changes nothing. */
    function Succeeded(): (r: bool)
      reads this
      ensures r == success
    {
      success
    }

    /** Request cancellation: only the cancel flag is written. */
    method Cancel()
      modifies this`cancel
      ensures cancel
    {
      cancel := true;
    }

    /**
     * run(): `outcomes[i]` is how command i's child would end; `killedAt` names the
     * command whose poll loop saw the cancel flag while the child was running.
     * Returns the OutputReady events in emission order.
     */
    method Run(outcomes: seq<Outcome>, killedAt: Option<nat>) returns (events: seq<OutputEvent>)
      requires |outcomes| == |commands|
      modifies this`success
      ensures var r := Replay(commands, Observed(outcomes, killedAt), ignoreErrors, |commands|);
        events == r.events && success == FinalSuccess(r, old(success))
    {
      ghost var observed := Observed(outcomes, killedAt);
      var ok := true;
      events := [];
      var i := 0;
      while i < |commands|
        invariant 0 <= i <= |commands|
        invariant Replay(commands, observed, ignoreErrors, i) == Running(events, ok)
      {
        var command := commands[i];
        ghost var before := events;
        events := events + [Text(InvocationLine(command))];
        var outcome := if killedAt == Some(i) then Abnormal(outcomes[i].output) else outcomes[i];
        events := events + Chunks(outcome.output);
        assert outcome == observed[i];
        assert events == before + CommandEvents(command, outcome);
        assert Replay(commands, observed, ignoreErrors, i + 1) == Step(Running(before, ok), command, outcome, ignoreErrors);
        if outcome.Abnormal? {
          StoppedStays(commands, observed, ignoreErrors, i + 1, |commands|);
          return;
        }
        if outcome.code != 0 {
          ok := false;
          if !ignoreErrors {
            StoppedStays(commands, observed, ignoreErrors, i + 1, |commands|);
            return;
          }
        }
        i := i + 1;
      }
      success := ok;
    }
  }

  /**
   * A fresh runner, run to the end and asked Succeeded(): true exactly when every
   * command exited normally with code 0 (a cancelled command counts as abnormal).
   */
  method RunBuild(commands: seq<Command>, ignoreErrors: bool, outcomes: seq<Outcome>, killedAt: Option<nat>)
    returns (succeeded: bool, events: seq<OutputEvent>)
    requires |outcomes| == |commands|
    ensures succeeded <==> forall j :: 0 <= j < |commands| ==> Clean(Observed(outcomes, killedAt)[j])
    ensures events == Replay(commands, Observed(outcomes, killedAt), ignoreErrors, |commands|).events
  {
    var thread := new BuildThread(commands, ignoreErrors);
    events := thread.Run(outcomes, killedAt);
    succeeded := thread.Succeeded();
    BuildSucceedsIff(commands, Observed(outcomes, killedAt), ignoreErrors);
  }
}
