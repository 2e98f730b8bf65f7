/** The consumer loop around the processor (`consume_codex_stream`): it waits for events, flushes on
    timeout, reopens the stream after a failure and flushes on every way out. */
module StreamLoop {
  import opened Text
  import opened Coalescing
  import opened StreamOutput
  import opened StreamChunks
  import opened StreamRun
  import opened StreamEventProcessor

  datatype Outcome = Arrived(event: Event, clock: Clock) | TimedOut | Ended | Failed

  /** One round of waiting: whether the stop event is set when the round begins, what the wait brings,
      whether the completion event is set by then and whether the stop event is. */
  datatype Signal = Signal(stopBefore: bool, outcome: Outcome, completed: bool, stopAfter: bool)

  const INITIAL_BACKOFF: real := 0.5
  const MAX_BACKOFF: real := 5.0

  function NextBackoff(backoff: real): real {
    if backoff * 2.0 < MAX_BACKOFF then backoff * 2.0 else MAX_BACKOFF
  }

  /** The sleep after the k-th failure, counting from 0. */
  function Backoff(k: nat): real {
    if k == 0 then INITIAL_BACKOFF else NextBackoff(Backoff(k - 1))
  }

  function Backoffs(n: nat): seq<real> {
    seq(n, k requires 0 <= k => Backoff(k))
  }

  /** The sleeps are 0.5, 1, 2 and 4 seconds and then always 5. */
  lemma {:induction false} BackoffGrows(k: nat)
    ensures Backoff(k) == if k == 0 then 0.5 else if k == 1 then 1.0 else if k == 2 then 2.0
                          else if k == 3 then 4.0 else 5.0
  {
    if k > 0 {
      BackoffGrows(k - 1);
    }
  }

  /** The loop is left in this round, and an event the round may have brought is not handled. */
  predicate Leaves(s: Signal) {
    || s.stopBefore
    || s.outcome.Ended?
    || (s.outcome.TimedOut? && s.completed)
    || (!s.outcome.TimedOut? && s.stopAfter)
  }

  /** What the processor is asked to do. A script that runs out stands for the cancellation of the consumer. */
  function Inputs(script: seq<Signal>): seq<Input> {
    if script == [] || Leaves(script[0]) then [FlushPoint]
    else
      [if script[0].outcome.Arrived? then Deliver(script[0].outcome.event, script[0].outcome.clock) else FlushPoint]
      + Inputs(script[1..])
  }

  /** How many failed rounds are handled before the loop is left. */
  function Failures(script: seq<Signal>): nat {
    if script == [] || Leaves(script[0]) then 0
    else (if script[0].outcome.Failed? then 1 else 0) + Failures(script[1..])
  }

  lemma {:induction false} RunCons(st: State, session: string, first: Input, rest: seq<Input>)
    ensures Run(st, session, [first] + rest) == Run(Apply(st, session, first), session, rest)
  {
    var all := [first] + rest;
    if rest == [] {
      assert all[..|all| - 1] == [];
      assert Run(st, session, []) == st;
    } else {
      assert all[..|all| - 1] == [first] + rest[..|rest| - 1];
      RunCons(st, session, first, rest[..|rest| - 1]);
    }
  }

  lemma FlushTwice(st: State)
    ensures Flush(Flush(st)) == Flush(st) && Flush(st).parts == st.parts && Flush(st).buffer.None?
  {
    assert EmitAll(Flush(st).sink, []) == Flush(st).sink;
  }

  lemma ApplyKeepsParts(st: State, session: string, input: Input)
    requires PartsOk(st.parts)
    ensures PartsOk(Apply(st, session, input).parts)
    ensures Apply(st, session, input) == match input case Deliver(e, clock) => HandleEvent(st, session, e, clock)
                                                     case FlushPoint => Flush(st)
  {
    if input.Deliver? {
      GenerateOk(st.parts, session, input.event);
    }
  }

  /** One round of the inner loop, as it shows in the inputs. */
  lemma RoundFollows(st: State, session: string, script: seq<Signal>, i: nat, input: Input)
    requires i < |script| && !Leaves(script[i])
    requires input == if script[i].outcome.Arrived? then Deliver(script[i].outcome.event, script[i].outcome.clock)
                      else FlushPoint
    ensures Run(st, session, Inputs(script[i..])) == Run(Apply(st, session, input), session, Inputs(script[i + 1..]))
    ensures Failures(script[i..]) == (if script[i].outcome.Failed? then 1 else 0) + Failures(script[i + 1..])
  {
    assert script[i..][1..] == script[i + 1..];
    RunCons(st, session, input, Inputs(script[i + 1..]));
  }

  lemma LeavingFlushes(st: State, session: string, script: seq<Signal>, i: nat)
    requires i <= |script| && (i == |script| || Leaves(script[i]))
    ensures Run(st, session, Inputs(script[i..])) == Flush(st)
    ensures Failures(script[i..]) == 0
  {
    RunCons(st, session, FlushPoint, []);
    assert [FlushPoint] + [] == [FlushPoint];
    assert Run(Flush(st), session, []) == Flush(st);
  }

  method ConsumeCodexStream(p: StreamEventProcessor, script: seq<Signal>) returns (sleeps: seq<real>)
    requires p.Valid() && PartsOk(p.PartsValue())
    modifies p.Objects()
    ensures p.Valid() && fresh(p.Objects() - old(p.Objects()))
    ensures p.Model() == Run(old(p.Model()), p.sessionId, Inputs(script))
    ensures sleeps == Backoffs(Failures(script))
  {
    hide Apply, HandleEvent, Flush, Inputs, Run, PartsOk, Leaves, NextBackoff, Failures;
    ghost var goal, failures := Run(p.Model(), p.sessionId, Inputs(script)), Failures(script);
    var backoff := INITIAL_BACKOFF;
    var i := 0;
    sleeps := [];
    assert script[0..] == script;
    var reopen := true;
    while reopen && i < |script| && !script[i].stopBefore
      invariant i <= |script|
      invariant p.Valid() && PartsOk(p.PartsValue()) && fresh(p.Objects() - old(p.Objects()))
      invariant if reopen then StillToDo(p.Model(), p.sessionId, script, i, goal, failures - |sleeps|)
                else goal == p.Model() == Flush(p.Model()) && failures == |sleeps|
      invariant sleeps == Backoffs(|sleeps|) && backoff == Backoff(|sleeps|)
      decreases |script| - i, reopen
    {
      var failed;
      i, failed := ReadStream(p, script, i, goal, failures - |sleeps|);
      if failed {
        sleeps := sleeps + [backoff];
        backoff := NextBackoff(backoff);
      } else {
        reopen := false;
      }
    }
    if reopen {
      StopLeaves(script, i);
      LeavingFlushes(p.Model(), p.sessionId, script, i);
      FlushTwice(p.Model());
    }
    p.Flush();
  }

  /** From st, the rest of the script leads to the goal, with this many failures on the way. */
  ghost predicate StillToDo(st: State, session: string, script: seq<Signal>, i: nat, goal: State, failures: int)
    requires i <= |script|
  {
    goal == Run(st, session, Inputs(script[i..])) && failures == Failures(script[i..])
  }

  lemma StopLeaves(script: seq<Signal>, i: nat)
    requires i <= |script| && (i < |script| ==> script[i].stopBefore)
    ensures i < |script| ==> Leaves(script[i])
  {
  }

  /** One opened stream: the inner loop and the `finally` that flushes after it. */
  method ReadStream(p: StreamEventProcessor, script: seq<Signal>, start: nat, ghost goal: State, ghost failures: int)
    returns (i: nat, failed: bool)
    requires start < |script| && !script[start].stopBefore
    requires p.Valid() && PartsOk(p.PartsValue())
    requires StillToDo(p.Model(), p.sessionId, script, start, goal, failures)
    modifies p.Objects()
    ensures p.Valid() && PartsOk(p.PartsValue()) && fresh(p.Objects() - old(p.Objects()))
    ensures start <= i <= |script|
    ensures failed ==> start < i && StillToDo(p.Model(), p.sessionId, script, i, goal, failures - 1)
    ensures !failed ==> goal == p.Model() == Flush(p.Model()) && failures == 0
  {
    hide Apply, HandleEvent, Flush, Inputs, Run, PartsOk, Failures;
    i, failed := start, false;
    while i < |script| && !Leaves(script[i])
      invariant start <= i <= |script|
      invariant p.Valid() && PartsOk(p.PartsValue()) && fresh(p.Objects() - old(p.Objects()))
      invariant StillToDo(p.Model(), p.sessionId, script, i, goal, failures)
    {
      ghost var before := p.Model();
      var outcome := script[i].outcome;
      ghost var input := if outcome.Arrived? then Deliver(outcome.event, outcome.clock) else FlushPoint;
      RoundFollows(before, p.sessionId, script, i, input);
      ApplyKeepsParts(before, p.sessionId, input);
      i := i + 1;
      if outcome.Arrived? {
        p.HandleEvent(outcome.event, outcome.clock);
      } else {
        FlushTwice(before);
        p.Flush();
        if outcome.Failed? {
          failed := true;
          return;
        }
      }
    }
    LeavingFlushes(p.Model(), p.sessionId, script, i);
    FlushTwice(p.Model());
    p.Flush();
  }

  // ------------------------------------------------------- what is delivered

  /** A round after which the loop goes on: nobody has asked it to stop, the stream has not ended, and if the wait
      timed out the request is not complete yet. A stop that is set during a wait that timed out is seen at the
      beginning of the next round. */
  predicate GoesOn(s: Signal) {
    && !s.stopBefore
    && !s.outcome.Ended?
    && (s.outcome.TimedOut? ==> !s.completed)
    && (s.stopAfter ==> s.outcome.TimedOut?)
  }

  /** The loop is left after the first n rounds. */
  predicate LeftAfter(script: seq<Signal>, n: nat) {
    && n <= |script|
    && (forall k :: 0 <= k < n ==> GoesOn(script[k]))
    && (n < |script| ==> !GoesOn(script[n]))
  }

  /** Each round before the loop is left hands its event to the processor, or flushes if it brought none; leaving
      flushes, and nothing comes after that. */
  lemma {:induction false} InputsExactly(script: seq<Signal>, n: nat)
    requires LeftAfter(script, n)
    ensures |Inputs(script)| == n + 1
    ensures Inputs(script)[n] == FlushPoint
    ensures forall k :: 0 <= k < n ==>
              Inputs(script)[k] == match script[k].outcome case Arrived(e, clock) => Deliver(e, clock) case _ => FlushPoint
    decreases n
  {
    if n > 0 {
      assert forall k :: 0 <= k < |script| - 1 ==> script[1..][k] == script[k + 1];
      InputsExactly(script[1..], n - 1);
      var rest := Inputs(script[1..]);
      assert forall k :: 0 < k <= n ==> Inputs(script)[k] == rest[k - 1];
    }
  }

  function FailedIn(script: seq<Signal>): nat {
    if script == [] then 0 else (if script[0].outcome.Failed? then 1 else 0) + FailedIn(script[1..])
  }

  /** Every failed round before the loop is left is slept off, and no other. */
  lemma {:induction false} FailuresExactly(script: seq<Signal>, n: nat)
    requires LeftAfter(script, n)
    ensures Failures(script) == FailedIn(script[..n])
    decreases n
  {
    if n > 0 {
      assert forall k :: 0 <= k < |script| - 1 ==> script[1..][k] == script[k + 1];
      FailuresExactly(script[1..], n - 1);
      assert script[..n][1..] == script[1..][..n - 1];
    }
  }

  function ArrivedIn(script: seq<Signal>): seq<Event> {
    if script == [] then []
    else (if script[0].outcome.Arrived? then [script[0].outcome.event] else []) + ArrivedIn(script[1..])
  }

  /** Every event that arrives before the loop is left is handled, in order and once, across timeouts
      and reopened streams. */
  lemma {:induction false} NothingIsLost(script: seq<Signal>, n: nat)
    requires LeftAfter(script, n)
    ensures EventsIn(Inputs(script)) == ArrivedIn(script[..n])
    decreases n
  {
    if n == 0 {
      assert EventsIn([FlushPoint]) == EventsIn([FlushPoint][1..]) == [];
    } else {
      assert forall k :: 0 <= k < |script| - 1 ==> script[1..][k] == script[k + 1];
      NothingIsLost(script[1..], n - 1);
      assert script[..n][1..] == script[1..][..n - 1];
      assert Inputs(script)[1..] == Inputs(script[1..]);
    }
  }

  /** However the loop is left, no text stays in the buffer. */
  lemma {:induction false} LoopEndsFlushed(st: State, session: string, script: seq<Signal>)
    ensures Run(st, session, Inputs(script)).buffer.None?
    decreases |script|
  {
    hide Apply, Flush, Run;
    assert script[0..] == script;
    if script == [] || Leaves(script[0]) {
      LeavingFlushes(st, session, script, 0);
      FlushTwice(st);
    } else {
      var input := if script[0].outcome.Arrived? then Deliver(script[0].outcome.event, script[0].outcome.clock)
                   else FlushPoint;
      RoundFollows(st, session, script, 0, input);
      LoopEndsFlushed(Apply(st, session, input), session, script[1..]);
    }
  }
}
