/** What each action does to the whole system, told from the system before it: which locked section is run, how the
    request goes on, with which session, and what becomes of the creates and the locks. And over whole
    interleavings: where every request has its session from. */
module RequestSteps {
  import opened Text
  import TtlCache
  import opened SessionRuntime
  import opened SessionRequests

  /** Nobody else owns the session or is claiming it. */
  predicate Open(rt: Runtime, i: Name, s: Name, now: real) {
    OwnerOf(rt, s, now) in {None, Some(i)} && PendingOn(rt, s) in {None, Some(i)}
  }

  /** The live binding of a context. */
  function BindingOf(rt: Runtime, k: Key, now: real): Option<string> {
    if TtlCache.Live(rt.sessions.items, k, now) then Some(rt.sessions.items[k].value) else None
  }

  lemma Arrives(l: Limits, sys: System, r: nat, i: Name, kind: Kind)
    requires Well(sys.rt)
    ensures Apply(l, sys, Arrive(r, i, kind)) ==
            if r in sys.requests then sys
            else sys.(requests := sys.requests[r := Request(i, kind, Fresh, None, false, false, false, None)])
  {
  }

  /** A chat request that names a session gets that session or is refused; it has a claim to settle exactly if
      nobody owns the session yet. */
  lemma BeginsPreferred(l: Limits, sys: System, r: nat, task: nat, now: real)
    requires Well(sys.rt) && Sound(l, sys.rt, now) && In(sys, r, Fresh)
    requires sys.requests[r].kind.Chat? && sys.requests[r].kind.preferred.Some?
    ensures var q := sys.requests[r];
            var s := q.kind.preferred.value;
            Apply(l, sys, Begin(r, task, now)) == sys.(
              rt := Perform(l, sys.rt, Prefer(q.identity, q.kind.context, s), now).after,
              requests := sys.requests[r :=
                if Open(sys.rt, q.identity, s, now)
                then q.(phase := Bound, session := Some(s), claim := OwnerOf(sys.rt, s, now).None?)
                else q.(phase := Closing)])
  {
    var q := sys.requests[r];
    var step := Prefer(q.identity, q.kind.context, q.kind.preferred.value);
    RefusedExactly(l, sys.rt, step, now);
    Outcomes(l, sys.rt, step, now);
    if Perform(l, sys.rt, step, now).outcome != Forbidden {
      ClaimedExactly(l, sys.rt, step, now);
    }
    hide Perform, Sound, Well;
  }

  /** A control request, likewise. */
  lemma BeginsControl(l: Limits, sys: System, r: nat, task: nat, now: real)
    requires Well(sys.rt) && Sound(l, sys.rt, now) && In(sys, r, Fresh) && sys.requests[r].kind.Control?
    ensures var q := sys.requests[r];
            var s := q.kind.sid;
            Apply(l, sys, Begin(r, task, now)) == sys.(
              rt := Perform(l, sys.rt, Claim(q.identity, s), now).after,
              requests := sys.requests[r :=
                if Open(sys.rt, q.identity, s, now)
                then q.(phase := Active, session := Some(s), claim := OwnerOf(sys.rt, s, now).None?)
                else q.(phase := Finished)])
  {
    var q := sys.requests[r];
    var step := Claim(q.identity, q.kind.sid);
    RefusedExactly(l, sys.rt, step, now);
    Outcomes(l, sys.rt, step, now);
    if Perform(l, sys.rt, step, now).outcome != Forbidden {
      ClaimedExactly(l, sys.rt, step, now);
    }
    hide Perform, Sound, Well;
  }

  /** Any other chat request goes on with the session its context is bound to. If there is none it waits for the
      context's create, and starts it if there is none either. */
  lemma BeginsAnyhow(l: Limits, sys: System, r: nat, task: nat, now: real)
    requires Well(sys.rt) && Sound(l, sys.rt, now) && In(sys, r, Fresh) && task !in sys.creates
    requires sys.requests[r].kind.Chat? && sys.requests[r].kind.preferred.None?
    requires Registered(sys.rt.inflight, sys.creates)
    ensures var q := sys.requests[r];
            var k := (q.identity, q.kind.context);
            var bound, known := BindingOf(sys.rt, k, now), k in sys.rt.inflight;
            Apply(l, sys, Begin(r, task, now)) == System(
              Perform(l, sys.rt, Look(q.identity, q.kind.context, task), now).after,
              sys.requests[r :=
                if bound.Some? then q.(phase := Bound, session := bound)
                else q.(phase := Waiting(if known then sys.rt.inflight[k] else task))],
              if bound.None? && !known then sys.creates[task := Create(k, false, InProgress)] else sys.creates,
              sys.locked)
  {
    var q := sys.requests[r];
    var step := Look(q.identity, q.kind.context, task);
    var k := (q.identity, q.kind.context);
    Outcomes(l, sys.rt, step, now);
    RegisterEffects(l, sys.rt, step, now);
    BoundIsNamed(l, sys.rt, k, now);
    var outcome := Perform(l, sys.rt, step, now).outcome;
    if outcome.Existing? {
      LookedUpExactly(l, sys.rt, q.identity, q.kind.context, task, outcome.sid, now);
    } else if BindingOf(sys.rt, k, now).Some? {
      LookedUpExactly(l, sys.rt, q.identity, q.kind.context, task, BindingOf(sys.rt, k, now).value, now);
    }
    hide Perform, Sound, Well;
  }

  lemma BoundIsNamed(l: Limits, rt: Runtime, k: Key, now: real)
    requires Sound(l, rt, now)
    ensures BindingOf(rt, k, now).Some? ==> BindingOf(rt, k, now).value != ""
  {
  }

  /** The request waits for a create that has returned, raised or been stopped. */
  predicate CreateIsOver(sys: System, r: nat) {
    && r in sys.requests && sys.requests[r].kind.Chat? && sys.requests[r].phase.Waiting?
    && sys.requests[r].phase.task in sys.creates
    && sys.creates[sys.requests[r].phase.task].state != InProgress
  }

  /** A request whose create is over gets what the create returned, unless somebody else owns that; if the create
      failed or was stopped, the request ends. */
  lemma Wakes(l: Limits, sys: System, r: nat, now: real)
    requires Well(sys.rt) && Sound(l, sys.rt, now) && CreateIsOver(sys, r)
    ensures var q := sys.requests[r];
            var t := q.phase.task;
            var state := sys.creates[t].state;
            Apply(l, sys, Wake(r, now)) == sys.(
              rt := (match state
                     case Returned(s) => Perform(l, sys.rt, Record(q.identity, q.kind.context, t, s), now).after
                     case Raised => Perform(l, sys.rt, CreateFailed(q.identity, q.kind.context, t), now).after
                     case _ => sys.rt),
              requests := sys.requests[r :=
                if state.Returned? && OwnerOf(sys.rt, state.sid, now) in {None, Some(q.identity)}
                then q.(phase := Bound, session := Some(state.sid), via := Some(t))
                else q.(phase := Closing)])
  {
    var q := sys.requests[r];
    var state := sys.creates[q.phase.task].state;
    if state.Returned? {
      var step := Record(q.identity, q.kind.context, q.phase.task, state.sid);
      RefusedExactly(l, sys.rt, step, now);
      RecordOutcome(l, sys.rt, step, now);
    }
    hide Perform, Sound, Well;
  }

  /** A bound request that finds its session's lock taken queues for it; otherwise it takes it. A queued request
      takes it once it is free. */
  lemma TakesLock(l: Limits, sys: System, r: nat)
    requires Well(sys.rt) && r in sys.requests && RequestOk(sys.requests[r])
    ensures var q := sys.requests[r];
            && Apply(l, sys, Enter(r)) == (
                 if q.phase != Bound then sys
                 else if q.session.value in sys.locked
                 then sys.(requests := sys.requests[r := q.(phase := Queued, lockSet := true)])
                 else sys.(requests := sys.requests[r := q.(phase := Active, lockSet := true, holds := true)],
                           locked := sys.locked + {q.session.value}))
            && Apply(l, sys, Acquire(r)) == (
                 if q.phase != Queued || q.session.value in sys.locked then sys
                 else sys.(requests := sys.requests[r := q.(phase := Active, holds := true)],
                           locked := sys.locked + {q.session.value}))
  {
    if sys.requests[r].phase == Bound && sys.requests[r].session.value in sys.locked {
      assert sys.locked + {sys.requests[r].session.value} == sys.locked;
    }
  }

  /** A request with a claim settles it once the upstream has answered. A chat request is bound by that, and either
      kind owns its session; a refusal ends the request, with its claim still to be released. */
  lemma Finalizes(l: Limits, sys: System, r: nat, now: real)
    requires Well(sys.rt) && Sound(l, sys.rt, now) && r in sys.requests && RequestOk(sys.requests[r])
    ensures var q := sys.requests[r];
            Apply(l, sys, Finalize(r, now)) ==
            if q.phase != Active || !q.claim then sys
            else
              var i, s := q.identity, q.session.value;
              sys.(rt := Perform(l, sys.rt, if q.kind.Chat? then FinalizePreferred(i, q.kind.context, s)
                                            else FinalizeClaim(i, s), now).after,
                   requests := sys.requests[r := if Open(sys.rt, i, s, now) then q.(claim := false)
                                                 else q.(phase := Closing)])
  {
    var q := sys.requests[r];
    if q.phase == Active && q.claim {
      var i, s := q.identity, q.session.value;
      var step := if q.kind.Chat? then FinalizePreferred(i, q.kind.context, s) else FinalizeClaim(i, s);
      RefusedExactly(l, sys.rt, step, now);
    }
    hide Perform, Sound, Well;
  }

  /** A request leaves the upstream for its `finally` block; a second cancellation there ends it for good, but only
      while it waits to give back its claim. */
  lemma Leaves(l: Limits, sys: System, r: nat)
    requires Well(sys.rt) && r in sys.requests
    ensures var q := sys.requests[r];
            && Apply(l, sys, Leave(r)) == (
                 if q.phase == Active then sys.(requests := sys.requests[r := q.(phase := Closing)]) else sys)
            && Apply(l, sys, CancelAgain(r)) == (
                 if q.phase == Closing && q.claim
                 then sys.(requests := sys.requests[r := q.(phase := Abandoned)]) else sys)
  {
  }

  /** The `finally` block first gives back the claim, if there is one to settle, and then the lock of the session, if
      the request ever asked for it. */
  lemma GivesBack(l: Limits, sys: System, r: nat, now: real)
    requires Well(sys.rt) && r in sys.requests && RequestOk(sys.requests[r])
    ensures var q := sys.requests[r];
            && Apply(l, sys, Close(r, now)) == (
                 if q.phase != Closing then sys
                 else sys.(rt := if q.claim then Perform(l, sys.rt, Release(q.identity, q.session.value), now).after
                                 else sys.rt,
                           requests := sys.requests[r := q.(phase := Unlocking, claim := false)]))
            && Apply(l, sys, Unlock(r)) == (
                 if q.phase != Unlocking then sys
                 else sys.(requests := sys.requests[r := q.(phase := Finished, holds := false)],
                           locked := if q.lockSet then sys.locked - {q.session.value} else sys.locked))
  {
    hide Perform;
  }

  /** Cancelling a request that waits for a running create asks the create to stop, and nothing else; at any other
      await it ends the request. */
  lemma Cancels(l: Limits, sys: System, r: nat)
    requires Well(sys.rt) && r in sys.requests
    ensures var q := sys.requests[r];
            Apply(l, sys, Cancel(r)) == (
              if q.phase.Waiting? && q.phase.task in sys.creates && sys.creates[q.phase.task].state.InProgress?
              then sys.(creates := sys.creates[q.phase.task := sys.creates[q.phase.task].(cancelling := true)])
              else if q.phase.Waiting? || q.phase == Fresh || q.phase == Bound || q.phase == Queued
              then sys.(requests := sys.requests[r := q.(phase := Closing)])
              else sys)
  {
  }

  /** A create ends once, and is stopped only if it was asked to. Cancelling a context asks the create registered for
      it to stop. */
  lemma CreatesEnd(l: Limits, sys: System, t: nat, s: Name, i: Name, c: Name, now: real)
    requires Well(sys.rt)
    ensures var running := t in sys.creates && sys.creates[t].state.InProgress?;
            && Apply(l, sys, CreateReturns(t, s)) == (
                 if running then sys.(creates := sys.creates[t := sys.creates[t].(state := Returned(s))]) else sys)
            && Apply(l, sys, CreateRaises(t)) == (
                 if running then sys.(creates := sys.creates[t := sys.creates[t].(state := Raised)]) else sys)
            && Apply(l, sys, CreateStops(t)) == (
                 if running && sys.creates[t].cancelling
                 then sys.(creates := sys.creates[t := sys.creates[t].(state := Stopped)]) else sys)
    ensures var u := if (i, c) in sys.rt.inflight then Some(sys.rt.inflight[(i, c)]) else None;
            Apply(l, sys, CancelContext(i, c, now)) == sys.(
              rt := Perform(l, sys.rt, CancelRunning(i, c), now).after,
              creates := if u.Some? && u.value in sys.creates && sys.creates[u.value].state.InProgress?
                         then sys.creates[u.value := sys.creates[u.value].(cancelling := true)] else sys.creates)
  {
    hide Perform;
  }

  /** Nothing happens to a request that is not there, and no request begins or wakes twice. */
  lemma OutOfTurn(l: Limits, sys: System, r: nat, task: nat, now: real)
    requires Well(sys.rt)
    ensures r in sys.requests && sys.requests[r].phase != Fresh ==> Apply(l, sys, Begin(r, task, now)) == sys
    ensures !CreateIsOver(sys, r) ==> Apply(l, sys, Wake(r, now)) == sys
    ensures r !in sys.requests ==> forall a :: Subject(a) == Some(r) && !a.Arrive? ==> Apply(l, sys, a) == sys
  {
  }

  // --------------------------------------------- where the session comes from

  /** At its own Begin, request r found its context bound to s. */
  ghost predicate FoundBound(l: Limits, run: seq<Action>, r: nat, k: Key, s: Name) {
    exists n :: 0 <= n < |run| && FoundAt(l, run, n, r, k, s)
  }

  ghost predicate FoundAt(l: Limits, run: seq<Action>, n: nat, r: nat, k: Key, s: Name)
    requires n < |run|
  {
    && run[n].Begin? && run[n].r == r && In(After(l, run[..n]), r, Fresh)
    && BindingOf(After(l, run[..n]).rt, k, run[n].now) == Some(s)
  }

  /** Request r has its session from where it should: it named it itself, or its context was bound to it when it
      began, or its context's create returned it. */
  ghost predicate Sourced(l: Limits, run: seq<Action>, r: nat)
    requires r in After(l, run).requests
  {
    var q, creates := After(l, run).requests[r], After(l, run).creates;
    && (q.phase.Waiting? ==> q.kind.Chat? && q.kind.preferred.None?)
    && (q.session.Some? ==>
          match q.kind
          case Control(sid) => q.session == Some(sid)
          case Chat(c, Some(preferred)) => q.session == Some(preferred)
          case Chat(c, None) =>
            if q.via.Some? then ReturnedBy(creates, q.via.value, (q.identity, c), q.session.value)
            else FoundBound(l, run, r, (q.identity, c), q.session.value))
  }

  predicate ReturnedBy(creates: map<nat, Create>, t: nat, k: Key, s: Name) {
    t in creates && creates[t].key == k && creates[t].state == Returned(s)
  }

  lemma FoundStays(l: Limits, run: seq<Action>, r: nat, k: Key, s: Name)
    requires run != [] && FoundBound(l, run[..|run| - 1], r, k, s)
    ensures FoundBound(l, run, r, k, s)
  {
    hide After, BindingOf, In;
    var init := run[..|run| - 1];
    var n :| 0 <= n < |init| && FoundAt(l, init, n, r, k, s);
    assert init[..n] == run[..n];
    assert FoundAt(l, run, n, r, k, s);
  }

  /** A request that keeps its session, its kind and its history keeps its source. */
  lemma SourceStays(l: Limits, run: seq<Action>, r: nat)
    requires run != [] && r in After(l, run[..|run| - 1]).requests && r in After(l, run).requests
    requires Sourced(l, run[..|run| - 1], r)
    requires var q, q' := After(l, run[..|run| - 1]).requests[r], After(l, run).requests[r];
             && q'.identity == q.identity && q'.kind == q.kind && q'.session == q.session && q'.via == q.via
             && (q'.phase.Waiting? ==> q.phase.Waiting?)
    ensures Sourced(l, run, r)
  {
    var init, a := run[..|run| - 1], run[|run| - 1];
    LastAction(l, run);
    Applied(l, After(l, init), a);
    CreatesGrow(After(l, init), a, RunSection(l, After(l, init), a).outcome);
    hide After, Apply, NextRequest, NextCreates, RunSection, FoundBound;
    var q := After(l, run).requests[r];
    if q.session.Some? && q.kind.Chat? && FoundBound(l, init, r, (q.identity, q.kind.context), q.session.value) {
      FoundStays(l, run, r, (q.identity, q.kind.context), q.session.value);
    }
  }

  /** Only Begin and Wake give a request its session. */
  lemma OthersKeepSession(sys: System, a: Action, outcome: Outcome)
    requires !a.Begin? && !a.Wake? && Subject(a).Some? && NextRequest(sys, a, outcome).Some?
    ensures var next := NextRequest(sys, a, outcome).value;
            if a.Arrive? then a.r !in sys.requests && next.session.None? && next.phase.Fresh?
            else
              && a.r in sys.requests
              && var q := sys.requests[a.r];
              && next.identity == q.identity && next.kind == q.kind && next.session == q.session && next.via == q.via
              && !next.phase.Waiting?
  {
  }

  lemma BeginSources(l: Limits, run: seq<Action>, r: nat)
    requires run != [] && run[|run| - 1].Begin? && run[|run| - 1].r == r
    requires r in After(l, run[..|run| - 1]).requests && RequestOk(After(l, run[..|run| - 1]).requests[r])
    requires r in After(l, run).requests
    requires var sys, a := After(l, run[..|run| - 1]), run[|run| - 1];
             NextRequest(sys, a, RunSection(l, sys, a).outcome) == Some(After(l, run).requests[r])
    ensures Sourced(l, run, r)
  {
    var n := |run| - 1;
    var sys, a := After(l, run[..n]), run[n];
    hide After, TtlCache.Stored, TtlCache.Lookup, RequestOk;
    var q := sys.requests[r];
    FreshHasNoSession(q);
    var section := SectionOf(sys, a).value;
    Outcomes(l, sys.rt, section.step, section.now);
    var outcome := RunSection(l, sys, a).outcome;
    if section.step.Look? && outcome.Existing? {
      ExistingIsBound(l, sys.rt, section.step, section.now);
      assert FoundAt(l, run, n, r, (q.identity, q.kind.context), outcome.sid);
    }
    hide Perform;
  }

  lemma FreshHasNoSession(q: Request)
    requires RequestOk(q)
    ensures q.phase.Fresh? || q.phase.Waiting? ==> q.session.None? && q.via.None?
  {
  }

  lemma ExistingIsBound(l: Limits, rt: Runtime, step: Step, now: real)
    requires Well(rt) && step.Look? && Perform(l, rt, step, now).outcome.Existing?
    ensures BindingOf(rt, (step.identity, step.context), now) == Some(Perform(l, rt, step, now).outcome.sid)
  {
  }

  lemma WakeSources(l: Limits, run: seq<Action>, r: nat)
    requires run != [] && run[|run| - 1].Wake? && run[|run| - 1].r == r
    requires var sys := After(l, run[..|run| - 1]);
             && r in sys.requests && RequestOk(sys.requests[r]) && WaiterOk(sys.requests[r], sys.creates)
             && Sourced(l, run[..|run| - 1], r)
    requires r in After(l, run).requests
    requires var sys, a := After(l, run[..|run| - 1]), run[|run| - 1];
             NextRequest(sys, a, RunSection(l, sys, a).outcome) == Some(After(l, run).requests[r])
    ensures Sourced(l, run, r)
  {
    var sys, a := After(l, run[..|run| - 1]), run[|run| - 1];
    LastAction(l, run);
    Applied(l, sys, a);
    FreshHasNoSession(sys.requests[r]);
    hide After, Perform, Apply, RunSection, SectionOf, RequestOk, FoundBound;
  }

  /** In every interleaving every request talks to the session it named, or else to the one that its context was
      bound to when it began, or to the one that its context's create returned. */
  lemma {:induction false} SessionsAreSourced(l: Limits, run: seq<Action>, r: nat)
    requires r in After(l, run).requests
    ensures Sourced(l, run, r)
  {
    if run != [] {
      var init, a := run[..|run| - 1], run[|run| - 1];
      var sys := After(l, init);
      LastAction(l, run);
      RequestAfter(l, sys, a, r);
      RequestsAreOk(l, init);
      CreatesAreOk(l, init);
      hide After, Apply, RunSection, RequestOk, Sourced, WaiterOk;
      var next := NextRequest(sys, a, RunSection(l, sys, a).outcome);
      if r in sys.requests {
        SessionsAreSourced(l, init, r);
      }
      if Subject(a) != Some(r) || next.None? {
        SourceStays(l, run, r);
      } else if a.Begin? {
        BeginSources(l, run, r);
      } else if a.Wake? {
        WakeSources(l, run, r);
      } else {
        OthersKeepSession(sys, a, RunSection(l, sys, a).outcome);
        if a.Arrive? {
          NewIsSourced(l, run, r);
        } else {
          SourceStays(l, run, r);
        }
      }
    }
  }

  lemma NewIsSourced(l: Limits, run: seq<Action>, r: nat)
    requires r in After(l, run).requests
    requires After(l, run).requests[r].session.None? && After(l, run).requests[r].phase.Fresh?
    ensures Sourced(l, run, r)
  {
    hide After;
  }
}
