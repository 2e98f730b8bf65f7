/** The claim and lock lifecycle of one request as its coroutine is written (`execute`,
    `handle_session_control_request`): flags driven through try, except and finally. Nobody else runs at its
    awaits here; what interleaving adds is the matter of SessionRequests. */
module Executor {
  import opened Text
  import opened TtlCache
  import opened SessionRuntime

  /** The session locks: which are locked. */
  class SessionLocks {
    var held: set<Name>

    constructor ()
      ensures held == {}
    {
      held := {};
    }
  }

  /** No other identity owns or claims the session. */
  predicate Free(rt: Runtime, sid: Name, identity: Name, now: real) {
    OwnerOf(rt, sid, now) in {None, Some(identity)} && PendingOn(rt, sid) in {None, Some(identity)}
  }

  /** How an await on the upstream ends. */
  datatype Fate = Answers | Raises | Cancelled

  datatype CreateFate = Creates(sid: Name) | CreateRaises | CreateCancelled

  /** The session of a context without a preferred one: the one it is bound to, or else the created one,
      unless somebody else owns it by then. */
  function SessionFor(rt: Runtime, identity: Name, context: Name, fate: CreateFate, t0: real, t1: real): Option<string> {
    if Live(rt.sessions.items, (identity, context), t0) then Some(rt.sessions.items[(identity, context)].value)
    else if fate.Creates? && OwnerOf(rt, fate.sid, t1) in {None, Some(identity)} then Some(fate.sid)
    else None
  }

  /** What `get_or_create_session` hands to its caller: a session and whether its claim is still to be
      settled, or an exception. */
  datatype Obtained = Session(sid: Name, pendingClaim: bool) | NoSession

  /** The runtime after that: the locked sections that are run, in order. */
  function AfterObtaining(l: Limits, rt: Runtime, identity: Name, context: Name, preferred: Option<Name>,
                          task: nat, fate: CreateFate, t0: real, t1: real): Runtime
    requires Well(rt)
  {
    if preferred.Some? then Perform(l, rt, Prefer(identity, context, preferred.value), t0).after
    else
      var looked := Perform(l, rt, Look(identity, context, task), t0);
      StepWell(l, rt, Look(identity, context, task), t0);
      if !looked.outcome.Awaits? then looked.after
      else
        match fate
        case CreateCancelled => looked.after
        case CreateRaises => Perform(l, looked.after, CreateFailed(identity, context, looked.outcome.task), t1).after
        case Creates(sid) => Perform(l, looked.after, Record(identity, context, looked.outcome.task, sid), t1).after
  }

  method GetOrCreateSession(runtime: SessionRuntime, identity: Name, context: Name, preferred: Option<Name>,
                            task: nat, fate: CreateFate, t0: real, t1: real) returns (r: Obtained)
    requires runtime.Valid() && Sound(runtime.limits, runtime.Model(), t0) && t0 <= t1
    modifies runtime, runtime.sessions, runtime.owners
    ensures runtime.Valid() && Sound(runtime.limits, runtime.Model(), t1)
    ensures Well(old(runtime.Model()))
    ensures runtime.Model()
            == AfterObtaining(runtime.limits, old(runtime.Model()), identity, context, preferred, task, fate, t0, t1)
    ensures r.NoSession? || !r.pendingClaim ==> runtime.pending == old(runtime.pending)
    ensures r.Session? && r.pendingClaim ==>
              && runtime.pending == old(runtime.pending)[r.sid := identity]
              && r.sid !in runtime.owners.store.items
    ensures preferred.Some? ==> (r.Session? <==> Free(old(runtime.Model()), preferred.value, identity, t0))
    ensures preferred.Some? && r.Session? ==>
              r == Session(preferred.value, OwnerOf(old(runtime.Model()), preferred.value, t0).None?)
    ensures preferred.None? && r.Session? ==> !r.pendingClaim
    ensures preferred.None? ==>
              (if r.Session? then Some(r.sid) else None)
              == SessionFor(old(runtime.Model()), identity, context, fate, t0, t1)
  {
    hide Perform, Well, Sound, Agreement, Exclusive;
    ghost var before := runtime.Model();
    if preferred.Some? {
      ghost var step := Prefer(identity, context, preferred.value);
      Effects(runtime.limits, before, step, t0);
      RefusedExactly(runtime.limits, before, step, t0);
      if Free(before, preferred.value, identity, t0) {
        ClaimedExactly(runtime.limits, before, step, t0);
      }
      var outcome := runtime.PreferSession(identity, context, preferred.value, t0);
      TimePasses(runtime.limits, runtime.Model(), t0, t1);
      match outcome {
        case Taken(pending) => return Session(preferred.value, pending);
        case _ => return NoSession;
      }
    }
    Effects(runtime.limits, before, Look(identity, context, task), t0);
    Found(runtime.limits, before, identity, context, task, t0);
    var looked := runtime.LookUpSession(identity, context, task, t0);
    TimePasses(runtime.limits, runtime.Model(), t0, t1);
    if looked.Existing? {
      return Session(looked.sid, false);
    }
    var awaited := looked.task;
    match fate {
      case CreateCancelled => return NoSession;
      case CreateRaises =>
        Effects(runtime.limits, runtime.Model(), CreateFailed(identity, context, awaited), t1);
        CreateFailedIsTimeless(runtime.limits, runtime.Model(), identity, context, awaited, t1);
        runtime.CreateFails(identity, context, awaited);
        return NoSession;
      case Creates(sid) =>
        Effects(runtime.limits, runtime.Model(), Record(identity, context, awaited, sid), t1);
        Recorded(runtime.limits, runtime.Model(), identity, context, awaited, sid, t1);
        var recorded := runtime.RecordSession(identity, context, awaited, sid, t1);
        return if recorded == Done then Session(sid, false) else NoSession;
    }
  }

  lemma Found(l: Limits, rt: Runtime, i: Name, c: Name, task: nat, now: real)
    requires Sound(l, rt, now) && Well(rt)
    ensures var r := Perform(l, rt, Look(i, c, task), now);
            && r.after.owners == rt.owners
            && (if Live(rt.sessions.items, (i, c), now)
                then rt.sessions.items[(i, c)].value != "" && r.outcome == Existing(rt.sessions.items[(i, c)].value)
                else r.outcome.Awaits?)
  {
    Outcomes(l, rt, Look(i, c, task), now);
    if Live(rt.sessions.items, (i, c), now) {
      BoundIsNamed(l, rt, (i, c), now);
      LookedUpExactly(l, rt, i, c, task, rt.sessions.items[(i, c)].value, now);
    } else if Perform(l, rt, Look(i, c, task), now).outcome.Existing? {
      LookedUpExactly(l, rt, i, c, task, Perform(l, rt, Look(i, c, task), now).outcome.sid, now);
    }
    hide Sound, Well;
  }

  lemma BoundIsNamed(l: Limits, rt: Runtime, k: Key, now: real)
    requires Sound(l, rt, now) && k in rt.sessions.items
    ensures rt.sessions.items[k].value != ""
  {
  }

  lemma Recorded(l: Limits, rt: Runtime, i: Name, c: Name, task: nat, sid: Name, now: real)
    requires Sound(l, rt, now) && Well(rt)
    ensures Perform(l, rt, Record(i, c, task, sid), now).outcome
            == if OwnerOf(rt, sid, now) in {None, Some(i)} then Done else Forbidden
  {
    Outcomes(l, rt, Record(i, c, task, sid), now);
    RefusedExactly(l, rt, Record(i, c, task, sid), now);
    hide Perform, Sound, Well;
  }

  lemma CreateFailedIsTimeless(l: Limits, rt: Runtime, i: Name, c: Name, task: nat, now: real)
    requires Well(rt)
    ensures Perform(l, rt, CreateFailed(i, c, task), 0.0) == Perform(l, rt, CreateFailed(i, c, task), now)
  {
    hide Well;
  }

  /** Everything a locked section's caller needs to know. */
  lemma Effects(l: Limits, rt: Runtime, step: Step, now: real)
    requires Sound(l, rt, now) && Well(rt)
    ensures Sound(l, Perform(l, rt, step, now).after, now)
    ensures var r := Perform(l, rt, step, now);
            && (step.Prefer? || step.Claim? ==>
                 || (r.outcome in {Forbidden, Taken(false)} && r.after.pending == rt.pending)
                 || (r.outcome == Taken(true) && r.after.pending == rt.pending[step.sid := step.identity]
                     && PendingOn(rt, step.sid) in {None, Some(step.identity)}))
            && (step.Look? ==> r.outcome.Existing? || r.outcome.Awaits?)
            && (!Settles(step) && !step.Release? ==> r.after.pending == rt.pending)
  {
    StepEffects(l, rt, step, now);
    Outcomes(l, rt, step, now);
    hide Perform, Sound, Well;
  }

  /** `_finalize_preferred_session_binding`, as the request that holds the claim sees it: nobody else having run,
      it succeeds. */
  method FinalizeBinding(runtime: SessionRuntime, identity: Name, context: Name, sid: Name, now: real)
    returns (settled: bool)
    requires runtime.Valid() && Sound(runtime.limits, runtime.Model(), now)
    requires sid in runtime.pending && runtime.pending[sid] == identity && sid !in runtime.owners.store.items
    modifies runtime, runtime.sessions, runtime.owners
    ensures runtime.Valid() && settled && runtime.pending == old(runtime.pending) - {sid}
    ensures Well(old(runtime.Model()))
    ensures runtime.Model()
            == Perform(runtime.limits, old(runtime.Model()), FinalizePreferred(identity, context, sid), now).after
    ensures Enabled(Ownership(runtime.limits)) ==>
              && OwnerOf(runtime.Model(), sid, now) == Some(identity)
              && Live(runtime.sessions.store.items, (identity, context), now)
              && runtime.sessions.store.items[(identity, context)].value == sid
  {
    hide Perform, Well, Sound;
    ghost var step := FinalizePreferred(identity, context, sid);
    Outcomes(runtime.limits, runtime.Model(), step, now);
    RefusedExactly(runtime.limits, runtime.Model(), step, now);
    Finalized(runtime.limits, runtime.Model(), step, now);
    var outcome := runtime.FinalizePreferredSession(identity, context, sid, now);
    settled := outcome == Done;
  }

  /** `execute`. A chat request that runs to its end settles its claim and gives back what it locked:
      whatever fails, no claim of its own is left, and every lock is as before. If the session is locked, the
      request waits until its holder hands the lock over or until it is cancelled; either way the lock is
      released in the end, in the second case under its holder. It completes exactly if it got a session and
      its lock and the upstream answered; a claimed session is then the identity's, bound to the context. */
  method Execute(runtime: SessionRuntime, locks: SessionLocks, identity: Name, context: Name, preferred: Option<Name>,
                 task: nat, created: CreateFate, handedOver: bool, upstream: Fate, t0: real, t1: real, t2: real)
    returns (session: Option<Name>, claimed: bool, completed: bool)
    requires runtime.Valid() && Sound(runtime.limits, runtime.Model(), t0) && t0 <= t1 <= t2
    requires locks as object !in {runtime as object, runtime.sessions as object, runtime.owners as object}
    modifies runtime, runtime.sessions, runtime.owners, locks
    ensures runtime.Valid() && Well(old(runtime.Model()))
    ensures var l := runtime.limits;
            var got := AfterObtaining(l, old(runtime.Model()), identity, context, preferred, task, created, t0, t1);
            && Well(got)
            && runtime.Model() == if !claimed || session.None? then got
                                  else if completed then
                                    Perform(l, got, FinalizePreferred(identity, context, session.value), t2).after
                                  else got.(pending := got.pending - {session.value})
    ensures locks.held == if session.Some? then old(locks.held) - {session.value} else old(locks.held)
    ensures runtime.pending == if claimed && session.Some? then old(runtime.pending) - {session.value}
                               else old(runtime.pending)
    ensures completed <==> session.Some? && (session.value !in old(locks.held) || handedOver) && upstream.Answers?
    ensures preferred.None? ==>
              session == SessionFor(old(runtime.Model()), identity, context, created, t0, t1)
    ensures preferred.Some? ==>
              && (session.Some? <==> Free(old(runtime.Model()), preferred.value, identity, t0))
              && (session.Some? ==> session == preferred)
              && (claimed <==> session.Some? && OwnerOf(old(runtime.Model()), preferred.value, t0).None?)
    ensures preferred.None? ==> !claimed
    ensures completed && claimed && Enabled(Ownership(runtime.limits)) ==>
              && OwnerOf(runtime.Model(), session.value, t2) == Some(identity)
              && Live(runtime.sessions.store.items, (identity, context), t2)
              && runtime.sessions.store.items[(identity, context)].value == session.value
  {
    hide Perform, Well, Sound, Agreement, Exclusive, SessionFor, Free, OwnerOf, Live, Enabled, Ownership, Bindings;
    hide AfterObtaining;
    completed := false;
    session := None;
    var pendingClaim := false;
    var lockSet := false;

    // try
    var obtained := GetOrCreateSession(runtime, identity, context, preferred, task, created, t0, t1);
    TimePasses(runtime.limits, runtime.Model(), t1, t2);
    claimed := obtained.Session? && obtained.pendingClaim;
    if obtained.Session? {
      session := Some(obtained.sid);
      pendingClaim := obtained.pendingClaim;
      lockSet := true;
      if obtained.sid in locks.held && handedOver {
        locks.held := locks.held - {obtained.sid};
      }
      if obtained.sid !in locks.held {
        locks.held := locks.held + {obtained.sid};
        if upstream.Answers? {
          completed := true;
          if pendingClaim {
            completed := FinalizeBinding(runtime, identity, context, obtained.sid, t2);
            pendingClaim := !completed;
          }
        }
      }
    }

    // finally
    CleanUp(runtime, locks, identity, session, pendingClaim, lockSet);
  }

  /** The `finally` block of `execute`. */
  method CleanUp(runtime: SessionRuntime, locks: SessionLocks, identity: Name, session: Option<Name>,
                 pendingClaim: bool, lockSet: bool)
    requires runtime.Valid() && (pendingClaim ==> session.Some? && PendingOn(runtime.Model(), session.value) == Some(identity))
    requires locks as object != runtime as object
    modifies runtime`pending, locks
    ensures runtime.Valid() && runtime.Model() == old(runtime.Model()).(pending := runtime.pending)
    ensures runtime.pending == if pendingClaim then old(runtime.pending) - {session.value} else old(runtime.pending)
    ensures locks.held == if lockSet && session.Some? then old(locks.held) - {session.value} else old(locks.held)
  {
    hide Perform, Well;
    if pendingClaim && session.Some? {
      Released(runtime.limits, runtime.Model(), identity, session.value);
      runtime.ReleaseClaim(identity, session.value);
    }
    if lockSet && session.Some? && session.value in locks.held {
      locks.held := locks.held - {session.value};
    }
  }

  lemma Finalized(l: Limits, rt: Runtime, step: Step, now: real)
    requires Sound(l, rt, now) && Well(rt) && (step.FinalizePreferred? || step.FinalizeClaim?)
    ensures var r := Perform(l, rt, step, now);
            r.outcome == Done && Enabled(Ownership(l)) ==>
              && OwnerOf(r.after, step.sid, now) == Some(step.identity)
              && (step.FinalizePreferred? ==>
                   var k := (step.identity, step.context);
                   Live(r.after.sessions.items, k, now) && r.after.sessions.items[k].value == step.sid)
  {
    if Perform(l, rt, step, now).outcome == Done {
      FinalizedOwns(l, rt, step, now);
    }
    hide Perform, Sound, Well;
  }

  lemma Released(l: Limits, rt: Runtime, identity: Name, sid: Name)
    requires Well(rt) && PendingOn(rt, sid) == Some(identity)
    ensures Perform(l, rt, Release(identity, sid), 0.0).after == rt.(pending := rt.pending - {sid})
  {
    hide Well;
  }

  datatype Status = Success | SessionForbidden | Failed

  /** `handle_session_control_request`. A caller without an identity makes no claim. */
  method HandleSessionControl(runtime: SessionRuntime, caller: Option<Name>, sid: Name, upstream: Fate, t0: real, t1: real)
    returns (status: Status, claimed: bool)
    requires runtime.Valid() && Sound(runtime.limits, runtime.Model(), t0) && t0 <= t1
    modifies runtime, runtime.owners
    ensures runtime.Valid() && Well(old(runtime.Model()))
    ensures caller.Some? ==>
              var got := Perform(runtime.limits, old(runtime.Model()), Claim(caller.value, sid), t0).after;
              && Well(got)
              && runtime.Model() == if !claimed then got
                                    else if status.Success? then
                                      Perform(runtime.limits, got, FinalizeClaim(caller.value, sid), t1).after
                                    else got.(pending := got.pending - {sid})
    ensures runtime.pending == if claimed then old(runtime.pending) - {sid} else old(runtime.pending)
    ensures caller.None? ==> runtime.Model() == old(runtime.Model()) && !claimed
    ensures var free := caller.None? || Free(old(runtime.Model()), sid, caller.value, t0);
            && (status.SessionForbidden? <==> !free)
            && (status.Success? <==> free && upstream.Answers?)
            && (claimed <==> caller.Some? && free && OwnerOf(old(runtime.Model()), sid, t0).None?)
    ensures status.Success? && claimed && Enabled(Ownership(runtime.limits)) ==>
              OwnerOf(runtime.Model(), sid, t1) == caller
  {
    hide Perform, Well, Sound, Agreement, Exclusive;
    var claimFinalized := false;
    claimed := false;
    if caller.Some? {
      var identity: Name := caller.value;
      RefusedExactly(runtime.limits, runtime.Model(), Claim(identity, sid), t0);
      Effects(runtime.limits, runtime.Model(), Claim(identity, sid), t0);
      if Free(runtime.Model(), sid, identity, t0) {
        ClaimedExactly(runtime.limits, runtime.Model(), Claim(identity, sid), t0);
      }
      var taken := runtime.ClaimSession(identity, sid, t0);
      TimePasses(runtime.limits, runtime.Model(), t0, t1);
      if taken.Forbidden? {
        return SessionForbidden, false;
      }
      claimed := taken.pending;
    }

    // try
    status := if upstream.Answers? then Success else Failed;
    if upstream.Answers? && claimed && caller.Some? {
      ghost var step := FinalizeClaim(caller.value, sid);
      Outcomes(runtime.limits, runtime.Model(), step, t1);
      RefusedExactly(runtime.limits, runtime.Model(), step, t1);
      Finalized(runtime.limits, runtime.Model(), step, t1);
      var settled := runtime.FinalizeSessionClaim(caller.value, sid, t1);
      claimFinalized := settled == Done;
      status := if claimFinalized then Success else SessionForbidden;
    }

    // finally
    if claimed && !claimFinalized && caller.Some? {
      Released(runtime.limits, runtime.Model(), caller.value, sid);
      runtime.ReleaseClaim(caller.value, sid);
    }
  }
}
