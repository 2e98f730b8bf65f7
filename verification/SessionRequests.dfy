/** Concurrent chat and session-control requests on one session runtime: `execute` and
    `handle_session_control_request` as state machines whose steps interleave in any order.
    A request can be cancelled at any of its awaits, and once more while its `finally` block waits to release
    its claim. */
module SessionRequests {
  import opened Text
  import opened SessionRuntime

  datatype Kind = Chat(context: Name, preferred: Option<Name>) | Control(sid: Name)

  datatype Phase =
    | Fresh
    | Waiting(task: nat)      // in `await task`
    | Bound                   // has a session, has not asked for its lock
    | Queued                  // in `await session_lock.acquire()`
    | Active                  // talking to the upstream
    | Closing                 // in the `finally` block, before the claim is released
    | Unlocking               // in the `finally` block, before the session lock is
    | Finished
    | Abandoned               // cancelled again before the claim was released: the rest of `finally` is skipped

  /** `lockSet` is `session_lock is not None`; `holds` is history: the request's own acquire returned and it
      has not released; `via` is history: the create whose result the session is. */
  datatype Request = Request(
    identity: Name,
    kind: Kind,
    phase: Phase,
    session: Option<Name>,
    claim: bool,
    lockSet: bool,
    holds: bool,
    via: Option<nat>)

  datatype CreateState = InProgress | Returned(sid: Name) | Raised | Stopped

  /** One `create_session` task: the key it was registered for, whether it was asked to cancel, its result. */
  datatype Create = Create(key: Key, cancelling: bool, state: CreateState)

  datatype System = System(
    rt: Runtime,
    requests: map<nat, Request>,
    creates: map<nat, Create>,
    locked: set<Name>)

  const IDLE: System := System(EMPTY, map[], map[], {})

  datatype Action =
    | Arrive(r: nat, identity: Name, kind: Kind)
    | Begin(r: nat, task: nat, now: real)
    | CreateReturns(t: nat, sid: Name)
    | CreateRaises(t: nat)
    | CreateStops(t: nat)
    | Wake(r: nat, now: real)
    | Enter(r: nat)
    | Acquire(r: nat)
    | Finalize(r: nat, now: real)
    | Leave(r: nat)
    | Cancel(r: nat)
    | CancelAgain(r: nat)
    | Close(r: nat, now: real)
    | Unlock(r: nat)
    | CancelContext(identity: Name, context: Name, now: real)

  predicate In(sys: System, r: nat, phase: Phase) {
    r in sys.requests && sys.requests[r].phase == phase
  }

  /** A request waits for a create that is over. */
  predicate Woken(sys: System, r: nat) {
    && r in sys.requests && sys.requests[r].phase.Waiting? && sys.requests[r].kind.Chat?
    && sys.requests[r].phase.task in sys.creates && !sys.creates[sys.requests[r].phase.task].state.InProgress?
  }

  /** The locked section an action runs, if it runs one. */
  function SectionOf(sys: System, a: Action): Option<Section> {
    match a
    case Begin(r, task, now) =>
      if !In(sys, r, Fresh) then None
      else
        var q := sys.requests[r];
        (match q.kind
         case Chat(c, Some(s)) => Some(Section(Prefer(q.identity, c, s), now))
         case Chat(c, None) => if task in sys.creates then None else Some(Section(Look(q.identity, c, task), now))
         case Control(s) => Some(Section(Claim(q.identity, s), now)))
    case Wake(r, now) =>
      if !Woken(sys, r) then None
      else
        var q := sys.requests[r];
        (match sys.creates[q.phase.task].state
         case Returned(s) => Some(Section(Record(q.identity, q.kind.context, q.phase.task, s), now))
         case Raised => Some(Section(CreateFailed(q.identity, q.kind.context, q.phase.task), now))
         case _ => None)
    case Finalize(r, now) =>
      if !In(sys, r, Active) || !sys.requests[r].claim || sys.requests[r].session.None? then None
      else
        var q := sys.requests[r];
        Some(Section(if q.kind.Chat? then FinalizePreferred(q.identity, q.kind.context, q.session.value)
                     else FinalizeClaim(q.identity, q.session.value), now))
    case Close(r, now) =>
      if In(sys, r, Closing) && sys.requests[r].claim && sys.requests[r].session.Some?
      then Some(Section(Release(sys.requests[r].identity, sys.requests[r].session.value), now)) else None
    case CancelContext(i, c, now) => Some(Section(CancelRunning(i, c), now))
    case _ => None
  }

  /** How a request goes on after its first locked section. */
  function AfterBegin(q: Request, outcome: Outcome): Request {
    match outcome
    case Forbidden => q.(phase := if q.kind.Chat? then Closing else Finished)
    case Taken(pending) =>
      if q.kind.Chat? && q.kind.preferred.Some?
      then q.(phase := Bound, session := q.kind.preferred, claim := pending)
      else if q.kind.Control? then q.(phase := Active, session := Some(q.kind.sid), claim := pending)
      else q
    case Existing(s) => q.(phase := Bound, session := Some(s))
    case Awaits(t) => q.(phase := Waiting(t))
    case _ => q
  }

  /** How a request goes on after the create it waited for. */
  function AfterWake(q: Request, create: Create, outcome: Outcome): Request
    requires q.phase.Waiting?
  {
    if create.state.Returned? && outcome == Done
    then q.(phase := Bound, session := Some(create.state.sid), via := Some(q.phase.task))
    else q.(phase := Closing)
  }

  function Stop(creates: map<nat, Create>, t: nat): map<nat, Create> {
    if t in creates && creates[t].state.InProgress? then creates[t := creates[t].(cancelling := true)] else creates
  }

  function Finish(creates: map<nat, Create>, t: nat, state: CreateState): map<nat, Create> {
    if t in creates && creates[t].state.InProgress? then creates[t := creates[t].(state := state)] else creates
  }

  /** The new form of the request an action is about, if the action is enabled. */
  function NextRequest(sys: System, a: Action, outcome: Outcome): Option<Request> {
    match a
    case Arrive(r, i, kind) =>
      if r in sys.requests then None else Some(Request(i, kind, Fresh, None, false, false, false, None))
    case Begin(r, _, _) =>
      if SectionOf(sys, a).None? then None else Some(AfterBegin(sys.requests[r], outcome))
    case Wake(r, _) =>
      if !Woken(sys, r) then None
      else Some(AfterWake(sys.requests[r], sys.creates[sys.requests[r].phase.task], outcome))
    case Enter(r) =>
      if !In(sys, r, Bound) || sys.requests[r].session.None? then None
      else
        var q := sys.requests[r].(lockSet := true);
        Some(if q.session.value in sys.locked then q.(phase := Queued) else q.(phase := Active, holds := true))
    case Acquire(r) =>
      if !CanAcquire(sys, r) then None else Some(sys.requests[r].(phase := Active, holds := true))
    case Finalize(r, _) =>
      if SectionOf(sys, a).None? then None
      else if outcome == Forbidden then Some(sys.requests[r].(phase := Closing))
      else Some(sys.requests[r].(claim := false))
    case Leave(r) =>
      if In(sys, r, Active) then Some(sys.requests[r].(phase := Closing)) else None
    case Cancel(r) =>
      if CanStop(sys, r) then Some(sys.requests[r].(phase := Closing)) else None
    case CancelAgain(r) =>
      if In(sys, r, Closing) && sys.requests[r].claim then Some(sys.requests[r].(phase := Abandoned)) else None
    case Close(r, _) =>
      if In(sys, r, Closing) then Some(sys.requests[r].(phase := Unlocking, claim := false)) else None
    case Unlock(r) =>
      if In(sys, r, Unlocking) then Some(sys.requests[r].(phase := Finished, holds := false)) else None
    case _ => None
  }

  predicate CanAcquire(sys: System, r: nat) {
    In(sys, r, Queued) && sys.requests[r].session.Some? && sys.requests[r].session.value !in sys.locked
  }

  /** The request waits for a create that is still running: cancelling it cancels the create instead. */
  predicate AwaitsCreate(sys: System, r: nat) {
    && r in sys.requests && sys.requests[r].phase.Waiting?
    && sys.requests[r].phase.task in sys.creates && sys.creates[sys.requests[r].phase.task].state.InProgress?
  }

  /** Cancelling the request ends it at its await. */
  predicate CanStop(sys: System, r: nat) {
    && r in sys.requests && !AwaitsCreate(sys, r)
    && (sys.requests[r].phase.Waiting? || sys.requests[r].phase in {Fresh, Bound, Queued})
  }

  function NextCreates(sys: System, a: Action, outcome: Outcome): map<nat, Create> {
    match a
    case Begin(r, task, _) =>
      if SectionOf(sys, a).Some? && sys.requests[r].kind.Chat? && outcome == Awaits(task) && task !in sys.creates
      then sys.creates[task := Create((sys.requests[r].identity, sys.requests[r].kind.context), false, InProgress)]
      else sys.creates
    case CreateReturns(t, s) => Finish(sys.creates, t, Returned(s))
    case CreateRaises(t) => Finish(sys.creates, t, Raised)
    case CreateStops(t) =>
      if t in sys.creates && sys.creates[t].cancelling then Finish(sys.creates, t, Stopped) else sys.creates
    case Cancel(r) => if AwaitsCreate(sys, r) then Stop(sys.creates, sys.requests[r].phase.task) else sys.creates
    case CancelContext(i, c, _) =>
      if (i, c) in sys.rt.inflight then Stop(sys.creates, sys.rt.inflight[(i, c)]) else sys.creates
    case _ => sys.creates
  }

  /** `finally` releases the session lock whenever it is locked, whoever holds it. */
  function NextLocked(sys: System, a: Action): set<Name> {
    match a
    case Enter(r) =>
      if In(sys, r, Bound) && sys.requests[r].session.Some? then sys.locked + {sys.requests[r].session.value}
      else sys.locked
    case Acquire(r) => if CanAcquire(sys, r) then sys.locked + {sys.requests[r].session.value} else sys.locked
    case Unlock(r) =>
      if In(sys, r, Unlocking) && sys.requests[r].lockSet && sys.requests[r].session.Some?
      then sys.locked - {sys.requests[r].session.value} else sys.locked
    case _ => sys.locked
  }

  /** The request an action is about. */
  function Subject(a: Action): Option<nat> {
    if a.CreateReturns? || a.CreateRaises? || a.CreateStops? || a.CancelContext? then None else Some(a.r)
  }

  function RunSection(l: Limits, sys: System, a: Action): Result
    requires Well(sys.rt)
  {
    match SectionOf(sys, a)
    case Some(section) => Perform(l, sys.rt, section.step, section.now)
    case None => Result(sys.rt, Done)
  }

  /** One action: its locked section, and how the request, the creates and the session locks go on. */
  function Apply(l: Limits, sys: System, a: Action): System
    requires Well(sys.rt)
  {
    var result := RunSection(l, sys, a);
    var next := NextRequest(sys, a, result.outcome);
    System(result.after,
           if Subject(a).Some? && next.Some? then sys.requests[Subject(a).value := next.value] else sys.requests,
           NextCreates(sys, a, result.outcome),
           NextLocked(sys, a))
  }

  lemma ApplyWell(l: Limits, sys: System, a: Action)
    requires Well(sys.rt)
    ensures Well(Apply(l, sys, a).rt)
  {
    hide Perform, NextRequest, NextCreates, Well;
    var section := SectionOf(sys, a);
    if section.Some? {
      StepWell(l, sys.rt, section.value.step, section.value.now);
    }
  }

  /** The system after an interleaving, starting idle. */
  function After(l: Limits, run: seq<Action>): (sys: System)
    ensures Well(sys.rt)
  {
    if run == [] then IDLE
    else
      ApplyWell(l, After(l, run[..|run| - 1]), run[|run| - 1]);
      Apply(l, After(l, run[..|run| - 1]), run[|run| - 1])
  }

  // ------------------------------------------------- the runtime underneath

  /** The locked sections of an interleaving, in order. */
  function Sections(l: Limits, run: seq<Action>): seq<Section> {
    if run == [] then []
    else
      var section := SectionOf(After(l, run[..|run| - 1]), run[|run| - 1]);
      Sections(l, run[..|run| - 1]) + if section.Some? then [section.value] else []
  }

  /** Requests reach the runtime through locked sections only, so whatever holds of every interleaving of
      locked sections holds of it whatever the requests do. */
  lemma {:induction false} RuntimeIsRun(l: Limits, run: seq<Action>)
    ensures After(l, run).rt == RunAfter(l, Sections(l, run))
  {
    if run != [] {
      var init, a := run[..|run| - 1], run[|run| - 1];
      RuntimeIsRun(l, init);
      LastAction(l, run);
      LastSection(l, run);
      hide Perform, Apply, SectionOf, After, RunAfter, Sections, Well;
      RuntimeStep(l, After(l, init), a);
      if SectionOf(After(l, init), a).Some? {
        RunAfterSnoc(l, Sections(l, init), SectionOf(After(l, init), a).value);
      }
    }
  }

  lemma LastSection(l: Limits, run: seq<Action>)
    requires run != []
    ensures var init := run[..|run| - 1];
            var section := SectionOf(After(l, init), run[|run| - 1]);
            Sections(l, run) == if section.Some? then Sections(l, init) + [section.value] else Sections(l, init)
  {
    hide SectionOf, After;
  }

  lemma RuntimeStep(l: Limits, sys: System, a: Action)
    requires Well(sys.rt)
    ensures var section := SectionOf(sys, a);
            Apply(l, sys, a).rt ==
            if section.Some? then Perform(l, sys.rt, section.value.step, section.value.now).after else sys.rt
  {
    hide Perform, SectionOf, NextRequest, NextCreates, NextLocked;
  }

  lemma LastAction(l: Limits, run: seq<Action>)
    requires run != []
    ensures After(l, run) == Apply(l, After(l, run[..|run| - 1]), run[|run| - 1])
  {
    hide Apply;
  }

  /** Over every interleaving of requests whose clock never goes back and whose owner cache never evicted a
      live entry, bindings and owners agree and no session is bound to two identities. */
  lemma RequestsShareNoSession(l: Limits, run: seq<Action>, now: real, a: Key, b: Key)
    requires Until(Sections(l, run), now) && KeepsOwners(l, Sections(l, run))
    ensures Agreement(After(l, run).rt, now)
    ensures var items := After(l, run).rt.sessions.items;
            (a in items && b in items && items[a].expiry > now && items[b].expiry > now
             && items[a].value == items[b].value) ==> a.0 == b.0
  {
    hide After, RunAfter, Sections, KeepsOwners, Until, Agreement, Well;
    RuntimeIsRun(l, run);
    BindingsAgreeWithOwners(l, Sections(l, run), now);
    var items := After(l, run).rt.sessions.items;
    if a in items && b in items && items[a].expiry > now && items[b].expiry > now && items[a].value == items[b].value {
      OneIdentityPerSession(l, Sections(l, run), now, a, b);
    }
  }

  // ----------------------------------------------------------------- claims

  /** What is always true of a request. */
  predicate RequestOk(q: Request) {
    && (q.claim ==> q.session.Some? && q.phase in {Bound, Queued, Active, Closing, Abandoned})
    && (q.phase in {Bound, Queued, Active} ==> q.session.Some?)
    && (q.phase.Waiting? || q.phase in {Bound, Queued} ==> q.kind.Chat?)
    && (q.phase.Fresh? || q.phase.Waiting? ==> q.session.None? && q.via.None?)
    && (q.phase == Queued ==> q.lockSet && !q.holds)
    && (q.phase == Active && q.kind.Chat? ==> q.lockSet && q.holds)
    && (q.holds ==> q.session.Some? && q.lockSet && q.phase in {Active, Closing, Unlocking, Abandoned})
    && (q.lockSet ==> q.kind.Chat? && q.session.Some? && q.phase in {Queued, Active, Closing, Unlocking, Finished, Abandoned})
  }

  /** An unfinished request of identity i holds a claim on s that it has not finalized. */
  predicate HoldsClaim(q: Request, i: Name, s: Name) {
    q.claim && q.identity == i && q.session == Some(s) && q.phase != Finished && q.phase != Abandoned
  }

  ghost predicate Claimed(sys: System, s: Name)
    requires s in sys.rt.pending
  {
    exists r :: r in sys.requests && HoldsClaim(sys.requests[r], sys.rt.pending[s], s)
  }

  ghost predicate RequestsOk(sys: System) {
    forall r :: r in sys.requests ==> RequestOk(sys.requests[r])
  }

  /** Every pending claim s -> i is held by an unfinished request of identity i. */
  ghost predicate ClaimsHeld(sys: System) {
    forall s :: s in sys.rt.pending ==> Claimed(sys, s)
  }

  /** The only holder of a pending claim is cancelled again while it waits to release it. */
  ghost predicate Strands(sys: System, a: Action) {
    && a.CancelAgain? && In(sys, a.r, Closing) && sys.requests[a.r].claim && sys.requests[a.r].session.Some?
    && var i, s := sys.requests[a.r].identity, sys.requests[a.r].session.value;
    && PendingOn(sys.rt, s) == Some(i)
    && forall q :: q in sys.requests && q != a.r ==> !HoldsClaim(sys.requests[q], i, s)
  }

  /** Only the action's own request changes. */
  lemma RequestAfter(l: Limits, sys: System, a: Action, r: nat)
    requires Well(sys.rt) && r in Apply(l, sys, a).requests
    ensures var q := Apply(l, sys, a).requests[r];
            if Subject(a) == Some(r) && NextRequest(sys, a, RunSection(l, sys, a).outcome).Some?
            then NextRequest(sys, a, RunSection(l, sys, a).outcome) == Some(q)
            else r in sys.requests && q == sys.requests[r]
  {
    hide RunSection, NextRequest, NextCreates, NextLocked;
  }

  lemma NextRequestOk(l: Limits, sys: System, a: Action)
    requires Well(sys.rt) && Subject(a).Some?
    requires Subject(a).value in sys.requests ==> RequestOk(sys.requests[Subject(a).value])
    ensures var next := NextRequest(sys, a, RunSection(l, sys, a).outcome); next.Some? ==> RequestOk(next.value)
  {
    hide Perform;
    if a.Begin? {
      BeginOk(l, sys, a);
    } else if !a.Wake? && !a.Finalize? {
      OtherStepOk(sys, a, RunSection(l, sys, a).outcome);
    }
  }

  lemma BeginOk(l: Limits, sys: System, a: Action)
    requires Well(sys.rt) && a.Begin? && (a.r in sys.requests ==> RequestOk(sys.requests[a.r]))
    ensures var next := NextRequest(sys, a, RunSection(l, sys, a).outcome); next.Some? ==> RequestOk(next.value)
  {
    var section := SectionOf(sys, a);
    if section.Some? {
      Outcomes(l, sys.rt, section.value.step, section.value.now);
    }
    hide Perform;
  }

  lemma OtherStepOk(sys: System, a: Action, outcome: Outcome)
    requires !a.Begin? && !a.Wake? && !a.Finalize? && Subject(a).Some?
    requires a.r in sys.requests ==> RequestOk(sys.requests[a.r])
    ensures var next := NextRequest(sys, a, outcome); next.Some? ==> RequestOk(next.value)
  {
    hide SectionOf;
  }

  lemma RequestsKept(l: Limits, sys: System, a: Action)
    requires Well(sys.rt) && (forall r :: r in sys.requests ==> RequestOk(sys.requests[r]))
    ensures forall r :: r in Apply(l, sys, a).requests ==> RequestOk(Apply(l, sys, a).requests[r])
  {
    hide Apply, RunSection, NextRequest, RequestOk;
    forall r | r in Apply(l, sys, a).requests ensures RequestOk(Apply(l, sys, a).requests[r]) {
      RequestAfter(l, sys, a, r);
      if Subject(a) == Some(r) {
        NextRequestOk(l, sys, a);
      }
    }
  }

  /** A request keeps its claim unless the runtime drops it in the same step. */
  lemma StillHolds(l: Limits, sys: System, a: Action, s: Name, r: nat)
    requires Well(sys.rt) && r in sys.requests && RequestOk(sys.requests[r])
    requires s in RunSection(l, sys, a).after.pending
    requires HoldsClaim(sys.requests[r], RunSection(l, sys, a).after.pending[s], s)
    requires Subject(a) == Some(r) && !a.CancelAgain?
    ensures var next := NextRequest(sys, a, RunSection(l, sys, a).outcome);
            next.Some? ==> HoldsClaim(next.value, RunSection(l, sys, a).after.pending[s], s)
  {
    var section := SectionOf(sys, a);
    if section.Some? {
      Outcomes(l, sys.rt, section.value.step, section.value.now);
    }
    hide Perform;
  }

  /** A new claim is that of the request that began. */
  lemma NewClaim(l: Limits, sys: System, a: Action, s: Name)
    requires Well(sys.rt)
    requires s in RunSection(l, sys, a).after.pending
    requires PendingOn(sys.rt, s) != Some(RunSection(l, sys, a).after.pending[s])
    ensures Subject(a).Some?
    ensures var next := NextRequest(sys, a, RunSection(l, sys, a).outcome);
            next.Some? && HoldsClaim(next.value, RunSection(l, sys, a).after.pending[s], s)
  {
    var section := SectionOf(sys, a);
    if section.Some? {
      Outcomes(l, sys.rt, section.value.step, section.value.now);
    }
    hide Perform;
  }

  lemma Applied(l: Limits, sys: System, a: Action)
    requires Well(sys.rt)
    ensures Apply(l, sys, a).rt == RunSection(l, sys, a).after
    ensures forall r :: r in sys.requests ==> r in Apply(l, sys, a).requests
    ensures Subject(a).Some? && NextRequest(sys, a, RunSection(l, sys, a).outcome).Some? ==>
              Subject(a).value in Apply(l, sys, a).requests
    ensures Apply(l, sys, a).creates == NextCreates(sys, a, RunSection(l, sys, a).outcome)
    ensures Apply(l, sys, a).locked == NextLocked(sys, a)
  {
    hide RunSection, NextRequest, NextCreates, NextLocked;
  }

  lemma ClaimKept(l: Limits, sys: System, a: Action, s: Name)
    requires Well(sys.rt) && RequestsOk(sys) && ClaimsHeld(sys) && !Strands(sys, a)
    requires s in Apply(l, sys, a).rt.pending
    ensures Claimed(Apply(l, sys, a), s)
  {
    Applied(l, sys, a);
    hide Apply, RunSection, NextRequest, RequestOk, HoldsClaim, Strands, SectionOf;
    var i := RunSection(l, sys, a).after.pending[s];
    if PendingOn(sys.rt, s) == Some(i) {
      assert Claimed(sys, s);
      var r :| r in sys.requests && HoldsClaim(sys.requests[r], i, s);
      HolderGoesOn(l, sys, a, i, s, r);
    } else {
      NewClaim(l, sys, a, s);
      RequestAfter(l, sys, a, Subject(a).value);
    }
  }

  lemma HolderGoesOn(l: Limits, sys: System, a: Action, i: Name, s: Name, holder: nat)
    requires Well(sys.rt) && RequestsOk(sys) && !Strands(sys, a)
    requires holder in sys.requests && HoldsClaim(sys.requests[holder], i, s) && PendingOn(sys.rt, s) == Some(i)
    requires PendingOn(RunSection(l, sys, a).after, s) == Some(i)
    ensures var after := Apply(l, sys, a);
            exists r :: r in after.requests && HoldsClaim(after.requests[r], i, s)
  {
    Applied(l, sys, a);
    hide Apply, RunSection, NextRequest, RequestOk, HoldsClaim, Strands, SectionOf;
    var r := holder;
    if a.CancelAgain? && a.r == r {
      r := OtherHolder(sys, a, i, s);
    }
    RequestAfter(l, sys, a, r);
    if Subject(a) == Some(r) && !a.CancelAgain? {
      StillHolds(l, sys, a, s, r);
    }
    assert HoldsClaim(Apply(l, sys, a).requests[r], i, s);
  }

  /** If a second cancellation does not strand its claim, somebody else holds it, or it did not happen. */
  lemma OtherHolder(sys: System, a: Action, i: Name, s: Name) returns (r: nat)
    requires a.CancelAgain? && !Strands(sys, a) && a.r in sys.requests
    requires HoldsClaim(sys.requests[a.r], i, s) && PendingOn(sys.rt, s) == Some(i)
    ensures r in sys.requests && HoldsClaim(sys.requests[r], i, s)
    ensures r == a.r ==> forall outcome :: NextRequest(sys, a, outcome).None?
  {
    r := a.r;
    if In(sys, a.r, Closing) {
      r :| r in sys.requests && r != a.r && HoldsClaim(sys.requests[r], i, s);
    }
  }

  /** An action keeps all claims held if and only if it does not strand one. */
  lemma ClaimsKept(l: Limits, sys: System, a: Action)
    requires Well(sys.rt) && RequestsOk(sys) && ClaimsHeld(sys)
    ensures ClaimsHeld(Apply(l, sys, a)) <==> !Strands(sys, a)
  {
    if Strands(sys, a) {
      ClaimStranded(l, sys, a);
    } else {
      hide Apply, Strands, RequestOk, Claimed;
      forall s | s in Apply(l, sys, a).rt.pending ensures Claimed(Apply(l, sys, a), s) {
        ClaimKept(l, sys, a, s);
      }
    }
  }

  lemma ClaimStranded(l: Limits, sys: System, a: Action)
    requires Well(sys.rt) && Strands(sys, a)
    ensures !ClaimsHeld(Apply(l, sys, a))
    ensures In(Apply(l, sys, a), a.r, Abandoned)
  {
    var i, s := sys.requests[a.r].identity, sys.requests[a.r].session.value;
    Applied(l, sys, a);
    RequestAfter(l, sys, a, a.r);
    var after := Apply(l, sys, a);
    hide Apply, Perform;
    assert s in after.rt.pending && after.rt.pending[s] == i;
    forall r | r in after.requests ensures !HoldsClaim(after.requests[r], i, s) {
      RequestAfter(l, sys, a, r);
    }
    assert !Claimed(after, s);
  }

  lemma {:induction false} RequestsAreOk(l: Limits, run: seq<Action>)
    ensures RequestsOk(After(l, run))
  {
    if run != [] {
      RequestsAreOk(l, run[..|run| - 1]);
      LastAction(l, run);
      hide Apply, After, RequestOk;
      RequestsKept(l, After(l, run[..|run| - 1]), run[|run| - 1]);
    }
  }

  ghost predicate NeverStrands(l: Limits, run: seq<Action>) {
    run == [] ||
    var init := run[..|run| - 1];
    NeverStrands(l, init) && !Strands(After(l, init), run[|run| - 1])
  }

  ghost predicate ClaimsAlwaysHeld(l: Limits, run: seq<Action>) {
    ClaimsHeld(After(l, run)) && (run == [] || ClaimsAlwaysHeld(l, run[..|run| - 1]))
  }

  /** No claim leaks: throughout an interleaving, whatever fails or is cancelled, every pending claim s -> i is
      held by an unfinished request of identity i that has not finalized it, if and only if no claim's only
      holder was cancelled a second time while it waited to release it. */
  lemma {:induction false} NoLeakedClaims(l: Limits, run: seq<Action>)
    ensures ClaimsAlwaysHeld(l, run) <==> NeverStrands(l, run)
  {
    if run != [] {
      var init := run[..|run| - 1];
      NoLeakedClaims(l, init);
      RequestsAreOk(l, init);
      LastAction(l, run);
      hide Apply, After, RequestsOk, ClaimsHeld, Strands;
      if ClaimsAlwaysHeld(l, init) {
        ClaimsKept(l, After(l, init), run[|run| - 1]);
      }
    }
  }

  lemma AbandonedStays(l: Limits, sys: System, a: Action, r: nat)
    requires Well(sys.rt) && In(sys, r, Abandoned)
    ensures In(Apply(l, sys, a), r, Abandoned)
  {
    Applied(l, sys, a);
    RequestAfter(l, sys, a, r);
    hide Apply, Perform;
  }

  /** A stranded claim leaves an abandoned request behind. */
  lemma {:induction false} StrandingShows(l: Limits, run: seq<Action>)
    ensures NeverStrands(l, run) || exists r :: In(After(l, run), r, Abandoned)
  {
    if run != [] {
      var init, a := run[..|run| - 1], run[|run| - 1];
      StrandingShows(l, init);
      LastAction(l, run);
      hide After, Apply, Strands;
      if Strands(After(l, init), a) {
        ClaimStranded(l, After(l, init), a);
      } else if !NeverStrands(l, init) {
        var r :| In(After(l, init), r, Abandoned);
        AbandonedStays(l, After(l, init), a, r);
      }
    }
  }

  /** When all requests are done, nothing is claimed. */
  lemma NothingClaimedAtRest(l: Limits, run: seq<Action>)
    requires forall r :: r in After(l, run).requests ==> After(l, run).requests[r].phase == Finished
    ensures After(l, run).rt.pending == map[]
  {
    StrandingShows(l, run);
    NoLeakedClaims(l, run);
    assert ClaimsHeld(After(l, run)) by { hide After; }
    hide After, NeverStrands, ClaimsAlwaysHeld;
    assert forall s :: s in After(l, run).rt.pending ==> Claimed(After(l, run), s);
  }

  // ---------------------------------------------------------------- creates

  /** The register names creates of its keys, and every create that is neither over nor being cancelled is
      registered. */
  ghost predicate Registered(inflight: map<Key, nat>, creates: map<nat, Create>) {
    && (forall k :: k in inflight ==> inflight[k] in creates && creates[inflight[k]].key == k)
    && (forall t :: t in creates && creates[t].state.InProgress? && !creates[t].cancelling ==>
          creates[t].key in inflight && inflight[creates[t].key] == t)
  }

  /** A waiting request waits for a create of its own key; a request that got its session from a create has
      that create's result. */
  predicate WaiterOk(q: Request, creates: map<nat, Create>) {
    && (q.phase.Waiting? ==>
         q.kind.Chat? && q.phase.task in creates && creates[q.phase.task].key == (q.identity, q.kind.context))
    && (q.via.Some? ==>
         q.via.value in creates && creates[q.via.value].state.Returned?
         && q.session == Some(creates[q.via.value].state.sid))
  }

  ghost predicate CreatesOk(sys: System) {
    && Registered(sys.rt.inflight, sys.creates)
    && (forall r :: r in sys.requests ==> WaiterOk(sys.requests[r], sys.creates))
  }

  /** Creates are never forgotten, keep their key, and once over do not change. */
  ghost predicate Grows(before: map<nat, Create>, after: map<nat, Create>) {
    forall t :: t in before ==>
      && t in after && after[t].key == before[t].key
      && (!before[t].state.InProgress? ==> after[t] == before[t])
  }

  lemma CreatesGrow(sys: System, a: Action, outcome: Outcome)
    ensures Grows(sys.creates, NextCreates(sys, a, outcome))
  {
    hide SectionOf;
  }

  lemma RegisteredKept(l: Limits, sys: System, a: Action)
    requires Well(sys.rt) && Registered(sys.rt.inflight, sys.creates)
    ensures var result := RunSection(l, sys, a);
            Registered(result.after.inflight, NextCreates(sys, a, result.outcome))
  {
    hide Perform, Registered;
    if a.Begin? {
      RegisteredByBegin(l, sys, a);
    } else if a.Wake? {
      RegisteredByWake(l, sys, a);
    } else if a.CancelContext? {
      RegisteredByCancel(l, sys, a);
    } else {
      RegisteredByOthers(l, sys, a);
    }
  }

  lemma RegisteredByBegin(l: Limits, sys: System, a: Action)
    requires Well(sys.rt) && Registered(sys.rt.inflight, sys.creates) && a.Begin?
    ensures Registered(RunSection(l, sys, a).after.inflight, NextCreates(sys, a, RunSection(l, sys, a).outcome))
  {
    var section := SectionOf(sys, a);
    if section.Some? {
      RegisterEffects(l, sys.rt, section.value.step, section.value.now);
    }
    hide Perform;
  }

  lemma RegisteredByWake(l: Limits, sys: System, a: Action)
    requires Well(sys.rt) && Registered(sys.rt.inflight, sys.creates) && a.Wake?
    ensures Registered(RunSection(l, sys, a).after.inflight, NextCreates(sys, a, RunSection(l, sys, a).outcome))
  {
    var section := SectionOf(sys, a);
    if section.Some? {
      RegisterEffects(l, sys.rt, section.value.step, section.value.now);
    }
    hide Perform;
  }

  lemma RegisteredByCancel(l: Limits, sys: System, a: Action)
    requires Well(sys.rt) && Registered(sys.rt.inflight, sys.creates) && a.CancelContext?
    ensures Registered(RunSection(l, sys, a).after.inflight, NextCreates(sys, a, RunSection(l, sys, a).outcome))
  {
    RegisterEffects(l, sys.rt, SectionOf(sys, a).value.step, a.now);
    UnregisteredIsStopped(sys.rt.inflight, sys.creates, (a.identity, a.context));
    hide Perform, Registered, Stop;
  }

  /** Taking a create from the register and cancelling it. */
  lemma UnregisteredIsStopped(inflight: map<Key, nat>, creates: map<nat, Create>, k: Key)
    requires Registered(inflight, creates)
    ensures Registered(inflight - {k}, if k in inflight then Stop(creates, inflight[k]) else creates)
  {
  }

  lemma RegisteredByOthers(l: Limits, sys: System, a: Action)
    requires Well(sys.rt) && Registered(sys.rt.inflight, sys.creates)
    requires !a.Begin? && !a.Wake? && !a.CancelContext?
    ensures Registered(RunSection(l, sys, a).after.inflight, NextCreates(sys, a, RunSection(l, sys, a).outcome))
  {
    var section := SectionOf(sys, a);
    if section.Some? {
      RegisterEffects(l, sys.rt, section.value.step, section.value.now);
    }
    hide Perform;
  }

  lemma WaiterKept(l: Limits, sys: System, a: Action)
    requires Well(sys.rt) && Registered(sys.rt.inflight, sys.creates) && Subject(a).Some?
    requires Subject(a).value in sys.requests ==>
               WaiterOk(sys.requests[Subject(a).value], sys.creates) && RequestOk(sys.requests[Subject(a).value])
    ensures var outcome := RunSection(l, sys, a).outcome;
            var next := NextRequest(sys, a, outcome);
            next.Some? ==> WaiterOk(next.value, NextCreates(sys, a, outcome))
  {
    var section := SectionOf(sys, a);
    if section.Some? {
      RegisterEffects(l, sys.rt, section.value.step, section.value.now);
      Outcomes(l, sys.rt, section.value.step, section.value.now);
    }
    hide Perform;
  }

  lemma CreatesKept(l: Limits, sys: System, a: Action)
    requires Well(sys.rt) && CreatesOk(sys) && (forall r :: r in sys.requests ==> RequestOk(sys.requests[r]))
    ensures CreatesOk(Apply(l, sys, a))
  {
    Applied(l, sys, a);
    RegisteredKept(l, sys, a);
    hide Apply, RunSection, NextRequest, NextCreates, Registered;
    forall r | r in Apply(l, sys, a).requests ensures WaiterOk(Apply(l, sys, a).requests[r], Apply(l, sys, a).creates) {
      RequestAfter(l, sys, a, r);
      if Subject(a) == Some(r) {
        WaiterKept(l, sys, a);
      }
      CreatesGrow(sys, a, RunSection(l, sys, a).outcome);
    }
  }

  lemma {:induction false} CreatesAreOk(l: Limits, run: seq<Action>)
    ensures CreatesOk(After(l, run))
  {
    if run != [] {
      var init := run[..|run| - 1];
      CreatesAreOk(l, init);
      RequestsAreOk(l, init);
      LastAction(l, run);
      hide After, Apply, CreatesOk, RequestOk;
      CreatesKept(l, After(l, init), run[|run| - 1]);
    }
  }

  /** At most one create per identity and context is under way, apart from those already being cancelled, and
      it is the registered one. */
  lemma OneCreatePerContext(l: Limits, run: seq<Action>, t: nat, u: nat)
    requires var creates := After(l, run).creates;
             t in creates && u in creates && creates[t].key == creates[u].key
             && creates[t].state.InProgress? && creates[u].state.InProgress?
             && !creates[t].cancelling && !creates[u].cancelling
    ensures t == u
    ensures var sys := After(l, run);
            sys.creates[t].key in sys.rt.inflight && sys.rt.inflight[sys.creates[t].key] == t
  {
    CreatesAreOk(l, run);
    hide After;
  }

  /** While a create is registered, no action starts another one for its key. */
  lemma NoSecondCreate(l: Limits, run: seq<Action>, a: Action, k: Key, u: nat)
    requires k in After(l, run).rt.inflight
    requires u !in After(l, run).creates && u in After(l, run + [a]).creates
    ensures After(l, run + [a]).creates[u].key != k
  {
    assert (run + [a])[..|run + [a]| - 1] == run;
    LastAction(l, run + [a]);
    CreatesAreOk(l, run);
    var sys := After(l, run);
    hide After;
    Applied(l, sys, a);
    var section := SectionOf(sys, a);
    if section.Some? {
      RegisterEffects(l, sys.rt, section.value.step, section.value.now);
    }
    hide Perform, Apply, NextRequest;
  }

  /** All requests that got their session from the same create have the same session. */
  lemma WaitersAgree(l: Limits, run: seq<Action>, r: nat, q: nat)
    requires var requests := After(l, run).requests;
             r in requests && q in requests && requests[r].via.Some? && requests[r].via == requests[q].via
    ensures After(l, run).requests[r].session == After(l, run).requests[q].session
  {
    CreatesAreOk(l, run);
    hide After;
  }

  /** A request that waited for an old create never unregisters a newer one. */
  lemma OldWaiterSparesNewer(l: Limits, sys: System, r: nat, now: real, k: Key)
    requires Well(sys.rt) && r in sys.requests && sys.requests[r].phase.Waiting?
    requires k in sys.rt.inflight && sys.rt.inflight[k] != sys.requests[r].phase.task
    ensures var after := Apply(l, sys, Wake(r, now)).rt.inflight; k in after && after[k] == sys.rt.inflight[k]
  {
    var section := SectionOf(sys, Wake(r, now));
    if section.Some? {
      RegisterEffects(l, sys.rt, section.value.step, section.value.now);
    }
    hide Perform;
  }

  /** A create that was cancelled through one of its waiters stays registered, and every later request of its key
      waits for it in vain, until the context is cancelled; nothing else gets past it. */
  lemma StoppedCreateStays(l: Limits, sys: System, a: Action, k: Key)
    requires Well(sys.rt) && RequestsOk(sys) && CreatesOk(sys)
    requires k in sys.rt.inflight && sys.creates[sys.rt.inflight[k]].state.Stopped?
    ensures var after, t := Apply(l, sys, a), sys.rt.inflight[k];
            && t in after.creates && after.creates[t].state.Stopped?
            && ((k in after.rt.inflight && after.rt.inflight[k] == t)
                <==> !(a.CancelContext? && (a.identity, a.context) == k))
  {
    Applied(l, sys, a);
    CreatesGrow(sys, a, RunSection(l, sys, a).outcome);
    StoppedStaysRegistered(l, sys, a, k);
    hide RunSection, Apply, NextRequest, NextCreates, RequestOk, WaiterOk;
  }

  lemma StoppedStaysRegistered(l: Limits, sys: System, a: Action, k: Key)
    requires Well(sys.rt) && RequestsOk(sys) && CreatesOk(sys)
    requires k in sys.rt.inflight && sys.creates[sys.rt.inflight[k]].state.Stopped?
    ensures var inflight, t := RunSection(l, sys, a).after.inflight, sys.rt.inflight[k];
            (k in inflight && inflight[k] == t) <==> !(a.CancelContext? && (a.identity, a.context) == k)
  {
    var section := SectionOf(sys, a);
    if section.Some? {
      RegisterEffects(l, sys.rt, section.value.step, section.value.now);
    }
    hide Perform, RequestOk, WaiterOk;
  }

  // ------------------------------------------------------------ session locks

  predicate HoldsLock(q: Request, s: Name) {
    q.holds && q.session == Some(s)
  }

  predicate BothHold(q0: Request, q1: Request) {
    q0.holds && q1.holds && q0.session == q1.session
  }

  ghost predicate LockHeld(sys: System, s: Name) {
    exists r :: r in sys.requests && HoldsLock(sys.requests[r], s)
  }

  /** Mutual exclusion: a session lock is locked exactly if some request holds it, and never by two. */
  ghost predicate LocksOk(sys: System) {
    && (forall r :: r in sys.requests && sys.requests[r].holds ==>
         sys.requests[r].session.Some? && sys.requests[r].session.value in sys.locked)
    && (forall r, q :: r in sys.requests && q in sys.requests && BothHold(sys.requests[r], sys.requests[q]) ==> r == q)
    && (forall s :: s in sys.locked ==> LockHeld(sys, s))
  }

  /** The `finally` block of a request that never got the lock releases it under its holder. */
  predicate Intrudes(sys: System, a: Action) {
    && a.Unlock? && In(sys, a.r, Unlocking)
    && sys.requests[a.r].lockSet && !sys.requests[a.r].holds
    && sys.requests[a.r].session.Some? && sys.requests[a.r].session.value in sys.locked
  }

  /** How one request's hold on its lock can change. */
  lemma HoldChanges(l: Limits, sys: System, a: Action, r: nat)
    requires Well(sys.rt) && r in Apply(l, sys, a).requests
    requires r in sys.requests ==> RequestOk(sys.requests[r])
    ensures var q := Apply(l, sys, a).requests[r];
            && (q.holds && r in sys.requests && sys.requests[r].holds ==> q.session == sys.requests[r].session)
            && (q.holds && !(r in sys.requests && sys.requests[r].holds) ==>
                 && (a.Enter? || a.Acquire?) && a.r == r && q.session.Some?
                 && q.session.value !in sys.locked && NextLocked(sys, a) == sys.locked + {q.session.value})
            && (!q.holds && r in sys.requests && sys.requests[r].holds ==>
                 && a.Unlock? && a.r == r && NextLocked(sys, a) == sys.locked - {sys.requests[r].session.value})
  {
    RequestAfter(l, sys, a, r);
    if Subject(a) == Some(r) {
      var section := SectionOf(sys, a);
      if section.Some? {
        Outcomes(l, sys.rt, section.value.step, section.value.now);
      }
    }
    hide Perform, Apply;
  }

  /** How the set of locked sessions can change. */
  lemma LockedChanges(l: Limits, sys: System, a: Action)
    requires Well(sys.rt) && (forall r :: r in sys.requests ==> RequestOk(sys.requests[r]))
    ensures var locked, after := NextLocked(sys, a), Apply(l, sys, a);
            || locked == sys.locked
            || ((a.Enter? || a.Acquire?) && a.r in after.requests && after.requests[a.r].holds
                && after.requests[a.r].session.Some? && locked == sys.locked + {after.requests[a.r].session.value})
            || (a.Unlock? && a.r in sys.requests && sys.requests[a.r].session.Some?
                && locked == sys.locked - {sys.requests[a.r].session.value}
                && (Intrudes(sys, a) || sys.requests[a.r].session.value !in sys.locked
                    || (sys.requests[a.r].holds && a.r in after.requests && !after.requests[a.r].holds)))
  {
    Applied(l, sys, a);
    if Subject(a).Some? && Subject(a).value in Apply(l, sys, a).requests {
      RequestAfter(l, sys, a, Subject(a).value);
    }
    hide Perform, Apply;
  }

  /** Mutual exclusion survives an action exactly if the action does not release somebody else's lock. */
  lemma LocksKept(l: Limits, sys: System, a: Action)
    requires Well(sys.rt) && LocksOk(sys) && (forall r :: r in sys.requests ==> RequestOk(sys.requests[r]))
    ensures LocksOk(Apply(l, sys, a)) <==> !Intrudes(sys, a)
  {
    if Intrudes(sys, a) {
      LockLost(l, sys, a);
    } else {
      HoldersStay(l, sys, a);
      LocksStayHeld(l, sys, a);
      hide Apply, RequestOk, HoldsLock;
    }
  }

  lemma LockLost(l: Limits, sys: System, a: Action)
    requires Well(sys.rt) && LocksOk(sys) && Intrudes(sys, a)
    ensures !LocksOk(Apply(l, sys, a))
  {
    var s := sys.requests[a.r].session.value;
    assert LockHeld(sys, s);
    var r :| r in sys.requests && HoldsLock(sys.requests[r], s);
    IntruderUnlocks(l, sys, a, r);
    hide Apply, Intrudes, LockHeld;
  }

  lemma IntruderUnlocks(l: Limits, sys: System, a: Action, r: nat)
    requires Well(sys.rt) && Intrudes(sys, a) && r in sys.requests && sys.requests[r].holds
    ensures var after := Apply(l, sys, a);
            && r in after.requests && after.requests[r] == sys.requests[r]
            && after.locked == sys.locked - {sys.requests[a.r].session.value}
  {
    Applied(l, sys, a);
    RequestAfter(l, sys, a, r);
    hide Apply, RunSection, NextRequest, SectionOf;
  }

  lemma HoldersStay(l: Limits, sys: System, a: Action)
    requires Well(sys.rt) && LocksOk(sys) && (forall r :: r in sys.requests ==> RequestOk(sys.requests[r]))
    requires !Intrudes(sys, a)
    ensures var after := Apply(l, sys, a);
            && (forall r :: r in after.requests && after.requests[r].holds ==>
                 after.requests[r].session.Some? && after.requests[r].session.value in after.locked)
            && (forall r, q :: r in after.requests && q in after.requests && BothHold(after.requests[r], after.requests[q])
                 ==> r == q)
  {
    var after := Apply(l, sys, a);
    Applied(l, sys, a);
    hide Apply, NextLocked, RequestOk;
    forall r | r in after.requests && after.requests[r].holds
      ensures after.requests[r].session.Some? && after.requests[r].session.value in after.locked
    {
      HolderStays(l, sys, a, r);
    }
    forall r, q | r in after.requests && q in after.requests && BothHold(after.requests[r], after.requests[q])
      ensures r == q
    {
      HoldChanges(l, sys, a, r);
      HoldChanges(l, sys, a, q);
      if r in sys.requests && sys.requests[r].holds && q in sys.requests && sys.requests[q].holds {
        assert BothHold(sys.requests[r], sys.requests[q]);
      }
    }
  }

  lemma HolderStays(l: Limits, sys: System, a: Action, r: nat)
    requires Well(sys.rt) && LocksOk(sys) && (forall q :: q in sys.requests ==> RequestOk(sys.requests[q]))
    requires !Intrudes(sys, a) && r in Apply(l, sys, a).requests && Apply(l, sys, a).requests[r].holds
    ensures var after := Apply(l, sys, a);
            after.requests[r].session.Some? && after.requests[r].session.value in after.locked
  {
    Applied(l, sys, a);
    HoldChanges(l, sys, a, r);
    LockedChanges(l, sys, a);
    hide Apply, NextLocked, RequestOk, Intrudes;
    if a.Unlock? && a.r in sys.requests && sys.requests[a.r].holds && r in sys.requests && sys.requests[r].holds
       && sys.requests[a.r].session == sys.requests[r].session {
      assert BothHold(sys.requests[a.r], sys.requests[r]);
    }
  }

  lemma LocksStayHeld(l: Limits, sys: System, a: Action)
    requires Well(sys.rt) && LocksOk(sys) && (forall r :: r in sys.requests ==> RequestOk(sys.requests[r]))
    requires !Intrudes(sys, a)
    ensures forall s :: s in Apply(l, sys, a).locked ==> LockHeld(Apply(l, sys, a), s)
  {
    var after := Apply(l, sys, a);
    Applied(l, sys, a);
    LockedChanges(l, sys, a);
    hide Apply, NextLocked, RequestOk;
    forall s | s in after.locked ensures LockHeld(after, s) {
      if s in sys.locked {
        assert LockHeld(sys, s);
        var r :| r in sys.requests && HoldsLock(sys.requests[r], s);
        HoldChanges(l, sys, a, r);
        assert HoldsLock(after.requests[r], s);
      } else {
        assert HoldsLock(after.requests[a.r], s);
      }
    }
  }

  /** No action of the run released somebody else's lock. */
  ghost predicate NeverIntrudes(l: Limits, run: seq<Action>) {
    run == [] ||
    var init := run[..|run| - 1];
    NeverIntrudes(l, init) && !Intrudes(After(l, init), run[|run| - 1])
  }

  /** Mutual exclusion held after every action of the run. */
  ghost predicate AlwaysExclusive(l: Limits, run: seq<Action>) {
    LocksOk(After(l, run)) && (run == [] || AlwaysExclusive(l, run[..|run| - 1]))
  }

  /** Mutual exclusion holds throughout a run exactly if no `finally` block releases a lock that its request
      never got. */
  lemma {:induction false} ExclusiveExactly(l: Limits, run: seq<Action>)
    ensures AlwaysExclusive(l, run) <==> NeverIntrudes(l, run)
  {
    if run != [] {
      var init := run[..|run| - 1];
      ExclusiveExactly(l, init);
      RequestsAreOk(l, init);
      LastAction(l, run);
      hide After, Apply, LocksOk, Intrudes, RequestOk;
      if AlwaysExclusive(l, init) {
        LocksKept(l, After(l, init), run[|run| - 1]);
      }
    }
  }

  /** Nobody is cancelled while queued for a session lock. */
  ghost predicate Calm(l: Limits, run: seq<Action>) {
    run == [] ||
    var init, a := run[..|run| - 1], run[|run| - 1];
    Calm(l, init) && !(a.Cancel? && In(After(l, init), a.r, Queued))
  }

  /** Whoever leaves with the lock object in hand holds the lock. */
  predicate RequestCalm(q: Request) {
    q.lockSet && q.phase in {Closing, Unlocking} ==> q.holds
  }

  lemma NextRequestCalm(l: Limits, sys: System, a: Action)
    requires Well(sys.rt) && Subject(a).Some? && !(a.Cancel? && In(sys, a.r, Queued))
    requires Subject(a).value in sys.requests ==>
               RequestOk(sys.requests[Subject(a).value]) && RequestCalm(sys.requests[Subject(a).value])
    ensures var next := NextRequest(sys, a, RunSection(l, sys, a).outcome); next.Some? ==> RequestCalm(next.value)
  {
    var section := SectionOf(sys, a);
    if section.Some? {
      Outcomes(l, sys.rt, section.value.step, section.value.now);
    }
    hide Perform;
  }

  lemma {:induction false} CalmRunsStayCalm(l: Limits, run: seq<Action>)
    requires Calm(l, run)
    ensures NeverIntrudes(l, run)
    ensures forall r :: r in After(l, run).requests ==> RequestCalm(After(l, run).requests[r])
  {
    if run != [] {
      var init, a := run[..|run| - 1], run[|run| - 1];
      CalmRunsStayCalm(l, init);
      RequestsAreOk(l, init);
      LastAction(l, run);
      var sys := After(l, init);
      hide After, Apply, RunSection, NextRequest, RequestOk;
      forall r | r in Apply(l, sys, a).requests ensures RequestCalm(Apply(l, sys, a).requests[r]) {
        RequestAfter(l, sys, a, r);
        if Subject(a) == Some(r) {
          NextRequestCalm(l, sys, a);
        }
      }
    }
  }

  lemma CalmRunsExclude(l: Limits, run: seq<Action>)
    requires Calm(l, run)
    ensures LocksOk(After(l, run))
  {
    CalmRunsStayCalm(l, run);
    ExclusiveExactly(l, run);
    hide After, LocksOk, NeverIntrudes;
  }

  /** In every interleaving in which nobody is cancelled while queued, no two chat requests talk to the same
      session at the same time. */
  lemma OneChatPerSession(l: Limits, run: seq<Action>, r: nat, q: nat)
    requires Calm(l, run) && In(After(l, run), r, Active) && In(After(l, run), q, Active)
    requires After(l, run).requests[r].kind.Chat? && After(l, run).requests[q].kind.Chat?
    requires After(l, run).requests[r].session == After(l, run).requests[q].session
    ensures r == q
  {
    CalmRunsExclude(l, run);
    RequestsAreOk(l, run);
    hide After, Calm;
    var sys := After(l, run);
    assert RequestOk(sys.requests[r]) && RequestOk(sys.requests[q]);
    assert BothHold(sys.requests[r], sys.requests[q]);
  }

  /** And when all its requests are done, every session lock is free. */
  lemma NothingLockedAtRest(l: Limits, run: seq<Action>)
    requires Calm(l, run)
    requires forall r :: r in After(l, run).requests ==> After(l, run).requests[r].phase == Finished
    ensures After(l, run).locked == {}
  {
    CalmRunsExclude(l, run);
    RequestsAreOk(l, run);
    hide After, Calm;
    var sys := After(l, run);
    assert forall r :: r in sys.requests ==> !sys.requests[r].holds;
    assert forall s :: s in sys.locked ==> LockHeld(sys, s);
  }

  // ------------------------------------- cancelling a queued request breaks it

  lemma AfterSnoc(l: Limits, run: seq<Action>, a: Action)
    ensures After(l, run + [a]) == Apply(l, After(l, run), a)
  {
    hide Apply;
    assert (run + [a])[..|run + [a]| - 1] == run;
  }

  /** A run with two more actions. */
  lemma Twice(l: Limits, run: seq<Action>, a: Action, b: Action) returns (longer: seq<Action>)
    ensures Well(Apply(l, After(l, run), a).rt) && After(l, longer) == Apply(l, Apply(l, After(l, run), a), b)
  {
    ApplyWell(l, After(l, run), a);
    hide After, Apply, Well;
    AfterSnoc(l, run, a);
    AfterSnoc(l, run + [a], b);
    longer := run + [a] + [b];
  }

  /** The form an action gives its request, when it runs no locked section. */
  lemma Plainly(l: Limits, sys: System, a: Action)
    requires Well(sys.rt) && Subject(a).Some? && SectionOf(sys, a).None?
    ensures var next := NextRequest(sys, a, Done);
            Apply(l, sys, a) ==
            sys.(requests := if next.Some? then sys.requests[Subject(a).value := next.value] else sys.requests,
                 creates := NextCreates(sys, a, Done), locked := NextLocked(sys, a))
  {
    hide NextRequest, NextCreates, NextLocked, SectionOf, Perform;
  }

  /** A request for a session that nobody owns, and that at most its own identity claims, gets it. */
  lemma BeginsBound(l: Limits, sys: System, r: nat, i: Name, c: Name, s: Name, now: real)
    requires Well(sys.rt) && sys.rt.owners.items == map[] && PendingOn(sys.rt, s) in {None, Some(i)}
    requires r in sys.requests && sys.requests[r] == Request(i, Chat(c, Some(s)), Fresh, None, false, false, false, None)
    ensures var after := Apply(l, sys, Begin(r, 0, now));
            && after.requests == sys.requests[r := sys.requests[r].(phase := Bound, session := Some(s), claim := true)]
            && after.locked == sys.locked && after.creates == sys.creates
            && after.rt.owners.items == map[] && PendingOn(after.rt, s) == Some(i)
  {
    var step := Prefer(i, c, s);
    PreferUnowned(l, sys.rt, step, now);
    hide Perform;
  }

  /** Closing a request gives its claim back, leaves the owners alone, and leaves the lock locked. */
  lemma ClosesQuietly(l: Limits, sys: System, r: nat, now: real)
    requires Well(sys.rt) && In(sys, r, Closing)
    ensures var after := Apply(l, sys, Close(r, now));
            after.requests == sys.requests[r := sys.requests[r].(phase := Unlocking, claim := false)]
            && after.locked == sys.locked
  {
    hide Perform;
  }

  lemma CancelsQueued(l: Limits, sys: System, r: nat)
    requires Well(sys.rt) && In(sys, r, Queued)
    ensures Apply(l, sys, Cancel(r)) == sys.(requests := sys.requests[r := sys.requests[r].(phase := Closing)])
  {
    Plainly(l, sys, Cancel(r));
    hide Apply;
  }

  lemma Unlocks(l: Limits, sys: System, r: nat, s: Name)
    requires Well(sys.rt) && In(sys, r, Unlocking) && sys.requests[r].lockSet && sys.requests[r].session == Some(s)
    ensures var after := Apply(l, sys, Unlock(r));
            after.requests == sys.requests[r := sys.requests[r].(phase := Finished, holds := false)]
            && after.locked == sys.locked - {s}
  {
    Plainly(l, sys, Unlock(r));
    hide Apply;
  }

  lemma Enters(l: Limits, sys: System, r: nat, s: Name)
    requires Well(sys.rt) && In(sys, r, Bound) && sys.requests[r].session == Some(s)
    ensures var after, q := Apply(l, sys, Enter(r)), sys.requests[r].(lockSet := true);
            && after.requests == sys.requests[r := if s in sys.locked then q.(phase := Queued)
                                                   else q.(phase := Active, holds := true)]
            && after.locked == sys.locked + {s}
  {
    Plainly(l, sys, Enter(r));
    hide Apply;
  }

  /** While r0 talks to the session, cancelling the queued r1 unlocks it, and r2 enters. */
  lemma QueuedCancelBreaksExclusion(l: Limits, sys: System, r0: nat, r1: nat, r2: nat, s: Name, now: real)
    requires Well(sys.rt) && r0 != r1 && r1 != r2 && r0 != r2 && s in sys.locked
    requires In(sys, r0, Active) && In(sys, r1, Queued) && In(sys, r2, Bound)
    requires sys.requests[r0].session == sys.requests[r1].session == sys.requests[r2].session == Some(s)
    requires sys.requests[r1].lockSet
    ensures var a := Apply(l, sys, Cancel(r1));
            Well(a.rt) &&
            var b := Apply(l, a, Close(r1, now));
            Well(b.rt) &&
            var c := Apply(l, b, Unlock(r1));
            Well(c.rt) &&
            var d := Apply(l, c, Enter(r2));
            In(d, r0, Active) && In(d, r2, Active) && d.requests[r0].session == d.requests[r2].session == Some(s)
  {
    hide Apply, Well;
    ApplyWell(l, sys, Cancel(r1));
    CancelsQueued(l, sys, r1);
    var a := Apply(l, sys, Cancel(r1));
    ApplyWell(l, a, Close(r1, now));
    ClosesQuietly(l, a, r1, now);
    var b := Apply(l, a, Close(r1, now));
    ApplyWell(l, b, Unlock(r1));
    Unlocks(l, b, r1, s);
    Enters(l, Apply(l, b, Unlock(r1)), r2, s);
  }

  /** Such states are reached: three requests of one identity for one session. */
  lemma ExclusionCanBreak(l: Limits, i: Name, c: Name, s: Name, now: real) returns (run: seq<Action>)
    ensures var sys := After(l, run);
            In(sys, 0, Active) && In(sys, 2, Active) && sys.requests[0].session == sys.requests[2].session == Some(s)
  {
    hide After, Apply, Well;
    var three := ThreeRequests(l, i, c, s, now);
    QueuedCancelBreaksExclusion(l, After(l, three), 0, 1, 2, s, now);
    var closed := Twice(l, three, Cancel(1), Close(1, now));
    run := Twice(l, closed, Unlock(1), Enter(2));
  }

  /** Claims can be stranded: the request is over, but its claim stays, and no other identity gets past it. */
  lemma ClaimCanBeStranded(l: Limits, i: Name, c: Name, s: Name, now: real) returns (run: seq<Action>)
    ensures var sys := After(l, run);
            && (forall r :: r in sys.requests ==> sys.requests[r].phase == Abandoned)
            && PendingOn(sys.rt, s) == Some(i)
            && forall j: Name, t: real :: j != i ==> Perform(l, sys.rt, Claim(j, s), t).outcome == Forbidden
  {
    hide After, Apply, Perform, Well;
    var bound := NBound(l, 1, i, c, s, now);
    CancelledTwice(l, After(l, bound), i, s);
    run := Twice(l, bound, Cancel(0), CancelAgain(0));
    forall j: Name, t: real | j != i ensures Perform(l, After(l, run).rt, Claim(j, s), t).outcome == Forbidden {
      ClaimBlocked(l, After(l, run).rt, i, j, s, t);
    }
  }

  lemma CancelledTwice(l: Limits, sys: System, i: Name, s: Name)
    requires Well(sys.rt) && FirstBound(sys, 1, i, s)
    ensures var a := Apply(l, sys, Cancel(0));
            Well(a.rt) &&
            var b := Apply(l, a, CancelAgain(0));
            (forall r :: r in b.requests ==> b.requests[r].phase == Abandoned) && PendingOn(b.rt, s) == Some(i)
  {
    Plainly(l, sys, Cancel(0));
    var a := Apply(l, sys, Cancel(0));
    Plainly(l, a, CancelAgain(0));
    hide Apply, Well;
  }

  lemma ThreeRequests(l: Limits, i: Name, c: Name, s: Name, now: real) returns (run: seq<Action>)
    ensures var sys := After(l, run);
            && s in sys.locked && In(sys, 0, Active) && In(sys, 1, Queued) && In(sys, 2, Bound)
            && sys.requests[0].session == sys.requests[1].session == sys.requests[2].session == Some(s)
            && sys.requests[1].lockSet
  {
    hide After, Apply, Well;
    var bound := NBound(l, 3, i, c, s, now);
    Enters(l, After(l, bound), 0, s);
    run := Twice(l, bound, Enter(0), Enter(1));
    Enters(l, Apply(l, After(l, bound), Enter(0)), 1, s);
  }

  /** The first n requests, all of identity i, have session s and have not asked for its lock. */
  ghost predicate FirstBound(sys: System, n: nat, i: Name, s: Name) {
    && sys.locked == {} && sys.rt.owners.items == map[] && PendingOn(sys.rt, s) in {None, Some(i)}
    && (forall q :: q in sys.requests <==> 0 <= q < n)
    && (forall q :: 0 <= q < n ==> sys.requests[q].phase == Bound && sys.requests[q].session == Some(s))
    && (forall q :: 0 <= q < n ==> sys.requests[q].claim && sys.requests[q].identity == i)
    && (n > 0 ==> PendingOn(sys.rt, s) == Some(i))
  }

  lemma OneMoreBound(l: Limits, sys: System, n: nat, i: Name, c: Name, s: Name, now: real)
    requires Well(sys.rt) && FirstBound(sys, n, i, s)
    ensures var a := Apply(l, sys, Arrive(n, i, Chat(c, Some(s))));
            Well(a.rt) && FirstBound(Apply(l, a, Begin(n, 0, now)), n + 1, i, s)
  {
    hide Apply;
    var kind := Chat(c, Some(s));
    Arrives(l, sys, n, i, kind);
    BeginsBound(l, Apply(l, sys, Arrive(n, i, kind)), n, i, c, s, now);
  }

  lemma {:induction false} NBound(l: Limits, n: nat, i: Name, c: Name, s: Name, now: real) returns (run: seq<Action>)
    ensures FirstBound(After(l, run), n, i, s)
  {
    if n == 0 {
      run := [];
    } else {
      hide After, Apply, FirstBound, Well;
      var bound := NBound(l, n - 1, i, c, s, now);
      OneMoreBound(l, After(l, bound), n - 1, i, c, s, now);
      run := Twice(l, bound, Arrive(n - 1, i, Chat(c, Some(s))), Begin(n - 1, 0, now));
    }
  }

  lemma Arrives(l: Limits, sys: System, r: nat, i: Name, kind: Kind)
    requires Well(sys.rt) && r !in sys.requests
    ensures Apply(l, sys, Arrive(r, i, kind))
         == sys.(requests := sys.requests[r := Request(i, kind, Fresh, None, false, false, false, None)])
  {
    Plainly(l, sys, Arrive(r, i, kind));
    hide Apply;
  }
}
