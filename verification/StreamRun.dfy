/** The whole event processor as one machine, and what holds over all of its runs. */
module StreamRun {
  import opened Text
  import opened StreamState
  import opened Coalescing
  import opened StreamOutput
  import opened StreamChunks
  import opened PartHistory

  datatype State = State(parts: Parts, buffer: Option<Buffered>, sink: Sink)

  function InitialState(output: Output): State {
    State(Parts(map[], map[]), None, InitialSink(output))
  }

  function Flush(st: State): State {
    State(st.parts, None, EmitAll(st.sink, Flushed(st.buffer)))
  }

  /** `emit_chunks` */
  function EmitChunks(st: State, cs: seq<Chunk>, clock: Clock): State {
    var r := Coalesce(st.buffer, cs, clock, |cs|);
    State(st.parts, r.buffer, EmitAll(st.sink, r.forwarded))
  }

  /** `extract_interrupt_asked_event` and `extract_interrupt_resolved_event` */
  function InterruptOf(b: Body): (r: Option<Interrupt>)
    ensures r.Some? ==> Trimmed(r.value.requestId) && r.value.requestId != ""
  {
    match b
    case Asked(id, kind, details) =>
      if id.Some? && Strip(id.value) != ""
      then Some(Interrupt(Strip(id.value), kind, AskedPhase, details, None)) else None
    case Answered(id, kind, resolution) =>
      if id.Some? && Strip(id.value) != ""
      then Some(Interrupt(Strip(id.value), kind, ResolvedPhase, "", Some(resolution))) else None
    case _ => None
  }

  function HandleInterrupt(st: State, i: Interrupt): State {
    if Accepted(st.sink.output, i)
    then State(st.parts, None, Announce(st.sink, Flushed(st.buffer), i))
    else st
  }

  /** `handle_event` */
  function HandleEvent(st: State, session: string, e: Event, clock: Clock): State {
    var i := InterruptOf(e.body);
    if i.Some? then
      if EventSession(e.ids) == Some(session) then HandleInterrupt(st, i.value) else st
    else
      var r := Generate(st.parts, session, e);
      EmitChunks(st.(parts := r.parts), r.chunks, clock)
  }

  datatype Input = Deliver(event: Event, clock: Clock) | FlushPoint

  function Apply(st: State, session: string, input: Input): State {
    match input
    case Deliver(e, clock) => HandleEvent(st, session, e, clock)
    case FlushPoint => Flush(st)
  }

  function Run(st: State, session: string, inputs: seq<Input>): State {
    if inputs == [] then st
    else Apply(Run(st, session, inputs[..|inputs| - 1]), session, inputs[|inputs| - 1])
  }

  /** The events among the inputs, in order. */
  function EventsIn(inputs: seq<Input>): seq<Event> {
    if inputs == [] then []
    else (if inputs[0].Deliver? then [inputs[0].event] else []) + EventsIn(inputs[1..])
  }

  lemma {:induction false} EventsInSnoc(inputs: seq<Input>, last: Input)
    ensures EventsIn(inputs + [last]) == EventsIn(inputs) + if last.Deliver? then [last.event] else []
  {
    var added := if last.Deliver? then [last.event] else [];
    var all := inputs + [last];
    if inputs == [] {
      assert all == [last] && all[1..] == [];
      assert EventsIn([]) == [];
      assert added + [] == added == [] + added;
    } else {
      var first := if inputs[0].Deliver? then [inputs[0].event] else [];
      assert all[0] == inputs[0] && all[1..] == inputs[1..] + [last];
      EventsInSnoc(inputs[1..], last);
      Associate(first, EventsIn(inputs[1..]), added);
    }
  }

  lemma InputParts(st: State, session: string, input: Input)
    ensures Apply(st, session, input).parts
            == if input.Deliver? then Generate(st.parts, session, input.event).parts else st.parts
  {
    hide EmitAll, Announce, Coalesce, StepSlot, StreamSession, PartIdOf, Strip, EventSession;
  }

  lemma LastInput(st: State, session: string, inputs: seq<Input>)
    requires inputs != []
    ensures var init, last := inputs[..|inputs| - 1], inputs[|inputs| - 1];
            && Run(st, session, inputs) == Apply(Run(st, session, init), session, last)
            && EventsIn(inputs) == if last.Deliver? then EventsIn(init) + [last.event] else EventsIn(init)
  {
    hide Apply, EventsIn;
    var init, last := inputs[..|inputs| - 1], inputs[|inputs| - 1];
    assert inputs == init + [last];
    EventsInSnoc(init, last);
    assert EventsIn(init) + [] == EventsIn(init);
  }

  // -------------------------------------------------------------- invariant

  predicate BufferOk(buffer: Option<Buffered>) {
    BufferSettled(buffer) && (buffer.Some? ==> WellFormed(ToChunk(buffer.value)))
  }

  /** Part ids are pending or known but not both; the buffer is short, non-empty and well formed;
      and the sink keeps its numbering, its text mirror and its interrupt balance. */
  ghost predicate StateOk(st: State) {
    PartsOk(st.parts) && BufferOk(st.buffer) && SinkOk(st.sink)
  }

  lemma CoalesceOneOk(buffer: Option<Buffered>, c: Chunk, now: real)
    requires BufferOk(buffer) && WellFormed(c)
    ensures BufferOk(CoalesceOne(buffer, c, now).buffer)
    ensures AllWellFormed(CoalesceOne(buffer, c, now).forwarded)
  {
  }

  lemma {:induction false} CoalesceOk(buffer: Option<Buffered>, cs: seq<Chunk>, clock: Clock, n: nat)
    requires n <= |cs| && BufferOk(buffer) && AllWellFormed(cs)
    ensures BufferOk(Coalesce(buffer, cs, clock, n).buffer)
    ensures AllWellFormed(Coalesce(buffer, cs, clock, n).forwarded)
  {
    if n > 0 {
      CoalesceOk(buffer, cs, clock, n - 1);
      CoalesceOneOk(Coalesce(buffer, cs, clock, n - 1).buffer, cs[n - 1], clock(n - 1));
    }
  }

  lemma EmitChunksOk(st: State, cs: seq<Chunk>, clock: Clock)
    requires StateOk(st) && AllWellFormed(cs)
    ensures StateOk(EmitChunks(st, cs, clock))
  {
    CoalesceOk(st.buffer, cs, clock, |cs|);
    EmitAllKeeps(st.sink, Coalesce(st.buffer, cs, clock, |cs|).forwarded);
  }

  lemma ApplyOk(st: State, session: string, input: Input)
    requires StateOk(st)
    ensures StateOk(Apply(st, session, input))
  {
    match input
    case FlushPoint =>
      EmitAllKeeps(st.sink, Flushed(st.buffer));
    case Deliver(e, clock) =>
      var i := InterruptOf(e.body);
      if i.Some? {
        AnnounceKeeps(st.sink, Flushed(st.buffer), i.value);
      } else {
        GenerateOk(st.parts, session, e);
        var r := Generate(st.parts, session, e);
        EmitChunksOk(st.(parts := r.parts), r.chunks, clock);
      }
  }

  lemma InitialOk(userText: string, stableId: string, namespace: string)
    ensures StateOk(InitialState(InitialOutput(userText, stableId, namespace)))
  {
    var s := InitialSink(InitialOutput(userText, stableId, namespace));
    forall id ensures PhasesOf(s.queue, id) == [] {}
    assert Content(s.output, TEXT) == "" == StreamedText(s.queue, TEXT);
    assert Content(s.output, REASONING) == "" == StreamedText(s.queue, REASONING);
  }

  /** After any events, clock readings and flush points the state is in order. */
  lemma {:induction false} RunOk(st: State, session: string, inputs: seq<Input>)
    requires StateOk(st)
    ensures StateOk(Run(st, session, inputs))
  {
    if inputs != [] {
      RunOk(st, session, inputs[..|inputs| - 1]);
      ApplyOk(Run(st, session, inputs[..|inputs| - 1]), session, inputs[|inputs| - 1]);
    }
  }

  /** What a reader of the queue sees after any run from the initial state. */
  lemma RunIsWellNumbered(userText: string, stableId: string, namespace: string, session: string, inputs: seq<Input>)
    ensures var q := Run(InitialState(InitialOutput(userText, stableId, namespace)), session, inputs).sink.queue;
            && (forall i :: 0 <= i < |q| ==>
                  && !q[i].FinalStatus? && q[i].sequence == i + 1
                  && q[i].eventId == namespace + ":" + Decimal(i + 1))
            && (forall i, j :: 0 <= i < j < |q| ==> q[i].eventId != q[j].eventId)
            && (forall i :: 0 <= i < |q| && q[i].ArtifactUpdate? ==>
                  && (!q[i].append <==> forall j :: 0 <= j < i ==> !q[j].ArtifactUpdate?)
                  && q[i].role !in {Some("user"), Some("system")} && !q[i].lastChunk)
  {
    var st := InitialState(InitialOutput(userText, stableId, namespace));
    InitialOk(userText, stableId, namespace);
    RunOk(st, session, inputs);
    RunConstants(st, session, inputs);
    var q := Run(st, session, inputs).sink.queue;
    forall i, j | 0 <= i < j < |q| ensures q[i].eventId != q[j].eventId {
      EventIdInjective(namespace, i + 1, j + 1);
    }
    forall i | 0 <= i < |q| && q[i].ArtifactUpdate?
      ensures !q[i].append <==> forall j :: 0 <= j < i ==> !q[j].ArtifactUpdate?
    {
      assert forall j :: 0 <= j < i ==> q[..i][j] == q[j];
    }
  }

  lemma {:induction false} RunConstants(st: State, session: string, inputs: seq<Input>)
    ensures var o := Run(st, session, inputs).sink.output;
            && o.namespace == st.sink.output.namespace && o.stableMessageId == st.sink.output.stableMessageId
            && o.userText == st.sink.output.userText
  {
    if inputs != [] {
      RunConstants(st, session, inputs[..|inputs| - 1]);
      var before := Run(st, session, inputs[..|inputs| - 1]);
      match inputs[|inputs| - 1]
      case FlushPoint =>
        EmitAllConstants(before.sink, Flushed(before.buffer));
      case Deliver(e, clock) =>
        var i := InterruptOf(e.body);
        if i.Some? {
          EmitAllConstants(WithPending(before.sink, NextPending(before.sink.output, i.value)), Flushed(before.buffer));
        } else {
          var r := Generate(before.parts, session, e);
          EmitAllConstants(before.sink, Coalesce(before.buffer, r.chunks, clock, |r.chunks|).forwarded);
        }
    }
  }

  predicate PendingIffLastAsked(ps: seq<Phase>, pending: bool) {
    Alternating(ps) && (pending <==> ps != [] && ps[|ps| - 1] == AskedPhase)
  }

  lemma BalancedEndsInAsked(q: seq<OutEvent>, pending: set<string>, id: string)
    requires Balanced(q, pending, id)
    ensures PendingIffLastAsked(PhasesOf(q, id), id in pending)
  {
  }

  /** Per request the statuses alternate, beginning with asked; a request is pending exactly when its
      last status is asked; and asked outnumber resolved by the number of pending requests. */
  lemma InterruptsAlternate(userText: string, stableId: string, namespace: string, session: string, inputs: seq<Input>)
    ensures var s := Run(InitialState(InitialOutput(userText, stableId, namespace)), session, inputs).sink;
            && (forall id :: PendingIffLastAsked(PhasesOf(s.queue, id), id in s.output.pendingInterrupts))
            && CountPhase(s.queue, AskedPhase) - CountPhase(s.queue, ResolvedPhase) == |s.output.pendingInterrupts|
  {
    var st := InitialState(InitialOutput(userText, stableId, namespace));
    InitialOk(userText, stableId, namespace);
    RunOk(st, session, inputs);
    var s := Run(st, session, inputs).sink;
    forall id ensures PendingIffLastAsked(PhasesOf(s.queue, id), id in s.output.pendingInterrupts) {
      BalancedEndsInAsked(s.queue, s.output.pendingInterrupts, id);
    }
  }

  /** What an interrupt event means for the request ids that are pending: asking for a new one announces it,
      answering a pending one settles it, and every other interrupt event changes nothing at all. */
  lemma AskedExactly(st: State, session: string, ids: RawIds, id: Option<string>, kind: InterruptKind,
                     details: string, clock: Clock)
    requires StateOk(st)
    ensures var t := HandleEvent(st, session, Event(ids, Asked(id, kind, details)), clock);
            var pending := st.sink.output.pendingInterrupts;
            if EventSession(ids) == Some(session) && id.Some? && Strip(id.value) != "" && Strip(id.value) !in pending then
              && t.parts == st.parts && t.buffer.None?
              && OneStatus(Flush(st).sink.queue, t.sink.queue, Interrupt(Strip(id.value), kind, AskedPhase, details, None),
                           st.sink.output.stableMessageId)
              && t.sink.output.pendingInterrupts == pending + {Strip(id.value)}
            else t == st
  {
    InterruptEffects(st, session, Event(ids, Asked(id, kind, details)), clock);
    hide StateOk, Announce, EmitAll, EventSession, Strip, Flush;
  }

  lemma AnsweredExactly(st: State, session: string, ids: RawIds, id: Option<string>, kind: InterruptKind,
                        resolution: Resolution, clock: Clock)
    requires StateOk(st)
    ensures var t := HandleEvent(st, session, Event(ids, Answered(id, kind, resolution)), clock);
            var pending := st.sink.output.pendingInterrupts;
            if EventSession(ids) == Some(session) && id.Some? && Strip(id.value) in pending && Strip(id.value) != "" then
              && t.parts == st.parts && t.buffer.None?
              && OneStatus(Flush(st).sink.queue, t.sink.queue,
                           Interrupt(Strip(id.value), kind, ResolvedPhase, "", Some(resolution)),
                           st.sink.output.stableMessageId)
              && t.sink.output.pendingInterrupts == pending - {Strip(id.value)}
            else t == st
  {
    InterruptEffects(st, session, Event(ids, Answered(id, kind, resolution)), clock);
    hide StateOk, Announce, EmitAll, EventSession, Strip, Flush;
  }

  /** Queue q2 is q1 with the status of the given interrupt, under the given message id. */
  predicate OneStatus(q1: seq<OutEvent>, q2: seq<OutEvent>, i: Interrupt, messageId: string) {
    && |q2| == |q1| + 1 && q1 < q2
    && q2[|q1|].InterruptStatus? && q2[|q1|].interrupt == i && q2[|q1|].messageId == messageId
  }

  lemma WaitingIsWellFormed(buffer: Option<Buffered>)
    requires BufferOk(buffer)
    ensures AllWellFormed(Flushed(buffer))
  {
  }

  lemma InterruptEffects(st: State, session: string, e: Event, clock: Clock)
    requires StateOk(st) && (e.body.Asked? || e.body.Answered?)
    ensures var i, t := InterruptOf(e.body), HandleEvent(st, session, e, clock);
            if i.Some? && EventSession(e.ids) == Some(session) && Accepted(st.sink.output, i.value) then
              && t.parts == st.parts && t.buffer.None?
              && OneStatus(Flush(st).sink.queue, t.sink.queue, i.value, st.sink.output.stableMessageId)
              && t.sink.output.pendingInterrupts == NextPending(st.sink.output, i.value)
            else t == st
    ensures InterruptOf(e.body).Some? ==> Strip(InterruptOf(e.body).value.requestId) == InterruptOf(e.body).value.requestId
  {
    var i := InterruptOf(e.body);
    WaitingIsWellFormed(st.buffer);
    hide SinkOk, PartsOk, BufferOk, AllWellFormed, Flushed, EventSession, EventId;
    if i.Some? {
      if EventSession(e.ids) == Some(session) && Accepted(st.sink.output, i.value) {
        AnnounceKeeps(st.sink, Flushed(st.buffer), i.value);
        EmitAllIgnoresPending(st.sink, NextPending(st.sink.output, i.value), Flushed(st.buffer));
      }
    } else {
      assert Coalesce(st.buffer, [], clock, 0) == Step(st.buffer, []);
      assert EmitAll(st.sink, []) == st.sink;
    }
    hide Strip;
  }

  /** Buffered text is queued before the status of an interrupt that is news, which comes last, is numbered next and
      is the only thing added; any other interrupt changes nothing. */
  lemma InterruptFlushesFirst(st: State, session: string, e: Event, clock: Clock)
    requires StateOk(st) && (e.body.Asked? || e.body.Answered?) && EventSession(e.ids) == Some(session)
    requires e.body.id.Some? && Strip(e.body.id.value) != ""
    ensures var t, id := HandleEvent(st, session, e, clock), Strip(e.body.id.value);
            var shown := Flush(st).sink.queue;
            if e.body.Asked? <==> id in st.sink.output.pendingInterrupts then t == st
            else
              && t.buffer.None? && t.parts == st.parts
              && |t.sink.queue| == |shown| + 1 && shown < t.sink.queue
              && var status := t.sink.queue[|shown|];
              && status.InterruptStatus? && status.sequence == |shown| + 1
              && status.interrupt.requestId == id && status.interrupt.kind == e.body.kind
              && status.interrupt.phase == if e.body.Asked? then AskedPhase else ResolvedPhase
  {
    if e.body.Asked? {
      AskedExactly(st, session, e.ids, e.body.id, e.body.kind, e.body.details, clock);
    } else {
      AnsweredExactly(st, session, e.ids, e.body.id, e.body.kind, e.body.resolution, clock);
    }
    ApplyOk(st, session, Deliver(e, clock));
    NumberedNext(HandleEvent(st, session, e, clock).sink);
    hide StateOk, HandleEvent, EventSession, Strip, Flush;
  }

  lemma NumberedNext(s: Sink)
    requires SinkOk(s)
    ensures forall i :: 0 <= i < |s.queue| && !s.queue[i].FinalStatus? ==> s.queue[i].sequence == i + 1
  {
  }

  /** The phases that the session's events request for one id, in order. */
  function Requested(session: string, id: string, es: seq<Event>): seq<Phase> {
    if es == [] then []
    else
      var e := es[|es| - 1];
      Requested(session, id, es[..|es| - 1])
      + (if EventSession(e.ids) != Some(session) then []
         else if e.body.Asked? && e.body.id.Some? && Strip(e.body.id.value) == id then [AskedPhase]
         else if e.body.Answered? && e.body.id.Some? && Strip(e.body.id.value) == id then [ResolvedPhase]
         else [])
  }

  /** Without those that repeat the one before, and without a leading resolved. */
  function Alternated(ps: seq<Phase>): seq<Phase> {
    if ps == [] then []
    else
      var init, p := Alternated(ps[..|ps| - 1]), ps[|ps| - 1];
      var last := if init == [] then ResolvedPhase else init[|init| - 1];
      if p == last then init else init + [p]
  }

  lemma RequestedSnoc(session: string, id: string, es: seq<Event>, e: Event)
    ensures Requested(session, id, es + [e]) == Requested(session, id, es) + Requested(session, id, [e])
  {
    assert (es + [e])[..|es + [e]| - 1] == es;
    assert [e][..0] == [];
  }

  /** Chunks show no phases. */
  lemma {:induction false} EmitAllShowsNoPhase(s: Sink, cs: seq<Chunk>, id: string)
    ensures PhasesOf(EmitAll(s, cs).queue, id) == PhasesOf(s.queue, id)
  {
    if cs != [] {
      EmitAllShowsNoPhase(s, cs[..|cs| - 1], id);
      var t := EmitNow(EmitAll(s, cs[..|cs| - 1]), cs[|cs| - 1]);
      if t.queue != EmitAll(s, cs[..|cs| - 1]).queue {
        QueueSnoc(EmitAll(s, cs[..|cs| - 1]).queue, t.queue[|t.queue| - 1]);
      }
    }
  }

  /** The statuses of one id after a status is requested for it that may or may not be news. */
  function AfterRequest(ps: seq<Phase>, asked: seq<Phase>): seq<Phase> {
    if asked == [] || asked[0] == (if ps == [] then ResolvedPhase else ps[|ps| - 1]) then ps else ps + [asked[0]]
  }

  lemma AlternatedMore(ps: seq<Phase>, asked: seq<Phase>)
    requires |asked| <= 1
    ensures Alternated(ps + asked) == AfterRequest(Alternated(ps), asked)
  {
    if asked == [] {
      assert ps + asked == ps;
    } else {
      var all := ps + [asked[0]];
      assert ps + asked == all && all[..|ps|] == ps && all[|ps|] == asked[0];
    }
  }

  lemma RequestedOne(session: string, id: string, e: Event)
    ensures Requested(session, id, [e])
            == if EventSession(e.ids) != Some(session) then []
               else if e.body.Asked? && e.body.id.Some? && Strip(e.body.id.value) == id then [AskedPhase]
               else if e.body.Answered? && e.body.id.Some? && Strip(e.body.id.value) == id then [ResolvedPhase]
               else []
  {
    hide EventSession, Strip;
    assert [e][..0] == [] && Requested(session, id, []) == [];
  }

  lemma AskedPhases(st: State, session: string, e: Event, clock: Clock, id: string)
    requires StateOk(st) && id != "" && e.body.Asked?
    ensures PhasesOf(HandleEvent(st, session, e, clock).sink.queue, id)
            == AfterRequest(PhasesOf(st.sink.queue, id), Requested(session, id, [e]))
  {
    PendingSeen(st, id);
    RequestedOne(session, id, e);
    AskedExactly(st, session, e.ids, e.body.id, e.body.kind, e.body.details, clock);
    hide StateOk, HandleEvent, PhasesOf, Requested, EventSession, Strip, Flush;
    StatusPhase(Flush(st).sink.queue, HandleEvent(st, session, e, clock).sink.queue, id);
  }

  lemma AnsweredPhases(st: State, session: string, e: Event, clock: Clock, id: string)
    requires StateOk(st) && id != "" && e.body.Answered?
    ensures PhasesOf(HandleEvent(st, session, e, clock).sink.queue, id)
            == AfterRequest(PhasesOf(st.sink.queue, id), Requested(session, id, [e]))
  {
    PendingSeen(st, id);
    RequestedOne(session, id, e);
    AnsweredExactly(st, session, e.ids, e.body.id, e.body.kind, e.body.resolution, clock);
    hide StateOk, HandleEvent, PhasesOf, Requested, EventSession, Strip, Flush;
    StatusPhase(Flush(st).sink.queue, HandleEvent(st, session, e, clock).sink.queue, id);
  }

  lemma PendingSeen(st: State, id: string)
    requires StateOk(st)
    ensures PendingIffLastAsked(PhasesOf(st.sink.queue, id), id in st.sink.output.pendingInterrupts)
    ensures PhasesOf(Flush(st).sink.queue, id) == PhasesOf(st.sink.queue, id)
  {
    assert Balanced(st.sink.queue, st.sink.output.pendingInterrupts, id);
    BalancedEndsInAsked(st.sink.queue, st.sink.output.pendingInterrupts, id);
    EmitAllShowsNoPhase(st.sink, Flushed(st.buffer), id);
  }

  lemma OtherPhases(st: State, session: string, e: Event, clock: Clock, id: string)
    requires !e.body.Asked? && !e.body.Answered?
    ensures PhasesOf(HandleEvent(st, session, e, clock).sink.queue, id) == PhasesOf(st.sink.queue, id)
  {
    hide PhasesOf, EmitAll, Coalesce, Generate;
    var r := Generate(st.parts, session, e);
    EmitAllShowsNoPhase(st.sink, Coalesce(st.buffer, r.chunks, clock, |r.chunks|).forwarded, id);
  }

  /** One input, for one id: the status it queues is the one that its event requests, if that is news. */
  lemma InputPhases(st: State, session: string, input: Input, id: string)
    requires StateOk(st) && id != ""
    ensures PhasesOf(Apply(st, session, input).sink.queue, id)
            == AfterRequest(PhasesOf(st.sink.queue, id),
                            if input.Deliver? then Requested(session, id, [input.event]) else [])
    ensures input.Deliver? ==> |Requested(session, id, [input.event])| <= 1
  {
    hide StateOk, HandleEvent, PhasesOf, Requested, EventSession, Strip, Flush;
    PendingSeen(st, id);
    if input.Deliver? {
      var e := input.event;
      RequestedOne(session, id, e);
      if e.body.Asked? {
        AskedPhases(st, session, e, input.clock, id);
      } else if e.body.Answered? {
        AnsweredPhases(st, session, e, input.clock, id);
      } else {
        OtherPhases(st, session, e, input.clock, id);
      }
    }
  }

  lemma StatusPhase(q1: seq<OutEvent>, q2: seq<OutEvent>, id: string)
    ensures |q2| == |q1| + 1 && q1 < q2 && q2[|q1|].InterruptStatus? ==>
              var i := q2[|q1|].interrupt;
              PhasesOf(q2, id) == PhasesOf(q1, id) + if i.requestId == id then [i.phase] else []
  {
    if |q2| == |q1| + 1 && q1 < q2 {
      assert q2 == q1 + [q2[|q1|]];
      QueueSnoc(q1, q2[|q1|]);
    }
  }

  /** Over whole runs: the statuses of an id are exactly what its events request, without what repeats the request
      before it and without an answer to a question never asked. */
  lemma {:induction false} StatusesAreRequests(userText: string, stableId: string, namespace: string, session: string,
                                               inputs: seq<Input>, id: string)
    requires id != ""
    ensures PhasesOf(Run(InitialState(InitialOutput(userText, stableId, namespace)), session, inputs).sink.queue, id)
            == Alternated(Requested(session, id, EventsIn(inputs)))
  {
    var st0 := InitialState(InitialOutput(userText, stableId, namespace));
    if inputs != [] {
      var init, last := inputs[..|inputs| - 1], inputs[|inputs| - 1];
      StatusesAreRequests(userText, stableId, namespace, session, init, id);
      InitialOk(userText, stableId, namespace);
      LastInput(st0, session, inputs);
      hide Run, StateOk, Apply, EventsIn, PhasesOf, Requested, Alternated, AfterRequest, InitialState, InitialOutput;
      RunOk(st0, session, init);
      InputPhases(Run(st0, session, init), session, last, id);
      var before := Requested(session, id, EventsIn(init));
      if last.Deliver? {
        RequestedSnoc(session, id, EventsIn(init), last.event);
        AlternatedMore(before, Requested(session, id, [last.event]));
      } else {
        AlternatedMore(before, []);
        assert before + [] == before;
      }
    }
  }

  // ------------------------------------------------------------- the echo

  /** The chunks that reach `_emit_chunk_now` for one input. */
  function Forwarded(st: State, session: string, input: Input): seq<Chunk> {
    match input
    case FlushPoint => Flushed(st.buffer)
    case Deliver(e, clock) =>
      var i := InterruptOf(e.body);
      if i.Some? then
        if EventSession(e.ids) == Some(session) && Accepted(st.sink.output, i.value) then Flushed(st.buffer) else []
      else
        var chunks := Generate(st.parts, session, e).chunks;
        Coalesce(st.buffer, chunks, clock, |chunks|).forwarded
  }

  /** And what else an input queues: the status of an accepted interrupt. */
  lemma InputEmits(st: State, session: string, input: Input)
    ensures var emitted := EmitAll(st.sink, Forwarded(st, session, input));
            var t := Apply(st, session, input).sink;
            || t == emitted
            || (&& input.Deliver? && InterruptOf(input.event.body).Some?
                && var i := InterruptOf(input.event.body).value;
                && t == EmitStatus(WithPending(emitted, NextPending(st.sink.output, i)), i))
  {
    if input.Deliver? && InterruptOf(input.event.body).Some? {
      var i := InterruptOf(input.event.body).value;
      EmitAllIgnoresPending(st.sink, NextPending(st.sink.output, i), Flushed(st.buffer));
      assert EmitAll(st.sink, []) == st.sink;
    }
  }

  /** Over whole runs: a piece of text that reaches the output is passed over only if it is the prompt, comes from
      nobody in particular, and no update has been queued yet. */
  lemma EchoPrecedesEveryUpdate(userText: string, stableId: string, namespace: string, session: string,
                                inputs: seq<Input>, k: nat, i: nat)
    requires k < |inputs|
    requires var st := Run(InitialState(InitialOutput(userText, stableId, namespace)), session, inputs[..k]);
             var cs := Forwarded(st, session, inputs[k]);
             i < |cs| && cs[i].part.TextPart? && EmitAll(st.sink, cs[..i + 1]).queue == EmitAll(st.sink, cs[..i]).queue
    ensures var st := Run(InitialState(InitialOutput(userText, stableId, namespace)), session, inputs[..k]);
            var cs := Forwarded(st, session, inputs[k]);
            && !HasArtifact(EmitAll(st.sink, cs[..i]).queue)
            && cs[i].blockType == TEXT && cs[i].role.None?
            && Strip(cs[i].part.text) == Strip(userText) != ""
  {
    var st0 := InitialState(InitialOutput(userText, stableId, namespace));
    InitialOk(userText, stableId, namespace);
    assert st0.sink.output.userText == userText;
    hide Run, Forwarded, StateOk, InitialState, InitialOutput;
    RunOk(st0, session, inputs[..k]);
    var st := Run(st0, session, inputs[..k]);
    var cs := Forwarded(st, session, inputs[k]);
    ForwardedOk(st, session, inputs[k]);
    EmitAllOk(st, cs, i);
    RunConstants(st0, session, inputs[..k]);
    EmitAllConstants(st.sink, cs[..i]);
    EmitAllLast(st.sink, cs, i);
    hide EmitAll, EmitNow, SinkOk, WellFormed, Strip;
    SuppressedExactly(EmitAll(st.sink, cs[..i]), cs[i]);
  }

  lemma EmitAllLast(s: Sink, cs: seq<Chunk>, i: nat)
    requires i < |cs|
    ensures EmitAll(s, cs[..i + 1]) == EmitNow(EmitAll(s, cs[..i]), cs[i])
  {
    assert cs[..i + 1][..i] == cs[..i];
  }

  lemma EmitAllOk(st: State, cs: seq<Chunk>, i: nat)
    requires StateOk(st) && AllWellFormed(cs) && i <= |cs|
    ensures SinkOk(EmitAll(st.sink, cs[..i]))
  {
    hide SinkOk, WellFormed, PartsOk, BufferOk;
    assert forall j :: 0 <= j < i ==> cs[..i][j] == cs[j];
    EmitAllKeeps(st.sink, cs[..i]);
  }

  lemma ForwardedOk(st: State, session: string, input: Input)
    requires StateOk(st)
    ensures AllWellFormed(Forwarded(st, session, input))
  {
    hide SinkOk;
    if input.Deliver? && InterruptOf(input.event.body).None? {
      GenerateOk(st.parts, session, input.event);
      var chunks := Generate(st.parts, session, input.event).chunks;
      CoalesceOk(st.buffer, chunks, input.clock, |chunks|);
    }
  }

  // -------------------------------------------------------- other sessions

  /** Some session-id extractor yields the processor's session. */
  predicate Relevant(session: string, input: Input) {
    input.Deliver? ==>
      EventSession(input.event.ids) == Some(session) || StreamSession(input.event.ids) == Some(session)
  }

  function RelevantOnly(session: string, inputs: seq<Input>): seq<Input> {
    if inputs == [] then []
    else
      RelevantOnly(session, inputs[..|inputs| - 1])
      + (if Relevant(session, inputs[|inputs| - 1]) then [inputs[|inputs| - 1]] else [])
  }

  lemma ForeignEventIsIgnored(st: State, session: string, input: Input)
    requires !Relevant(session, input)
    ensures Apply(st, session, input) == st
  {
    assert Coalesce(st.buffer, [], input.clock, 0) == Step(st.buffer, []);
  }

  /** Events of other sessions leave no trace in any output or state. */
  lemma {:induction false} SessionsDoNotInterfere(st: State, session: string, inputs: seq<Input>)
    ensures Run(st, session, inputs) == Run(st, session, RelevantOnly(session, inputs))
  {
    if inputs != [] {
      var earlier, last := inputs[..|inputs| - 1], inputs[|inputs| - 1];
      SessionsDoNotInterfere(st, session, earlier);
      if Relevant(session, last) {
        var kept := RelevantOnly(session, inputs);
        assert kept[..|kept| - 1] == RelevantOnly(session, earlier);
      } else {
        ForeignEventIsIgnored(Run(st, session, earlier), session, last);
        assert RelevantOnly(session, inputs) == RelevantOnly(session, earlier);
      }
    }
  }

  // -------------------------------------------------------------- tool calls

  /** The tool payload an update brings to a part typed as a tool call. */
  function PayloadOf(u: Body): Option<ToolPayload>
    requires u.PartUpdated?
  {
    if u.delta.Absent? || u.delta == StrDelta("") then u.payload
    else if u.delta.MapDelta? then u.delta.payload
    else None
  }

  lemma FlushKeepsToolBuffer(s: Sink, buffer: Option<Buffered>)
    requires BufferOk(buffer)
    ensures Content(EmitAll(s, Flushed(buffer)).output, TOOL_CALL) == Content(s.output, TOOL_CALL)
  {
    if buffer.Some? {
      var c := ToChunk(buffer.value);
      assert Flushed(buffer)[..0] == [];
      assert EmitAll(s, []) == s;
      assert EmitAll(s, [c]) == EmitNow(s, c);
    }
  }

  /** The payload brought by a typed update is the only thing the update generates. */
  lemma ToolPayloadGenerated(g: Parts, session: string, id: string, e: Event, payload: ToolPayload)
    requires PartsOk(g) && About(session, id, e) && e.body.PartUpdated? && e.body.blockType == Some(TOOL_CALL)
    requires BeforeContent(SlotOf(g, id), id, PartEvent(e.body, MessageIdOf(e.ids))).Some?
    requires PayloadOf(e.body) == Some(payload)
    ensures var p := BeforeContent(SlotOf(g, id), id, PartEvent(e.body, MessageIdOf(e.ids))).value;
            var r := Generate(g, session, e);
            && SlotOf(r.parts, id).state.Some?
            && var p' := SlotOf(r.parts, id).state.value;
            if payload.kind == StateKind && p.lastToolState == Some(payload.json) then
              r.chunks == [] && p'.lastToolState == p.lastToolState && p'.emittedToolChunks == p.emittedToolChunks
            else
              && |r.chunks| == 1 && WellFormed(r.chunks[0])
              && r.chunks[0].part == DataPart(payload.json)
              && (r.chunks[0].append <==> p.emittedToolChunks > 0)
              && p'.emittedToolChunks == p.emittedToolChunks + 1
              && p'.lastToolState == (if payload.kind == StateKind then Some(payload.json) else p.lastToolState)
  {
    var s := SlotOf(g, id);
    ToolReplayIsSilent(Upserted(s.state, id, TOOL_CALL, e.body.role, MessageIdOf(e.ids)), s.pending);
    GenerateOk(g, session, e);
  }

  /** Queue q2 is q1 with one tool update. */
  predicate OneToolUpdate(q1: seq<OutEvent>, q2: seq<OutEvent>, data: Json) {
    && |q2| == |q1| + 1
    && q1 < q2
    && q2[|q1|].ArtifactUpdate?
    && q2[|q1|].part == DataPart(data)
    && q2[|q1|].blockType == TOOL_CALL
  }

  /** The payload reaches the queue as exactly one update, after the buffered text, with two exceptions:
      a state payload that repeats the part's previous state payload, and a part's first payload
      that repeats the whole tool buffer. */
  lemma ToolPayloadShown(st: State, session: string, id: string, e: Event, clock: Clock, payload: ToolPayload)
    requires StateOk(st) && About(session, id, e) && e.body.PartUpdated? && e.body.blockType == Some(TOOL_CALL)
    requires BeforeContent(SlotOf(st.parts, id), id, PartEvent(e.body, MessageIdOf(e.ids))).Some?
    requires PayloadOf(e.body) == Some(payload)
    ensures var p := BeforeContent(SlotOf(st.parts, id), id, PartEvent(e.body, MessageIdOf(e.ids))).value;
            var t := HandleEvent(st, session, e, clock);
            var flushed := Flush(st).sink.queue;
            if payload.kind == StateKind && p.lastToolState == Some(payload.json) then
              t.sink == st.sink && t.buffer == st.buffer
            else if p.emittedToolChunks == 0 && payload.json == Content(st.sink.output, TOOL_CALL) then
              t.sink.queue == flushed
            else OneToolUpdate(flushed, t.sink.queue, payload.json)
  {
    ToolPayloadGenerated(st.parts, session, id, e, payload);
    var r := Generate(st.parts, session, e);
    assert HandleEvent(st, session, e, clock) == EmitChunks(st.(parts := r.parts), r.chunks, clock);
    if r.chunks == [] {
      assert EmitAll(st.sink, []) == st.sink;
    } else {
      var c := r.chunks[0];
      assert r.chunks == [c];
      ForwardedTool(st.(parts := r.parts), c, clock);
      FlushKeepsToolBuffer(st.sink, st.buffer);
      ToolChunkShown(EmitAll(st.sink, Flushed(st.buffer)), c);
    }
  }

  lemma ForwardedTool(st: State, c: Chunk, clock: Clock)
    requires c.part.DataPart?
    ensures EmitChunks(st, [c], clock) == State(st.parts, None, EmitNow(EmitAll(st.sink, Flushed(st.buffer)), c))
  {
    assert Coalesce(st.buffer, [c], clock, 0) == Step(st.buffer, []);
    assert Coalesce(st.buffer, [c], clock, 1).forwarded == Flushed(st.buffer) + [c];
    var all := Flushed(st.buffer) + [c];
    assert all[..|all| - 1] == Flushed(st.buffer);
  }
}
