/** Whole histories of a tool part: which of the payloads it receives become chunks. */
module ToolHistory {
  import opened Text
  import opened StreamState
  import opened Coalescing
  import opened StreamOutput
  import opened StreamChunks
  import opened PartHistory
  import opened StreamRun
  import opened Transcript

  /** Every update types the part as a tool call, and none is the user's or the system's. */
  predicate ToolOnly(es: seq<PartEvent>) {
    forall i :: 0 <= i < |es| && es[i].body.PartUpdated? ==>
      es[i].body.blockType == Some(TOOL_CALL) && !BlockedRole(es[i].body.role)
  }

  /** The payloads the updates bring, in order. */
  function Payloads(es: seq<PartEvent>): seq<ToolPayload> {
    if es == [] then [] else Payloads(es[..|es| - 1]) + PayloadsOf(es[|es| - 1])
  }

  function PayloadsOf(e: PartEvent): seq<ToolPayload> {
    if e.body.PartUpdated? && PayloadOf(e.body).Some? then [PayloadOf(e.body).value] else []
  }

  /** The last state among the payloads. */
  function LastState(ps: seq<ToolPayload>): Option<Json> {
    if ps == [] then None
    else if ps[|ps| - 1].kind == StateKind then Some(ps[|ps| - 1].json)
    else LastState(ps[..|ps| - 1])
  }

  /** All output deltas, and the states that differ from the state before them. */
  function Kept(ps: seq<ToolPayload>): seq<Json> {
    if ps == [] then []
    else
      var init, p := ps[..|ps| - 1], ps[|ps| - 1];
      Kept(init) + (if p.kind == StateKind && LastState(init) == Some(p.json) then [] else [p.json])
  }

  /** The chunks carry the given payloads; the first replaces, the others append. */
  predicate Carry(cs: seq<Chunk>, data: seq<Json>) {
    && |cs| == |data|
    && forall i :: 0 <= i < |cs| ==>
         && cs[i].part == DataPart(data[i]) && cs[i].blockType == TOOL_CALL
         && (cs[i].append <==> i > 0)
         && cs[i].contentKey == if i > 0 then "\n" + data[i] else data[i]
  }

  ghost predicate ToolState(s: Slot, ps: seq<ToolPayload>) {
    if s.state.None? then ps == []
    else
      && s.pending == []
      && s.state.value.blockType == TOOL_CALL && !BlockedRole(s.state.value.role)
      && s.state.value.lastToolState == LastState(ps)
      && s.state.value.emittedToolChunks == |Kept(ps)|
  }

  /** An update acts on the part as it is known, with nothing held back. */
  lemma ToolUpdate(s: Slot, id: string, e: PartEvent)
    requires e.body.PartUpdated? && e.body.blockType == Some(TOOL_CALL) && !BlockedRole(e.body.role)
    requires s.state.Some? ==> !BlockedRole(s.state.value.role)
    ensures var p := Upserted(s.state, id, TOOL_CALL, e.body.role, e.messageId);
            var m := UpdateContent(p, e.body, e.messageId);
            && StepSlot(s, id, e.body, e.messageId) == SlotStep(Slot(Some(m.state), []), m.chunks)
            && p.blockType == TOOL_CALL && !BlockedRole(p.role)
            && p.lastToolState == (if s.state.Some? then s.state.value.lastToolState else None)
            && p.emittedToolChunks == (if s.state.Some? then s.state.value.emittedToolChunks else 0)
  {
    var p := Upserted(s.state, id, TOOL_CALL, e.body.role, e.messageId);
    ToolReplayIsSilent(p, s.pending);
    hide UpdateContent, ReplayPending;
    var m := UpdateContent(p, e.body, e.messageId);
    assert [] + m.chunks == m.chunks;
  }

  /** What the update's own content does to a tool part that has received the payloads ps. */
  lemma ContentStep(p: PartState, u: Body, messageId: Option<string>, ps: seq<ToolPayload>)
    requires u.PartUpdated? && p.blockType == TOOL_CALL
    requires p.lastToolState == LastState(ps) && p.emittedToolChunks == |Kept(ps)|
    ensures var m, qs := UpdateContent(p, u, messageId),
                         if PayloadOf(u).Some? then ps + [PayloadOf(u).value] else ps;
            && m.state.blockType == TOOL_CALL && m.state.role == p.role
            && m.state.lastToolState == LastState(qs) && m.state.emittedToolChunks == |Kept(qs)|
            && (m.chunks == [] ==> Kept(qs) == Kept(ps))
            && (m.chunks != [] ==>
                 PayloadOf(u).Some? && Kept(qs) == Kept(ps) + [PayloadOf(u).value.json]
                 && OneMore(m.chunks, PayloadOf(u).value.json, Kept(ps) == []))
  {
    ContentIsPayload(p, u, messageId);
    hide UpdateContent, PayloadOf, Kept, LastState;
    if PayloadOf(u).Some? {
      KeptSnoc(ps, PayloadOf(u).value);
    }
  }

  lemma KeptSnoc(ps: seq<ToolPayload>, p: ToolPayload)
    ensures LastState(ps + [p]) == if p.kind == StateKind then Some(p.json) else LastState(ps)
    ensures Kept(ps + [p]) == if p.kind == StateKind && LastState(ps) == Some(p.json) then Kept(ps) else Kept(ps) + [p.json]
  {
    assert (ps + [p])[..|ps + [p]| - 1] == ps;
    assert Kept(ps) + [] == Kept(ps);
  }

  /** A typed tool update adds its payload, if it brings one, and nothing else. */
  lemma ContentIsPayload(p: PartState, u: Body, messageId: Option<string>)
    requires u.PartUpdated? && p.blockType == TOOL_CALL
    ensures UpdateContent(p, u, messageId) ==
            if PayloadOf(u).None? then Made(p, [])
            else ToolChunks(p, PayloadOf(u).value, messageId,
                            if u.delta.Absent? || u.delta == StrDelta("") then ToolPartUpdate else Delta)
  {
  }

  /** One event of a tool part. */
  lemma ToolStep(s: Slot, id: string, e: PartEvent, ps: seq<ToolPayload>)
    requires SlotOk(s, id) && ToolState(s, ps)
    requires e.body.PartUpdated? ==> e.body.blockType == Some(TOOL_CALL) && !BlockedRole(e.body.role)
    ensures var r, qs := StepSlot(s, id, e.body, e.messageId), ps + PayloadsOf(e);
            && ToolState(r.slot, qs)
            && (r.chunks == [] ==> Kept(qs) == Kept(ps))
            && (r.chunks != [] ==>
                 e.body.PartUpdated? && PayloadOf(e.body).Some? && Kept(qs) == Kept(ps) + [PayloadOf(e.body).value.json]
                 && OneMore(r.chunks, PayloadOf(e.body).value.json, Kept(ps) == []))
  {
    assert ps + [] == ps;
    if e.body.PartUpdated? {
      ToolUpdate(s, id, e);
      hide StepSlot, Upserted, UpdateContent, PayloadOf, OneMore;
      ContentStep(Upserted(s.state, id, TOOL_CALL, e.body.role, e.messageId), e.body, e.messageId, ps);
    } else {
      hide LastState, Kept;
    }
  }

  /** One chunk with the given payload. */
  predicate OneMore(cs: seq<Chunk>, data: Json, first: bool) {
    && |cs| == 1 && cs[0].part == DataPart(data) && cs[0].blockType == TOOL_CALL
    && (cs[0].append <==> !first)
    && cs[0].contentKey == if first then data else "\n" + data
  }

  lemma CarrySnoc(cs: seq<Chunk>, data: seq<Json>, more: seq<Chunk>, last: Json)
    requires Carry(cs, data) && OneMore(more, last, data == [])
    ensures Carry(cs + more, data + [last])
  {
  }

  lemma NoHistory(id: string)
    ensures RunSlot(Slot(None, []), id, []) == SlotStep(Slot(None, []), [])
    ensures Carry([], Kept(Payloads([]))) && ToolState(Slot(None, []), Payloads([]))
  {
  }

  lemma LastToolEvent(id: string, es: seq<PartEvent>)
    requires es != [] && ToolOnly(es)
    ensures var init, e := es[..|es| - 1], es[|es| - 1];
            && ToolOnly(init)
            && (e.body.PartUpdated? ==> e.body.blockType == Some(TOOL_CALL) && !BlockedRole(e.body.role))
            && Payloads(es) == Payloads(init) + PayloadsOf(e)
            && var before := RunSlot(Slot(None, []), id, init);
            var r := StepSlot(before.slot, id, e.body, e.messageId);
            RunSlot(Slot(None, []), id, es) == SlotStep(r.slot, before.chunks + r.chunks)
  {
    hide StepSlot, PayloadsOf, BlockedRole;
    assert forall i :: 0 <= i < |es| - 1 ==> es[..|es| - 1][i] == es[i];
  }

  /** Over any history of a part typed as a tool call, the chunks generated are the payloads received, in
      order, without the states that repeat the state before them: every output delta counts, even a
      repeated one. */
  lemma {:induction false} ToolChunksAreKept(id: string, es: seq<PartEvent>)
    requires ToolOnly(es)
    ensures var r := RunSlot(Slot(None, []), id, es);
            Carry(r.chunks, Kept(Payloads(es))) && ToolState(r.slot, Payloads(es))
  {
    hide RunSlot, StepSlot, SlotOk, ToolOnly, ToolState, Payloads, PayloadOf, PayloadsOf, LastState, BlockedRole,
         Carry, OneMore, Kept;
    if es == [] {
      NoHistory(id);
    } else {
      var init, e := es[..|es| - 1], es[|es| - 1];
      LastToolEvent(id, es);
      ToolChunksAreKept(id, init);
      NewSlotOk(id);
      RunSlotOk(Slot(None, []), id, init);
      var before := RunSlot(Slot(None, []), id, init);
      ToolStep(before.slot, id, e, Payloads(init));
      var r := StepSlot(before.slot, id, e.body, e.messageId);
      if r.chunks != [] {
        CarrySnoc(before.chunks, Kept(Payloads(init)), r.chunks, PayloadOf(e.body).value.json);
      } else {
        assert before.chunks + [] == before.chunks;
      }
    }
  }

  lemma NewSlotOk(id: string)
    ensures SlotOk(Slot(None, []), id)
  {
  }

  /** The same for one part among others. */
  lemma ToolPartShowsPayloads(g: Parts, session: string, id: string, es: seq<Event>)
    requires PartsOk(g) && SlotOf(g, id) == Slot(None, []) && ToolOnly(EventsOf(session, id, es))
    ensures Carry(ChunksFor(id, GenerateAll(g, session, es).chunks), Kept(Payloads(EventsOf(session, id, es))))
  {
    PartsAreIndependent(g, session, id, es);
    ToolChunksAreKept(id, EventsOf(session, id, es));
    hide Carry, PartsOk, GenerateAll, RunSlot, EventsOf, ToolOnly;
  }

  // ------------------------------------------------------------- the queue

  /** The tool updates shown so far and the tool buffer. */
  datatype Shown = Shown(updates: seq<Json>, buffer: string)

  /** A tool chunk is shown unless it opens its part by repeating the whole tool buffer. */
  function Show(t: Shown, c: Chunk): Shown {
    if !c.part.DataPart? || (!c.append && c.part.data == t.buffer) then t
    else Shown(t.updates + [c.part.data], if c.append then t.buffer + "\n" + c.part.data else c.part.data)
  }

  function ShowAll(t: Shown, cs: seq<Chunk>): Shown {
    if cs == [] then t else Show(ShowAll(t, cs[..|cs| - 1]), cs[|cs| - 1])
  }

  /** The payloads of a queue's tool updates, in order. */
  function ToolUpdates(q: seq<OutEvent>): seq<Json> {
    if q == [] then []
    else
      var e := q[|q| - 1];
      ToolUpdates(q[..|q| - 1]) + (if e.ArtifactUpdate? && e.part.DataPart? then [e.part.data] else [])
  }

  function ShownIn(s: Sink): Shown {
    Shown(ToolUpdates(s.queue), Content(s.output, TOOL_CALL))
  }

  lemma ToolUpdatesSnoc(q: seq<OutEvent>, e: OutEvent)
    ensures ToolUpdates(q + [e]) == ToolUpdates(q) + (if e.ArtifactUpdate? && e.part.DataPart? then [e.part.data] else [])
  {
    assert (q + [e])[..|q + [e]| - 1] == q;
  }

  lemma {:induction false} ShowAllAppend(t: Shown, a: seq<Chunk>, b: seq<Chunk>)
    ensures ShowAll(t, a + b) == ShowAll(ShowAll(t, a), b)
  {
    if b == [] {
      assert a + b == a;
    } else {
      assert (a + b)[..|a + b| - 1] == a + b[..|b| - 1];
      ShowAllAppend(t, a, b[..|b| - 1]);
    }
  }

  lemma EmitNowShows(s: Sink, c: Chunk)
    requires WellFormed(c)
    ensures ShownIn(EmitNow(s, c)) == Show(ShownIn(s), c)
  {
    var t := EmitNow(s, c);
    if c.part.DataPart? {
      ToolChunkShown(s, c);
    }
    if t.queue != s.queue {
      ToolUpdatesSnoc(s.queue, t.queue[|t.queue| - 1]);
      assert t.queue == s.queue + [t.queue[|t.queue| - 1]];
    }
    hide ToolUpdates, EventId, ResolveMessageId;
  }

  lemma {:induction false} EmitAllShows(s: Sink, cs: seq<Chunk>)
    requires AllWellFormed(cs)
    ensures ShownIn(EmitAll(s, cs)) == ShowAll(ShownIn(s), cs)
  {
    if cs != [] {
      hide WellFormed, EmitNow, ShownIn, Show;
      EmitAllShows(s, cs[..|cs| - 1]);
      EmitNowShows(EmitAll(s, cs[..|cs| - 1]), cs[|cs| - 1]);
    }
  }

  /** Merging prose leaves the tool chunks alone. */
  lemma CoalesceOneShows(t: Shown, buffer: Option<Buffered>, c: Chunk, now: real)
    ensures ShowAll(t, CoalesceOne(buffer, c, now).forwarded) == Show(t, c)
  {
    hide ShouldFlush, CanMerge;
    assert ShowAll(t, []) == t;
    forall d: Chunk ensures ShowAll(t, [d]) == Show(t, d) {
      assert [d][..0] == [];
    }
    FlushedShows(t, buffer);
    var r := CoalesceOne(buffer, c, now);
    if r.forwarded != [] {
      var init, last := r.forwarded[..|r.forwarded| - 1], r.forwarded[|r.forwarded| - 1];
      assert init == [] || init == Flushed(buffer);
    }
  }

  lemma FlushedShows(t: Shown, buffer: Option<Buffered>)
    ensures ShowAll(t, Flushed(buffer)) == t
  {
    if buffer.Some? {
      assert [ToChunk(buffer.value)][..0] == [];
      assert ShowAll(t, []) == t;
    }
  }

  lemma {:induction false} CoalesceShows(t: Shown, buffer: Option<Buffered>, cs: seq<Chunk>, clock: Clock, n: nat)
    requires n <= |cs|
    ensures ShowAll(t, Coalesce(buffer, cs, clock, n).forwarded) == ShowAll(t, cs[..n])
  {
    if n > 0 {
      var before := Coalesce(buffer, cs, clock, n - 1);
      CoalesceShows(t, buffer, cs, clock, n - 1);
      hide CoalesceOne, Show;
      var one := CoalesceOne(before.buffer, cs[n - 1], clock(n - 1));
      ShowAllAppend(t, before.forwarded, one.forwarded);
      CoalesceOneShows(ShowAll(t, before.forwarded), before.buffer, cs[n - 1], clock(n - 1));
      assert cs[..n][..n - 1] == cs[..n - 1];
    }
  }

  lemma InputShows(st: State, session: string, input: Input)
    requires StateOk(st)
    ensures ShownIn(Apply(st, session, input).sink) == ShowAll(ShownIn(st.sink), GeneratedBy(st, session, input))
  {
    hide StateOk, AllWellFormed, EmitAll, Forwarded, Apply, EmitStatus, WithPending, ShownIn, GeneratedBy, ShowAll;
    var cs := Forwarded(st, session, input);
    ForwardedOk(st, session, input);
    EmitAllShows(st.sink, cs);
    InputEmits(st, session, input);
    ForwardedShows(st, session, input, ShownIn(st.sink));
    var emitted := EmitAll(st.sink, cs);
    var t := Apply(st, session, input).sink;
    if t != emitted {
      var i := InterruptOf(input.event.body).value;
      StatusShowsNothing(emitted, NextPending(st.sink.output, i), i);
    }
  }

  lemma StatusShowsNothing(s: Sink, pending: set<string>, i: Interrupt)
    ensures ShownIn(EmitStatus(WithPending(s, pending), i)) == ShownIn(s)
  {
    var q := EmitStatus(WithPending(s, pending), i).queue;
    ToolUpdatesSnoc(s.queue, q[|q| - 1]);
  }

  lemma ForwardedShows(st: State, session: string, input: Input, t: Shown)
    ensures ShowAll(t, Forwarded(st, session, input)) == ShowAll(t, GeneratedBy(st, session, input))
  {
    FlushedShows(t, st.buffer);
    var cs := GeneratedBy(st, session, input);
    if input.Deliver? && InterruptOf(input.event.body).None? {
      CoalesceShows(t, st.buffer, cs, input.clock, |cs|);
      assert cs[..|cs|] == cs;
    }
    hide Coalesce, Flushed;
  }

  /** Over whole runs of the processor: the queue's tool updates are, in order, the tool chunks generated from the
      events, without those that open their part by repeating everything in the tool buffer at that point. */
  lemma {:induction false} RunShowsTools(st: State, session: string, inputs: seq<Input>)
    requires StateOk(st)
    ensures var r := GenerateAll(st.parts, session, EventsIn(inputs));
            && Run(st, session, inputs).parts == r.parts
            && ShownIn(Run(st, session, inputs).sink) == ShowAll(ShownIn(st.sink), r.chunks)
  {
    if inputs == [] {
      assert ShowAll(ShownIn(st.sink), []) == ShownIn(st.sink);
    } else {
      var init, last := inputs[..|inputs| - 1], inputs[|inputs| - 1];
      RunShowsTools(st, session, init);
      RunOk(st, session, init);
      LastInput(st, session, inputs);
      hide StateOk, Apply, ShownIn, Show, Generate, Run, EventsIn, GenerateAll, ShowAll;
      InputShows(Run(st, session, init), session, last);
      InputParts(Run(st, session, init), session, last);
      var before := GenerateAll(st.parts, session, EventsIn(init));
      if last.Deliver? {
        GenerateAllSnoc(st.parts, session, EventsIn(init), last.event);
        ShowAllAppend(ShownIn(st.sink), before.chunks, Generate(before.parts, session, last.event).chunks);
      } else {
        ShowNothing(ShowAll(ShownIn(st.sink), before.chunks));
      }
    }
  }

  lemma ShowNothing(t: Shown)
    ensures ShowAll(t, []) == t
  {
  }
}
