/** The event processor as the source writes it: an object that updates its part states, its pending
    deltas, its text buffer and its counters in place. Each method is proved against the machine of
    module StreamRun. */
module StreamEventProcessor {
  import opened Text
  import opened StreamState
  import opened Coalescing
  import opened StreamOutput
  import opened StreamChunks
  import opened StreamRun
  import opened Completion

  class StreamPartState {
    var partId: string
    var blockType: BlockType
    var messageId: Option<string>
    var role: Option<string>
    var buffer: string
    var sawDelta: bool
    var emittedToolChunks: nat
    var lastToolState: Option<Json>

    function Value(): PartState reads this {
      PartState(partId, blockType, messageId, role, buffer, sawDelta, emittedToolChunks, lastToolState)
    }

    constructor (partId: string, blockType: BlockType, messageId: Option<string>, role: Option<string>)
      ensures Value() == NewPart(partId, blockType, role, messageId)
    {
      this.partId, this.blockType, this.messageId, this.role := partId, blockType, messageId, role;
      buffer, sawDelta, emittedToolChunks, lastToolState := "", false, 0, None;
    }

    method SetMessageId(id: Option<string>)
      modifies this
      ensures Value() == WithMessage(old(Value()), id)
    {
      if id.Some? && id.value != "" {
        messageId := id;
      }
    }

    /** What `upsert_stream_part_state` does to a state that exists. */
    method Update(id: string, b: BlockType, newRole: Option<string>, newMessageId: Option<string>)
      modifies this
      ensures Value() == Upserted(Some(old(Value())), id, b, newRole, newMessageId)
    {
      partId := id;
      blockType := b;
      if newRole.Some? {
        role := newRole;
      }
      SetMessageId(newMessageId);
    }

    method NewTextChunk(text: string, source: Source) returns (c: Chunk)
      ensures c == TextChunkOf(Value(), text, source)
    {
      c := Chunk(TextPart(text), text, true, blockType, source, messageId, role, Some(partId));
    }

    method AddDelta(delta: string, id: Option<string>, source: Source) returns (chunks: seq<Chunk>)
      modifies this
      ensures Made(Value(), chunks) == DeltaChunks(old(Value()), delta, id, source)
    {
      if delta == "" {
        return [];
      }
      SetMessageId(id);
      buffer := buffer + delta;
      sawDelta := true;
      var c := NewTextChunk(delta, source);
      return [c];
    }

    method AddSnapshot(snapshot: string, id: Option<string>) returns (chunks: seq<Chunk>)
      modifies this
      ensures Made(Value(), chunks) == SnapshotChunks(old(Value()), snapshot, id)
    {
      SetMessageId(id);
      var previous := buffer;
      if snapshot == previous {
        return [];
      }
      buffer := snapshot;
      if previous <= snapshot {
        var c := NewTextChunk(snapshot[|previous|..], PartTextDiff);
        return [c];
      }
      return [];
    }

    method AddToolPayload(payload: ToolPayload, id: Option<string>, source: Source) returns (chunks: seq<Chunk>)
      modifies this
      ensures Made(Value(), chunks) == ToolChunks(old(Value()), payload, id, source)
    {
      SetMessageId(id);
      if payload.kind == StateKind && lastToolState == Some(payload.json) {
        return [];
      }
      var append := emittedToolChunks > 0;
      emittedToolChunks := emittedToolChunks + 1;
      if payload.kind == StateKind {
        lastToolState := Some(payload.json);
      }
      var key := if append then "\n" + payload.json else payload.json;
      return [Chunk(DataPart(payload.json), key, append, blockType, source, messageId, role, Some(partId))];
    }

    method AddToolDelta(delta: DeltaValue, id: Option<string>, source: Source) returns (chunks: seq<Chunk>)
      modifies this
      ensures Made(Value(), chunks) == ToolDeltaChunks(old(Value()), delta, id, source)
    {
      if !delta.MapDelta? || delta.payload.None? {
        return [];
      }
      chunks := AddToolPayload(delta.payload.value, id, source);
    }

    method Replay(pending: seq<PendingDelta>) returns (chunks: seq<Chunk>)
      modifies this
      ensures Made(Value(), chunks) == ReplayPending(old(Value()), pending)
    {
      chunks := [];
      for i := 0 to |pending|
        invariant Made(Value(), chunks) == ReplayPending(old(Value()), pending[..i])
      {
        var d := pending[i];
        assert pending[..i + 1][..i] == pending[..i];
        if d.field != "text" {
          continue;
        }
        var more;
        if blockType == TOOL_CALL {
          more := AddToolDelta(StrDelta(d.delta), d.messageId, DeltaEventBuffered);
        } else {
          more := AddDelta(d.delta, d.messageId, DeltaEventBuffered);
        }
        chunks := chunks + more;
      }
      assert pending[..|pending|] == pending;
    }

    method AddContent(u: Body, id: Option<string>) returns (chunks: seq<Chunk>)
      requires u.PartUpdated?
      modifies this
      ensures Made(Value(), chunks) == UpdateContent(old(Value()), u, id)
    {
      chunks := [];
      if blockType == TOOL_CALL {
        if !u.delta.Absent? && (!u.delta.StrDelta? || u.delta.text != "") {
          chunks := AddToolDelta(u.delta, id, Delta);
        } else if u.payload.Some? {
          chunks := AddToolPayload(u.payload.value, id, ToolPartUpdate);
        }
      } else if u.delta.StrDelta? && u.delta.text != "" {
        chunks := AddDelta(u.delta.text, id, Delta);
      } else if u.text.Some? {
        chunks := AddSnapshot(u.text.value, id);
      }
    }

    method AddEventDelta(delta: string, id: Option<string>) returns (chunks: seq<Chunk>)
      modifies this
      ensures Made(Value(), chunks) == DeltaContent(old(Value()), delta, id)
    {
      if blockType == TOOL_CALL {
        chunks := AddToolDelta(StrDelta(delta), id, DeltaEvent);
      } else {
        chunks := AddDelta(delta, id, DeltaEvent);
      }
    }

    method AddTypedContent(pending: seq<PendingDelta>, u: Body, id: Option<string>) returns (chunks: seq<Chunk>)
      requires u.PartUpdated?
      modifies this
      ensures Made(Value(), chunks) == TypedContent(old(Value()), pending, u, id)
    {
      var replayed := Replay(pending);
      var more := AddContent(u, id);
      chunks := replayed + more;
    }
  }

  class StreamEventProcessor {
    const sessionId: string
    const output: StreamOutputState
    const queue: EventQueue
    var partStates: map<string, StreamPartState>
    var pendingDeltas: map<string, seq<PendingDelta>>
    var buffered: BufferedTextChunk?
    var emitted: nat
    var suppressed: nat

    ghost function Objects(): set<object>
      reads this
    {
      {this, output, queue} + partStates.Values + (if buffered == null then {} else {buffered})
    }

    /** Every part has its own state object. */
    ghost predicate Valid()
      reads this
    {
      Distinct(partStates)
    }

    static ghost predicate Distinct(states: map<string, StreamPartState>) {
      forall a, b :: a in states && b in states && a != b ==> states[a] != states[b]
    }

    static ghost function ValuesOf(states: map<string, StreamPartState>): map<string, PartState>
      reads states.Values
    {
      map id | id in states :: states[id].Value()
    }

    ghost function PartsValue(): Parts
      reads this, partStates.Values
    {
      Parts(ValuesOf(partStates), pendingDeltas)
    }

    ghost function BufferValue(): Option<Buffered>
      reads this, buffered
    {
      if buffered == null then None else Some(buffered.Value())
    }

    ghost function SinkValue(): Sink
      reads this, output, queue
    {
      Sink(output.Value(), queue.events, emitted, suppressed)
    }

    ghost function Model(): State
      reads Objects()
    {
      State(PartsValue(), BufferValue(), SinkValue())
    }

    constructor (sessionId: string, output: StreamOutputState, queue: EventQueue)
      ensures Valid() && fresh(Objects() - {output, queue})
      ensures this.sessionId == sessionId && this.output == output && this.queue == queue
      ensures Model() == State(Parts(map[], map[]), None, Sink(output.Value(), queue.events, 0, 0))
    {
      this.sessionId, this.output, this.queue := sessionId, output, queue;
      partStates, pendingDeltas, buffered := map[], map[], null;
      emitted, suppressed := 0, 0;
      new;
      assert PartsValue().states == map[];
    }

    method EmitChunkNow(c: Chunk)
      modifies output, queue, `emitted, `suppressed
      ensures SinkValue() == EmitNow(old(SinkValue()), c)
    {
      var messageId := ResolveMessageId(output.Value(), c.messageId);
      if c.part.TextPart? && IsInitialUserEcho(output.Value(), c.part.text, c.blockType, c.role) {
        suppressed := suppressed + 1;
        return;
      }
      var shouldEmit, append := output.RegisterChunk(c.blockType, c.contentKey, c.append);
      if !shouldEmit {
        suppressed := suppressed + 1;
        return;
      }
      var sequence := output.NextSequence();
      queue.Enqueue(ArtifactUpdate(c.part, append, false, c.blockType, c.source, messageId, c.role,
                                   sequence, EventId(output.namespace, sequence)));
      emitted := emitted + 1;
    }

    method FlushBufferedTextChunk()
      modifies output, queue, `emitted, `suppressed, `buffered
      ensures buffered == null
      ensures SinkValue() == EmitAll(old(SinkValue()), Flushed(old(BufferValue())))
    {
      if buffered == null {
        return;
      }
      var c := ToChunk(buffered.Value());
      buffered := null;
      EmitChunkNow(c);
      assert [c][..0] == [];
      assert EmitAll(old(SinkValue()), []) == old(SinkValue());
    }

    /** One round of the loop in `emit_chunks`. */
    method EmitOne(c: Chunk, now: real)
      modifies output, queue, `emitted, `suppressed, `buffered, buffered
      ensures buffered == null || buffered == old(buffered) || fresh(buffered)
      ensures BufferValue() == CoalesceOne(old(BufferValue()), c, now).buffer
      ensures SinkValue() == EmitAll(old(SinkValue()), CoalesceOne(old(BufferValue()), c, now).forwarded)
    {
      ghost var sink := SinkValue();
      ghost var was := Flushed(BufferValue());
      if IsProse(c) {
        ghost var flushed := if buffered != null && CanMerge(buffered.Value(), c) then [] else was;
        if buffered == null {
          buffered := new BufferedTextChunk(c, now);
        } else if CanMerge(buffered.Value(), c) {
          buffered.Append(c);
        } else {
          FlushBufferedTextChunk();
          buffered := new BufferedTextChunk(c, now);
        }
        assert EmitAll(sink, []) == sink;
        assert SinkValue() == EmitAll(sink, flushed);
        if ShouldFlush(buffered.Value(), now) {
          EmitAllAppend(sink, flushed, [ToChunk(buffered.Value())]);
          FlushBufferedTextChunk();
        }
      } else {
        FlushBufferedTextChunk();
        EmitAllAppend(sink, was, [c]);
        EmitSingle(EmitAll(sink, was), c);
        EmitChunkNow(c);
      }
    }

    static lemma EmitSingle(s: Sink, c: Chunk)
      ensures EmitAll(s, [c]) == EmitNow(s, c)
    {
      assert [c][..0] == [];
      assert EmitAll(s, []) == s;
    }

    method EmitChunkList(cs: seq<Chunk>, clock: Clock)
      modifies output, queue, `emitted, `suppressed, `buffered, buffered
      ensures buffered == null || buffered == old(buffered) || fresh(buffered)
      ensures BufferValue() == Coalesce(old(BufferValue()), cs, clock, |cs|).buffer
      ensures SinkValue() == EmitAll(old(SinkValue()), Coalesce(old(BufferValue()), cs, clock, |cs|).forwarded)
    {
      ghost var sink, buffer := SinkValue(), BufferValue();
      assert EmitAll(sink, []) == sink;
      for i := 0 to |cs|
        invariant buffered == null || buffered == old(buffered) || fresh(buffered)
        invariant BufferValue() == Coalesce(buffer, cs, clock, i).buffer
        invariant SinkValue() == EmitAll(sink, Coalesce(buffer, cs, clock, i).forwarded)
      {
        ghost var before := Coalesce(buffer, cs, clock, i);
        EmitAllAppend(sink, before.forwarded, CoalesceOne(before.buffer, cs[i], clock(i)).forwarded);
        EmitOne(cs[i], clock(i));
      }
    }

    method EmitInterruptStatus(i: Interrupt)
      modifies output, queue, `emitted, `suppressed, `buffered
      ensures buffered == null
      ensures SinkValue() == EmitStatus(EmitAll(old(SinkValue()), Flushed(old(BufferValue()))), i)
    {
      FlushBufferedTextChunk();
      var sequence := output.NextSequence();
      queue.Enqueue(InterruptStatus(i, ResolveMessageId(output.Value(), None), sequence,
                                    EventId(output.namespace, sequence)));
    }

    method HandleInterruptEvent(i: Interrupt)
      modifies output, queue, `emitted, `suppressed, `buffered
      ensures buffered == null || buffered == old(buffered)
      ensures var st := HandleInterrupt(State(Parts(map[], map[]), old(BufferValue()), old(SinkValue())), i);
              SinkValue() == st.sink && (buffered == null <==> st.buffer.None?)
      ensures buffered != null ==> BufferValue() == old(BufferValue())
    {
      var changed;
      if i.phase == AskedPhase {
        changed := output.MarkInterruptPending(i.requestId);
      } else {
        changed := output.ClearInterruptPending(i.requestId);
      }
      if changed {
        assert SinkValue() == WithPending(old(SinkValue()), NextPending(old(SinkValue()).output, i));
        EmitInterruptStatus(i);
      }
    }

    method UpsertPart(id: string, b: BlockType, role: Option<string>, messageId: Option<string>)
      returns (p: StreamPartState)
      requires Valid()
      modifies `partStates, partStates.Values
      ensures Valid()
      ensures id in partStates && partStates[id] == p
      ensures partStates.Values <= old(partStates.Values) + {p} && (fresh(p) || p in old(partStates.Values))
      ensures p.Value() == Upserted(SlotOf(old(PartsValue()), id).state, id, b, role, messageId)
      ensures ValuesOf(partStates) == old(ValuesOf(partStates))[id := p.Value()]
    {
      if id !in partStates {
        p := new StreamPartState(id, b, messageId, role);
        partStates := partStates[id := p];
        return;
      }
      p := partStates[id];
      p.Update(id, b, role, messageId);
    }

    /** A `message.part.delta` event. */
    method HandleDelta(id: string, e: Body, messageId: Option<string>) returns (chunks: seq<Chunk>)
      requires Valid() && PartsOk(PartsValue()) && e.PartDelta?
      modifies `pendingDeltas, partStates.Values
      ensures Valid()
      ensures StepsTo(old(PartsValue()), id, e, messageId, PartsValue(), chunks)
    {
      hide StepsTo, PartsOk, DeltaContent;
      ghost var g := PartsValue();
      chunks := [];
      var delta := AddedText(e);
      if delta.None? || (id in partStates && BlockedRole(partStates[id].role)) {
        DeltaIgnored(g, id, e, messageId);
        return;
      }
      if id !in partStates {
        var waiting := if id in pendingDeltas then pendingDeltas[id] else [];
        pendingDeltas := pendingDeltas[id := waiting + [PendingDelta("text", delta.value, messageId)]];
        DeltaWaits(g, id, e, messageId);
        return;
      }
      chunks := AddDeltaTo(id, delta.value, messageId);
      DeltaAdded(g, id, e, messageId);
    }

    method AddDeltaTo(id: string, delta: string, messageId: Option<string>) returns (chunks: seq<Chunk>)
      requires Valid() && id in partStates
      modifies partStates.Values
      ensures Valid()
      ensures var m := DeltaContent(old(ValuesOf(partStates))[id], delta, messageId);
              chunks == m.chunks && ValuesOf(partStates) == old(ValuesOf(partStates))[id := m.state]
    {
      hide DeltaContent;
      var p := partStates[id];
      chunks := p.AddEventDelta(delta, messageId);
    }

    static lemma DeltaIgnored(g: Parts, id: string, e: Body, messageId: Option<string>)
      requires PartsOk(g) && e.PartDelta?
      requires AddedText(e).None? || (id in g.states && BlockedRole(g.states[id].role))
      ensures StepsTo(g, id, e, messageId, g, [])
    {
      WithSlotSame(g, id);
    }

    static lemma DeltaWaits(g: Parts, id: string, e: Body, messageId: Option<string>)
      requires PartsOk(g) && e.PartDelta? && AddedText(e).Some? && id !in g.states
      ensures var waiting := if id in g.pending then g.pending[id] else [];
              StepsTo(g, id, e, messageId,
                      g.(pending := g.pending[id := waiting + [PendingDelta("text", AddedText(e).value, messageId)]]), [])
    {
      assert g.states - {id} == g.states;
    }

    static lemma DeltaAdded(g: Parts, id: string, e: Body, messageId: Option<string>)
      requires PartsOk(g) && e.PartDelta? && AddedText(e).Some? && id in g.states && !BlockedRole(g.states[id].role)
      ensures var m := DeltaContent(g.states[id], AddedText(e).value, messageId);
              StepsTo(g, id, e, messageId, g.(states := g.states[id := m.state]), m.chunks)
    {
      hide DeltaContent;
      assert g.pending - {id} == g.pending;
    }

    /** A `message.part.updated` event. */
    method HandleUpdate(id: string, e: Body, messageId: Option<string>) returns (chunks: seq<Chunk>)
      requires Valid() && e.PartUpdated?
      modifies `pendingDeltas, `partStates, partStates.Values
      ensures Valid() && fresh(partStates.Values - old(partStates.Values))
      ensures StepsTo(old(PartsValue()), id, e, messageId, PartsValue(), chunks)
    {
      if e.blockType.None? {
        ForgetStepsTo(PartsValue(), id, e, messageId);
        pendingDeltas := pendingDeltas - {id};
        chunks := [];
      } else {
        ghost var g := PartsValue();
        ghost var p0, p1;
        chunks, p0, p1 := HandleTypedUpdate(id, e, messageId);
        UpdateStepsTo(g, id, e, messageId, p0, p1, PartsValue(), chunks);
      }
    }

    method HandleTypedUpdate(id: string, e: Body, messageId: Option<string>)
      returns (chunks: seq<Chunk>, ghost p0: PartState, ghost p1: PartState)
      requires Valid() && e.PartUpdated? && e.blockType.Some?
      modifies `pendingDeltas, `partStates, partStates.Values
      ensures Valid() && fresh(partStates.Values - old(partStates.Values))
      ensures p0 == Upserted(SlotOf(old(PartsValue()), id).state, id, e.blockType.value, e.role, messageId)
      ensures Made(p1, chunks) == if BlockedRole(p0.role) then Made(p0, [])
                                  else TypedContent(p0, SlotOf(old(PartsValue()), id).pending, e, messageId)
      ensures PartsValue() == Parts(old(PartsValue()).states[id := p0][id := p1], old(pendingDeltas) - {id})
    {
      hide Upserted, TypedContent, Distinct, BlockedRole;
      var p := UpsertPart(id, e.blockType.value, e.role, messageId);
      p0 := p.Value();
      var pending := if id in pendingDeltas then pendingDeltas[id] else [];
      pendingDeltas := pendingDeltas - {id};
      chunks := FillPart(id, p, pending, e, messageId);
      p1 := p.Value();
    }

    static lemma ForgetStepsTo(g: Parts, id: string, e: Body, messageId: Option<string>)
      requires e.PartUpdated? && e.blockType.None?
      ensures StepsTo(g, id, e, messageId, Parts(g.states, g.pending - {id}), [])
    {
    }

    static lemma UpdateStepsTo(g: Parts, id: string, e: Body, messageId: Option<string>, p0: PartState, p1: PartState,
                               h: Parts, chunks: seq<Chunk>)
      requires e.PartUpdated? && e.blockType.Some?
      requires p0 == Upserted(SlotOf(g, id).state, id, e.blockType.value, e.role, messageId)
      requires Made(p1, chunks) == if BlockedRole(p0.role) then Made(p0, [])
                                   else TypedContent(p0, SlotOf(g, id).pending, e, messageId)
      requires h == Parts(g.states[id := p0][id := p1], g.pending - {id})
      ensures StepsTo(g, id, e, messageId, h, chunks)
    {
    }

    method FillPart(id: string, p: StreamPartState, pending: seq<PendingDelta>, e: Body, messageId: Option<string>)
      returns (chunks: seq<Chunk>)
      requires Valid() && id in partStates && partStates[id] == p && e.PartUpdated?
      modifies p
      ensures Made(p.Value(), chunks) == if BlockedRole(old(p.Value()).role) then Made(old(p.Value()), [])
                                         else TypedContent(old(p.Value()), pending, e, messageId)
      ensures ValuesOf(partStates) == old(ValuesOf(partStates))[id := p.Value()]
    {
      if BlockedRole(p.role) {
        chunks := [];
      } else {
        chunks := p.AddTypedContent(pending, e, messageId);
      }
    }

    static ghost predicate StepsTo(g: Parts, id: string, e: Body, messageId: Option<string>, h: Parts, chunks: seq<Chunk>) {
      var r := StepSlot(SlotOf(g, id), id, e, messageId);
      h == WithSlot(g, id, r.slot) && chunks == r.chunks
    }

    /** The part of `handle_event` after the interrupts, up to the emission of the chunks. */
    method GenerateChunks(e: Event) returns (chunks: seq<Chunk>)
      requires Valid() && PartsOk(PartsValue())
      modifies `pendingDeltas, `partStates, partStates.Values
      ensures Valid() && fresh(partStates.Values - old(partStates.Values))
      ensures Generated(PartsValue(), chunks) == Generate(old(PartsValue()), sessionId, e)
    {
      if !e.body.PartUpdated? && !e.body.PartDelta? {
        return [];
      }
      if StreamSession(e.ids) != Some(sessionId) {
        return [];
      }
      var messageId := MessageIdOf(e.ids);
      var id := PartIdOf(e.ids);
      if id.None? {
        return [];
      }
      if e.body.PartDelta? {
        chunks := HandleDelta(id.value, e.body, messageId);
      } else {
        chunks := HandleUpdate(id.value, e.body, messageId);
      }
    }

    /** The part of `handle_event` after the interrupts. */
    method HandlePartEvent(e: Event, clock: Clock)
      requires Valid() && PartsOk(PartsValue())
      modifies output, queue, `emitted, `suppressed, `buffered, buffered
      modifies `pendingDeltas, `partStates, partStates.Values
      ensures Valid() && fresh(partStates.Values - old(partStates.Values))
      ensures buffered == null || buffered == old(buffered) || fresh(buffered)
      ensures PartsValue() == Generate(old(PartsValue()), sessionId, e).parts
      ensures var chunks := Generate(old(PartsValue()), sessionId, e).chunks;
              var r := Coalesce(old(BufferValue()), chunks, clock, |chunks|);
              BufferValue() == r.buffer && SinkValue() == EmitAll(old(SinkValue()), r.forwarded)
    {
      hide Generate, Coalesce, EmitAll, PartsOk, Distinct;
      var chunks := GenerateChunks(e);
      EmitChunkList(chunks, clock);
    }

    method HandleEvent(e: Event, clock: Clock)
      requires Valid() && PartsOk(PartsValue())
      modifies Objects()
      ensures Valid() && fresh(Objects() - old(Objects()))
      ensures Model() == StreamRun.HandleEvent(old(Model()), sessionId, e, clock)
    {
      hide Generate, Coalesce, EmitAll, InterruptOf, EventSession, Announce, PartsOk, Distinct;
      var i := InterruptOf(e.body);
      if i.Some? {
        if EventSession(e.ids) == Some(sessionId) {
          HandleInterruptEvent(i.value);
          assert PartsValue() == old(PartsValue());
        }
      } else {
        HandlePartEvent(e, clock);
      }
    }

    method Flush()
      requires Valid()
      modifies Objects()
      ensures Valid() && fresh(Objects() - old(Objects()))
      ensures Model() == StreamRun.Flush(old(Model()))
    {
      FlushBufferedTextChunk();
      assert PartsValue() == old(PartsValue());
    }
  }
}
