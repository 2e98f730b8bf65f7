/** Whole histories of parts: what other parts' events cannot touch, reconciliation of deltas with
    snapshots, and parts whose type is learned late. */
module PartHistory {
  import opened Text
  import opened StreamState
  import opened StreamOutput
  import opened StreamChunks

  /** An event seen by one part: its body and its message id. */
  datatype PartEvent = PartEvent(body: Body, messageId: Option<string>)

  function RunSlot(s: Slot, id: string, es: seq<PartEvent>): SlotStep {
    if es == [] then SlotStep(s, [])
    else
      var before := RunSlot(s, id, es[..|es| - 1]);
      var e := es[|es| - 1];
      var r := StepSlot(before.slot, id, e.body, e.messageId);
      SlotStep(r.slot, before.chunks + r.chunks)
  }

  function GenerateAll(g: Parts, session: string, es: seq<Event>): Generated {
    if es == [] then Generated(g, [])
    else
      var before := GenerateAll(g, session, es[..|es| - 1]);
      var r := Generate(before.parts, session, es[|es| - 1]);
      Generated(r.parts, before.chunks + r.chunks)
  }

  lemma GenerateAllSnoc(g: Parts, session: string, es: seq<Event>, e: Event)
    ensures var before := GenerateAll(g, session, es);
            var r := Generate(before.parts, session, e);
            GenerateAll(g, session, es + [e]) == Generated(r.parts, before.chunks + r.chunks)
  {
    hide Generate;
    assert (es + [e])[..|es + [e]| - 1] == es;
  }

  // ------------------------------------------------------------- projection

  predicate About(session: string, id: string, e: Event) {
    && (e.body.PartUpdated? || e.body.PartDelta?)
    && StreamSession(e.ids) == Some(session) && PartIdOf(e.ids) == Some(id)
  }

  /** The events of one part, in order. */
  function EventsOf(session: string, id: string, es: seq<Event>): seq<PartEvent> {
    if es == [] then []
    else
      var e := es[|es| - 1];
      EventsOf(session, id, es[..|es| - 1])
      + (if About(session, id, e) then [PartEvent(e.body, MessageIdOf(e.ids))] else [])
  }

  /** The chunks of one part, in order. */
  function ChunksFor(id: string, cs: seq<Chunk>): seq<Chunk> {
    if cs == [] then []
    else
      var c := cs[|cs| - 1];
      ChunksFor(id, cs[..|cs| - 1]) + (if c.partId == Some(id) then [c] else [])
  }

  lemma {:induction false} ChunksForAppend(id: string, a: seq<Chunk>, b: seq<Chunk>)
    ensures ChunksFor(id, a + b) == ChunksFor(id, a) + ChunksFor(id, b)
  {
    if b == [] {
      assert a + b == a;
    } else {
      assert (a + b)[..|a + b| - 1] == a + b[..|b| - 1];
      ChunksForAppend(id, a, b[..|b| - 1]);
    }
  }

  lemma {:induction false} ChunksForOwn(id: string, owner: string, cs: seq<Chunk>)
    requires ForPart(cs, owner)
    ensures ChunksFor(id, cs) == if id == owner then cs else []
  {
    if cs != [] {
      ChunksForOwn(id, owner, cs[..|cs| - 1]);
    }
  }

  lemma GenerateProjects(g: Parts, session: string, id: string, e: Event)
    requires PartsOk(g)
    ensures var r := Generate(g, session, e);
            if About(session, id, e) then
              var s := StepSlot(SlotOf(g, id), id, e.body, MessageIdOf(e.ids));
              SlotOf(r.parts, id) == s.slot && ChunksFor(id, r.chunks) == s.chunks
            else SlotOf(r.parts, id) == SlotOf(g, id) && ChunksFor(id, r.chunks) == []
  {
    if Concerns(session, e) {
      var owner := PartIdOf(e.ids).value;
      StepSlotOk(SlotOf(g, owner), owner, e.body, MessageIdOf(e.ids));
      ChunksForOwn(id, owner, Generate(g, session, e).chunks);
    }
  }

  lemma {:induction false} GenerateAllOk(g: Parts, session: string, es: seq<Event>)
    requires PartsOk(g)
    ensures PartsOk(GenerateAll(g, session, es).parts)
  {
    if es != [] {
      GenerateAllOk(g, session, es[..|es| - 1]);
      GenerateOk(GenerateAll(g, session, es[..|es| - 1]).parts, session, es[|es| - 1]);
    }
  }

  lemma ProjectionStep(before: Generated, own: SlotStep, session: string, id: string, e: Event)
    requires PartsOk(before.parts)
    requires SlotOf(before.parts, id) == own.slot && ChunksFor(id, before.chunks) == own.chunks
    ensures var r := Generate(before.parts, session, e);
            var s := if About(session, id, e) then StepSlot(own.slot, id, e.body, MessageIdOf(e.ids))
                     else SlotStep(own.slot, []);
            SlotOf(r.parts, id) == s.slot && ChunksFor(id, before.chunks + r.chunks) == own.chunks + s.chunks
  {
    GenerateProjects(before.parts, session, id, e);
    ChunksForAppend(id, before.chunks, Generate(before.parts, session, e).chunks);
  }

  /** A part's state, held-back deltas and chunks depend on its own events only. */
  lemma {:induction false} PartsAreIndependent(g: Parts, session: string, id: string, es: seq<Event>)
    requires PartsOk(g)
    ensures var all := GenerateAll(g, session, es);
            var own := RunSlot(SlotOf(g, id), id, EventsOf(session, id, es));
            SlotOf(all.parts, id) == own.slot && ChunksFor(id, all.chunks) == own.chunks
  {
    if es != [] {
      var earlier, e := es[..|es| - 1], es[|es| - 1];
      PartsAreIndependent(g, session, id, earlier);
      GenerateAllOk(g, session, earlier);
      var own := EventsOf(session, id, es);
      ProjectionStep(GenerateAll(g, session, earlier), RunSlot(SlotOf(g, id), id, EventsOf(session, id, earlier)),
                     session, id, e);
      if About(session, id, e) {
        assert own[..|own| - 1] == EventsOf(session, id, earlier);
      } else {
        var before := RunSlot(SlotOf(g, id), id, EventsOf(session, id, earlier));
        assert before.chunks + [] == before.chunks;
        assert own == EventsOf(session, id, earlier);
        assert GenerateAll(g, session, es).chunks
               == GenerateAll(g, session, earlier).chunks + Generate(GenerateAll(g, session, earlier).parts, session, e).chunks;
      }
    }
  }

  // --------------------------------------------------------- reconciliation

  lemma {:induction false} ProseOfAppend(a: seq<Chunk>, b: seq<Chunk>)
    ensures ProseOf(a + b) == ProseOf(a) + ProseOf(b)
  {
    if b == [] {
      assert a + b == a;
    } else {
      assert (a + b)[..|a + b| - 1] == a + b[..|b| - 1];
      ProseOfAppend(a, b[..|b| - 1]);
      var c := b[|b| - 1];
      Associate(ProseOf(a), ProseOf(b[..|b| - 1]), if c.part.TextPart? then c.part.text else "");
    }
  }

  /** The text received for the part so far. */
  function BufferOf(s: Slot): string {
    if s.state.Some? then s.state.value.buffer else ""
  }

  /** The part state on which the update's own content acts, if it acts at all. */
  function BeforeContent(s: Slot, id: string, e: PartEvent): Option<PartState> {
    if e.body.PartUpdated? && e.body.blockType.Some? then
      var p := Upserted(s.state, id, e.body.blockType.value, e.body.role, e.messageId);
      if BlockedRole(p.role) then None else Some(ReplayPending(p, s.pending).state)
    else None
  }

  predicate IsSnapshot(s: Slot, id: string, e: PartEvent) {
    var p := BeforeContent(s, id, e);
    p.Some? && BringsSnapshot(p.value, e.body)
  }

  /** The event is a full-text snapshot that does not extend what was received. */
  predicate Rewrites(s: Slot, id: string, e: PartEvent) {
    IsSnapshot(s, id, e) && !(BeforeContent(s, id, e).value.buffer <= e.body.text.value)
  }

  lemma {:induction false} ReplayExtends(p: PartState, pending: seq<PendingDelta>)
    ensures var m := ReplayPending(p, pending);
            m.state.buffer == p.buffer + ProseOf(m.chunks)
  {
    if pending != [] {
      var before := ReplayPending(p, pending[..|pending| - 1]);
      var d := pending[|pending| - 1];
      ReplayExtends(p, pending[..|pending| - 1]);
      var m := ReplayOne(before.state, d);
      ProseOfAppend(before.chunks, m.chunks);
      assert ProseOf([]) == "";
      Associate(p.buffer, ProseOf(before.chunks), ProseOf(m.chunks));
      if m.chunks != [] {
        OneProse(m.chunks[0]);
      }
    }
  }

  lemma OneProse(c: Chunk)
    ensures ProseOf([c]) == if c.part.TextPart? then c.part.text else ""
  {
    assert [c][..0] == [];
  }

  lemma SnapshotExtends(p: PartState, snapshot: string, messageId: Option<string>)
    ensures var m := SnapshotChunks(p, snapshot, messageId);
            && m.state.buffer == snapshot
            && (snapshot == p.buffer + ProseOf(m.chunks) <==> p.buffer <= snapshot)
            && (snapshot == p.buffer ==> m.chunks == [])
  {
    var m := SnapshotChunks(p, snapshot, messageId);
    if m.chunks != [] {
      OneProse(m.chunks[0]);
    }
  }

  lemma DeltaExtends(p: PartState, delta: string, messageId: Option<string>, source: Source)
    ensures var m := DeltaChunks(p, delta, messageId, source);
            m.state.buffer == p.buffer + ProseOf(m.chunks)
  {
    var m := DeltaChunks(p, delta, messageId, source);
    if m.chunks != [] {
      OneProse(m.chunks[0]);
    }
  }

  lemma ToolAddsNoProse(p: PartState, delta: DeltaValue, messageId: Option<string>, source: Source)
    ensures var m := ToolDeltaChunks(p, delta, messageId, source);
            m.state.buffer == p.buffer && ProseOf(m.chunks) == ""
  {
    var m := ToolDeltaChunks(p, delta, messageId, source);
    if m.chunks != [] {
      OneProse(m.chunks[0]);
    }
  }

  /** A tool part shows none of the deltas held back for it. */
  lemma {:induction false} ToolReplayIsSilent(p: PartState, pending: seq<PendingDelta>)
    requires p.blockType == TOOL_CALL
    ensures ReplayPending(p, pending) == Made(p, [])
  {
    if pending != [] {
      ToolReplayIsSilent(p, pending[..|pending| - 1]);
    }
  }

  predicate BringsSnapshot(p: PartState, u: Body)
    requires u.PartUpdated?
  {
    p.blockType != TOOL_CALL && u.text.Some? && !(u.delta.StrDelta? && u.delta.text != "")
  }

  lemma ContentExtends(p: PartState, u: Body, messageId: Option<string>)
    requires u.PartUpdated?
    ensures var m := UpdateContent(p, u, messageId);
            if BringsSnapshot(p, u) then m == SnapshotChunks(p, u.text.value, messageId)
            else m.state.buffer == p.buffer + ProseOf(m.chunks)
  {
    if p.blockType == TOOL_CALL {
      if (u.delta.Absent? || u.delta == StrDelta("")) && u.payload.Some? {
        ToolAddsNoProse(p, MapDelta(u.payload), messageId, ToolPartUpdate);
      } else {
        ToolAddsNoProse(p, u.delta, messageId, Delta);
      }
    } else if u.delta.StrDelta? {
      DeltaExtends(p, u.delta.text, messageId, Delta);
    }
  }

  /** An update of a typed, visible part, with its held-back deltas. */
  lemma TypedContentReconciles(p: PartState, pending: seq<PendingDelta>, u: Body, messageId: Option<string>)
    requires u.PartUpdated?
    ensures var m := TypedContent(p, pending, u, messageId);
            var q := ReplayPending(p, pending).state;
            if BringsSnapshot(q, u) then
              && m.state.buffer == u.text.value
              && (m.state.buffer == p.buffer + ProseOf(m.chunks) <==> q.buffer <= u.text.value)
              && (pending == [] && u.text.value == p.buffer ==> m.chunks == [])
            else m.state.buffer == p.buffer + ProseOf(m.chunks)
  {
    var replayed := ReplayPending(p, pending);
    var m := UpdateContent(replayed.state, u, messageId);
    ReplayExtends(p, pending);
    ContentExtends(replayed.state, u, messageId);
    if BringsSnapshot(replayed.state, u) {
      SnapshotExtends(replayed.state, u.text.value, messageId);
    }
    ProseOfAppend(replayed.chunks, m.chunks);
    Associate(p.buffer, ProseOf(replayed.chunks), ProseOf(m.chunks));
  }

  /** One event adds to the part's buffer exactly the text it generates, unless it is a snapshot that
      does not extend the text received. A snapshot always becomes the buffer, so an extending one
      generates exactly the missing suffix, and one that repeats the buffer generates nothing. */
  lemma StepReconciles(s: Slot, id: string, e: PartEvent)
    requires SlotOk(s, id)
    ensures var r := StepSlot(s, id, e.body, e.messageId);
            && (BufferOf(r.slot) == BufferOf(s) + ProseOf(r.chunks) <==> !Rewrites(s, id, e))
            && (IsSnapshot(s, id, e) ==> BufferOf(r.slot) == e.body.text.value)
            && (IsSnapshot(s, id, e) && s.pending == [] && e.body.text.value == BufferOf(s) ==> r.chunks == [])
  {
    assert ProseOf([]) == "";
    if BeforeContent(s, id, e).Some? {
      var p := Upserted(s.state, id, e.body.blockType.value, e.body.role, e.messageId);
      TypedContentReconciles(p, s.pending, e.body, e.messageId);
    } else if e.body.PartDelta? && AddedText(e.body).Some? && s.state.Some? {
      var p, delta := s.state.value, AddedText(e.body).value;
      ToolAddsNoProse(p, StrDelta(delta), e.messageId, DeltaEvent);
      DeltaExtends(p, delta, e.messageId, DeltaEvent);
    }
  }

  lemma {:induction false} RunSlotOk(s: Slot, id: string, es: seq<PartEvent>)
    requires SlotOk(s, id)
    ensures SlotOk(RunSlot(s, id, es).slot, id)
  {
    if es != [] {
      RunSlotOk(s, id, es[..|es| - 1]);
      var e := es[|es| - 1];
      StepSlotOk(RunSlot(s, id, es[..|es| - 1]).slot, id, e.body, e.messageId);
    }
  }

  predicate NeverRewrites(s: Slot, id: string, es: seq<PartEvent>) {
    forall i :: 0 <= i < |es| ==> !Rewrites(RunSlot(s, id, es[..i]).slot, id, es[i])
  }

  lemma {:induction false} RunReconciles(s: Slot, id: string, es: seq<PartEvent>)
    requires SlotOk(s, id) && NeverRewrites(s, id, es)
    ensures var r := RunSlot(s, id, es);
            BufferOf(r.slot) == BufferOf(s) + ProseOf(r.chunks)
  {
    if es != [] {
      var earlier, e := es[..|es| - 1], es[|es| - 1];
      assert NeverRewrites(s, id, earlier) by {
        forall i | 0 <= i < |earlier| ensures !Rewrites(RunSlot(s, id, earlier[..i]).slot, id, earlier[i]) {
          assert earlier[..i] == es[..i] && earlier[i] == es[i];
        }
      }
      RunReconciles(s, id, earlier);
      RunSlotOk(s, id, earlier);
      var before := RunSlot(s, id, earlier);
      StepReconciles(before.slot, id, e);
      var r := StepSlot(before.slot, id, e.body, e.messageId);
      ProseOfAppend(before.chunks, r.chunks);
      Associate(BufferOf(s), ProseOf(before.chunks), ProseOf(r.chunks));
    }
  }

  /** Over any mix of events, a part seen for the first time has generated exactly the text in its
      buffer, as long as no snapshot of it failed to extend what was received. */
  lemma GeneratedTextIsBuffer(g: Parts, session: string, id: string, es: seq<Event>)
    requires PartsOk(g) && id !in g.states
    requires NeverRewrites(SlotOf(g, id), id, EventsOf(session, id, es))
    ensures var r := GenerateAll(g, session, es);
            ProseOf(ChunksFor(id, r.chunks)) == BufferOf(SlotOf(r.parts, id))
  {
    PartsAreIndependent(g, session, id, es);
    RunReconciles(SlotOf(g, id), id, EventsOf(session, id, es));
  }

  // ------------------------------------------------------------- late typing

  predicate AllDeltas(es: seq<PartEvent>) {
    forall i :: 0 <= i < |es| ==> es[i].body.PartDelta?
  }

  /** Resolves the part's type and brings neither delta nor text. */
  predicate OnlyTypes(u: Body) {
    u.PartUpdated? && u.blockType.Some? && u.text.None? && (u.delta.Absent? || u.delta == StrDelta(""))
  }

  /** Chunks up to the label of the path they took. */
  function Unsourced(cs: seq<Chunk>): (r: seq<Chunk>)
    ensures |r| == |cs|
  {
    seq(|cs|, i requires 0 <= i < |cs| => cs[i].(source := DeltaEvent))
  }

  lemma {:induction false} RunSlotAppend(s: Slot, id: string, a: seq<PartEvent>, b: seq<PartEvent>)
    ensures var first := RunSlot(s, id, a);
            var second := RunSlot(first.slot, id, b);
            RunSlot(s, id, a + b) == SlotStep(second.slot, first.chunks + second.chunks)
  {
    if b == [] {
      assert a + b == a;
    } else {
      assert (a + b)[..|a + b| - 1] == a + b[..|b| - 1];
      var first := RunSlot(s, id, a);
      var second := RunSlot(first.slot, id, b[..|b| - 1]);
      var e := b[|b| - 1];
      RunSlotAppend(s, id, a, b[..|b| - 1]);
      Associate(first.chunks, second.chunks, StepSlot(second.slot, id, e.body, e.messageId).chunks);
    }
  }

  /** Deltas that arrive before the type only pile up. */
  lemma {:induction false} EarlyDeltasPile(id: string, ds: seq<PartEvent>)
    requires AllDeltas(ds)
    ensures var r := RunSlot(Slot(None, []), id, ds);
            r.slot.state.None? && r.chunks == [] && SlotOk(r.slot, id)
  {
    if ds != [] {
      EarlyDeltasPile(id, ds[..|ds| - 1]);
    }
  }

  lemma UnsourcedAppend(a: seq<Chunk>, b: seq<Chunk>)
    ensures Unsourced(a + b) == Unsourced(a) + Unsourced(b)
  {
  }

  /** One delta, held back or not. */
  lemma ReplayOneIsStep(p: PartState, d: PartEvent, pile: seq<PendingDelta>)
    requires d.body.PartDelta? && !BlockedRole(p.role)
    ensures var late := StepSlot(Slot(None, pile), p.partId, d.body, d.messageId).slot.pending;
            var now := StepSlot(Slot(Some(p), []), p.partId, d.body, d.messageId);
            var m := if late == pile then Made(p, []) else ReplayOne(p, late[|late| - 1]);
            && late[..|pile|] == pile && |late| <= |pile| + 1
            && now.slot == Slot(Some(m.state), [])
            && Unsourced(now.chunks) == Unsourced(m.chunks)
            && m.state.role == p.role && m.state.blockType == p.blockType && m.state.partId == p.partId
            && (p.blockType == TOOL_CALL ==> m == Made(p, []))
  {
  }

  /** Replaying the pile gives what the same deltas give when the type is already known. */
  lemma {:induction false} ReplayIsRun(p: PartState, ds: seq<PartEvent>)
    requires AllDeltas(ds) && !BlockedRole(p.role)
    ensures var replayed := ReplayPending(p, RunSlot(Slot(None, []), p.partId, ds).slot.pending);
            var run := RunSlot(Slot(Some(p), []), p.partId, ds);
            && run.slot == Slot(Some(replayed.state), [])
            && Unsourced(run.chunks) == Unsourced(replayed.chunks)
            && replayed.state.role == p.role && replayed.state.blockType == p.blockType
            && replayed.state.partId == p.partId
            && (p.blockType == TOOL_CALL ==> replayed == Made(p, []))
  {
    if ds != [] {
      var earlier, d := ds[..|ds| - 1], ds[|ds| - 1];
      ReplayIsRun(p, earlier);
      EarlyDeltasPile(p.partId, earlier);
      var pile := RunSlot(Slot(None, []), p.partId, earlier).slot.pending;
      var before := ReplayPending(p, pile);
      ReplayOneIsStep(before.state, d, pile);
      var all := StepSlot(Slot(None, pile), p.partId, d.body, d.messageId).slot.pending;
      var run := RunSlot(Slot(Some(p), []), p.partId, earlier);
      var now := StepSlot(run.slot, p.partId, d.body, d.messageId);
      UnsourcedAppend(run.chunks, now.chunks);
      if all != pile {
        assert all[..|all| - 1] == pile;
        UnsourcedAppend(before.chunks, ReplayOne(before.state, all[|all| - 1]).chunks);
      }
    }
  }

  /** No update gives the part a role that may be shown. */
  predicate NeverUnblocks(es: seq<PartEvent>) {
    forall i :: 0 <= i < |es| && es[i].body.PartUpdated? ==> es[i].body.role.None? || BlockedRole(es[i].body.role)
  }

  /** The user's and the system's parts generate nothing. */
  lemma {:induction false} BlockedRunIsSilent(p: PartState, es: seq<PartEvent>)
    requires NeverUnblocks(es) && BlockedRole(p.role)
    ensures var r := RunSlot(Slot(Some(p), []), p.partId, es);
            && r.chunks == [] && r.slot.pending == []
            && r.slot.state.Some? && BlockedRole(r.slot.state.value.role)
            && (AllDeltas(es) ==> r.slot.state == Some(p))
  {
    if es != [] {
      var init := es[..|es| - 1];
      assert forall i :: 0 <= i < |init| ==> init[i] == es[i];
      BlockedRunIsSilent(p, init);
    }
  }

  /** The typed case: what the update itself brings can only be a tool payload. */
  lemma TypingCommutesUnblocked(p: PartState, ds: seq<PartEvent>, u: PartEvent)
    requires AllDeltas(ds) && OnlyTypes(u.body) && !BlockedRole(p.role)
    ensures var m := UpdateContent(p, u.body, u.messageId);
            var pile := RunSlot(Slot(None, []), p.partId, ds).slot.pending;
            var replayed := ReplayPending(p, pile);
            var last := UpdateContent(replayed.state, u.body, u.messageId);
            var run := RunSlot(Slot(Some(m.state), []), p.partId, ds);
            && run.slot == Slot(Some(last.state), [])
            && Unsourced(replayed.chunks + last.chunks) == Unsourced(m.chunks + run.chunks)
  {
    var m := UpdateContent(p, u.body, u.messageId);
    ReplayIsRun(p, ds);
    UpdateContentOk(p, u.body, u.messageId);
    if p.blockType == TOOL_CALL {
      ReplayIsRun(m.state, ds);
      var run := RunSlot(Slot(Some(m.state), []), p.partId, ds);
      assert |run.chunks| == |Unsourced(run.chunks)| == 0;
    } else {
      assert m == Made(p, []);
      var replayed := ReplayPending(p, RunSlot(Slot(None, []), p.partId, ds).slot.pending);
      assert replayed.chunks + [] == replayed.chunks;
      var run := RunSlot(Slot(Some(m.state), []), p.partId, ds);
      assert [] + run.chunks == run.chunks;
    }
  }

  /** A typing update after the deltas ends like the same update before them. */
  lemma TypingCommutes(id: string, ds: seq<PartEvent>, u: PartEvent)
    requires AllDeltas(ds) && OnlyTypes(u.body)
    ensures var late := RunSlot(Slot(None, []), id, ds + [u]);
            var early := RunSlot(Slot(None, []), id, [u] + ds);
            && late.slot == early.slot
            && Unsourced(late.chunks) == Unsourced(early.chunks)
            && (BlockedRole(u.body.role) ==> late.chunks == [] && early.chunks == [])
  {
    var none := Slot(None, []);
    var p := NewPart(id, u.body.blockType.value, u.body.role, u.messageId);
    RunSlotAppend(none, id, ds, [u]);
    RunSlotAppend(none, id, [u], ds);
    OneEvent(none, id, u);
    EarlyDeltasPile(id, ds);
    var piled := RunSlot(none, id, ds).slot;
    OneEvent(piled, id, u);
    if BlockedRole(u.body.role) {
      BlockedRunIsSilent(p, ds);
    } else {
      TypingCommutesUnblocked(p, ds, u);
      var m := UpdateContent(p, u.body, u.messageId);
      assert [] + m.chunks == m.chunks;
    }
  }

  lemma OneEvent(s: Slot, id: string, e: PartEvent)
    ensures RunSlot(s, id, [e]) == StepSlot(s, id, e.body, e.messageId)
  {
    assert [e][..0] == [];
    assert RunSlot(s, id, []) == SlotStep(s, []);
    var r := StepSlot(s, id, e.body, e.messageId);
    assert [] + r.chunks == r.chunks;
  }

  lemma {:induction false} EventsOfAppend(session: string, id: string, a: seq<Event>, b: seq<Event>)
    ensures EventsOf(session, id, a + b) == EventsOf(session, id, a) + EventsOf(session, id, b)
  {
    if b == [] {
      assert a + b == a;
    } else {
      assert (a + b)[..|a + b| - 1] == a + b[..|b| - 1];
      EventsOfAppend(session, id, a, b[..|b| - 1]);
    }
  }

  /** Wherever the update that reveals a new part's type falls among the part's first deltas, whatever the
      part receives afterwards and whatever other parts do meanwhile, the part ends in the same state and
      has generated the same chunks. */
  lemma LateTypingIsHarmless(g: Parts, session: string, id: string, before: seq<Event>, u: Event, after: seq<Event>)
    requires PartsOk(g) && SlotOf(g, id) == Slot(None, [])
    requires AllDeltas(EventsOf(session, id, before))
    requires About(session, id, u) && OnlyTypes(u.body)
    ensures var late := GenerateAll(g, session, before + [u] + after);
            var early := GenerateAll(g, session, [u] + before + after);
            && SlotOf(late.parts, id) == SlotOf(early.parts, id)
            && Unsourced(ChunksFor(id, late.chunks)) == Unsourced(ChunksFor(id, early.chunks))
  {
    var ds, rest := EventsOf(session, id, before), EventsOf(session, id, after);
    var v := PartEvent(u.body, MessageIdOf(u.ids));
    LateAndEarlyEvents(session, id, before, u, after);
    NewPartHistory(g, session, id, before + [u] + after, ds + [v] + rest);
    NewPartHistory(g, session, id, [u] + before + after, [v] + ds + rest);
    LateTypingOfPart(id, ds, v, rest);
  }

  /** If the update says that the part is the user's or the system's, and no later one takes that back,
      nothing is generated, wherever the update falls. */
  lemma BlockedTypingIsSilent(g: Parts, session: string, id: string, before: seq<Event>, u: Event, after: seq<Event>)
    requires PartsOk(g) && SlotOf(g, id) == Slot(None, [])
    requires AllDeltas(EventsOf(session, id, before)) && NeverUnblocks(EventsOf(session, id, after))
    requires About(session, id, u) && u.body.PartUpdated? && u.body.blockType.Some? && BlockedRole(u.body.role)
    ensures ChunksFor(id, GenerateAll(g, session, before + [u] + after).chunks) == []
  {
    var ds, rest := EventsOf(session, id, before), EventsOf(session, id, after);
    var v := PartEvent(u.body, MessageIdOf(u.ids));
    EventsOfInserted(session, id, before, u, after);
    NewPartHistory(g, session, id, before + [u] + after, ds + [v] + rest);
    TypedBlocked(id, ds, v, rest);
  }

  lemma NewPartHistory(g: Parts, session: string, id: string, es: seq<Event>, own: seq<PartEvent>)
    requires PartsOk(g) && SlotOf(g, id) == Slot(None, []) && EventsOf(session, id, es) == own
    ensures SlotOf(GenerateAll(g, session, es).parts, id) == RunSlot(Slot(None, []), id, own).slot
    ensures ChunksFor(id, GenerateAll(g, session, es).chunks) == RunSlot(Slot(None, []), id, own).chunks
  {
    PartsAreIndependent(g, session, id, es);
  }

  lemma NoEvents(session: string, id: string)
    ensures EventsOf(session, id, []) == []
  {
  }

  lemma LateAndEarlyEvents(session: string, id: string, before: seq<Event>, u: Event, after: seq<Event>)
    requires About(session, id, u)
    ensures var ds, rest := EventsOf(session, id, before), EventsOf(session, id, after);
            var v := PartEvent(u.body, MessageIdOf(u.ids));
            && EventsOf(session, id, before + [u] + after) == ds + [v] + rest
            && EventsOf(session, id, [u] + before + after) == [v] + ds + rest
  {
    hide EventsOf, About, MessageIdOf;
    var ds, rest := EventsOf(session, id, before), EventsOf(session, id, after);
    var v := PartEvent(u.body, MessageIdOf(u.ids));
    EventsOfAppend(session, id, before, after);
    NoEvents(session, id);
    EventsOfInserted(session, id, before, u, after);
    EventsOfInserted(session, id, [], u, before + after);
    assert [] + [u] + (before + after) == [u] + before + after;
    assert [] + [v] + (ds + rest) == [v] + ds + rest;
  }

  lemma EventsOfInserted(session: string, id: string, before: seq<Event>, u: Event, after: seq<Event>)
    requires About(session, id, u)
    ensures EventsOf(session, id, before + [u] + after)
            == EventsOf(session, id, before) + [PartEvent(u.body, MessageIdOf(u.ids))] + EventsOf(session, id, after)
  {
    EventsOfAppend(session, id, before + [u], after);
    EventsOfAppend(session, id, before, [u]);
    assert [u][..0] == [];
  }

  lemma LateTypingOfPart(id: string, ds: seq<PartEvent>, u: PartEvent, rest: seq<PartEvent>)
    requires AllDeltas(ds) && OnlyTypes(u.body)
    ensures var late := RunSlot(Slot(None, []), id, ds + [u] + rest);
            var early := RunSlot(Slot(None, []), id, [u] + ds + rest);
            && late.slot == early.slot
            && Unsourced(late.chunks) == Unsourced(early.chunks)
  {
    var none := Slot(None, []);
    TypingCommutes(id, ds, u);
    RunSlotAppend(none, id, ds + [u], rest);
    RunSlotAppend(none, id, [u] + ds, rest);
    var late, early := RunSlot(none, id, ds + [u]), RunSlot(none, id, [u] + ds);
    UnsourcedAppend(late.chunks, RunSlot(late.slot, id, rest).chunks);
    UnsourcedAppend(early.chunks, RunSlot(early.slot, id, rest).chunks);
  }

  lemma TypedBlocked(id: string, ds: seq<PartEvent>, u: PartEvent, rest: seq<PartEvent>)
    requires AllDeltas(ds) && NeverUnblocks(rest)
    requires u.body.PartUpdated? && u.body.blockType.Some? && BlockedRole(u.body.role)
    ensures RunSlot(Slot(None, []), id, ds + [u] + rest).chunks == []
  {
    EarlyDeltasPile(id, ds);
    RunSlotAppend(Slot(None, []), id, ds + [u], rest);
    RunSlotAppend(Slot(None, []), id, ds, [u]);
    OneEvent(RunSlot(Slot(None, []), id, ds).slot, id, u);
    BlockedRunIsSilent(NewPart(id, u.body.blockType.value, u.body.role, u.messageId), rest);
  }
}
