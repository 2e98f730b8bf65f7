/** Turning upstream part events into chunks: part states, deltas held back until the part's
    type is known, and full-text snapshots reconciled with the deltas already received. */
module StreamChunks {
  import opened Text
  import opened StreamState
  import opened StreamOutput

  // --------------------------------------------------------------- events

  /** The id-bearing properties of an event; None where the source finds no string. */
  datatype RawIds = RawIds(
    propsSession: Option<string>, infoSession: Option<string>, partSession: Option<string>,
    partMessage: Option<string>, propsMessage: Option<string>,
    partId: Option<string>, propsPartId: Option<string>)

  datatype PayloadKind = StateKind | OutputDeltaKind
  datatype ToolPayload = ToolPayload(kind: PayloadKind, json: Json)

  /** The `delta` property: absent, a string, a mapping (with the payload it normalizes to, if any)
      or any other value. */
  datatype DeltaValue = Absent | StrDelta(text: string) | MapDelta(payload: Option<ToolPayload>) | OtherDelta

  /** An event with its decoded fields. Role and block type are the results of `extract_stream_role`
      and `resolve_stream_block_type`. */
  datatype Body =
    | Malformed
    | Asked(id: Option<string>, kind: InterruptKind, details: string)
    | Answered(id: Option<string>, kind: InterruptKind, resolution: Resolution)
    | PartUpdated(role: Option<string>, blockType: Option<BlockType>, delta: DeltaValue,
                  text: Option<string>, payload: Option<ToolPayload>)
    | PartDelta(field: Option<string>, deltaText: Option<string>)
    | OtherEvent

  datatype Event = Event(ids: RawIds, body: Body)

  function FirstNonEmpty(candidates: seq<Option<string>>): (r: Option<string>)
    ensures r.Some? ==> r.value != "" && Trimmed(r.value)
  {
    if candidates == [] then None
    else if candidates[0].Some? && Strip(candidates[0].value) != "" then Some(Strip(candidates[0].value))
    else FirstNonEmpty(candidates[1..])
  }

  function EventSession(ids: RawIds): Option<string> {
    FirstNonEmpty([ids.propsSession, ids.infoSession, ids.partSession])
  }

  function StreamSession(ids: RawIds): Option<string> {
    FirstNonEmpty([ids.partSession, ids.propsSession])
  }

  function MessageIdOf(ids: RawIds): Option<string> {
    FirstNonEmpty([ids.partMessage, ids.propsMessage])
  }

  function PartIdOf(ids: RawIds): Option<string> {
    FirstNonEmpty([ids.partId, ids.propsPartId])
  }

  // ---------------------------------------------------------- part states

  datatype PendingDelta = PendingDelta(field: string, delta: string, messageId: Option<string>)

  datatype PartState = PartState(
    partId: string,
    blockType: BlockType,
    messageId: Option<string>,
    role: Option<string>,
    buffer: string,
    sawDelta: bool,
    emittedToolChunks: nat,
    lastToolState: Option<Json>)

  datatype Made = Made(state: PartState, chunks: seq<Chunk>)

  function WithMessage(p: PartState, messageId: Option<string>): PartState {
    if messageId.Some? && messageId.value != "" then p.(messageId := messageId) else p
  }

  function TextChunkOf(p: PartState, text: string, source: Source): Chunk {
    Chunk(TextPart(text), text, true, p.blockType, source, p.messageId, p.role, Some(p.partId))
  }

  /** `delta_chunks` */
  function DeltaChunks(p: PartState, delta: string, messageId: Option<string>, source: Source): Made {
    if delta == "" then Made(p, [])
    else
      var q := WithMessage(p, messageId).(buffer := p.buffer + delta, sawDelta := true);
      Made(q, [TextChunkOf(q, delta, source)])
  }

  /** `snapshot_chunks` */
  function SnapshotChunks(p: PartState, snapshot: string, messageId: Option<string>): Made {
    var q := WithMessage(p, messageId).(buffer := snapshot);
    if p.buffer <= snapshot && snapshot != p.buffer
    then Made(q, [TextChunkOf(q, snapshot[|p.buffer|..], PartTextDiff)])
    else Made(q, [])
  }

  /** `emit_tool_payload_chunk` */
  function ToolChunks(p: PartState, payload: ToolPayload, messageId: Option<string>, source: Source): Made {
    var q := WithMessage(p, messageId);
    if payload.kind == StateKind && p.lastToolState == Some(payload.json) then Made(q, [])
    else
      var append := p.emittedToolChunks > 0;
      var r := q.(emittedToolChunks := p.emittedToolChunks + 1,
                  lastToolState := if payload.kind == StateKind then Some(payload.json) else q.lastToolState);
      Made(r, [Chunk(DataPart(payload.json), if append then "\n" + payload.json else payload.json, append,
                     r.blockType, source, r.messageId, r.role, Some(r.partId))])
  }

  /** `tool_delta_chunks`: anything but a mapping with a recognised payload is suppressed. */
  function ToolDeltaChunks(p: PartState, delta: DeltaValue, messageId: Option<string>, source: Source): Made {
    if delta.MapDelta? && delta.payload.Some? then ToolChunks(p, delta.payload.value, messageId, source)
    else Made(p, [])
  }

  // ------------------------------------------------------ one part's history

  /** What is known about one part id: its state, if any, and its held-back deltas. */
  datatype Slot = Slot(state: Option<PartState>, pending: seq<PendingDelta>)

  datatype SlotStep = SlotStep(slot: Slot, chunks: seq<Chunk>)

  function NewPart(id: string, b: BlockType, role: Option<string>, messageId: Option<string>): PartState {
    PartState(id, b, messageId, role, "", false, 0, None)
  }

  /** `upsert_stream_part_state`, for a resolved block type. */
  function Upserted(known: Option<PartState>, id: string, b: BlockType, role: Option<string>,
                    messageId: Option<string>): PartState {
    if known.None? then NewPart(id, b, role, messageId)
    else
      var p := known.value.(partId := id, blockType := b);
      WithMessage(if role.Some? then p.(role := role) else p, messageId)
  }

  /** Replaying the deltas that waited for the part's type. */
  function ReplayPending(p: PartState, pending: seq<PendingDelta>): Made {
    if pending == [] then Made(p, [])
    else
      var before := ReplayPending(p, pending[..|pending| - 1]);
      var d := pending[|pending| - 1];
      var m := ReplayOne(before.state, d);
      Made(m.state, before.chunks + m.chunks)
  }

  function ReplayOne(p: PartState, d: PendingDelta): Made {
    if d.field != "text" then Made(p, [])
    else if p.blockType == TOOL_CALL then ToolDeltaChunks(p, StrDelta(d.delta), d.messageId, DeltaEventBuffered)
    else DeltaChunks(p, d.delta, d.messageId, DeltaEventBuffered)
  }

  /** The part of `handle_event` that looks at the update's own delta, text and payload. */
  function UpdateContent(p: PartState, u: Body, messageId: Option<string>): Made
    requires u.PartUpdated?
  {
    if p.blockType == TOOL_CALL then
      if u.delta.Absent? || u.delta == StrDelta("") then
        if u.payload.Some? then ToolChunks(p, u.payload.value, messageId, ToolPartUpdate) else Made(p, [])
      else ToolDeltaChunks(p, u.delta, messageId, Delta)
    else if u.delta.StrDelta? && u.delta.text != "" then DeltaChunks(p, u.delta.text, messageId, Delta)
    else if u.text.Some? then SnapshotChunks(p, u.text.value, messageId)
    else Made(p, [])
  }

  /** A string delta for a part whose type is known. */
  function DeltaContent(p: PartState, delta: string, messageId: Option<string>): Made {
    if p.blockType == TOOL_CALL then ToolDeltaChunks(p, StrDelta(delta), messageId, DeltaEvent)
    else DeltaChunks(p, delta, messageId, DeltaEvent)
  }

  /** The held-back deltas, then the update's own content. */
  function TypedContent(p: PartState, pending: seq<PendingDelta>, u: Body, messageId: Option<string>): Made
    requires u.PartUpdated?
  {
    var replayed := ReplayPending(p, pending);
    var m := UpdateContent(replayed.state, u, messageId);
    Made(m.state, replayed.chunks + m.chunks)
  }

  /** The string a `message.part.delta` event adds to its part's text, if it adds one. */
  function AddedText(e: Body): Option<string>
    requires e.PartDelta?
  {
    if e.field == Some("text") && e.deltaText.Some? && e.deltaText.value != "" then e.deltaText else None
  }

  /** One `message.part.*` event for this part. */
  function StepSlot(s: Slot, id: string, e: Body, messageId: Option<string>): SlotStep {
    if e.PartDelta? then
      if AddedText(e).None? then SlotStep(s, [])
      else if s.state.None? then
        SlotStep(s.(pending := s.pending + [PendingDelta("text", AddedText(e).value, messageId)]), [])
      else if BlockedRole(s.state.value.role) then SlotStep(s, [])
      else
        var m := DeltaContent(s.state.value, AddedText(e).value, messageId);
        SlotStep(s.(state := Some(m.state)), m.chunks)
    else if e.PartUpdated? then
      if e.blockType.None? then SlotStep(s.(pending := []), [])
      else
        var p := Upserted(s.state, id, e.blockType.value, e.role, messageId);
        if BlockedRole(p.role) then SlotStep(Slot(Some(p), []), [])
        else
          var m := TypedContent(p, s.pending, e, messageId);
          SlotStep(Slot(Some(m.state), []), m.chunks)
    else SlotStep(s, [])
  }

  // ------------------------------------------------------------- all parts

  datatype Parts = Parts(states: map<string, PartState>, pending: map<string, seq<PendingDelta>>)

  function SlotOf(g: Parts, id: string): Slot {
    Slot(if id in g.states then Some(g.states[id]) else None, if id in g.pending then g.pending[id] else [])
  }

  function WithSlot(g: Parts, id: string, s: Slot): Parts {
    Parts(if s.state.Some? then g.states[id := s.state.value] else g.states - {id},
          if s.pending != [] then g.pending[id := s.pending] else g.pending - {id})
  }

  datatype Generated = Generated(parts: Parts, chunks: seq<Chunk>)

  predicate Concerns(session: string, e: Event) {
    && (e.body.PartUpdated? || e.body.PartDelta?)
    && StreamSession(e.ids) == Some(session)
    && PartIdOf(e.ids).Some?
  }

  function Generate(g: Parts, session: string, e: Event): Generated {
    if !Concerns(session, e) then Generated(g, [])
    else
      var id := PartIdOf(e.ids).value;
      var r := StepSlot(SlotOf(g, id), id, e.body, MessageIdOf(e.ids));
      Generated(WithSlot(g, id, r.slot), r.chunks)
  }

  // ------------------------------------------------------- what every step keeps

  predicate SlotOk(s: Slot, id: string) {
    && (s.state.Some? ==> s.state.value.partId == id && s.pending == [])
    && forall i :: 0 <= i < |s.pending| ==> s.pending[i].field == "text" && s.pending[i].delta != ""
  }

  /** No part id is both waiting for its type and known, and no list of held-back deltas is empty. */
  predicate PartsOk(g: Parts) {
    && g.states.Keys !! g.pending.Keys
    && (forall id :: id in g.states ==> g.states[id].partId == id)
    && (forall id :: id in g.pending ==> g.pending[id] != [] && SlotOk(SlotOf(g, id), id))
  }

  lemma WithSlotSame(g: Parts, id: string)
    requires PartsOk(g)
    ensures WithSlot(g, id, SlotOf(g, id)) == g
  {
  }

  predicate ForPart(cs: seq<Chunk>, id: string) {
    forall i :: 0 <= i < |cs| ==> cs[i].partId == Some(id)
  }

  predicate MadeOk(m: Made, p: PartState) {
    && m.state.partId == p.partId
    && m.state.blockType == p.blockType
    && m.state.role == p.role
    && AllWellFormed(m.chunks)
    && ForPart(m.chunks, p.partId)
    && forall i :: 0 <= i < |m.chunks| ==> m.chunks[i].role == p.role && m.chunks[i].blockType == p.blockType
  }

  lemma {:induction false} ReplayOk(p: PartState, pending: seq<PendingDelta>)
    requires !BlockedRole(p.role)
    ensures MadeOk(ReplayPending(p, pending), p)
  {
    if pending != [] {
      ReplayOk(p, pending[..|pending| - 1]);
    }
  }

  lemma TextContentOk(p: PartState, u: Body, messageId: Option<string>)
    requires u.PartUpdated? && !BlockedRole(p.role) && p.blockType != TOOL_CALL
    ensures MadeOk(UpdateContent(p, u, messageId), p)
  {
  }

  lemma ToolContentOk(p: PartState, u: Body, messageId: Option<string>)
    requires u.PartUpdated? && !BlockedRole(p.role) && p.blockType == TOOL_CALL
    ensures MadeOk(UpdateContent(p, u, messageId), p)
  {
  }

  lemma UpdateContentOk(p: PartState, u: Body, messageId: Option<string>)
    requires u.PartUpdated? && !BlockedRole(p.role)
    ensures MadeOk(UpdateContent(p, u, messageId), p)
  {
    hide UpdateContent, MadeOk;
    if p.blockType == TOOL_CALL {
      ToolContentOk(p, u, messageId);
    } else {
      TextContentOk(p, u, messageId);
    }
  }

  lemma StepSlotOk(s: Slot, id: string, e: Body, messageId: Option<string>)
    requires SlotOk(s, id)
    ensures var r := StepSlot(s, id, e, messageId);
            && SlotOk(r.slot, id) && AllWellFormed(r.chunks) && ForPart(r.chunks, id)
            && (forall i :: 0 <= i < |r.chunks| ==>
                  && r.slot.state.Some?
                  && r.chunks[i].role == r.slot.state.value.role
                  && r.chunks[i].blockType == r.slot.state.value.blockType)
  {
    if e.PartUpdated? && e.blockType.Some? {
      var p := Upserted(s.state, id, e.blockType.value, e.role, messageId);
      if !BlockedRole(p.role) {
        ReplayOk(p, s.pending);
        UpdateContentOk(ReplayPending(p, s.pending).state, e, messageId);
      }
    }
  }

  lemma GenerateOk(g: Parts, session: string, e: Event)
    requires PartsOk(g)
    ensures PartsOk(Generate(g, session, e).parts)
    ensures AllWellFormed(Generate(g, session, e).chunks)
  {
    if Concerns(session, e) {
      var id := PartIdOf(e.ids).value;
      var s := SlotOf(g, id);
      StepSlotOk(s, id, e.body, MessageIdOf(e.ids));
      var r := StepSlot(s, id, e.body, MessageIdOf(e.ids));
      var h := Generate(g, session, e).parts;
      forall x | x in h.pending ensures h.pending[x] != [] && SlotOk(SlotOf(h, x), x) {
        if x != id {
          assert SlotOf(h, x) == SlotOf(g, x);
        } else {
          assert SlotOf(h, x) == r.slot;
        }
      }
    }
  }
}
