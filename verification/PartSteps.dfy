/** What each part event does, told from what is known of its part: the state it leaves and the chunks it generates,
    field by field. */
module PartSteps {
  import opened Text
  import opened StreamState
  import opened StreamOutput
  import opened StreamChunks
  import opened PartHistory
  import opened HeldDeltas

  // ------------------------------------------------------------- addresses

  /** A string that is not blank, stripped. */
  function Given(s: Option<string>): Option<string> {
    if s.Some? && Strip(s.value) != "" then Some(Strip(s.value)) else None
  }

  function Or(a: Option<string>, b: Option<string>): Option<string> {
    if a.Some? then a else b
  }

  lemma FirstOfTwo(a: Option<string>, b: Option<string>)
    ensures FirstNonEmpty([a, b]) == Or(Given(a), Given(b))
  {
    hide Strip;
    assert [b][1..] == [] && FirstNonEmpty([b]) == Given(b);
    assert [a, b][1..] == [b];
  }

  /** Which of an event's ids count: the first that is not blank, stripped. */
  lemma IdsExactly(ids: RawIds)
    ensures EventSession(ids) == Or(Given(ids.propsSession), Or(Given(ids.infoSession), Given(ids.partSession)))
    ensures StreamSession(ids) == Or(Given(ids.partSession), Given(ids.propsSession))
    ensures MessageIdOf(ids) == Or(Given(ids.partMessage), Given(ids.propsMessage))
    ensures PartIdOf(ids) == Or(Given(ids.partId), Given(ids.propsPartId))
  {
    hide Strip;
    FirstOfTwo(ids.partSession, ids.propsSession);
    FirstOfTwo(ids.partMessage, ids.propsMessage);
    FirstOfTwo(ids.partId, ids.propsPartId);
    FirstOfTwo(ids.infoSession, ids.partSession);
    assert [ids.propsSession, ids.infoSession, ids.partSession][1..] == [ids.infoSession, ids.partSession];
  }

  // ------------------------------------------------------------ one event

  /** The user's and the system's own parts. */
  predicate Private(role: Option<string>) {
    role in {Some("user"), Some("system")}
  }

  /** The part as a typed update describes it: what the update says, and otherwise what was known. */
  function Described(known: Option<PartState>, id: string, b: BlockType, role: Option<string>,
                     messageId: Option<string>): PartState {
    if known.None? then PartState(id, b, messageId, role, "", false, 0, None)
    else
      var p := known.value;
      p.(blockType := b, role := Or(role, p.role), messageId := Or(messageId, p.messageId))
  }

  /** One piece of a part's text. */
  function Piece(p: PartState, text: string, source: Source): Chunk {
    Chunk(TextPart(text), text, true, p.blockType, source, p.messageId, p.role, Some(p.partId))
  }

  /** The event leaves its part as given, generates the given chunks and touches no other part. */
  ghost predicate Leaves(g: Parts, r: Generated, id: string, slot: Slot, chunks: seq<Chunk>) {
    && SlotOf(r.parts, id) == slot && r.chunks == chunks
    && forall x :: x != id ==> SlotOf(r.parts, x) == SlotOf(g, x)
  }

  lemma GenerateIsStep(g: Parts, session: string, id: string, e: Event)
    requires About(session, id, e)
    ensures var r := StepSlot(SlotOf(g, id), id, e.body, MessageIdOf(e.ids));
            Leaves(g, Generate(g, session, e), id, r.slot, r.chunks)
  {
    hide StepSlot, StreamSession, PartIdOf, MessageIdOf;
  }

  /** An event that concerns no part, another session or nothing in particular is passed over. */
  lemma OthersArePassedOver(g: Parts, session: string, e: Event)
    requires forall id :: !About(session, id, e)
    ensures Generate(g, session, e) == Generated(g, [])
  {
    hide StreamSession, PartIdOf;
    if PartIdOf(e.ids).Some? {
      assert !About(session, PartIdOf(e.ids).value, e);
    }
  }

  lemma MessageIdIsGiven(ids: RawIds)
    ensures MessageIdOf(ids).Some? ==> MessageIdOf(ids).value != ""
  {
  }

  lemma SlotIsOk(g: Parts, id: string)
    requires PartsOk(g)
    ensures SlotOk(SlotOf(g, id), id)
    ensures SlotOf(g, id).state.Some? ==> SlotOf(g, id).state.value.partId == id
  {
  }

  /** A delta waits while its part is unknown. It adds to the part's text, if the part shows text, and is generated
      as one piece; otherwise it is ignored. */
  lemma DeltaExactly(g: Parts, session: string, id: string, e: Event)
    requires PartsOk(g) && About(session, id, e) && e.body.PartDelta?
    ensures var r, s, messageId := Generate(g, session, e), SlotOf(g, id), MessageIdOf(e.ids);
            if e.body.field != Some("text") || e.body.deltaText.None? || e.body.deltaText.value == "" then
              Leaves(g, r, id, s, [])
            else
              var text := e.body.deltaText.value;
              if s.state.None? then
                Leaves(g, r, id, Slot(None, s.pending + [PendingDelta("text", text, messageId)]), [])
              else if Private(s.state.value.role) || s.state.value.blockType == TOOL_CALL then Leaves(g, r, id, s, [])
              else
                var p := s.state.value.(messageId := Or(messageId, s.state.value.messageId),
                                        buffer := s.state.value.buffer + text, sawDelta := true);
                Leaves(g, r, id, Slot(Some(p), []), [Piece(p, text, DeltaEvent)])
  {
    hide StreamSession, PartIdOf, MessageIdOf, Generate;
    MessageIdIsGiven(e.ids);
    GenerateIsStep(g, session, id, e);
    SlotIsOk(g, id);
  }

  /** An update that does not resolve the part's type makes it forget the deltas that waited. */
  lemma UntypedExactly(g: Parts, session: string, id: string, e: Event)
    requires About(session, id, e) && e.body.PartUpdated? && e.body.blockType.None?
    ensures Leaves(g, Generate(g, session, e), id, SlotOf(g, id).(pending := []), [])
  {
    hide StreamSession, PartIdOf, MessageIdOf, Generate;
    GenerateIsStep(g, session, id, e);
  }

  lemma UpsertedIsDescribed(known: Option<PartState>, id: string, b: BlockType, role: Option<string>,
                            messageId: Option<string>)
    requires messageId.Some? ==> messageId.value != ""
    requires known.Some? ==> known.value.partId == id
    ensures Upserted(known, id, b, role, messageId) == Described(known, id, b, role, messageId)
  {
  }

  /** A typed update of a part that is shown acts on the part as described. */
  lemma TypedStep(g: Parts, session: string, id: string, e: Event)
    requires PartsOk(g) && About(session, id, e) && e.body.PartUpdated? && e.body.blockType.Some?
    requires !Private(Described(SlotOf(g, id).state, id, e.body.blockType.value, e.body.role, MessageIdOf(e.ids)).role)
    ensures var p := Described(SlotOf(g, id).state, id, e.body.blockType.value, e.body.role, MessageIdOf(e.ids));
            var m := TypedContent(p, SlotOf(g, id).pending, e.body, MessageIdOf(e.ids));
            Leaves(g, Generate(g, session, e), id, Slot(Some(m.state), []), m.chunks)
  {
    hide StreamSession, PartIdOf, MessageIdOf, Generate, TypedContent, Leaves;
    MessageIdIsGiven(e.ids);
    GenerateIsStep(g, session, id, e);
    SlotIsOk(g, id);
    UpsertedIsDescribed(SlotOf(g, id).state, id, e.body.blockType.value, e.body.role, MessageIdOf(e.ids));
  }

  /** An update of a part of the user's or the system's is remembered and generates nothing. */
  lemma PrivateExactly(g: Parts, session: string, id: string, e: Event)
    requires PartsOk(g) && About(session, id, e) && e.body.PartUpdated? && e.body.blockType.Some?
    requires Private(Described(SlotOf(g, id).state, id, e.body.blockType.value, e.body.role, MessageIdOf(e.ids)).role)
    ensures var p := Described(SlotOf(g, id).state, id, e.body.blockType.value, e.body.role, MessageIdOf(e.ids));
            Leaves(g, Generate(g, session, e), id, Slot(Some(p), []), [])
  {
    hide StreamSession, PartIdOf, MessageIdOf, Generate;
    MessageIdIsGiven(e.ids);
    GenerateIsStep(g, session, id, e);
    SlotIsOk(g, id);
    UpsertedIsDescribed(SlotOf(g, id).state, id, e.body.blockType.value, e.body.role, MessageIdOf(e.ids));
  }

  // ---------------------------------------------------------- tool updates

  /** The payload a tool update brings: the update's own delta counts before its part. */
  function Brought(u: Body): Option<ToolPayload>
    requires u.PartUpdated?
  {
    match u.delta
    case Absent => u.payload
    case StrDelta(text) => if text == "" then u.payload else None
    case MapDelta(payload) => payload
    case OtherDelta => None
  }

  /** A tool update generates the payload it brings as one chunk, on a line of its own after the first, unless it is
      a state that repeats the part's last state. */
  lemma ToolExactly(g: Parts, session: string, id: string, e: Event)
    requires PartsOk(g) && About(session, id, e) && e.body.PartUpdated? && e.body.blockType == Some(TOOL_CALL)
    requires !Private(Described(SlotOf(g, id).state, id, TOOL_CALL, e.body.role, MessageIdOf(e.ids)).role)
    ensures var r, payload := Generate(g, session, e), Brought(e.body);
            var p := Described(SlotOf(g, id).state, id, TOOL_CALL, e.body.role, MessageIdOf(e.ids));
            if payload.None? || (payload.value.kind == StateKind && p.lastToolState == Some(payload.value.json)) then
              Leaves(g, r, id, Slot(Some(p), []), [])
            else
              var json := payload.value.json;
              var first := p.emittedToolChunks == 0;
              var q := p.(emittedToolChunks := p.emittedToolChunks + 1,
                          lastToolState := if payload.value.kind == StateKind then Some(json) else p.lastToolState);
              Leaves(g, r, id, Slot(Some(q), []),
                     [Chunk(DataPart(json), if first then json else "\n" + json, !first, TOOL_CALL,
                            if e.body.delta.MapDelta? then Delta else ToolPartUpdate, p.messageId, p.role, Some(id))])
  {
    MessageIdIsGiven(e.ids);
    TypedStep(g, session, id, e);
    hide StreamSession, PartIdOf, MessageIdOf, Generate, Leaves, PartsOk, ReplayPending, SlotOf, About, UpdateContent,
         Private;
    var messageId := MessageIdOf(e.ids);
    var p := Described(SlotOf(g, id).state, id, TOOL_CALL, e.body.role, messageId);
    SlotIsOk(g, id);
    hide SlotOk;
    DescribedMeans(SlotOf(g, id).state, id, TOOL_CALL, e.body.role, messageId);
    hide Described, Brought, Or;
    ToolReplayIsSilent(p, SlotOf(g, id).pending);
    ToolContentExactly(p, e.body, messageId);
    var m := UpdateContent(p, e.body, messageId);
    assert [] + m.chunks == m.chunks;
  }

  lemma DescribedMeans(known: Option<PartState>, id: string, b: BlockType, role: Option<string>,
                       messageId: Option<string>)
    requires known.Some? ==> known.value.partId == id
    ensures var p := Described(known, id, b, role, messageId);
            p.blockType == b && p.partId == id && (messageId.Some? ==> p.messageId == messageId)
  {
  }

  lemma ToolContentExactly(p: PartState, u: Body, messageId: Option<string>)
    requires u.PartUpdated? && p.blockType == TOOL_CALL && (messageId.Some? ==> p.messageId == messageId)
    ensures var payload := Brought(u);
            UpdateContent(p, u, messageId) ==
            if payload.None? || (payload.value.kind == StateKind && p.lastToolState == Some(payload.value.json)) then
              Made(p, [])
            else
              var json := payload.value.json;
              var first := p.emittedToolChunks == 0;
              Made(p.(emittedToolChunks := p.emittedToolChunks + 1,
                      lastToolState := if payload.value.kind == StateKind then Some(json) else p.lastToolState),
                   [Chunk(DataPart(json), if first then json else "\n" + json, !first, TOOL_CALL,
                          if u.delta.MapDelta? then Delta else ToolPartUpdate, p.messageId, p.role, Some(p.partId))])
  {
  }

  // ---------------------------------------------------------- text updates

  /** The last message id that a held-back delta carries, or else the one known. */
  function LastGiven(known: Option<string>, pending: seq<PendingDelta>): Option<string> {
    if pending == [] then known
    else
      var d := pending[|pending| - 1];
      if d.messageId.Some? && d.messageId.value != "" then d.messageId else LastGiven(known, pending[..|pending| - 1])
  }

  /** The part once it has heard the deltas that waited for it. */
  function Heard(p: PartState, pending: seq<PendingDelta>): PartState {
    p.(messageId := LastGiven(p.messageId, pending), buffer := p.buffer + HeldText(pending),
       sawDelta := p.sawDelta || pending != [])
  }

  /** The first chunks are the deltas that waited, each a piece of its own. */
  predicate Catches(cs: seq<Chunk>, p: PartState, pending: seq<PendingDelta>) {
    && |pending| <= |cs|
    && forall i :: 0 <= i < |pending| ==>
         cs[i] == Piece(p.(messageId := LastGiven(p.messageId, pending[..i + 1])), pending[i].delta, DeltaEventBuffered)
  }

  lemma HearsOne(p: PartState, d: PendingDelta)
    requires p.blockType != TOOL_CALL && d.field == "text" && d.delta != ""
    ensures var q := p.(messageId := if d.messageId.Some? && d.messageId.value != "" then d.messageId else p.messageId);
            ReplayOne(p, d)
            == Made(q.(buffer := p.buffer + d.delta, sawDelta := true), [Piece(q, d.delta, DeltaEventBuffered)])
  {
  }

  lemma CatchesSnoc(cs: seq<Chunk>, p: PartState, init: seq<PendingDelta>, d: PendingDelta)
    requires |cs| == |init| && Catches(cs, p, init)
    ensures Catches(cs + [Piece(p.(messageId := LastGiven(p.messageId, init + [d])), d.delta, DeltaEventBuffered)],
                    p, init + [d])
  {
    var pending := init + [d];
    forall i | 0 <= i < |init|
      ensures cs[i] == Piece(p.(messageId := LastGiven(p.messageId, pending[..i + 1])), pending[i].delta, DeltaEventBuffered)
    {
      assert pending[..i + 1] == init[..i + 1];
    }
    assert pending[..|init| + 1] == pending;
  }

  lemma {:induction false} ReplayCatches(p: PartState, pending: seq<PendingDelta>)
    requires p.blockType != TOOL_CALL && HeldOk(pending)
    ensures var m := ReplayPending(p, pending);
            m.state == Heard(p, pending) && |m.chunks| == |pending| && Catches(m.chunks, p, pending)
  {
    if pending == [] {
      assert p.buffer + "" == p.buffer;
    } else {
      var init, d := pending[..|pending| - 1], pending[|pending| - 1];
      hide Catches, ReplayOne;
      ReplayCatches(p, init);
      HearsOne(ReplayPending(p, init).state, d);
      Associate(p.buffer, HeldText(init), d.delta);
      CatchesSnoc(ReplayPending(p, init).chunks, p, init, d);
      assert init + [d] == pending;
    }
  }

  /** An update of a part that shows text: first the deltas that waited; then the update's own delta, if it brings
      one, or else as much of its full text as is new, if that extends what was received. The full text becomes the
      part's text in any case. */
  lemma TextExactly(g: Parts, session: string, id: string, e: Event)
    requires PartsOk(g) && About(session, id, e) && e.body.PartUpdated?
    requires e.body.blockType.Some? && e.body.blockType != Some(TOOL_CALL)
    requires !Private(Described(SlotOf(g, id).state, id, e.body.blockType.value, e.body.role, MessageIdOf(e.ids)).role)
    ensures var pending, r := SlotOf(g, id).pending, Generate(g, session, e);
            var d := Described(SlotOf(g, id).state, id, e.body.blockType.value, e.body.role, MessageIdOf(e.ids));
            var p := Heard(d, pending);
            var q := p.(messageId := Or(MessageIdOf(e.ids), p.messageId));
            && Catches(r.chunks, d, pending)
            && var first, own := r.chunks[..|pending|], r.chunks[|pending|..];
            if e.body.delta.StrDelta? && e.body.delta.text != "" then
              && own == [Piece(q, e.body.delta.text, Delta)]
              && Leaves(g, r, id, Slot(Some(q.(buffer := p.buffer + e.body.delta.text, sawDelta := true)), []), first + own)
            else if e.body.text.Some? then
              && own == (if p.buffer < e.body.text.value
                         then [Piece(q, e.body.text.value[|p.buffer|..], PartTextDiff)] else [])
              && Leaves(g, r, id, Slot(Some(q.(buffer := e.body.text.value)), []), first + own)
            else own == [] && Leaves(g, r, id, Slot(Some(p), []), first + own)
  {
    MessageIdIsGiven(e.ids);
    TypedStep(g, session, id, e);
    SlotIsOk(g, id);
    hide StreamSession, PartIdOf, MessageIdOf, Generate, Leaves, PartsOk, ReplayPending, SlotOf, Catches, Heard, About,
         UpdateContent, Private;
    var s, messageId, r := SlotOf(g, id), MessageIdOf(e.ids), Generate(g, session, e);
    var d := Described(s.state, id, e.body.blockType.value, e.body.role, messageId);
    DescribedMeans(s.state, id, e.body.blockType.value, e.body.role, messageId);
    hide Described;
    ReplayCatches(d, s.pending);
    var replayed := ReplayPending(d, s.pending);
    HeardMeans(d, s.pending);
    TextContentExactly(replayed.state, e.body, messageId);
    var m := UpdateContent(replayed.state, e.body, messageId);
    assert (replayed.chunks + m.chunks)[..|s.pending|] == replayed.chunks;
    assert (replayed.chunks + m.chunks)[|s.pending|..] == m.chunks;
    CatchesMore(replayed.chunks, m.chunks, d, s.pending);
  }

  lemma HeardMeans(p: PartState, pending: seq<PendingDelta>)
    ensures Heard(p, pending).blockType == p.blockType
  {
  }

  lemma TextContentExactly(p: PartState, u: Body, messageId: Option<string>)
    requires u.PartUpdated? && p.blockType != TOOL_CALL && (messageId.Some? ==> messageId.value != "")
    ensures var m, q := UpdateContent(p, u, messageId), p.(messageId := Or(messageId, p.messageId));
            if u.delta.StrDelta? && u.delta.text != "" then
              m == Made(q.(buffer := p.buffer + u.delta.text, sawDelta := true), [Piece(q, u.delta.text, Delta)])
            else if u.text.Some? then
              m == Made(q.(buffer := u.text.value),
                        if p.buffer < u.text.value then [Piece(q, u.text.value[|p.buffer|..], PartTextDiff)] else [])
            else m == Made(p, [])
  {
  }

  lemma CatchesMore(a: seq<Chunk>, b: seq<Chunk>, p: PartState, pending: seq<PendingDelta>)
    requires Catches(a, p, pending)
    ensures Catches(a + b, p, pending)
  {
  }

  // ------------------------------------------------------------- whole runs

  /** The type that the last typed update gives the part. */
  function LastType(es: seq<PartEvent>): Option<BlockType> {
    if es == [] then None
    else
      var e := es[|es| - 1].body;
      if e.PartUpdated? && e.blockType.Some? then e.blockType else LastType(es[..|es| - 1])
  }

  /** The last role that a typed update gives it. */
  function LastRole(es: seq<PartEvent>): Option<string> {
    if es == [] then None
    else
      var e := es[|es| - 1].body;
      if e.PartUpdated? && e.blockType.Some? && e.role.Some? then e.role else LastRole(es[..|es| - 1])
  }

  /** Over whole runs a part is known from its first typed update on, and it has the type and the role that its typed
      updates gave it last, whatever other parts do. */
  lemma PartIsAsLastDescribed(g: Parts, session: string, id: string, es: seq<Event>)
    requires PartsOk(g) && SlotOf(g, id) == Slot(None, [])
    ensures var p, own := SlotOf(GenerateAll(g, session, es).parts, id).state, EventsOf(session, id, es);
            if LastType(own).None? then p.None?
            else
              && p.Some? && p.value.partId == id
              && p.value.blockType == LastType(own).value && p.value.role == LastRole(own)
  {
    PartsAreIndependent(g, session, id, es);
    LastDescription(id, EventsOf(session, id, es));
    hide EventsOf, GenerateAll, RunSlot, PartsOk;
  }

  lemma {:induction false} LastDescription(id: string, es: seq<PartEvent>)
    ensures var p := RunSlot(Slot(None, []), id, es).slot.state;
            if LastType(es).None? then p.None? && LastRole(es).None?
            else
              && p.Some? && p.value.partId == id
              && p.value.blockType == LastType(es).value && p.value.role == LastRole(es)
  {
    if es != [] {
      var init, e := es[..|es| - 1], es[|es| - 1];
      LastDescription(id, init);
      NewSlot(id);
      RunSlotOk(Slot(None, []), id, init);
      DescriptionStep(RunSlot(Slot(None, []), id, init).slot, id, e);
      hide StepSlot, SlotOk;
    }
  }

  lemma NewSlot(id: string)
    ensures SlotOk(Slot(None, []), id)
  {
  }

  lemma DescriptionStep(s: Slot, id: string, e: PartEvent)
    requires SlotOk(s, id)
    ensures var p := StepSlot(s, id, e.body, e.messageId).slot.state;
            if e.body.PartUpdated? && e.body.blockType.Some? then
              && p.Some? && p.value.partId == id && p.value.blockType == e.body.blockType.value
              && p.value.role == Or(e.body.role, if s.state.Some? then s.state.value.role else None)
            else if s.state.None? then p.None?
            else
              && p.Some? && p.value.partId == s.state.value.partId
              && p.value.blockType == s.state.value.blockType && p.value.role == s.state.value.role
  {
    hide UpdateContent;
    if e.body.PartUpdated? && e.body.blockType.Some? {
      var p := Upserted(s.state, id, e.body.blockType.value, e.body.role, e.messageId);
      if !BlockedRole(p.role) {
        ReplayOk(p, s.pending);
        UpdateContentOk(ReplayPending(p, s.pending).state, e.body, e.messageId);
      }
    }
  }
}
