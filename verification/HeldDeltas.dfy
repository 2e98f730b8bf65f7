/** What becomes of string deltas that arrive before the type of their part is known: when they are
    replayed, and when their text is lost. */
module HeldDeltas {
  import opened Text
  import opened StreamState
  import opened StreamOutput
  import opened StreamChunks
  import opened PartHistory

  /** The text of the deltas that wait for their part's type. */
  function HeldText(pending: seq<PendingDelta>): string {
    if pending == [] then "" else HeldText(pending[..|pending| - 1]) + pending[|pending| - 1].delta
  }

  /** The update types the part as text or reasoning and does not say it is the user's or the system's. */
  predicate Reveals(u: Body)
    requires u.PartUpdated?
  {
    u.blockType in {Some(TEXT), Some(REASONING)} && !BlockedRole(u.role)
  }

  predicate HeldOk(pending: seq<PendingDelta>) {
    forall i :: 0 <= i < |pending| ==> pending[i].field == "text" && pending[i].delta != ""
  }

  /** Replaying gives one chunk for each delta, in order. */
  predicate Replayed(cs: seq<Chunk>, pending: seq<PendingDelta>) {
    && |cs| == |pending|
    && forall i :: 0 <= i < |cs| ==> cs[i].part == TextPart(pending[i].delta) && cs[i].source == DeltaEventBuffered
  }

  lemma {:induction false} ReplayGivesAll(p: PartState, pending: seq<PendingDelta>)
    requires p.blockType != TOOL_CALL && HeldOk(pending)
    ensures Replayed(ReplayPending(p, pending).chunks, pending)
    ensures ReplayPending(p, pending).state.blockType == p.blockType
  {
    if pending != [] {
      ReplayGivesAll(p, pending[..|pending| - 1]);
    }
  }

  lemma {:induction false} HeldTextEmpty(pending: seq<PendingDelta>)
    requires HeldOk(pending)
    ensures HeldText(pending) == "" <==> pending == []
  {
    if pending != [] {
      assert pending[|pending| - 1].delta != "";
    }
  }

  lemma {:induction false} ReplayedText(cs: seq<Chunk>, pending: seq<PendingDelta>)
    requires Replayed(cs, pending)
    ensures ProseOf(cs) == HeldText(pending)
  {
    if cs != [] {
      ReplayedText(cs[..|cs| - 1], pending[..|pending| - 1]);
    }
  }

  /** Payloads are all that a tool part's update generates. */
  lemma ToolContentHasNoText(p: PartState, pending: seq<PendingDelta>, u: Body, messageId: Option<string>)
    requires u.PartUpdated? && p.blockType == TOOL_CALL
    ensures ProseOf(TypedContent(p, pending, u, messageId).chunks) == ""
    ensures DeltaProse(TypedContent(p, pending, u, messageId).chunks) == ""
  {
    ToolReplayIsSilent(p, pending);
    var m := UpdateContent(p, u, messageId);
    assert [] + m.chunks == m.chunks;
    if m.chunks != [] {
      OneProse(m.chunks[0]);
      OneDeltaProse(m.chunks[0]);
    }
  }

  /** An update of a part known only by held-back deltas generates first exactly those deltas, one chunk each,
      if it reveals the part as text or reasoning that may be shown; and in no other case does it generate
      their text, unless there is none. */
  lemma ReplayedExactly(s: Slot, id: string, e: PartEvent)
    requires SlotOk(s, id) && s.state.None? && e.body.PartUpdated?
    ensures var r := StepSlot(s, id, e.body, e.messageId);
            && r.slot.pending == []
            && (Reveals(e.body) ==> |s.pending| <= |r.chunks| && Replayed(r.chunks[..|s.pending|], s.pending))
            && (HeldText(s.pending) <= ProseOf(r.chunks) <==> Reveals(e.body) || s.pending == [])
  {
    HeldTextEmpty(s.pending);
    if e.body.blockType.Some? && !BlockedRole(e.body.role) {
      var p := NewPart(id, e.body.blockType.value, e.body.role, e.messageId);
      if p.blockType == TOOL_CALL {
        ToolContentHasNoText(p, s.pending, e.body, e.messageId);
      } else {
        var replayed := ReplayPending(p, s.pending);
        var m := UpdateContent(replayed.state, e.body, e.messageId);
        ReplayGivesAll(p, s.pending);
        ReplayedText(replayed.chunks, s.pending);
        ProseOfAppend(replayed.chunks, m.chunks);
        assert (replayed.chunks + m.chunks)[..|s.pending|] == replayed.chunks;
      }
      hide UpdateContent, ReplayPending;
    }
  }

  // ------------------------------------------------------------- whole runs

  /** The text of the chunks that come from delta events, replayed or not. */
  function DeltaProse(cs: seq<Chunk>): string {
    if cs == [] then ""
    else
      var c := cs[|cs| - 1];
      DeltaProse(cs[..|cs| - 1])
      + (if c.part.TextPart? && c.source in {DeltaEvent, DeltaEventBuffered} then c.part.text else "")
  }

  lemma OneDeltaProse(c: Chunk)
    ensures DeltaProse([c]) ==
            if c.part.TextPart? && c.source in {DeltaEvent, DeltaEventBuffered} then c.part.text else ""
  {
    assert [c][..0] == [];
  }

  lemma {:induction false} DeltaProseAppend(a: seq<Chunk>, b: seq<Chunk>)
    ensures DeltaProse(a + b) == DeltaProse(a) + DeltaProse(b)
  {
    if b == [] {
      assert a + b == a;
    } else {
      assert (a + b)[..|a + b| - 1] == a + b[..|b| - 1];
      DeltaProseAppend(a, b[..|b| - 1]);
      Associate(DeltaProse(a), DeltaProse(b[..|b| - 1]), DeltaProse([b[|b| - 1]]));
      OneDeltaProse(b[|b| - 1]);
    }
  }

  function DeltaTextOf(e: PartEvent): string {
    if e.body.PartDelta? && e.body.field == Some("text") && e.body.deltaText.Some? then e.body.deltaText.value else ""
  }

  /** The text of all delta events received, in order. */
  function DeltaText(es: seq<PartEvent>): string {
    if es == [] then "" else DeltaText(es[..|es| - 1]) + DeltaTextOf(es[|es| - 1])
  }

  /** The part may show text: it is text or reasoning, and not the user's or the system's. */
  predicate Shows(p: PartState) {
    p.blockType != TOOL_CALL && !BlockedRole(p.role)
  }

  /** The event makes delta text disappear: an update that finds deltas held back and does not reveal the part,
      or a delta for a part that shows no text. */
  predicate LosesText(s: Slot, e: PartEvent) {
    || (e.body.PartUpdated? && s.pending != [] && !Reveals(e.body))
    || (DeltaTextOf(e) != "" && s.state.Some? && !Shows(s.state.value))
  }

  /** What the account of delta text is: generated, then held back. */
  function Accounted(r: SlotStep): string {
    DeltaProse(r.chunks) + HeldText(r.slot.pending)
  }

  /** One event: the text held back and received is the text generated and held back, or else some of it is gone. */
  lemma StepAccounts(s: Slot, id: string, e: PartEvent)
    requires SlotOk(s, id)
    ensures var r := StepSlot(s, id, e.body, e.messageId);
            && (!LosesText(s, e) ==> Accounted(r) == HeldText(s.pending) + DeltaTextOf(e))
            && (LosesText(s, e) ==> |Accounted(r)| < |HeldText(s.pending)| + |DeltaTextOf(e)|)
  {
    assert DeltaProse([]) == "" && HeldText([]) == "";
    if e.body.PartDelta? {
      DeltaAccounts(s, id, e);
    } else if e.body.PartUpdated? {
      UpdateAccounts(s, id, e);
    } else {
      assert HeldText(s.pending) + "" == HeldText(s.pending) == "" + HeldText(s.pending);
    }
  }

  lemma DeltaAccounts(s: Slot, id: string, e: PartEvent)
    requires SlotOk(s, id) && e.body.PartDelta?
    ensures var r := StepSlot(s, id, e.body, e.messageId);
            && (!LosesText(s, e) ==> Accounted(r) == HeldText(s.pending) + DeltaTextOf(e))
            && (LosesText(s, e) ==> |Accounted(r)| < |HeldText(s.pending)| + |DeltaTextOf(e)|)
  {
    var r := StepSlot(s, id, e.body, e.messageId);
    assert DeltaProse([]) == "" && HeldText([]) == "";
    if DeltaTextOf(e) != "" {
      if s.state.None? {
        assert r.slot.pending[..|s.pending|] == s.pending;
      } else if r.chunks != [] {
        OneDeltaProse(r.chunks[0]);
      }
    }
  }

  lemma UpdateAccounts(s: Slot, id: string, e: PartEvent)
    requires SlotOk(s, id) && e.body.PartUpdated?
    ensures var r := StepSlot(s, id, e.body, e.messageId);
            && (!LosesText(s, e) ==> Accounted(r) == HeldText(s.pending))
            && (LosesText(s, e) ==> |Accounted(r)| < |HeldText(s.pending)|)
  {
    assert DeltaProse([]) == "" && HeldText([]) == "";
    HeldTextEmpty(s.pending);
    if e.body.blockType.Some? {
      var p := Upserted(s.state, id, e.body.blockType.value, e.body.role, e.messageId);
      TypedAccounts(p, s.pending, e.body, e.messageId);
      hide TypedContent;
    }
  }

  lemma TypedAccounts(p: PartState, pending: seq<PendingDelta>, u: Body, messageId: Option<string>)
    requires HeldOk(pending) && u.PartUpdated?
    ensures DeltaProse(TypedContent(p, pending, u, messageId).chunks)
            == if p.blockType == TOOL_CALL then "" else HeldText(pending)
  {
    if p.blockType == TOOL_CALL {
      ToolContentHasNoText(p, pending, u, messageId);
    } else {
      var replayed := ReplayPending(p, pending);
      var m := UpdateContent(replayed.state, u, messageId);
      ReplayGivesAll(p, pending);
      ReplayedDeltaText(replayed.chunks, pending);
      DeltaProseAppend(replayed.chunks, m.chunks);
      if m.chunks != [] {
        OneDeltaProse(m.chunks[0]);
      }
    }
  }

  lemma {:induction false} ReplayedDeltaText(cs: seq<Chunk>, pending: seq<PendingDelta>)
    requires Replayed(cs, pending)
    ensures DeltaProse(cs) == HeldText(pending)
  {
    if cs != [] {
      ReplayedDeltaText(cs[..|cs| - 1], pending[..|pending| - 1]);
    }
  }

  predicate NeverLoses(s: Slot, id: string, es: seq<PartEvent>) {
    forall i :: 0 <= i < |es| ==> !LosesText(RunSlot(s, id, es[..i]).slot, es[i])
  }

  lemma {:induction false} RunAccounts(id: string, es: seq<PartEvent>)
    ensures var r, lossless := RunSlot(Slot(None, []), id, es), NeverLoses(Slot(None, []), id, es);
            && (lossless ==> Accounted(r) == DeltaText(es))
            && (!lossless ==> |Accounted(r)| < |DeltaText(es)|)
  {
    if es != [] {
      var init, e := es[..|es| - 1], es[|es| - 1];
      RunAccounts(id, init);
      RunSlotOk(Slot(None, []), id, init);
      NeverLosesSnoc(Slot(None, []), id, es);
      var before := RunSlot(Slot(None, []), id, init);
      var r := StepSlot(before.slot, id, e.body, e.messageId);
      StepAccounts(before.slot, id, e);
      DeltaProseAppend(before.chunks, r.chunks);
      hide StepSlot, LosesText, NeverLoses, DeltaTextOf, HeldText, DeltaProse;
      Associate(DeltaProse(before.chunks), DeltaProse(r.chunks), HeldText(r.slot.pending));
      Associate(DeltaProse(before.chunks), HeldText(before.slot.pending), DeltaTextOf(e));
    } else {
      assert DeltaProse([]) == "" && HeldText([]) == "";
    }
  }

  lemma NeverLosesSnoc(s: Slot, id: string, es: seq<PartEvent>)
    requires es != []
    ensures NeverLoses(s, id, es) <==>
            NeverLoses(s, id, es[..|es| - 1]) && !LosesText(RunSlot(s, id, es[..|es| - 1]).slot, es[|es| - 1])
  {
    hide RunSlot, LosesText;
    var init := es[..|es| - 1];
    assert forall i :: 0 <= i < |init| ==> init[..i] == es[..i] && init[i] == es[i];
    if NeverLoses(s, id, es) {
      forall i | 0 <= i < |init| ensures !LosesText(RunSlot(s, id, init[..i]).slot, init[i]) {
        assert !LosesText(RunSlot(s, id, es[..i]).slot, es[i]);
      }
    }
  }

  /** Over whole runs, with any other parts: the text of a part's delta events is exactly what was generated from
      them followed by what is still held back, if and only if no update found deltas held back without revealing
      the part, and no delta came for a part that shows no text. */
  lemma NoDeltaTextIsLost(g: Parts, session: string, id: string, es: seq<Event>)
    requires PartsOk(g) && SlotOf(g, id) == Slot(None, [])
    ensures var r, own := GenerateAll(g, session, es), EventsOf(session, id, es);
            DeltaProse(ChunksFor(id, r.chunks)) + HeldText(SlotOf(r.parts, id).pending) == DeltaText(own)
            <==> NeverLoses(Slot(None, []), id, own)
  {
    PartsAreIndependent(g, session, id, es);
    RunAccounts(id, EventsOf(session, id, es));
    hide GenerateAll, EventsOf, RunSlot, DeltaText, NeverLoses, DeltaProse, HeldText, ChunksFor, PartsOk;
  }

  /** Deltas can be lost: an update without a type that comes between a delta and the update with the type. */
  lemma UntypedUpdateLosesDeltas(id: string)
    ensures var delta := PartEvent(PartDelta(Some("text"), Some("hi")), None);
            var untyped := PartEvent(PartUpdated(Some("agent"), None, Absent, None, None), None);
            var typed := PartEvent(PartUpdated(Some("agent"), Some(TEXT), Absent, None, None), None);
            var r := RunSlot(Slot(None, []), id, [delta, untyped, typed]);
            r.chunks == [] && r.slot.pending == [] && BufferOf(r.slot) == ""
  {
    var delta := PartEvent(PartDelta(Some("text"), Some("hi")), None);
    var untyped := PartEvent(PartUpdated(Some("agent"), None, Absent, None, None), None);
    var typed := PartEvent(PartUpdated(Some("agent"), Some(TEXT), Absent, None, None), None);
    OneEvent(Slot(None, []), id, delta);
    assert [delta, untyped][..1] == [delta] && [delta, untyped, typed][..2] == [delta, untyped];
    assert RunSlot(Slot(None, []), id, [delta]).slot == Slot(None, [PendingDelta("text", "hi", None)]);
    assert RunSlot(Slot(None, []), id, [delta, untyped]) == SlotStep(Slot(None, []), []);
    assert ReplayPending(NewPart(id, TEXT, Some("agent"), None), []).chunks == [];
  }

  /** So is a delta of a part that turns out to be a tool call. */
  lemma ToolTypingLosesDeltas(id: string)
    ensures var delta := PartEvent(PartDelta(Some("text"), Some("hi")), None);
            var typed := PartEvent(PartUpdated(Some("agent"), Some(TOOL_CALL), Absent, None, None), None);
            var r := RunSlot(Slot(None, []), id, [delta, typed]);
            r.chunks == [] && r.slot.pending == [] && BufferOf(r.slot) == ""
  {
    var delta := PartEvent(PartDelta(Some("text"), Some("hi")), None);
    var typed := PartEvent(PartUpdated(Some("agent"), Some(TOOL_CALL), Absent, None, None), None);
    OneEvent(Slot(None, []), id, delta);
    assert [delta, typed][..1] == [delta];
    ToolReplayIsSilent(NewPart(id, TOOL_CALL, Some("agent"), None), [PendingDelta("text", "hi", None)]);
  }
}
