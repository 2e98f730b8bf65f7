/** The same deltas feed the final answer and the stream. Here the two ends are compared. */
module EndToEnd {
  import opened Text
  import opened StreamState
  import opened Coalescing
  import opened StreamOutput
  import opened StreamChunks
  import opened PartHistory
  import opened StreamRun
  import opened Transcript
  import opened Completion
  import opened FanOut
  import opened TurnTracking
  import opened TurnHistory

  // ------------------------------------------------------------ stream side

  /** The shape of every event the client enqueues. */
  predicate ClientMade(e: Event) {
    || e.body.Asked? || e.body.Answered? || e.body.OtherEvent?
    || (e.body.PartUpdated? && e.body.role == Some("agent") && e.body.blockType.Some? && e.body.text.None?)
  }

  predicate AllClientMade(es: seq<Event>) {
    forall i :: 0 <= i < |es| ==> ClientMade(es[i])
  }

  /** The text of type b that an event carries for a part of the session. */
  function CarriedIn(session: string, e: Event, b: BlockType): string {
    if && e.body.PartUpdated? && e.body.blockType == Some(b) && e.body.delta.StrDelta?
       && StreamSession(e.ids) == Some(session) && PartIdOf(e.ids).Some?
    then e.body.delta.text else ""
  }

  function Carried(session: string, es: seq<Event>, b: BlockType): string {
    if es == [] then "" else Carried(session, es[..|es| - 1], b) + CarriedIn(session, es[|es| - 1], b)
  }

  lemma ContentText(p: PartState, u: Body, messageId: Option<string>, b: BlockType)
    requires b != TOOL_CALL && u.PartUpdated? && u.text.None? && p.role.Some?
    ensures var m := UpdateContent(p, u, messageId);
            && Attributed(m.chunks, b)
            && TextOf(m.chunks, b) == if p.blockType == b && u.delta.StrDelta? then u.delta.text else ""
  {
    var m := UpdateContent(p, u, messageId);
    ContentIsOneChunk(p, u, messageId, b);
    hide UpdateContent, TextOf;
    if m.chunks != [] {
      TextOfOne(m.chunks[0], b);
    } else {
      assert TextOf(m.chunks, b) == "" by { NoText("", b); }
    }
  }

  lemma ContentIsOneChunk(p: PartState, u: Body, messageId: Option<string>, b: BlockType)
    requires b != TOOL_CALL && u.PartUpdated? && u.text.None? && p.role.Some?
    ensures var cs := UpdateContent(p, u, messageId).chunks;
            if cs == [] then p.blockType == b && u.delta.StrDelta? ==> u.delta.text == ""
            else
              && |cs| == 1 && cs[0].role == p.role
              && ChunkText(cs[0], b) == if p.blockType == b && u.delta.StrDelta? then u.delta.text else ""
  {
    hide WithMessage;
    WithMessageKeeps(p, messageId);
  }

  lemma WithMessageKeeps(p: PartState, messageId: Option<string>)
    ensures var q := WithMessage(p, messageId); q.role == p.role && q.blockType == p.blockType
  {
  }

  lemma ClientStep(s: Slot, id: string, u: Body, messageId: Option<string>, b: BlockType)
    requires b != TOOL_CALL && s.pending == []
    requires u.PartUpdated? && u.role == Some("agent") && u.blockType.Some? && u.text.None?
    ensures var r := StepSlot(s, id, u, messageId);
            && r.slot.pending == [] && Attributed(r.chunks, b)
            && TextOf(r.chunks, b) == if u.blockType == Some(b) && u.delta.StrDelta? then u.delta.text else ""
  {
    hide UpdateContent, TextOf, WithMessage;
    var p := Upserted(s.state, id, u.blockType.value, u.role, messageId);
    UpsertedMeans(s.state, id, u.blockType.value, u.role, messageId);
    assert ReplayPending(p, []) == Made(p, []);
    ContentText(p, u, messageId, b);
    var m := UpdateContent(p, u, messageId);
    assert [] + m.chunks == m.chunks;
  }

  lemma UpsertedMeans(known: Option<PartState>, id: string, b: BlockType, role: Option<string>, messageId: Option<string>)
    requires role.Some?
    ensures Upserted(known, id, b, role, messageId).role == role
    ensures Upserted(known, id, b, role, messageId).blockType == b
  {
  }

  lemma GenerateClient(g: Parts, session: string, e: Event, b: BlockType)
    requires b != TOOL_CALL && g.pending == map[] && ClientMade(e)
    ensures var r := Generate(g, session, e);
            && r.parts.pending == map[]
            && Attributed(r.chunks, b)
            && TextOf(r.chunks, b) == CarriedIn(session, e, b)
  {
    hide StepSlot, TextOf, StreamSession, PartIdOf, MessageIdOf;
    if Concerns(session, e) {
      var id := PartIdOf(e.ids).value;
      ClientStep(SlotOf(g, id), id, e.body, MessageIdOf(e.ids), b);
    } else {
      NoText("", b);
    }
  }

  ghost predicate ClientState(st: State, b: BlockType) {
    StateOk(st) && st.parts.pending == map[] && BufferAttributed(st.buffer, b)
  }

  /** What the client's events generate is attributed, and its text is the text they carry. */
  lemma {:induction false} ClientGenerates(g: Parts, session: string, es: seq<Event>, b: BlockType)
    requires b != TOOL_CALL && g.pending == map[] && AllClientMade(es)
    ensures var r := GenerateAll(g, session, es);
            && r.parts.pending == map[] && Attributed(r.chunks, b)
            && TextOf(r.chunks, b) == Carried(session, es, b)
  {
    if es == [] {
      NoText("", b);
    } else {
      var earlier, e := es[..|es| - 1], es[|es| - 1];
      assert forall i :: 0 <= i < |earlier| ==> earlier[i] == es[i];
      ClientGenerates(g, session, earlier, b);
      var before := GenerateAll(g, session, earlier);
      GenerateClient(before.parts, session, e, b);
      var r := Generate(before.parts, session, e);
      TextOfAppend(before.chunks, r.chunks, b);
      hide Generate, ClientMade, TextOf, NoEcho, CarriedIn;
    }
  }

  /** Whatever the clock and the flush points, the text and the reasoning delivered are the text and the reasoning
      shown or waiting. */
  lemma RunText(st: State, session: string, inputs: seq<Input>, b: BlockType)
    requires b != TOOL_CALL && ClientState(st, b) && AllClientMade(EventsIn(inputs))
    ensures ClientState(Run(st, session, inputs), b)
    ensures Visible(Run(st, session, inputs), b) == Visible(st, b) + Carried(session, EventsIn(inputs), b)
  {
    ClientGenerates(st.parts, session, EventsIn(inputs), b);
    RunOk(st, session, inputs);
    hide Run, GenerateAll, TextOf, Visible, StateOk, Attributed, AllClientMade, EventsIn;
    RunShowsText(st, session, inputs, b);
  }

  // ----------------------------------------------------------- tracker side

  /** A text delta of some turn of the session's thread. */
  predicate OfSession(session: string, step: ClientStep) {
    && step.Notified? && step.n.AgentDelta? && step.n.delta.Some?
    && Strip(step.n.thread) == session && Strip(step.n.turn) != ""
  }

  predicate Named(step: ClientStep)
    requires step.Notified? && step.n.AgentDelta?
  {
    step.n.itemId.Some? && Strip(step.n.itemId.value) != ""
  }

  /** Some delta of the session has carried a non-blank item id. */
  predicate AnyNamed(session: string, steps: seq<ClientStep>) {
    exists i :: 0 <= i < |steps| && OfSession(session, steps[i]) && Named(steps[i])
  }

  /** The text of the session's deltas that came before any non-blank item id. */
  function Unattributed(session: string, steps: seq<ClientStep>): string {
    if steps == [] then ""
    else
      var step := steps[|steps| - 1];
      Unattributed(session, steps[..|steps| - 1])
      + (if OfSession(session, step) && !AnyNamed(session, steps) then step.n.delta.value else "")
  }

  /** One turn runs on the session's thread, and its outcome is not collected before the end. Other turns may
      run on other threads, begin and end. */
  predicate OneTurn(session: string, turn: string, steps: seq<ClientStep>) {
    forall i :: 0 <= i < |steps| ==>
      && (OfSession(session, steps[i]) ==> Strip(steps[i].n.turn) == turn)
      && steps[i] != TurnCollected(Key(session, turn))
  }

  /** Nothing has been received of the turn, whatever the client did before. */
  predicate NewTurn(trackers: map<Key, Tracker>, key: Key) {
    TrackerOf(trackers, key).chunks == [] && TrackerOf(trackers, key).messageId.None?
  }

  lemma AdvanceIsClientMade(trackers: map<Key, Tracker>, step: ClientStep)
    ensures var e := Advance(trackers, step).event; e.Some? ==> ClientMade(e.value)
  {
    hide Strip, WithDelta, TrackerOf, Completed;
  }

  lemma {:induction false} ProducedIsClientMade(t0: map<Key, Tracker>, steps: seq<ClientStep>)
    ensures AllClientMade(Produced(t0, steps))
  {
    if steps != [] {
      var earlier := steps[..|steps| - 1];
      ProducedIsClientMade(t0, earlier);
      AdvanceIsClientMade(TrackersAfter(t0, earlier), steps[|steps| - 1]);
      hide Advance, ClientMade, TrackersAfter;
    }
  }

  lemma PartIdsMean(thread: string, messageId: Option<string>, partId: string)
    ensures StreamSession(PartIds(thread, messageId, partId))
            == if Strip(thread) != "" then Some(Strip(thread)) else None
    ensures PartIdOf(PartIds(thread, messageId, partId))
            == if Strip(partId) != "" then Some(Strip(partId)) else None
  {
    hide Strip;
    var none: seq<Option<string>> := [None];
    assert none[1..] == [] && FirstNonEmpty(none) == None;
    assert [Some(thread), None][1..] == none && [Some(partId), None][1..] == none;
  }

  /** What one step adds to the session's answer text, given the tracker it meets. */
  lemma CarriedByStep(trackers: map<Key, Tracker>, session: string, step: ClientStep)
    requires session != ""
    ensures var e := Advance(trackers, step).event;
            (if e.Some? then CarriedIn(session, e.value, TEXT) else "")
            == if OfSession(session, step) && Strip(OrEmpty(
                    WithDelta(TrackerOf(trackers, KeyOf(step.n)), step.n.delta.value, step.n.itemId).messageId)) != ""
               then step.n.delta.value else ""
  {
    hide StreamSession, PartIdOf, TrackerOf, WithDelta;
    if step.Notified? && Counts(step.n) {
      var n := step.n;
      var id := OrEmpty(WithDelta(TrackerOf(trackers, KeyOf(n)), n.delta.value, n.itemId).messageId);
      PartIdsMean(Strip(n.thread), Some(id), id);
    }
  }

  lemma TrackerGrows(trackers: map<Key, Tracker>, session: string, turn: string, step: ClientStep)
    requires session != "" && (OfSession(session, step) ==> Strip(step.n.turn) == turn)
    requires step != TurnCollected(Key(session, turn))
    ensures var before := TrackerOf(trackers, Key(session, turn));
            var after := TrackerOf(Advance(trackers, step).trackers, Key(session, turn));
            if OfSession(session, step)
            then after == WithDelta(before, step.n.delta.value, step.n.itemId)
            else after.chunks == before.chunks && after.messageId == before.messageId
  {
    hide WithDelta;
  }

  lemma NamedSoFar(session: string, steps: seq<ClientStep>)
    requires steps != []
    ensures AnyNamed(session, steps)
            <==> AnyNamed(session, steps[..|steps| - 1])
                 || (OfSession(session, steps[|steps| - 1]) && Named(steps[|steps| - 1]))
  {
    var earlier, step := steps[..|steps| - 1], steps[|steps| - 1];
    if AnyNamed(session, earlier) {
      var i :| 0 <= i < |earlier| && OfSession(session, earlier[i]) && Named(earlier[i]);
      assert OfSession(session, steps[i]) && Named(steps[i]);
    }
  }

  /** The tracker t against u, the unattributed text so far, and a, the text of the events so far. */
  predicate Agree(t: Tracker, named: bool, u: string, a: string) {
    && (t.messageId.Some? <==> named)
    && (named ==> Strip(t.messageId.value) != "")
    && (!named ==> a == "")
    && TextOfTracker(t) == u + a
  }

  ghost predicate TrackerAgrees(t0: map<Key, Tracker>, session: string, turn: string, steps: seq<ClientStep>) {
    Agree(TrackerOf(TrackersAfter(t0, steps), Key(session, turn)), AnyNamed(session, steps),
          Unattributed(session, steps), Carried(session, Produced(t0, steps), TEXT))
  }

  lemma CarriedByProduced(t0: map<Key, Tracker>, session: string, steps: seq<ClientStep>, b: BlockType)
    requires steps != []
    ensures var e := Advance(TrackersAfter(t0, steps[..|steps| - 1]), steps[|steps| - 1]).event;
            Carried(session, Produced(t0, steps), b)
            == Carried(session, Produced(t0, steps[..|steps| - 1]), b)
               + if e.Some? then CarriedIn(session, e.value, b) else ""
  {
    hide CarriedIn, Advance;
    var e := Advance(TrackersAfter(t0, steps[..|steps| - 1]), steps[|steps| - 1]).event;
    var es := Produced(t0, steps);
    if e.Some? {
      assert es[..|es| - 1] == Produced(t0, steps[..|steps| - 1]);
    } else {
      assert es == Produced(t0, steps[..|steps| - 1]);
    }
  }

  /** From any state of the client in which nothing of the turn has been received, the tracker holds the text
      that came before any item id, then exactly the text of the events. */
  lemma {:induction false} TrackerText(t0: map<Key, Tracker>, session: string, turn: string, steps: seq<ClientStep>)
    requires session != "" && NewTurn(t0, Key(session, turn)) && OneTurn(session, turn, steps)
    ensures TrackerAgrees(t0, session, turn, steps)
  {
    if steps == [] {
      assert Carried(session, [], TEXT) == "";
    } else {
      var earlier := steps[..|steps| - 1];
      assert OneTurn(session, turn, earlier) by {
        assert forall i :: 0 <= i < |earlier| ==> earlier[i] == steps[i];
      }
      TrackerText(t0, session, turn, earlier);
      TrackerTextStep(t0, session, turn, steps);
    }
  }

  /** One delta, on the values alone. */
  lemma AgreementStep(t: Tracker, named: bool, u: string, a: string, delta: string, itemId: Option<string>)
    requires Agree(t, named, u, a)
    ensures var t' := WithDelta(t, delta, itemId);
            var named' := named || (itemId.Some? && Strip(itemId.value) != "");
            && (Strip(OrEmpty(t'.messageId)) != "" <==> named')
            && Agree(t', named', u + (if named' then "" else delta), a + (if named' then delta else ""))
  {
    ConcatSnoc(t.chunks, delta);
    Associate(u, a, delta);
    assert Strip("") == "";
    assert u + "" == u && a + "" == a;
  }

  lemma AgreementStays(t: Tracker, t': Tracker, named: bool, u: string, a: string)
    requires Agree(t, named, u, a) && t'.chunks == t.chunks && t'.messageId == t.messageId
    ensures Agree(t', named, u + "", a + "")
  {
    assert u + "" == u && a + "" == a;
  }

  lemma TrackerTextStep(t0: map<Key, Tracker>, session: string, turn: string, steps: seq<ClientStep>)
    requires session != "" && OneTurn(session, turn, steps) && steps != []
    requires TrackerAgrees(t0, session, turn, steps[..|steps| - 1])
    ensures TrackerAgrees(t0, session, turn, steps)
  {
    hide Advance, Carried, Produced, AnyNamed, CarriedIn, TextOfTracker, WithDelta, Strip, OrEmpty,
         TrackersAfter, TrackerOf, Unattributed, Agree;
    var earlier, step := steps[..|steps| - 1], steps[|steps| - 1];
    LastStep(t0, session, steps);
    var before := TrackersAfter(t0, earlier);
    var t := TrackerOf(before, Key(session, turn));
    TrackerGrows(before, session, turn, step);
    CarriedByStep(before, session, step);
    NamedSoFar(session, steps);
    CarriedByProduced(t0, session, steps, TEXT);
    var named, u := AnyNamed(session, earlier), Unattributed(session, earlier);
    var a := Carried(session, Produced(t0, earlier), TEXT);
    if OfSession(session, step) {
      assert KeyOf(step.n) == Key(session, turn);
      AgreementStep(t, named, u, a, step.n.delta.value, step.n.itemId);
    } else {
      AgreementStays(t, TrackerOf(TrackersAfter(t0, steps), Key(session, turn)), named, u, a);
    }
  }

  lemma LastStep(t0: map<Key, Tracker>, session: string, steps: seq<ClientStep>)
    requires steps != []
    ensures var earlier, step := steps[..|steps| - 1], steps[|steps| - 1];
            && TrackersAfter(t0, steps) == Advance(TrackersAfter(t0, earlier), step).trackers
            && Unattributed(session, steps)
               == Unattributed(session, earlier)
                  + if OfSession(session, step) && !AnyNamed(session, steps) then step.n.delta.value else ""
  {
  }

  /** If every delta of the session carries a non-blank item id, none of its text is unattributed. */
  lemma {:induction false} NamedDeltasAreAttributed(session: string, steps: seq<ClientStep>)
    requires forall i :: 0 <= i < |steps| && OfSession(session, steps[i]) ==> Named(steps[i])
    ensures Unattributed(session, steps) == ""
  {
    if steps != [] {
      var earlier := steps[..|steps| - 1];
      assert forall i :: 0 <= i < |earlier| ==> earlier[i] == steps[i];
      NamedDeltasAreAttributed(session, earlier);
      NamedSoFar(session, steps);
    }
  }

  /** From the initial state, what has been streamed after a flush is the text that the events carry. */
  lemma CarriedIsStreamed(session: string, inputs: seq<Input>, output: Output, b: BlockType)
    requires b != TOOL_CALL && AllClientMade(EventsIn(inputs))
    requires output == InitialOutput(output.userText, output.stableMessageId, output.namespace)
    ensures var st := Flush(Run(InitialState(output), session, inputs));
            && SinkOk(st.sink) && st.buffer.None?
            && StreamedText(st.sink.queue, b) == Carried(session, EventsIn(inputs), b)
  {
    var st0 := InitialState(output);
    InitialOk(output.userText, output.stableMessageId, output.namespace);
    NothingVisible(output, b);
    hide Run, SinkOk, PartsOk, Visible, AllClientMade, BufferOk, InitialState, Carried;
    RunText(st0, session, inputs, b);
    var st := Run(st0, session, inputs);
    FlushText(st, b);
    ApplyOk(st, session, FlushPoint);
    assert "" + Carried(session, EventsIn(inputs), b) == Carried(session, EventsIn(inputs), b);
  }

  lemma NothingVisible(output: Output, b: BlockType)
    ensures Visible(InitialState(output), b) == ""
    ensures InitialState(output).parts.pending == map[] && InitialState(output).buffer.None?
  {
  }

  // ---------------------------------------------------------- both together

  /** A client in any state t0 takes the given steps. A subscriber that joined in t0 has been handed everything
      since, and its events, with any clock readings and flush points, are the inputs of a fresh processor. */
  ghost predicate HandedOn(t0: map<Key, Tracker>, steps: seq<ClientStep>, s: Subscription<Event>, inputs: seq<Input>,
                           output: Output) {
    && SubscriptionOk(s) && s.arrived == Produced(t0, steps) && s.dropped == [] && s.queue == []
    && EventsIn(inputs) == s.output
    && output == InitialOutput(output.userText, output.stableMessageId, output.namespace)
  }

  /** Meanwhile a new turn runs on the session's thread. */
  ghost predicate Delivered(t0: map<Key, Tracker>, session: string, turn: string, steps: seq<ClientStep>,
                            s: Subscription<Event>, inputs: seq<Input>, output: Output) {
    && session != "" && NewTurn(t0, Key(session, turn)) && OneTurn(session, turn, steps)
    && HandedOn(t0, steps, s, inputs, output)
  }

  /** The answer as `send_message` reads it. */
  function Answer(t0: map<Key, Tracker>, session: string, turn: string, steps: seq<ClientStep>): string {
    TextOfTracker(TrackerOf(TrackersAfter(t0, steps), Key(session, turn)))
  }

  lemma AnswerIsTurnText(t0: map<Key, Tracker>, session: string, turn: string, steps: seq<ClientStep>)
    requires session != "" && NewTurn(t0, Key(session, turn)) && OneTurn(session, turn, steps)
    ensures turn != "" ==> Answer(t0, session, turn, steps) == TurnText(session, turn, steps)
  {
    hide OfSession, TurnText, TrackersAfter, TrackerOf;
    if turn != "" {
      TurnIsRecorded(t0, session, turn, steps);
      assert Concat([]) == "" && "" + TurnText(session, turn, steps) == TurnText(session, turn, steps);
    }
  }

  /** Whatever else happens between the turn's deltas, once the processor is flushed the answer, which is all of the
      turn's deltas, is the text before the first item id followed by exactly the streamed text. */
  lemma StreamMatchesTracker(t0: map<Key, Tracker>, session: string, turn: string, steps: seq<ClientStep>,
                             s: Subscription<Event>, inputs: seq<Input>, output: Output)
    requires Delivered(t0, session, turn, steps, s, inputs, output)
    ensures var st := Flush(Run(InitialState(output), session, inputs));
            && SinkOk(st.sink) && st.buffer.None?
            && Answer(t0, session, turn, steps) == Unattributed(session, steps) + StreamedText(st.sink.queue, TEXT)
    ensures turn != "" ==> Answer(t0, session, turn, steps) == TurnText(session, turn, steps)
  {
    AnswerIsTurnText(t0, session, turn, steps);
    hide Carried, Run, Produced, SinkOk, Unattributed, Flush, StreamedText, AllClientMade, SubscriptionOk;
    DrainedWithoutLoss(s);
    ProducedIsClientMade(t0, steps);
    TrackerText(t0, session, turn, steps);
    CarriedIsStreamed(session, inputs, output, TEXT);
  }

  /** No duplicated answer. With item ids on all deltas the streamed text is the final answer, and
      completion adds nothing to the queue but the final status. */
  lemma AnswerIsNotRepeated(t0: map<Key, Tracker>, session: string, turn: string, steps: seq<ClientStep>,
                            s: Subscription<Event>, inputs: seq<Input>, output: Output, messageId: string)
    requires Delivered(t0, session, turn, steps, s, inputs, output)
    requires forall i :: 0 <= i < |steps| && OfSession(session, steps[i]) ==> Named(steps[i])
    ensures var sink := Flush(Run(InitialState(output), session, inputs)).sink;
            var answer := Answer(t0, session, turn, steps);
            && StreamedText(sink.queue, TEXT) == answer
            && Complete(sink, answer, messageId).queue
               == sink.queue + [FinalStatus(messageId, StatusEventId(sink.output.namespace))]
  {
    hide StreamedText, Run, Delivered, SinkOk, Unattributed, Answer, Flush, Strip;
    StreamMatchesTracker(t0, session, turn, steps, s, inputs, output);
    NamedDeltasAreAttributed(session, steps);
    var sink := Flush(Run(InitialState(output), session, inputs)).sink;
    CompletionShowsAnswer(sink, StreamedText(sink.queue, TEXT), messageId);
  }

  /** In general the stream repeats the answer exactly when the text before the first item id is empty. */
  lemma StreamedTextIsWhole(t0: map<Key, Tracker>, session: string, turn: string, steps: seq<ClientStep>,
                            s: Subscription<Event>, inputs: seq<Input>, output: Output)
    requires Delivered(t0, session, turn, steps, s, inputs, output)
    ensures StreamedText(Flush(Run(InitialState(output), session, inputs)).sink.queue, TEXT)
            == Answer(t0, session, turn, steps)
            <==> Unattributed(session, steps) == ""
  {
    hide StreamedText, Run, Delivered, SinkOk, Unattributed, Answer, Flush;
    StreamMatchesTracker(t0, session, turn, steps, s, inputs, output);
    var text := StreamedText(Flush(Run(InitialState(output), session, inputs)).sink.queue, TEXT);
    assert |Unattributed(session, steps) + text| == |Unattributed(session, steps)| + |text|;
    if Unattributed(session, steps) == "" {
      assert "" + text == text;
    }
  }

  /** The reasoning that a notification brings to a part of the session's thread. */
  function ReasoningIn(session: string, step: ClientStep): string {
    if && step.Notified? && step.n.ReasoningDelta? && step.n.delta.Some?
       && Strip(step.n.thread) == session && Strip(step.n.partId) != ""
    then step.n.delta.value else ""
  }

  function ReasoningText(session: string, steps: seq<ClientStep>): string {
    if steps == [] then ""
    else ReasoningText(session, steps[..|steps| - 1]) + ReasoningIn(session, steps[|steps| - 1])
  }

  lemma ReasoningByStep(trackers: map<Key, Tracker>, session: string, step: ClientStep)
    requires session != ""
    ensures var e := Advance(trackers, step).event;
            (if e.Some? then CarriedIn(session, e.value, REASONING) else "") == ReasoningIn(session, step)
  {
    hide StreamSession, PartIdOf, TrackerOf, WithDelta, Strip;
    if step.Notified? && step.n.ReasoningDelta? {
      PartIdsMean(Strip(step.n.thread), Some(Strip(step.n.partId)), Strip(step.n.partId));
    }
  }

  lemma {:induction false} ReasoningIsPassedOn(t0: map<Key, Tracker>, session: string, steps: seq<ClientStep>)
    requires session != ""
    ensures Carried(session, Produced(t0, steps), REASONING) == ReasoningText(session, steps)
  {
    if steps != [] {
      var earlier, step := steps[..|steps| - 1], steps[|steps| - 1];
      ReasoningIsPassedOn(t0, session, earlier);
      ReasoningByStep(TrackersAfter(t0, earlier), session, step);
      CarriedByProduced(t0, session, steps, REASONING);
      hide Advance, Carried, CarriedIn, ReasoningIn, TrackersAfter, Produced;
      var before := Carried(session, Produced(t0, earlier), REASONING);
      assert before + "" == before;
    }
  }

  /** All of the session's reasoning reaches the caller, in order, whatever else happens and whoever else talks. */
  lemma ReasoningReachesCaller(t0: map<Key, Tracker>, session: string, steps: seq<ClientStep>, s: Subscription<Event>,
                               inputs: seq<Input>, output: Output)
    requires session != "" && HandedOn(t0, steps, s, inputs, output)
    ensures StreamedText(Flush(Run(InitialState(output), session, inputs)).sink.queue, REASONING)
            == ReasoningText(session, steps)
  {
    hide Carried, Run, Produced, SinkOk, Flush, StreamedText, AllClientMade, SubscriptionOk, ReasoningText;
    DrainedWithoutLoss(s);
    ProducedIsClientMade(t0, steps);
    ReasoningIsPassedOn(t0, session, steps);
    CarriedIsStreamed(session, inputs, output, REASONING);
  }

  /** A turn whose first delta carries no item id: the first of its two deltas is not streamed. */
  function LateNamed(session: string, turn: string): seq<ClientStep> {
    [Notified(AgentDelta(session, turn, Some("Hello"), None)),
     Notified(AgentDelta(session, turn, Some(" there"), Some("item")))]
  }

  lemma LateNamedIsUnattributed(session: string, turn: string)
    requires session != "" && Trimmed(session) && turn != "" && Trimmed(turn)
    ensures OneTurn(session, turn, LateNamed(session, turn)) && NewTurn(map[], Key(session, turn))
    ensures Unattributed(session, LateNamed(session, turn)) == "Hello"
  {
    var steps := LateNamed(session, turn);
    assert OfSession(session, steps[0]) && OfSession(session, steps[1]);
    assert !Named(steps[0]);
    assert Strip("item") == "item";
    assert Named(steps[1]);
    assert steps[..1] == [steps[0]] && steps[..1][..0] == [];
    assert !AnyNamed(session, steps[..1]);
    assert AnyNamed(session, steps);
    assert Unattributed(session, []) == "";
    assert Unattributed(session, steps[..1]) == "" + "Hello" == "Hello";
    assert "Hello" + "" == "Hello";
  }

  function NumbersTo(n: nat): (r: seq<nat>)
    ensures |r| == n && forall i :: 0 <= i < n ==> r[i] == i
  {
    seq(n, i => i)
  }

  function DeliverAll(es: seq<Event>, clock: Clock): seq<Input> {
    seq(|es|, i requires 0 <= i < |es| => Deliver(es[i], clock))
  }

  lemma {:induction false} AllAreDelivered(es: seq<Event>, clock: Clock)
    ensures EventsIn(DeliverAll(es, clock)) == es
  {
    if es != [] {
      AllAreDelivered(es[1..], clock);
      assert DeliverAll(es, clock)[1..] == DeliverAll(es[1..], clock);
    }
  }

  lemma AllHandedOut(es: seq<Event>)
    ensures SubscriptionOk(Subscription([], es, es, NumbersTo(|es|), []))
  {
    var s := Subscription([], es, es, NumbersTo(|es|), []);
    assert es[|es|..] == [];
    forall p | 0 <= p < |es| ensures p in s.delivered {
      assert s.delivered[p] == p;
    }
  }

  /** Every run of one turn can be delivered. */
  lemma CanBeDelivered(t0: map<Key, Tracker>, session: string, turn: string, steps: seq<ClientStep>,
                       output: Output, clock: Clock) returns (s: Subscription<Event>, inputs: seq<Input>)
    requires session != "" && NewTurn(t0, Key(session, turn)) && OneTurn(session, turn, steps)
    requires output == InitialOutput(output.userText, output.stableMessageId, output.namespace)
    ensures Delivered(t0, session, turn, steps, s, inputs, output)
  {
    hide Produced, NewTurn, OneTurn, InitialOutput, SubscriptionOk, NumbersTo, DeliverAll, EventsIn;
    var es := Produced(t0, steps);
    s := Subscription([], es, es, NumbersTo(|es|), []);
    inputs := DeliverAll(es, clock);
    AllAreDelivered(es, clock);
    AllHandedOut(es);
  }

  /** So the stream can fall short of the answer, and completion then sends it again, whole. */
  lemma AnswerCanBeRepeated(session: string, turn: string, output: Output, clock: Clock, messageId: string)
    returns (s: Subscription<Event>, inputs: seq<Input>)
    requires session != "" && Trimmed(session) && turn != "" && Trimmed(turn)
    requires output == InitialOutput(output.userText, output.stableMessageId, output.namespace)
    ensures Delivered(map[], session, turn, LateNamed(session, turn), s, inputs, output)
    ensures var sink := Flush(Run(InitialState(output), session, inputs)).sink;
            && StreamedText(sink.queue, TEXT) == " there"
            && Answer(map[], session, turn, LateNamed(session, turn)) == "Hello there"
            && SnapshotSent(Complete(sink, "Hello there", messageId).queue, sink.output.namespace, "Hello there", messageId)
  {
    hide StreamedText, Run, Delivered, SinkOk, Answer, Flush, Unattributed, LateNamed, Complete, InitialState, InitialOutput;
    LateNamedIsUnattributed(session, turn);
    s, inputs := CanBeDelivered(map[], session, turn, LateNamed(session, turn), output, clock);
    StreamMatchesTracker(map[], session, turn, LateNamed(session, turn), s, inputs, output);
    LateNamedAnswer(session, turn);
    hide TrackersAfter;
    var sink := Flush(Run(InitialState(output), session, inputs)).sink;
    SuffixOf("Hello", StreamedText(sink.queue, TEXT), " there");
    assert Strip("Hello there") == "Hello there" && Strip(" there") == Strip("there") == "there";
    CompletionShowsAnswer(sink, "Hello there", messageId);
  }

  lemma SuffixOf(a: string, b: string, c: string)
    requires a + b == a + c
    ensures b == c
  {
    assert b == (a + b)[|a|..] == (a + c)[|a|..] == c;
  }

  lemma LateNamedAnswer(session: string, turn: string)
    requires session != "" && Trimmed(session) && turn != "" && Trimmed(turn)
    ensures Answer(map[], session, turn, LateNamed(session, turn)) == "Hello there" == "Hello" + " there"
  {
    LateNamedIsUnattributed(session, turn);
    LateNamedCounts(session, turn);
    hide Trimmed, Strip, OfSession, OneTurn, NewTurn, Unattributed, LateNamed, TrackersAfter, TrackerOf;
    var steps := LateNamed(session, turn);
    TwoDeltas(session, turn, steps);
    ConcatTwo("Hello", " there");
  }

  lemma LateNamedCounts(session: string, turn: string)
    requires session != "" && Trimmed(session) && turn != "" && Trimmed(turn)
    ensures var steps := LateNamed(session, turn);
            && |steps| == 2 && OfSession(session, steps[0]) && OfSession(session, steps[1])
            && steps[0].n.delta == Some("Hello") && steps[1].n.delta == Some(" there")
  {
  }

  lemma ConcatTwo(a: string, b: string)
    ensures Concat([a, b]) == a + b
  {
    assert [a, b][1..] == [b] && [b][1..] == [];
    assert Concat([]) == "" && b + "" == b;
    assert Concat([b]) == b;
  }

  lemma TwoDeltas(session: string, turn: string, steps: seq<ClientStep>)
    requires session != "" && |steps| == 2 && OfSession(session, steps[0]) && OfSession(session, steps[1])
    requires OneTurn(session, turn, steps)
    ensures TrackerOf(TrackersAfter(map[], steps), Key(session, turn)).chunks
            == [steps[0].n.delta.value, steps[1].n.delta.value]
  {
    hide Advance;
    assert steps[..1] == [steps[0]] && steps[..1][..0] == [];
    LastStep(map[], session, steps[..1]);
    LastStep(map[], session, steps);
    hide TrackersAfter;
    NoTrackers();
    TrackerGrows(map[], session, turn, steps[0]);
    TrackerGrows(TrackersAfter(map[], steps[..1]), session, turn, steps[1]);
  }

  lemma NoTrackers()
    ensures TrackersAfter(map[], []) == map[]
  {
  }
}
