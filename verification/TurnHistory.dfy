/** What the client keeps of one turn and what it passes on, told from the notifications alone. */
module TurnHistory {
  import opened Text
  import opened StreamState
  import opened StreamChunks
  import opened PartSteps
  import opened TurnTracking

  // ------------------------------------------------------ what is recorded

  /** A text delta of the given turn. */
  predicate DeltaOf(session: string, turn: string, step: ClientStep) {
    && step.Notified? && step.n.AgentDelta? && step.n.delta.Some?
    && Strip(step.n.thread) == session && Strip(step.n.turn) == turn
  }

  /** The end of the given turn. */
  predicate EndOf(session: string, turn: string, step: ClientStep) {
    step.Notified? && step.n.TurnCompleted? && Strip(step.n.thread) == session && Strip(step.n.turn) == turn
  }

  /** The turn's deltas, joined in order. */
  function TurnText(session: string, turn: string, steps: seq<ClientStep>): string {
    if steps == [] then ""
    else
      var step := steps[|steps| - 1];
      TurnText(session, turn, steps[..|steps| - 1]) + (if DeltaOf(session, turn, step) then step.n.delta.value else "")
  }

  /** The last non-blank item id that a delta of the turn carries, or else the first one known. */
  function LastItem(first: Option<string>, session: string, turn: string, steps: seq<ClientStep>): Option<string> {
    if steps == [] then first
    else
      var step := steps[|steps| - 1];
      if DeltaOf(session, turn, step) && step.n.itemId.Some? && Strip(step.n.itemId.value) != "" then step.n.itemId
      else LastItem(first, session, turn, steps[..|steps| - 1])
  }

  /** The last error that the end of the turn reports, or else the first one known. */
  function LastError(first: Option<string>, session: string, turn: string, steps: seq<ClientStep>): Option<string> {
    if steps == [] then first
    else
      var step := steps[|steps| - 1];
      if EndOf(session, turn, step) && step.n.error.Some? then step.n.error
      else LastError(first, session, turn, steps[..|steps| - 1])
  }

  /** What is known of the turn has grown from t to t' by the given steps. */
  predicate Recorded(t: Tracker, t': Tracker, session: string, turn: string, steps: seq<ClientStep>) {
    && TextOfTracker(t') == TextOfTracker(t) + TurnText(session, turn, steps)
    && t'.messageId == LastItem(t.messageId, session, turn, steps)
    && t'.error == LastError(t.error, session, turn, steps)
    && (t'.completed <==> t.completed || exists i :: 0 <= i < |steps| && EndOf(session, turn, steps[i]))
  }

  /** One step, for the tracker of one turn. */
  predicate RecordedStep(t: Tracker, t': Tracker, session: string, turn: string, step: ClientStep) {
    && (if DeltaOf(session, turn, step) then
          && t'.chunks == t.chunks + [step.n.delta.value]
          && t'.messageId == if step.n.itemId.Some? && Strip(step.n.itemId.value) != "" then step.n.itemId else t.messageId
        else t'.chunks == t.chunks && t'.messageId == t.messageId)
    && (if EndOf(session, turn, step)
        then t'.completed && t'.error == if step.n.error.Some? then step.n.error else t.error
        else t'.completed == t.completed && t'.error == t.error)
  }

  lemma StepIsRecorded(trackers: map<Key, Tracker>, session: string, turn: string, step: ClientStep)
    requires session != "" && turn != "" && step != TurnCollected(Key(session, turn))
    ensures RecordedStep(TrackerOf(trackers, Key(session, turn)),
                         TrackerOf(Advance(trackers, step).trackers, Key(session, turn)), session, turn, step)
  {
    hide Strip;
  }

  lemma EndsSnoc(session: string, turn: string, steps: seq<ClientStep>)
    requires steps != []
    ensures var earlier := steps[..|steps| - 1];
            (exists i :: 0 <= i < |steps| && EndOf(session, turn, steps[i]))
            <==> (exists i :: 0 <= i < |earlier| && EndOf(session, turn, earlier[i]))
                 || EndOf(session, turn, steps[|steps| - 1])
  {
    hide EndOf;
    var earlier := steps[..|steps| - 1];
    if i :| 0 <= i < |earlier| && EndOf(session, turn, earlier[i]) {
      assert EndOf(session, turn, steps[i]);
    }
  }

  lemma RecordedSnoc(t: Tracker, before: Tracker, after: Tracker, session: string, turn: string, steps: seq<ClientStep>)
    requires steps != [] && Recorded(t, before, session, turn, steps[..|steps| - 1])
    requires RecordedStep(before, after, session, turn, steps[|steps| - 1])
    ensures Recorded(t, after, session, turn, steps)
  {
    hide EndOf, Strip;
    var earlier, step := steps[..|steps| - 1], steps[|steps| - 1];
    EndsSnoc(session, turn, steps);
    if DeltaOf(session, turn, step) {
      ConcatSnoc(before.chunks, step.n.delta.value);
      Associate(TextOfTracker(t), TurnText(session, turn, earlier), step.n.delta.value);
    } else {
      assert TurnText(session, turn, earlier) + "" == TurnText(session, turn, earlier);
    }
  }

  /** Whatever else the client is told meanwhile: until a turn is collected its text grows by exactly the deltas of
      its thread and turn, in order, blank ones included; its message id is the last item id that one of them
      carried; it is complete when its end has been reported; and its error is the last one reported. */
  lemma {:induction false} TurnIsRecorded(t0: map<Key, Tracker>, session: string, turn: string, steps: seq<ClientStep>)
    requires session != "" && turn != ""
    requires forall i :: 0 <= i < |steps| ==> steps[i] != TurnCollected(Key(session, turn))
    ensures Recorded(TrackerOf(t0, Key(session, turn)), TrackerOf(TrackersAfter(t0, steps), Key(session, turn)),
                     session, turn, steps)
  {
    var key := Key(session, turn);
    if steps == [] {
      assert TextOfTracker(TrackerOf(t0, key)) + "" == TextOfTracker(TrackerOf(t0, key));
    } else {
      var earlier, step := steps[..|steps| - 1], steps[|steps| - 1];
      assert forall i :: 0 <= i < |earlier| ==> earlier[i] == steps[i];
      TurnIsRecorded(t0, session, turn, earlier);
      hide Recorded, RecordedStep, TrackerOf, Advance;
      var before := TrackersAfter(t0, earlier);
      StepIsRecorded(before, session, turn, step);
      RecordedSnoc(TrackerOf(t0, key), TrackerOf(before, key), TrackerOf(TrackersAfter(t0, steps), key),
                   session, turn, steps);
    }
  }

  /** What names no thread or no turn is told to no tracker. */
  lemma TurnsNeedNames(trackers: map<Key, Tracker>, n: Notification)
    requires n.AgentDelta? || n.TurnStarted? || n.TurnCompleted?
    requires Strip(n.thread) == "" || Strip(n.turn) == ""
    ensures Handle(trackers, n) == Mapped(trackers, None)
  {
  }

  /** Collecting a turn forgets it and nothing else. */
  lemma CollectingForgets(trackers: map<Key, Tracker>, key: Key, other: Key)
    ensures TrackerOf(Advance(trackers, TurnCollected(key)).trackers, other)
            == if other == key then Tracker([], None, false, None) else TrackerOf(trackers, other)
  {
  }

  // ------------------------------------------------------ what is passed on

  /** An event that a processor reads as an assistant's part of the given type, with ids of the part alone. */
  predicate PartFrom(e: Event, session: string, partId: string, messageId: string, b: BlockType, delta: DeltaValue) {
    && e.body == PartUpdated(Some("agent"), Some(b), delta, None, None)
    && StreamSession(e.ids) == Given(Some(session))
    && PartIdOf(e.ids) == Given(Some(partId))
    && MessageIdOf(e.ids) == Given(Some(messageId))
    && e.ids.propsSession.None? && e.ids.infoSession.None? && e.ids.propsMessage.None? && e.ids.propsPartId.None?
  }

  /** Every string delta that names a thread and a turn is passed on, blank or not, as text of the last item id;
      any other is passed over. */
  lemma DeltaIsPassedOn(trackers: map<Key, Tracker>, n: Notification)
    requires n.AgentDelta?
    ensures var m := Handle(trackers, n);
            if n.delta.Some? && Strip(n.thread) != "" && Strip(n.turn) != "" then
              var item := LastItem(TrackerOf(trackers, Key(Strip(n.thread), Strip(n.turn))).messageId,
                                   Strip(n.thread), Strip(n.turn), [Notified(n)]);
              var id := if item.Some? then item.value else "";
              m.event.Some? && PartFrom(m.event.value, n.thread, id, id, TEXT, StrDelta(n.delta.value))
            else m == Mapped(trackers, None)
  {
    hide Strip, StreamSession, MessageIdOf, PartIdOf;
    var key := Key(Strip(n.thread), Strip(n.turn));
    var known := TrackerOf(trackers, key).messageId;
    assert [Notified(n)][..0] == [];
    assert LastItem(known, key.thread, key.turn, []) == known;
    if n.delta.Some? && Strip(n.thread) != "" && Strip(n.turn) != "" {
      var item := LastItem(known, key.thread, key.turn, [Notified(n)]);
      var id := if item.Some? then item.value else "";
      IdsExactly(PartIds(Strip(n.thread), Some(id), id));
    }
  }

  /** What becomes of the other notifications. None of them but the two that speak of turns touches a tracker. */
  lemma NotificationIsPassedOn(trackers: map<Key, Tracker>, n: Notification)
    requires !n.AgentDelta?
    ensures var m := Handle(trackers, n);
            && (!n.TurnStarted? && !n.TurnCompleted? ==> m.trackers == trackers)
            && match n {
                 case ReasoningDelta(thread, partId, delta) =>
                   if delta.Some? && Strip(thread) != "" then
                     m.event.Some? && PartFrom(m.event.value, thread, partId, partId, REASONING, StrDelta(delta.value))
                   else m.event.None?
                 case ToolEvent(thread, partId, messageId, payload) =>
                   && m.event.Some?
                   && PartFrom(m.event.value, thread, partId, if messageId.Some? then messageId.value else "",
                               TOOL_CALL, MapDelta(Some(payload)))
                 case InterruptEvent(thread, body) =>
                   if body.Asked? || body.Answered? then
                     m.event.Some? && m.event.value.body == body && EventSession(m.event.value.ids) == Given(Some(thread))
                   else m.event.None?
                 case TokenUsage(thread, decoded) =>
                   if decoded && Strip(thread) != "" then
                     && m.event.Some? && m.event.value.body == OtherEvent
                     && EventSession(m.event.value.ids) == Given(Some(thread))
                   else m.event.None?
                 case UpstreamError =>
                   m.event.Some? && m.event.value.body == OtherEvent && EventSession(m.event.value.ids).None?
                 case _ => m.event.None?
               }
  {
    hide Strip, EventSession, StreamSession, MessageIdOf, PartIdOf, Completed, TrackerOf;
    StripTwice(n);
    BlankIsBlank();
    var e := Handle(trackers, n).event;
    if e.Some? {
      IdsExactly(e.value.ids);
    }
  }

  lemma BlankIsBlank()
    ensures Strip("") == ""
  {
  }

  lemma StripTwice(n: Notification)
    ensures n.ReasoningDelta? ==> Strip(Strip(n.thread)) == Strip(n.thread) && Strip(Strip(n.partId)) == Strip(n.partId)
    ensures n.TokenUsage? ==> Strip(Strip(n.thread)) == Strip(n.thread)
  {
  }
}
