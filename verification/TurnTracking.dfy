/** The upstream side of one turn: notifications are collected in a tracker, from which the final answer
    is read, and mapped to the events that feed the stream (`_handle_notification`, `_TurnTracker`). */
module TurnTracking {
  import opened Text
  import opened StreamState
  import opened StreamChunks
  import opened FanOut

  /** A notification with its decoded fields; `str(...)` has been applied where the source applies it. */
  datatype Notification =
    | AgentDelta(thread: string, turn: string, delta: Option<string>, itemId: Option<string>)
    | ReasoningDelta(thread: string, partId: string, delta: Option<string>)
    | ToolEvent(thread: string, partId: string, messageId: Option<string>, payload: ToolPayload)
    | InterruptEvent(thread: string, body: Body)
    | TurnStarted(thread: string, turn: string)
    | TurnCompleted(thread: string, turn: string, error: Option<string>)
    | TokenUsage(thread: string, decoded: bool)
    | UpstreamError
    | Unrelated

  datatype Tracker = Tracker(chunks: seq<string>, messageId: Option<string>, completed: bool, error: Option<string>)

  datatype Key = Key(thread: string, turn: string)

  const NEW_TRACKER: Tracker := Tracker([], None, false, None)

  function TextOfTracker(t: Tracker): string {
    Concat(t.chunks)
  }

  function TrackerOf(trackers: map<Key, Tracker>, key: Key): Tracker {
    if key in trackers then trackers[key] else NEW_TRACKER
  }

  function PartIds(thread: string, messageId: Option<string>, partId: string): RawIds {
    RawIds(None, None, Some(thread), messageId, None, Some(partId), None)
  }

  /** An event that belongs to no part, with the session it names, if it names one. */
  function PlainEvent(session: Option<string>, body: Body): Event {
    Event(RawIds(session, None, None, None, None, None, None), body)
  }

  function AssistantPart(b: BlockType, delta: DeltaValue): Body {
    PartUpdated(Some("agent"), Some(b), delta, None, None)
  }

  datatype Mapped = Mapped(trackers: map<Key, Tracker>, event: Option<Event>)

  /** An agent-message delta that the client takes into account. */
  predicate Counts(n: Notification) {
    n.AgentDelta? && Strip(n.thread) != "" && Strip(n.turn) != "" && n.delta.Some?
  }

  function KeyOf(n: Notification): Key
    requires n.AgentDelta? || n.TurnStarted? || n.TurnCompleted?
  {
    Key(Strip(n.thread), Strip(n.turn))
  }

  function WithDelta(t: Tracker, delta: string, itemId: Option<string>): Tracker {
    t.(chunks := t.chunks + [delta],
       messageId := if itemId.Some? && Strip(itemId.value) != "" then itemId else t.messageId)
  }

  function Completed(t: Tracker, error: Option<string>): Tracker {
    t.(completed := true, error := if error.Some? then error else t.error)
  }

  function OrEmpty(s: Option<string>): string {
    if s.Some? then s.value else ""
  }

  function Handle(trackers: map<Key, Tracker>, n: Notification): Mapped {
    match n
    case AgentDelta(thread, _, delta, itemId) =>
      if Counts(n) then
        var t := WithDelta(TrackerOf(trackers, KeyOf(n)), delta.value, itemId);
        var id := OrEmpty(t.messageId);
        Mapped(trackers[KeyOf(n) := t],
               Some(Event(PartIds(Strip(thread), Some(id), id), AssistantPart(TEXT, StrDelta(delta.value)))))
      else Mapped(trackers, None)
    case ReasoningDelta(thread, partId, delta) =>
      if Strip(thread) != "" && delta.Some? then
        Mapped(trackers, Some(Event(PartIds(Strip(thread), Some(Strip(partId)), Strip(partId)),
                                    AssistantPart(REASONING, StrDelta(delta.value)))))
      else Mapped(trackers, None)
    case ToolEvent(thread, partId, messageId, payload) =>
      Mapped(trackers, Some(Event(PartIds(thread, messageId, partId), AssistantPart(TOOL_CALL, MapDelta(Some(payload))))))
    case InterruptEvent(thread, body) =>
      if body.Asked? || body.Answered? then
        Mapped(trackers, Some(PlainEvent(Some(thread), body)))
      else Mapped(trackers, None)
    case TurnStarted(_, _) =>
      if KeyOf(n).thread != "" && KeyOf(n).turn != ""
      then Mapped(trackers[KeyOf(n) := TrackerOf(trackers, KeyOf(n))], None)
      else Mapped(trackers, None)
    case TurnCompleted(_, _, error) =>
      if KeyOf(n).thread != "" && KeyOf(n).turn != ""
      then Mapped(trackers[KeyOf(n) := Completed(TrackerOf(trackers, KeyOf(n)), error)], None)
      else Mapped(trackers, None)
    case TokenUsage(thread, decoded) =>
      if Strip(thread) != "" && decoded then Mapped(trackers, Some(PlainEvent(Some(Strip(thread)), OtherEvent)))
      else Mapped(trackers, None)
    case UpstreamError => Mapped(trackers, Some(PlainEvent(None, OtherEvent)))
    case Unrelated => Mapped(trackers, None)
  }

  /** What happens to the trackers: a notification arrives, `send_message` begins to wait for a turn, or it
      has the turn's outcome and drops the tracker. */
  datatype ClientStep = Notified(n: Notification) | TurnAwaited(key: Key) | TurnCollected(key: Key)

  function Advance(trackers: map<Key, Tracker>, step: ClientStep): Mapped {
    match step
    case Notified(n) => Handle(trackers, n)
    case TurnAwaited(key) => Mapped(trackers[key := TrackerOf(trackers, key)], None)
    case TurnCollected(key) => Mapped(trackers - {key}, None)
  }

  /** The trackers after some steps of a client that is already running. */
  function TrackersAfter(trackers: map<Key, Tracker>, steps: seq<ClientStep>): map<Key, Tracker> {
    if steps == [] then trackers
    else Advance(TrackersAfter(trackers, steps[..|steps| - 1]), steps[|steps| - 1]).trackers
  }

  /** The events enqueued meanwhile, in order. */
  function Produced(trackers: map<Key, Tracker>, steps: seq<ClientStep>): seq<Event> {
    if steps == [] then []
    else
      var r := Advance(TrackersAfter(trackers, steps[..|steps| - 1]), steps[|steps| - 1]);
      Produced(trackers, steps[..|steps| - 1]) + (if r.event.Some? then [r.event.value] else [])
  }

  // ---------------------------------------------------------------- objects

  class TurnTracker {
    var chunks: seq<string>
    var messageId: Option<string>
    var completed: bool
    var error: Option<string>

    function Value(): Tracker reads this {
      Tracker(chunks, messageId, completed, error)
    }

    constructor ()
      ensures Value() == NEW_TRACKER
    {
      chunks, messageId, completed, error := [], None, false, None;
    }

    /** The `text` property: everything appended so far, joined. */
    method Text() returns (r: string)
      ensures r == TextOfTracker(Value())
    {
      r := "";
      for i := 0 to |chunks|
        invariant r == Concat(chunks[..i])
      {
        ConcatSnoc(chunks[..i], chunks[i]);
        assert chunks[..i + 1] == chunks[..i] + [chunks[i]];
        r := r + chunks[i];
      }
      assert chunks[..|chunks|] == chunks;
    }

    method Complete(failure: Option<string>)
      modifies this
      ensures Value() == Completed(old(Value()), failure)
    {
      if failure.Some? {
        error := failure;
      }
      completed := true;
    }

    method Add(delta: string, itemId: Option<string>)
      modifies this
      ensures Value() == WithDelta(old(Value()), delta, itemId)
    {
      chunks := chunks + [delta];
      if itemId.Some? && Strip(itemId.value) != "" {
        messageId := itemId;
      }
    }
  }

  class CodexClient {
    var turnTrackers: map<Key, TurnTracker>
    const hub: EventHub<Event>

    /** The values of all trackers. */
    ghost var Trackers: map<Key, Tracker>

    ghost predicate Valid()
      reads this, turnTrackers.Values
    {
      && (forall k :: k in turnTrackers <==> k in Trackers)
      && (forall k :: k in turnTrackers ==> turnTrackers[k].Value() == Trackers[k])
      && Distinct(turnTrackers)
    }

    static ghost predicate Distinct(trackers: map<Key, TurnTracker>) {
      forall a, b :: a in trackers && b in trackers && a != b ==> trackers[a] != trackers[b]
    }

    /** Everything is in order except that the tracker of one key may have moved on. */
    ghost predicate ValidBut(key: Key)
      reads this, turnTrackers.Values
    {
      && key in turnTrackers
      && (forall k :: k != key ==> (k in turnTrackers <==> k in Trackers))
      && (forall k :: k in turnTrackers && k != key ==> turnTrackers[k].Value() == Trackers[k])
      && Distinct(turnTrackers)
    }

    ghost method Settle(key: Key)
      requires ValidBut(key)
      modifies `Trackers
      ensures Valid() && Trackers == old(Trackers)[key := turnTrackers[key].Value()]
    {
      Trackers := Trackers[key := turnTrackers[key].Value()];
    }

    constructor ()
      ensures Valid() && Trackers == map[]
      ensures fresh(hub) && hub.subscribers == {}
    {
      turnTrackers, Trackers := map[], map[];
      hub := new EventHub<Event>();
    }

    method GetOrCreateTracker(key: Key) returns (t: TurnTracker)
      requires Valid()
      modifies `turnTrackers
      ensures ValidBut(key) && turnTrackers[key] == t
      ensures key in old(turnTrackers) ==> turnTrackers == old(turnTrackers) && t == old(turnTrackers)[key]
      ensures key !in old(turnTrackers) ==> turnTrackers == old(turnTrackers)[key := t] && fresh(t)
      ensures t.Value() == TrackerOf(Trackers, key)
    {
      if key in turnTrackers {
        t := turnTrackers[key];
      } else {
        t := new TurnTracker();
        turnTrackers := turnTrackers[key := t];
      }
    }

    method AddAgentDelta(key: Key, delta: string, itemId: Option<string>) returns (messageId: Option<string>)
      requires Valid()
      modifies `turnTrackers, `Trackers, turnTrackers.Values
      ensures Valid()
      ensures Trackers == old(Trackers)[key := WithDelta(TrackerOf(old(Trackers), key), delta, itemId)]
      ensures messageId == Trackers[key].messageId
    {
      hide WithDelta, TrackerOf, Strip;
      var t := GetOrCreateTracker(key);
      t.Add(delta, itemId);
      Settle(key);
      messageId := t.messageId;
    }

    method CompleteTurn(key: Key, error: Option<string>)
      requires Valid()
      modifies `turnTrackers, `Trackers, turnTrackers.Values
      ensures Valid()
      ensures Trackers == old(Trackers)[key := Completed(TrackerOf(old(Trackers), key), error)]
    {
      hide Completed, TrackerOf;
      var t := GetOrCreateTracker(key);
      t.Complete(error);
      Settle(key);
    }

    /** Updates the trackers and says which event is to be enqueued, if any. */
    method MapNotification(n: Notification) returns (event: Option<Event>)
      requires Valid()
      modifies `turnTrackers, `Trackers, turnTrackers.Values
      ensures Valid()
      ensures Mapped(Trackers, event) == Handle(old(Trackers), n)
    {
      hide WithDelta, Completed, Strip;
      event := None;
      match n
      case AgentDelta(thread, _, delta, itemId) =>
        if Counts(n) {
          var messageId := AddAgentDelta(KeyOf(n), delta.value, itemId);
          var id := OrEmpty(messageId);
          event := Some(Event(PartIds(Strip(thread), Some(id), id), AssistantPart(TEXT, StrDelta(delta.value))));
        }
      case ReasoningDelta(thread, partId, delta) =>
        if Strip(thread) != "" && delta.Some? {
          event := Some(Event(PartIds(Strip(thread), Some(Strip(partId)), Strip(partId)),
                              AssistantPart(REASONING, StrDelta(delta.value))));
        }
      case ToolEvent(thread, partId, messageId, payload) =>
        event := Some(Event(PartIds(thread, messageId, partId), AssistantPart(TOOL_CALL, MapDelta(Some(payload)))));
      case InterruptEvent(thread, body) =>
        if body.Asked? || body.Answered? {
          event := Some(PlainEvent(Some(thread), body));
        }
      case TurnStarted(_, _) =>
        if KeyOf(n).thread != "" && KeyOf(n).turn != "" {
          var _ := GetOrCreateTracker(KeyOf(n));
          Settle(KeyOf(n));
        }
      case TurnCompleted(_, _, error) =>
        if KeyOf(n).thread != "" && KeyOf(n).turn != "" {
          CompleteTurn(KeyOf(n), error);
        }
      case TokenUsage(thread, decoded) =>
        if Strip(thread) != "" && decoded {
          event := Some(PlainEvent(Some(Strip(thread)), OtherEvent));
        }
      case UpstreamError =>
        event := Some(PlainEvent(None, OtherEvent));
      case Unrelated =>
    }

    /** `_handle_notification`: every subscriber is offered the event, if there is one. */
    method HandleNotification(n: Notification)
      requires Valid()
      requires forall q :: q in hub.subscribers ==> |q.items| <= EVENT_QUEUE_MAXSIZE
      modifies `turnTrackers, `Trackers, turnTrackers.Values, hub.subscribers
      ensures Valid()
      ensures var m := Handle(old(Trackers), n);
              && Trackers == m.trackers
              && forall q :: q in hub.subscribers ==>
                   q.items == if m.event.Some? then Offered(old(q.items), m.event.value) else old(q.items)
    {
      hide Handle;
      var event := MapNotification(n);
      if event.Some? {
        hub.EnqueueStreamEvent(event.value);
      }
    }

    /** `send_message` begins to wait for a turn. */
    method AwaitTurn(key: Key)
      requires Valid()
      modifies `turnTrackers, `Trackers
      ensures Valid() && Trackers == Advance(old(Trackers), TurnAwaited(key)).trackers
    {
      hide TrackerOf;
      var _ := GetOrCreateTracker(key);
      Settle(key);
    }

    /** The end of `send_message`: the answer of a completed turn, or None for its error or for a time-out;
        the tracker goes in any case. */
    method CollectTurn(key: Key, timedOut: bool) returns (text: Option<string>, messageId: Option<string>)
      requires Valid()
      modifies `turnTrackers, `Trackers
      ensures Valid()
      ensures var t := TrackerOf(old(Trackers), key);
              if timedOut || (t.error.Some? && t.error.value != "") then text.None? && messageId.None?
              else text == Some(TextOfTracker(t)) && messageId == t.messageId
      ensures Trackers == Advance(old(Trackers), TurnCollected(key)).trackers
    {
      hide TextOfTracker, Concat, TrackerOf;
      var t := GetOrCreateTracker(key);
      if timedOut || (t.error.Some? && t.error.value != "") {
        text, messageId := None, None;
      } else {
        var answer := t.Text();
        text, messageId := Some(answer), t.messageId;
      }
      Forget(key);
    }

    method Forget(key: Key)
      requires ValidBut(key)
      modifies `turnTrackers, `Trackers
      ensures Valid() && Trackers == old(Trackers) - {key}
    {
      turnTrackers := turnTrackers - {key};
      Trackers := Trackers - {key};
    }
  }
}
