/** Fan-out of upstream events to bounded subscriber queues (`_enqueue_stream_event`, `stream_events`). */
module FanOut {
  import opened Text

  const EVENT_QUEUE_MAXSIZE: nat := 2048

  /** A queue after one event has been offered to it: the oldest event goes if there is no room. */
  function Offered<T>(queue: seq<T>, e: T): seq<T> {
    if |queue| < EVENT_QUEUE_MAXSIZE then queue + [e] else queue[1..] + [e]
  }

  /** One subscriber and its history: the events broadcast since it subscribed, what it has been handed,
      and the positions in `arrived` of the events handed out and of the events dropped. */
  datatype Subscription<T> = Subscription(
    queue: seq<T>,
    arrived: seq<T>,
    output: seq<T>,
    delivered: seq<nat>,
    dropped: seq<nat>)

  function NewSubscription<T>(): Subscription<T> {
    Subscription([], [], [], [], [])
  }

  function Offer<T>(s: Subscription<T>, e: T): Subscription<T>
    requires |s.queue| <= |s.arrived|
  {
    s.(queue := Offered(s.queue, e),
       arrived := s.arrived + [e],
       dropped := if |s.queue| < EVENT_QUEUE_MAXSIZE then s.dropped else s.dropped + [|s.arrived| - |s.queue|])
  }

  function Take<T>(s: Subscription<T>): Subscription<T>
    requires |s.queue| <= |s.arrived|
  {
    if s.queue == [] then s
    else s.(queue := s.queue[1..],
            output := s.output + [s.queue[0]],
            delivered := s.delivered + [|s.arrived| - |s.queue|])
  }

  predicate Increasing(ps: seq<nat>) {
    forall i, j :: 0 <= i < j < |ps| ==> ps[i] < ps[j]
  }

  /** The queue is bounded and is a suffix of what arrived. Everything before that suffix was either
      handed out or dropped, in order, once; and whatever was dropped was dropped because a full queue
      of younger events stood behind it when the next one came. */
  predicate SubscriptionOk<T(==)>(s: Subscription<T>) {
    && |s.queue| <= EVENT_QUEUE_MAXSIZE
    && |s.queue| <= |s.arrived|
    && var head := |s.arrived| - |s.queue|;
    && s.queue == s.arrived[head..]
    && Increasing(s.delivered) && Increasing(s.dropped)
    && (forall i :: 0 <= i < |s.delivered| ==> s.delivered[i] < head && s.delivered[i] !in s.dropped)
    && (forall i :: 0 <= i < |s.dropped| ==> s.dropped[i] < head && s.dropped[i] + EVENT_QUEUE_MAXSIZE < |s.arrived|)
    && |s.delivered| + |s.dropped| == head
    && (forall p :: 0 <= p < head ==> p in s.delivered || p in s.dropped)
    && |s.output| == |s.delivered|
    && (forall i :: 0 <= i < |s.output| ==> s.output[i] == s.arrived[s.delivered[i]])
  }

  lemma OfferOk<T>(s: Subscription<T>, e: T)
    requires SubscriptionOk(s)
    ensures SubscriptionOk(Offer(s, e)) && Offer(s, e).arrived == s.arrived + [e]
  {
    var t := Offer(s, e);
    var head := |s.arrived| - |s.queue|;
    assert (s.arrived + [e])[head..] == s.queue + [e];
    assert t.queue == t.arrived[|t.arrived| - |t.queue|..];
    assert forall p :: p in t.dropped <==> p in s.dropped || (t.dropped != s.dropped && p == head);
  }

  lemma TakeOk<T>(s: Subscription<T>)
    requires SubscriptionOk(s)
    ensures SubscriptionOk(Take(s)) && Take(s).arrived == s.arrived
  {
    var t := Take(s);
    var head := |s.arrived| - |s.queue|;
    assert forall p :: p in t.delivered <==> p in s.delivered || (t.delivered != s.delivered && p == head);
  }

  lemma {:induction false} IncreasingIsDense(ps: seq<nat>, k: nat)
    requires Increasing(ps) && k < |ps| && (forall i :: 0 <= i < |ps| ==> ps[i] < |ps|)
    ensures ps[k] == k
    decreases |ps| - k
  {
    IncreasingAtLeast(ps, k);
    if k < |ps| - 1 {
      IncreasingIsDense(ps, k + 1);
    }
  }

  lemma {:induction false} IncreasingAtLeast(ps: seq<nat>, k: nat)
    requires Increasing(ps) && k < |ps|
    ensures ps[k] >= k
  {
    if k > 0 {
      IncreasingAtLeast(ps, k - 1);
    }
  }

  /** Nothing dropped and nothing left in the queue: every event has been handed out, in order. */
  lemma DrainedWithoutLoss<T>(s: Subscription<T>)
    requires SubscriptionOk(s) && s.dropped == [] && s.queue == []
    ensures s.output == s.arrived
  {
    forall i | 0 <= i < |s.output| ensures s.output[i] == s.arrived[i] {
      IncreasingIsDense(s.delivered, i);
    }
  }

  // ------------------------------------------------------- all subscribers

  datatype Action<T> = Subscribe(id: nat) | Unsubscribe(id: nat) | Broadcast(event: T) | Read(id: nat)

  /** All subscriptions, everything ever broadcast, and how much of it preceded each subscription. */
  datatype Hub<T> = Hub(subscriptions: map<nat, Subscription<T>>, log: seq<T>, since: map<nat, nat>)

  predicate HubOk<T(==)>(h: Hub<T>) {
    && h.since.Keys == h.subscriptions.Keys
    && forall id :: id in h.subscriptions ==> InStep(h.subscriptions[id], h.log, h.since[id])
  }

  predicate InStep<T(==)>(s: Subscription<T>, log: seq<T>, since: nat) {
    |s.queue| <= |s.arrived| && SubscriptionOk(s) && since <= |log| && s.arrived == log[since..]
  }

  /** Actions on unknown subscribers, and subscribing twice, change nothing. */
  function Do<T>(h: Hub<T>, a: Action<T>): Hub<T>
    requires HubOk(h)
  {
    match a
    case Subscribe(id) =>
      if id in h.subscriptions then h
      else h.(subscriptions := h.subscriptions[id := NewSubscription()], since := h.since[id := |h.log|])
    case Unsubscribe(id) => h.(subscriptions := h.subscriptions - {id}, since := h.since - {id})
    case Broadcast(e) =>
      h.(subscriptions := map id | id in h.subscriptions :: Offer(h.subscriptions[id], e), log := h.log + [e])
    case Read(id) =>
      if id in h.subscriptions then h.(subscriptions := h.subscriptions[id := Take(h.subscriptions[id])]) else h
  }

  lemma OfferInStep<T>(s: Subscription<T>, log: seq<T>, since: nat, e: T)
    requires InStep(s, log, since)
    ensures |s.queue| <= |s.arrived| && InStep(Offer(s, e), log + [e], since)
  {
    OfferOk(s, e);
  }

  lemma TakeInStep<T>(s: Subscription<T>, log: seq<T>, since: nat)
    requires InStep(s, log, since)
    ensures |s.queue| <= |s.arrived| && InStep(Take(s), log, since)
  {
    TakeOk(s);
  }

  lemma DoOk<T>(h: Hub<T>, a: Action<T>)
    requires HubOk(h)
    ensures HubOk(Do(h, a))
  {
    hide Offer, Take, SubscriptionOk;
    match a
    case Subscribe(id) =>
      NewInStep(h.log);
    case Unsubscribe(_) =>
    case Broadcast(e) =>
      forall id | id in h.subscriptions ensures InStep(Offer(h.subscriptions[id], e), h.log + [e], h.since[id]) {
        OfferInStep(h.subscriptions[id], h.log, h.since[id], e);
      }
    case Read(id) =>
      if id in h.subscriptions {
        TakeInStep(h.subscriptions[id], h.log, h.since[id]);
      }
  }

  lemma NewInStep<T>(log: seq<T>)
    ensures InStep(NewSubscription(), log, |log|)
  {
  }

  /** Whatever is subscribed, broadcast and read, and in whatever order, every subscriber's queue stays
      bounded and is a suffix of the events broadcast since it subscribed. */
  function Replay<T>(h: Hub<T>, actions: seq<Action<T>>): (r: Hub<T>)
    requires HubOk(h)
    ensures HubOk(r)
  {
    if actions == [] then h
    else
      var before := Replay(h, actions[..|actions| - 1]);
      DoOk(before, actions[|actions| - 1]);
      Do(before, actions[|actions| - 1])
  }

  /** The events broadcast since the subscriber came, if it is there. */
  function BroadcastSince<T>(actions: seq<Action<T>>, id: nat): Option<seq<T>> {
    if actions == [] then None
    else
      var before, last := BroadcastSince(actions[..|actions| - 1], id), actions[|actions| - 1];
      if before.None? then if last == Subscribe(id) then Some([]) else None
      else if last == Unsubscribe(id) then None
      else if last.Broadcast? then Some(before.value + [last.event])
      else before
  }

  /** What the subscriber is handed by one action: the first event of its queue, if it reads and there is one. */
  lemma ActionOnQueue<T>(h: Hub<T>, a: Action<T>, id: nat)
    requires HubOk(h)
    ensures var after := Do(h, a).subscriptions;
            if id !in h.subscriptions then
              if a == Subscribe(id) then id in after && after[id] == Subscription([], [], [], [], []) else id !in after
            else if a == Unsubscribe(id) then id !in after
            else
              && id in after
              && var s, t := h.subscriptions[id], after[id];
              if a.Broadcast? then
                t.queue == (if |s.queue| < 2048 then s.queue else s.queue[1..]) + [a.event] && t.output == s.output
              else if a == Read(id) && s.queue != [] then
                t.queue == s.queue[1..] && t.output == s.output + [s.queue[0]]
              else t == s
  {
  }

  /** What has arrived at a subscriber, after any actions, is what was broadcast since it came. */
  lemma {:induction false} ArrivedIsBroadcast<T>(actions: seq<Action<T>>, id: nat)
    ensures var h := Replay(Hub(map[], [], map[]), actions);
            if id in h.subscriptions then BroadcastSince(actions, id) == Some(h.subscriptions[id].arrived)
            else BroadcastSince(actions, id).None?
  {
    if actions != [] {
      var init := actions[..|actions| - 1];
      ArrivedIsBroadcast(init, id);
      var h := Replay(Hub(map[], [], map[]), init);
      hide HubOk, Offered;
      ArrivedStep(h, actions[|actions| - 1], id);
    }
  }

  lemma ArrivedStep<T>(h: Hub<T>, a: Action<T>, id: nat)
    requires HubOk(h)
    ensures var after := Do(h, a).subscriptions;
            if id !in h.subscriptions then
              if a == Subscribe(id) then id in after && after[id].arrived == [] else id !in after
            else if a == Unsubscribe(id) then id !in after
            else
              && id in after
              && after[id].arrived == if a.Broadcast? then h.subscriptions[id].arrived + [a.event]
                                      else h.subscriptions[id].arrived
  {
  }

  /** A subscriber from which nothing was dropped has been handed exactly the events broadcast since it
      subscribed, as soon as its queue is empty. */
  lemma NoLossMeansNoGap<T>(actions: seq<Action<T>>, id: nat)
    requires var h := Replay(Hub(map[], [], map[]), actions);
             id in h.subscriptions && h.subscriptions[id].dropped == [] && h.subscriptions[id].queue == []
    ensures var h := Replay(Hub(map[], [], map[]), actions);
            BroadcastSince(actions, id) == Some(h.subscriptions[id].output)
  {
    var h := Replay(Hub(map[], [], map[]), actions);
    ArrivedIsBroadcast(actions, id);
    DrainedWithoutLoss(h.subscriptions[id]);
  }

  // ---------------------------------------------------------------- objects

  class BoundedQueue<T> {
    var items: seq<T>

    constructor ()
      ensures items == []
    {
      items := [];
    }

    method PutNowait(e: T) returns (ok: bool)
      modifies this
      ensures ok <==> |old(items)| < EVENT_QUEUE_MAXSIZE
      ensures items == if ok then old(items) + [e] else old(items)
    {
      ok := |items| < EVENT_QUEUE_MAXSIZE;
      if ok {
        items := items + [e];
      }
    }

    method GetNowait() returns (e: Option<T>)
      modifies this
      ensures old(items) == [] ==> e.None? && items == []
      ensures old(items) != [] ==> e == Some(old(items)[0]) && items == old(items)[1..]
    {
      if items == [] {
        return None;
      }
      e := Some(items[0]);
      items := items[1..];
    }

    /** Dropping the oldest event when the queue is full. */
    method Offer(e: T)
      requires |items| <= EVENT_QUEUE_MAXSIZE
      modifies this
      ensures items == Offered(old(items), e) && |items| <= EVENT_QUEUE_MAXSIZE
    {
      var ok := PutNowait(e);
      if !ok {
        var _ := GetNowait();
        ok := PutNowait(e);
      }
    }
  }

  class EventHub<T> {
    var subscribers: set<BoundedQueue<T>>

    constructor ()
      ensures subscribers == {}
    {
      subscribers := {};
    }

    method Subscribe() returns (q: BoundedQueue<T>)
      modifies this
      ensures fresh(q) && q.items == [] && subscribers == old(subscribers) + {q}
    {
      q := new BoundedQueue<T>();
      subscribers := subscribers + {q};
    }

    method Unsubscribe(q: BoundedQueue<T>)
      modifies this
      ensures subscribers == old(subscribers) - {q}
    {
      subscribers := subscribers - {q};
    }

    method EnqueueStreamEvent(e: T)
      requires forall q :: q in subscribers ==> |q.items| <= EVENT_QUEUE_MAXSIZE
      modifies subscribers
      ensures forall q :: q in subscribers ==>
                q.items == Offered(old(q.items), e) && |q.items| <= EVENT_QUEUE_MAXSIZE
    {
      var todo := subscribers;
      while todo != {}
        invariant todo <= subscribers
        invariant forall q :: q in todo ==> q.items == old(q.items)
        invariant forall q :: q in subscribers - todo ==>
                    q.items == Offered(old(q.items), e) && |q.items| <= EVENT_QUEUE_MAXSIZE
        decreases todo
      {
        var q :| q in todo;
        q.Offer(e);
        todo := todo - {q};
      }
    }
  }
}
