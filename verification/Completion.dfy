/** Closing a streaming request: the decision whether the answer still has to be sent as a
    final snapshot (`emit_streaming_completion`). */
module Completion {
  import opened Text
  import opened StreamState
  import opened StreamOutput
  import opened StreamRun

  class EventQueue {
    var events: seq<OutEvent>

    constructor ()
      ensures events == []
    {
      events := [];
    }

    method Enqueue(e: OutEvent)
      modifies this
      ensures events == old(events) + [e]
    {
      events := events + [e];
    }
  }

  function SnapshotUpdate(o: Output, response: string, messageId: string): OutEvent {
    ArtifactUpdate(TextPart(response), o.emittedStreamChunk, true, TEXT, FinalSnapshot, messageId, None,
                   o.sequence + 1, EventId(o.namespace, o.sequence + 1))
  }

  /** Output state and queue after completion. */
  function Complete(s: Sink, response: string, messageId: string): Sink {
    var r := RegisterFinal(s.output, response);
    var status := FinalStatus(messageId, StatusEventId(s.output.namespace));
    if r.shouldEmit then
      s.(output := r.output.(sequence := r.output.sequence + 1),
         queue := s.queue + [SnapshotUpdate(r.output, response, messageId)] + [status])
    else s.(queue := s.queue + [status])
  }

  method EmitStreamingCompletion(queue: EventQueue, state: StreamOutputState, response: string, messageId: string)
    modifies queue, state
    ensures var before := Sink(old(state.Value()), old(queue.events), 0, 0);
            Sink(state.Value(), queue.events, 0, 0) == Complete(before, response, messageId)
  {
    var emit := state.ShouldEmitFinalSnapshot(response);
    if emit {
      var sequence := state.NextSequence();
      queue.Enqueue(ArtifactUpdate(TextPart(response), state.emittedStreamChunk, true, TEXT, FinalSnapshot, messageId,
                                   None, sequence, EventId(state.namespace, sequence)));
    }
    queue.Enqueue(FinalStatus(messageId, StatusEventId(state.namespace)));
  }

  /** Sequence-bearing events are numbered in order, event ids never repeat, the first artifact update
      replaces and the others append, and one final status closes the queue. */
  ghost predicate ClosedQueue(q: seq<OutEvent>, namespace: string) {
    && q != []
    && q[|q| - 1].FinalStatus?
    && (forall i :: 0 <= i < |q| - 1 ==> !q[i].FinalStatus? && q[i].sequence == i + 1)
    && (forall i, j :: 0 <= i < j < |q| ==> q[i].eventId != q[j].eventId)
    && AppendsAfterFirst(q)
  }

  lemma IdsDistinct(q: seq<OutEvent>, namespace: string)
    requires q != [] && Numbered(q[..|q| - 1], namespace) && q[|q| - 1].eventId == StatusEventId(namespace)
    ensures forall i, j :: 0 <= i < j < |q| ==> q[i].eventId != q[j].eventId
  {
    forall i, j | 0 <= i < j < |q| ensures q[i].eventId != q[j].eventId {
      assert q[..|q| - 1][i] == q[i];
      if j < |q| - 1 {
        assert q[..|q| - 1][j] == q[j];
      }
      EventIdInjective(namespace, i + 1, j + 1);
    }
  }

  /** A numbered queue closed by a final status. */
  lemma StatusCloses(body: seq<OutEvent>, namespace: string, messageId: string)
    requires Numbered(body, namespace) && AppendsAfterFirst(body)
    ensures ClosedQueue(body + [FinalStatus(messageId, StatusEventId(namespace))], namespace)
  {
    var status := FinalStatus(messageId, StatusEventId(namespace));
    var q := body + [status];
    QueueSnoc(body, status);
    assert q[..|q| - 1] == body;
    IdsDistinct(q, namespace);
  }

  lemma FinalKeepsNumbers(o: Output, response: string)
    ensures var r := RegisterFinal(o, response).output;
            r.sequence == o.sequence && r.namespace == o.namespace && r.emittedStreamChunk == o.emittedStreamChunk
  {
  }

  lemma CompletionClosesQueue(s: Sink, response: string, messageId: string)
    requires SinkOk(s)
    ensures ClosedQueue(Complete(s, response, messageId).queue, s.output.namespace)
  {
    hide ClosedQueue, HasArtifact, RegisterFinal, EventId, StreamedText, InterruptsBalanced, RolesShown;
    FinalKeepsNumbers(s.output, response);
    var r := RegisterFinal(s.output, response);
    var snapshot := SnapshotUpdate(r.output, response, messageId);
    if r.shouldEmit {
      QueueSnoc(s.queue, snapshot);
      StatusCloses(s.queue + [snapshot], s.output.namespace, messageId);
    } else {
      StatusCloses(s.queue, s.output.namespace, messageId);
    }
  }

  /** The answer is the last artifact update, whole, and the only one marked as the last chunk. It replaces what is
      there only if nothing is, and the final status of the same message follows it. */
  predicate SnapshotSent(q: seq<OutEvent>, namespace: string, response: string, messageId: string) {
    && |q| >= 2
    && var n := |q| - 1;
    && q[n - 1].ArtifactUpdate? && q[n - 1].part == TextPart(response) && q[n - 1].blockType == TEXT
    && q[n - 1].source == FinalSnapshot && q[n - 1].role.None? && q[n - 1].messageId == messageId
    && q[n - 1].lastChunk && (q[n - 1].append <==> exists i :: 0 <= i < n - 1 && q[i].ArtifactUpdate?)
    && q[n - 1].sequence == n && q[n - 1].eventId == namespace + ":" + Decimal(n)
    && q[n] == FinalStatus(messageId, namespace + ":" + "status")
    && forall i :: 0 <= i < n - 1 && q[i].ArtifactUpdate? ==> !q[i].lastChunk
  }

  /** A non-blank answer has either been streamed already, up to surrounding white space, or is sent
      as a snapshot, but never both. */
  lemma CompletionShowsAnswer(s: Sink, response: string, messageId: string)
    requires SinkOk(s)
    ensures var t := Complete(s, response, messageId);
            if Strip(response) == "" || Strip(StreamedText(s.queue, TEXT)) == Strip(response)
            then t.queue == s.queue + [FinalStatus(messageId, s.output.namespace + ":" + "status")]
            else
              && SnapshotSent(t.queue, s.output.namespace, response, messageId) && t.queue[..|t.queue| - 2] == s.queue
              && Content(t.output, TEXT) == response && t.output.sawAnyChunk && t.output.sequence == |s.queue| + 1
  {
    hide Strip, Decimal, Numbered, AppendsAfterFirst, StreamedText, InterruptsBalanced;
    var t := Complete(s, response, messageId);
    assert forall i :: 0 <= i < |s.queue| ==> t.queue[i] == s.queue[i];
  }

  /** The same over whole runs: any events, any clock readings, any flush points. */
  lemma AnswerIsShownOnce(userText: string, stableId: string, namespace: string, session: string,
                          inputs: seq<Input>, response: string, messageId: string)
    ensures var st := Flush(Run(InitialState(InitialOutput(userText, stableId, namespace)), session, inputs));
            var q := Complete(st.sink, response, messageId).queue;
            && ClosedQueue(q, namespace)
            && (if Strip(response) == "" || Strip(StreamedText(st.sink.queue, TEXT)) == Strip(response)
                then forall i :: 0 <= i < |q| && q[i].ArtifactUpdate? ==> !q[i].lastChunk
                else SnapshotSent(q, namespace, response, messageId))
  {
    var st0 := InitialState(InitialOutput(userText, stableId, namespace));
    var end := inputs + [FlushPoint];
    assert end[..|end| - 1] == inputs;
    InitialOk(userText, stableId, namespace);
    RunOk(st0, session, end);
    RunConstants(st0, session, end);
    CompletionShowsAnswer(Run(st0, session, end).sink, response, messageId);
    CompletionClosesQueue(Run(st0, session, end).sink, response, messageId);
  }
}
