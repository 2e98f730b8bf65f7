/** The output end of the pipeline: echo suppression, duplicate suppression, numbering and
    interrupt statuses (`_emit_chunk_now`, `_emit_interrupt_status`). */
module StreamOutput {
  import opened Text
  import opened StreamState

  datatype InterruptKind = Permission | Question
  datatype Phase = AskedPhase | ResolvedPhase
  datatype Resolution = Replied | Rejected

  datatype Interrupt = Interrupt(
    requestId: string,
    kind: InterruptKind,
    phase: Phase,
    details: string,
    resolution: Option<Resolution>)

  datatype OutEvent =
    | ArtifactUpdate(part: Part, append: bool, lastChunk: bool, blockType: BlockType, source: Source,
                     messageId: string, role: Option<string>, sequence: nat, eventId: string)
    | InterruptStatus(interrupt: Interrupt, messageId: string, sequence: nat, eventId: string)
    | FinalStatus(messageId: string, eventId: string)

  /** Output state, event queue and the two chunk counters of the diagnostics. */
  datatype Sink = Sink(output: Output, queue: seq<OutEvent>, emitted: nat, suppressed: nat)

  function InitialSink(output: Output): Sink {
    Sink(output, [], 0, 0)
  }

  predicate DroppedAsEcho(o: Output, c: Chunk) {
    c.part.TextPart? && IsInitialUserEcho(o, c.part.text, c.blockType, c.role)
  }

  function ChunkUpdate(o: Output, c: Chunk, append: bool): OutEvent {
    ArtifactUpdate(c.part, append, false, c.blockType, c.source, ResolveMessageId(o, c.messageId), c.role,
                   o.sequence + 1, EventId(o.namespace, o.sequence + 1))
  }

  /** `_emit_chunk_now` */
  function EmitNow(s: Sink, c: Chunk): Sink {
    if DroppedAsEcho(s.output, c) then s.(suppressed := s.suppressed + 1)
    else
      var r := Register(s.output, c.blockType, c.contentKey, c.append);
      if !r.shouldEmit then s.(suppressed := s.suppressed + 1)
      else Sink(r.output.(sequence := r.output.sequence + 1),
                s.queue + [ChunkUpdate(r.output, c, r.append)], s.emitted + 1, s.suppressed)
  }

  function EmitAll(s: Sink, cs: seq<Chunk>): Sink {
    if cs == [] then s else EmitNow(EmitAll(s, cs[..|cs| - 1]), cs[|cs| - 1])
  }

  /** The part of `_emit_interrupt_status` after the flush. */
  function EmitStatus(s: Sink, i: Interrupt): Sink {
    var n := s.output.sequence + 1;
    s.(output := s.output.(sequence := n),
       queue := s.queue + [InterruptStatus(i, s.output.stableMessageId, n, EventId(s.output.namespace, n))])
  }

  lemma {:induction false} EmitAllAppend(s: Sink, a: seq<Chunk>, b: seq<Chunk>)
    ensures EmitAll(s, a + b) == EmitAll(EmitAll(s, a), b)
  {
    if b == [] {
      assert a + b == a;
    } else {
      assert (a + b)[..|a + b| - 1] == a + b[..|b| - 1];
      EmitAllAppend(s, a, b[..|b| - 1]);
    }
  }

  // ------------------------------------------------------- what a sink keeps

  predicate BlockedRole(role: Option<string>) {
    role == Some("user") || role == Some("system")
  }

  /** What the chunk builders guarantee about every chunk they make. */
  predicate WellFormed(c: Chunk) {
    && (c.part.TextPart? ==> IsProse(c) && c.part.text != "" && c.contentKey == c.part.text && c.append)
    && (c.part.DataPart? ==> c.blockType == TOOL_CALL
                             && c.contentKey == if c.append then "\n" + c.part.data else c.part.data)
    && !BlockedRole(c.role)
  }

  predicate AllWellFormed(cs: seq<Chunk>) {
    forall i :: 0 <= i < |cs| ==> WellFormed(cs[i])
  }

  /** The text of type b that an event shows. */
  function ShownText(e: OutEvent, b: BlockType): string {
    if e.ArtifactUpdate? && e.blockType == b && e.part.TextPart? then e.part.text else ""
  }

  /** The concatenated text updates of type b in a queue. */
  function StreamedText(q: seq<OutEvent>, b: BlockType): string {
    if q == [] then "" else StreamedText(q[..|q| - 1], b) + ShownText(q[|q| - 1], b)
  }

  predicate HasArtifact(q: seq<OutEvent>) {
    exists i :: 0 <= i < |q| && q[i].ArtifactUpdate?
  }

  /** Sequence numbers are 1, 2, 3, ... in queue order, and event ids follow them. */
  predicate Numbered(q: seq<OutEvent>, namespace: string) {
    forall i :: 0 <= i < |q| ==>
      !q[i].FinalStatus? && q[i].sequence == i + 1 && q[i].eventId == EventId(namespace, i + 1)
  }

  /** The first update of the artifact replaces, every later one appends. */
  predicate AppendsAfterFirst(q: seq<OutEvent>) {
    forall i :: 0 <= i < |q| && q[i].ArtifactUpdate? ==> (q[i].append <==> HasArtifact(q[..i]))
  }

  predicate RolesShown(q: seq<OutEvent>) {
    forall i :: 0 <= i < |q| && q[i].ArtifactUpdate? ==> !BlockedRole(q[i].role) && !q[i].lastChunk
  }

  /** The statuses of one request, oldest first. */
  function PhasesOf(q: seq<OutEvent>, id: string): seq<Phase> {
    if q == [] then []
    else
      var last := q[|q| - 1];
      PhasesOf(q[..|q| - 1], id)
      + (if last.InterruptStatus? && last.interrupt.requestId == id then [last.interrupt.phase] else [])
  }

  predicate Alternating(ps: seq<Phase>) {
    forall i :: 0 <= i < |ps| ==> ps[i] == if i % 2 == 0 then AskedPhase else ResolvedPhase
  }

  function CountPhase(q: seq<OutEvent>, phase: Phase): nat {
    if q == [] then 0
    else
      var last := q[|q| - 1];
      CountPhase(q[..|q| - 1], phase) + (if last.InterruptStatus? && last.interrupt.phase == phase then 1 else 0)
  }

  predicate Balanced(q: seq<OutEvent>, pending: set<string>, id: string) {
    Alternating(PhasesOf(q, id)) && (id in pending <==> |PhasesOf(q, id)| % 2 == 1)
  }

  /** Per request the statuses are asked, resolved, asked, ...; a request is pending exactly when its
      last status is asked; and the pending set is as large as asked outnumber resolved. */
  ghost predicate InterruptsBalanced(q: seq<OutEvent>, pending: set<string>) {
    && (forall id :: Balanced(q, pending, id))
    && CountPhase(q, AskedPhase) == CountPhase(q, ResolvedPhase) + |pending|
  }

  /** The buffers hold the text and the reasoning shown. */
  predicate Mirrored(o: Output, q: seq<OutEvent>) {
    Content(o, TEXT) == StreamedText(q, TEXT) && Content(o, REASONING) == StreamedText(q, REASONING)
  }

  ghost predicate SinkOk(s: Sink) {
    && Numbered(s.queue, s.output.namespace)
    && s.output.sequence == |s.queue|
    && AppendsAfterFirst(s.queue)
    && (s.output.emittedStreamChunk <==> HasArtifact(s.queue))
    && s.output.sawAnyChunk == s.output.emittedStreamChunk
    && Mirrored(s.output, s.queue)
    && RolesShown(s.queue)
    && InterruptsBalanced(s.queue, s.output.pendingInterrupts)
  }

  lemma QueueSnoc(q: seq<OutEvent>, e: OutEvent)
    ensures forall b :: StreamedText(q + [e], b) == StreamedText(q, b) + ShownText(e, b)
    ensures HasArtifact(q + [e]) <==> HasArtifact(q) || e.ArtifactUpdate?
    ensures AppendsAfterFirst(q + [e]) <==>
            AppendsAfterFirst(q) && (e.ArtifactUpdate? ==> (e.append <==> HasArtifact(q)))
    ensures forall id :: PhasesOf(q + [e], id)
                         == PhasesOf(q, id) + if e.InterruptStatus? && e.interrupt.requestId == id
                                              then [e.interrupt.phase] else []
    ensures forall p :: CountPhase(q + [e], p)
                        == CountPhase(q, p) + if e.InterruptStatus? && e.interrupt.phase == p then 1 else 0
  {
    ArtifactSnoc(q, e);
    hide HasArtifact, AppendsAfterFirst;
    var r := q + [e];
    assert r[..|r| - 1] == q && r[|r| - 1] == e;
  }

  lemma ArtifactSnoc(q: seq<OutEvent>, e: OutEvent)
    ensures HasArtifact(q + [e]) <==> HasArtifact(q) || e.ArtifactUpdate?
    ensures AppendsAfterFirst(q + [e]) <==>
            AppendsAfterFirst(q) && (e.ArtifactUpdate? ==> (e.append <==> HasArtifact(q)))
  {
    var r := q + [e];
    assert HasArtifact(r) <==> HasArtifact(q) || e.ArtifactUpdate? by {
      if HasArtifact(q) {
        var i :| 0 <= i < |q| && q[i].ArtifactUpdate?;
        assert r[i].ArtifactUpdate?;
      }
      if e.ArtifactUpdate? {
        assert r[|q|].ArtifactUpdate?;
      }
    }
    hide HasArtifact;
    assert r[..|q|] == q;
    assert forall i :: 0 <= i < |q| ==> r[i] == q[i] && r[..i] == q[..i];
  }

  /** t is s after one artifact update e has been queued. */
  predicate Appends(s: Sink, t: Sink, e: OutEvent) {
    && t.queue == s.queue + [e]
    && e.ArtifactUpdate?
    && t.output.namespace == s.output.namespace
    && t.output.sequence == s.output.sequence + 1 == e.sequence
    && e.eventId == EventId(s.output.namespace, e.sequence)
    && (e.append <==> s.output.emittedStreamChunk)
    && t.output.emittedStreamChunk && t.output.sawAnyChunk
    && !BlockedRole(e.role) && !e.lastChunk
    && Content(t.output, TEXT) == Content(s.output, TEXT) + ShownText(e, TEXT)
    && Content(t.output, REASONING) == Content(s.output, REASONING) + ShownText(e, REASONING)
    && t.output.pendingInterrupts == s.output.pendingInterrupts
  }

  lemma EmitNowShape(s: Sink, c: Chunk)
    requires WellFormed(c)
    ensures var t := EmitNow(s, c);
            || (t.output == s.output && t.queue == s.queue && t.emitted == s.emitted && t.suppressed == s.suppressed + 1)
            || (Appends(s, t, t.queue[|t.queue| - 1]) && t.emitted == s.emitted + 1 && t.suppressed == s.suppressed)
  {
  }

  /** What an update shows of its chunk: everything, with the message id stripped, or the request's stable
      id in place of a blank one. */
  lemma UpdateShowsChunk(s: Sink, c: Chunk)
    requires WellFormed(c) && EmitNow(s, c).queue != s.queue
    ensures var e := EmitNow(s, c).queue[|EmitNow(s, c).queue| - 1];
            && e.ArtifactUpdate? && e.part == c.part && e.blockType == c.blockType && e.source == c.source
            && e.role == c.role
            && e.messageId == (if c.messageId.None? || Strip(c.messageId.value) == "" then s.output.stableMessageId
                               else Strip(c.messageId.value))
  {
  }

  lemma AppendsKeeps(s: Sink, t: Sink, e: OutEvent)
    requires SinkOk(s) && Appends(s, t, e)
    ensures SinkOk(t)
  {
    QueueSnoc(s.queue, e);
    forall id ensures Balanced(t.queue, s.output.pendingInterrupts, id) {
      assert Balanced(s.queue, s.output.pendingInterrupts, id);
      assert PhasesOf(t.queue, id) == PhasesOf(s.queue, id);
    }
  }

  lemma EmitNowKeeps(s: Sink, c: Chunk)
    requires SinkOk(s) && WellFormed(c)
    ensures SinkOk(EmitNow(s, c))
    ensures EmitNow(s, c).emitted + EmitNow(s, c).suppressed == s.emitted + s.suppressed + 1
  {
    EmitNowShape(s, c);
    var t := EmitNow(s, c);
    if t.queue != s.queue {
      AppendsKeeps(s, t, t.queue[|t.queue| - 1]);
    }
  }

  lemma {:induction false} EmitAllKeeps(s: Sink, cs: seq<Chunk>)
    requires SinkOk(s) && AllWellFormed(cs)
    ensures SinkOk(EmitAll(s, cs))
    ensures EmitAll(s, cs).emitted + EmitAll(s, cs).suppressed == s.emitted + s.suppressed + |cs|
  {
    if cs != [] {
      EmitAllKeeps(s, cs[..|cs| - 1]);
      EmitNowKeeps(EmitAll(s, cs[..|cs| - 1]), cs[|cs| - 1]);
    }
  }

  // ---------------------------------------------------------- echo and text

  /** An echoed prompt can only be dropped before anything has been shown: after that all text is. */
  lemma {:induction false} EchoOnlyBeforeFirstUpdate(s: Sink, cs: seq<Chunk>, i: nat)
    requires SinkOk(s) && AllWellFormed(cs) && HasArtifact(s.queue) && i < |cs| && cs[i].part.TextPart?
    ensures |EmitAll(s, cs[..i + 1]).queue| == |EmitAll(s, cs[..i]).queue| + 1
  {
    assert cs[..i + 1][..i] == cs[..i];
    EmitAllKeeps(s, cs[..i]);
    EmitAllExtends(s, cs[..i]);
    var k :| 0 <= k < |s.queue| && s.queue[k].ArtifactUpdate?;
    assert EmitAll(s, cs[..i]).queue[k].ArtifactUpdate?;
  }

  lemma {:induction false} EmitAllExtends(s: Sink, cs: seq<Chunk>)
    ensures s.queue <= EmitAll(s, cs).queue
  {
    if cs != [] {
      EmitAllExtends(s, cs[..|cs| - 1]);
    }
  }

  /** A well-formed prose chunk is suppressed if and only if it is the prompt echoed by nobody in particular,
      before anything has been shown. */
  lemma SuppressedExactly(s: Sink, c: Chunk)
    requires SinkOk(s) && WellFormed(c) && c.part.TextPart?
    ensures EmitNow(s, c).queue == s.queue <==>
            && c.role.None? && c.blockType == TEXT && !HasArtifact(s.queue)
            && Strip(s.output.userText) != "" && Strip(c.part.text) == Strip(s.output.userText)
    ensures EmitNow(s, c).queue == s.queue || |EmitNow(s, c).queue| == |s.queue| + 1
  {
    hide Strip, InterruptsBalanced, Numbered, AppendsAfterFirst, RolesShown, StreamedText;
  }

  /** The text of type b carried by a list of chunks. */
  function ChunkText(c: Chunk, b: BlockType): string {
    if c.blockType == b && c.part.TextPart? then c.part.text else ""
  }

  function TextOf(cs: seq<Chunk>, b: BlockType): string {
    if cs == [] then "" else TextOf(cs[..|cs| - 1], b) + ChunkText(cs[|cs| - 1], b)
  }

  /** Reasoning, and text with a known role, cannot be taken for an echo. */
  predicate Attributed(cs: seq<Chunk>, b: BlockType) {
    forall i :: 0 <= i < |cs| ==> NoEcho(cs[i], b)
  }

  predicate NoEcho(c: Chunk, b: BlockType) {
    b == REASONING || c.role.Some?
  }

  lemma AttributedChunkIsStreamed(s: Sink, c: Chunk, b: BlockType)
    requires WellFormed(c) && NoEcho(c, b)
    ensures StreamedText(EmitNow(s, c).queue, b) == StreamedText(s.queue, b) + ChunkText(c, b)
  {
    var t := EmitNow(s, c);
    if t.queue != s.queue {
      QueueSnoc(s.queue, t.queue[|t.queue| - 1]);
    } else {
      assert ChunkText(c, b) == "";
    }
  }

  /** Reasoning, and text with a known role, is always shown. */
  lemma {:induction false} AttributedTextIsStreamed(s: Sink, cs: seq<Chunk>, b: BlockType)
    requires AllWellFormed(cs) && Attributed(cs, b)
    ensures StreamedText(EmitAll(s, cs).queue, b) == StreamedText(s.queue, b) + TextOf(cs, b)
  {
    if cs != [] {
      var earlier, last := cs[..|cs| - 1], cs[|cs| - 1];
      AttributedTextIsStreamed(s, earlier, b);
      AttributedChunkIsStreamed(EmitAll(s, earlier), last, b);
      Associate(StreamedText(s.queue, b), TextOf(earlier, b), ChunkText(last, b));
    }
  }

  // -------------------------------------------------------------- tool calls

  /** A tool chunk is shown unless it opens its part by repeating the whole tool buffer. */
  lemma ToolChunkShown(s: Sink, c: Chunk)
    requires WellFormed(c) && c.part.DataPart?
    ensures var t := EmitNow(s, c);
            if !c.append && c.part.data == Content(s.output, TOOL_CALL)
            then t == s.(suppressed := s.suppressed + 1)
            else && Appends(s, t, t.queue[|t.queue| - 1])
                 && t.queue[|t.queue| - 1].part == c.part
                 && t.queue[|t.queue| - 1].blockType == TOOL_CALL
                 && Content(t.output, TOOL_CALL) == if c.append then Content(s.output, TOOL_CALL) + "\n" + c.part.data
                                                    else c.part.data
  {
    var key := c.contentKey;
    assert c.append ==> Content(s.output, TOOL_CALL) + key != Content(s.output, TOOL_CALL) by {
      assert |key| > 0;
    }
  }

  // -------------------------------------------------------------- interrupts

  predicate Accepted(o: Output, i: Interrupt) {
    && Strip(i.requestId) != ""
    && (i.phase.AskedPhase? <==> Strip(i.requestId) !in o.pendingInterrupts)
  }

  function WithPending(s: Sink, pending: set<string>): Sink {
    s.(output := s.output.(pendingInterrupts := pending))
  }

  function NextPending(o: Output, i: Interrupt): set<string> {
    if i.phase.AskedPhase? then o.pendingInterrupts + {Strip(i.requestId)}
    else o.pendingInterrupts - {Strip(i.requestId)}
  }

  /** Mark or clear the request, then flush the given chunks, then queue the status. */
  function Announce(s: Sink, flushed: seq<Chunk>, i: Interrupt): Sink {
    if Accepted(s.output, i) then
      EmitStatus(EmitAll(WithPending(s, NextPending(s.output, i)), flushed), i)
    else s
  }

  lemma EmitNowIgnoresPending(s: Sink, pending: set<string>, c: Chunk)
    ensures EmitNow(WithPending(s, pending), c) == WithPending(EmitNow(s, c), pending)
    ensures EmitNow(s, c).output.pendingInterrupts == s.output.pendingInterrupts
  {
    var o, o' := s.output, s.output.(pendingInterrupts := pending);
    assert DroppedAsEcho(o, c) == DroppedAsEcho(o', c);
    assert Register(o', c.blockType, c.contentKey, c.append).output
           == Register(o, c.blockType, c.contentKey, c.append).output.(pendingInterrupts := pending);
  }

  lemma {:induction false} EmitAllIgnoresPending(s: Sink, pending: set<string>, cs: seq<Chunk>)
    ensures EmitAll(WithPending(s, pending), cs) == WithPending(EmitAll(s, cs), pending)
    ensures EmitAll(s, cs).output.pendingInterrupts == s.output.pendingInterrupts
  {
    if cs != [] {
      EmitAllIgnoresPending(s, pending, cs[..|cs| - 1]);
      EmitNowIgnoresPending(EmitAll(s, cs[..|cs| - 1]), pending, cs[|cs| - 1]);
    }
  }

  lemma AlternatingSnoc(ps: seq<Phase>, phase: Phase)
    requires Alternating(ps)
    requires phase.AskedPhase? <==> |ps| % 2 == 0
    ensures Alternating(ps + [phase])
    ensures |ps + [phase]| % 2 == 1 <==> phase.AskedPhase?
  {
  }

  lemma StatusBalances(q: seq<OutEvent>, pending: set<string>, e: OutEvent)
    requires InterruptsBalanced(q, pending) && e.InterruptStatus?
    requires e.interrupt.phase.AskedPhase? <==> e.interrupt.requestId !in pending
    ensures InterruptsBalanced(q + [e], if e.interrupt.phase.AskedPhase? then pending + {e.interrupt.requestId}
                                        else pending - {e.interrupt.requestId})
  {
    var id := e.interrupt.requestId;
    var after := if e.interrupt.phase.AskedPhase? then pending + {id} else pending - {id};
    QueueSnoc(q, e);
    forall x ensures Balanced(q + [e], after, x) {
      assert Balanced(q, pending, x);
      if x == id {
        AlternatingSnoc(PhasesOf(q, x), e.interrupt.phase);
      } else {
        assert PhasesOf(q + [e], x) == PhasesOf(q, x);
      }
    }
  }

  lemma StatusKeeps(u: Sink, i: Interrupt)
    requires SinkOk(u) && Trimmed(i.requestId) && Accepted(u.output, i)
    ensures SinkOk(EmitStatus(WithPending(u, NextPending(u.output, i)), i))
  {
    var t := EmitStatus(WithPending(u, NextPending(u.output, i)), i);
    var e := t.queue[|u.queue|];
    QueueSnoc(u.queue, e);
    StatusBalances(u.queue, u.output.pendingInterrupts, e);
  }

  lemma AnnounceKeeps(s: Sink, flushed: seq<Chunk>, i: Interrupt)
    requires SinkOk(s) && AllWellFormed(flushed) && Trimmed(i.requestId)
    ensures SinkOk(Announce(s, flushed, i))
    ensures Accepted(s.output, i) ==>
              && EmitAll(s, flushed).queue <= Announce(s, flushed, i).queue
              && Announce(s, flushed, i).queue[|EmitAll(s, flushed).queue|..]
                 == [InterruptStatus(i, s.output.stableMessageId, Announce(s, flushed, i).output.sequence,
                                     EventId(s.output.namespace, Announce(s, flushed, i).output.sequence))]
  {
    if Accepted(s.output, i) {
      var pending := NextPending(s.output, i);
      var u := EmitAll(s, flushed);
      EmitAllKeeps(s, flushed);
      EmitAllIgnoresPending(s, pending, flushed);
      EmitAllConstants(s, flushed);
      StatusKeeps(u, i);
    }
  }

  lemma {:induction false} EmitAllConstants(s: Sink, cs: seq<Chunk>)
    ensures var o := EmitAll(s, cs).output;
            && o.namespace == s.output.namespace
            && o.stableMessageId == s.output.stableMessageId
            && o.userText == s.output.userText
  {
    if cs != [] {
      EmitAllConstants(s, cs[..|cs| - 1]);
    }
  }
}
