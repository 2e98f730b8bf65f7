/** What the caller reads: over whole runs, the text updates of the queue against the text generated from the
    events. */
module Transcript {
  import opened Text
  import opened StreamState
  import opened Coalescing
  import opened StreamOutput
  import opened StreamChunks
  import opened PartHistory
  import opened StreamRun

  lemma {:induction false} TextOfAppend(a: seq<Chunk>, b: seq<Chunk>, t: BlockType)
    ensures TextOf(a + b, t) == TextOf(a, t) + TextOf(b, t)
  {
    if b == [] {
      assert a + b == a;
    } else {
      assert (a + b)[..|a + b| - 1] == a + b[..|b| - 1];
      TextOfAppend(a, b[..|b| - 1], t);
      Associate(TextOf(a, t), TextOf(b[..|b| - 1], t), ChunkText(b[|b| - 1], t));
    }
  }

  lemma TextOfOne(c: Chunk, t: BlockType)
    ensures TextOf([c], t) == ChunkText(c, t)
  {
    assert [c][..0] == [];
  }

  lemma NoText(first: string, t: BlockType)
    ensures first + TextOf([], t) == first
  {
  }

  predicate BufferAttributed(buffer: Option<Buffered>, t: BlockType) {
    buffer.Some? ==> NoEcho(ToChunk(buffer.value), t)
  }

  lemma CoalesceOneText(buffer: Option<Buffered>, c: Chunk, now: real, t: BlockType)
    ensures var r := CoalesceOne(buffer, c, now);
            TextOf(r.forwarded + Flushed(r.buffer), t) == TextOf(Flushed(buffer), t) + ChunkText(c, t)
  {
    hide TextOf, ShouldFlush;
    var r := CoalesceOne(buffer, c, now);
    if IsProse(c) && buffer.Some? && CanMerge(buffer.value, c) {
      var b := AppendChunk(buffer.value, c);
      assert r.forwarded + Flushed(r.buffer) == [ToChunk(b)];
      TextOfOne(ToChunk(b), t);
      TextOfOne(ToChunk(buffer.value), t);
    } else {
      var d := if IsProse(c) then ToChunk(FromChunk(c, now)) else c;
      assert r.forwarded + Flushed(r.buffer) == Flushed(buffer) + [d];
      TextOfAppend(Flushed(buffer), [d], t);
      TextOfOne(d, t);
    }
  }

  lemma CoalesceOneAttributed(buffer: Option<Buffered>, c: Chunk, now: real, t: BlockType)
    requires BufferAttributed(buffer, t) && NoEcho(c, t)
    ensures var r := CoalesceOne(buffer, c, now);
            BufferAttributed(r.buffer, t) && Attributed(r.forwarded, t)
  {
    hide ShouldFlush;
  }

  lemma TextCompose(f: seq<Chunk>, m: seq<Chunk>, g: seq<Chunk>, d: seq<Chunk>, x: string, y: string, t: BlockType)
    requires TextOf(f + m, t) == x && TextOf(g + d, t) == TextOf(m, t) + y
    ensures TextOf((f + g) + d, t) == x + y
  {
    Associate(f, g, d);
    TextOfAppend(f, g + d, t);
    TextOfAppend(f, m, t);
    Associate(TextOf(f, t), TextOf(m, t), y);
  }

  lemma TextOfTake(first: string, cs: seq<Chunk>, n: nat, t: BlockType)
    requires 0 < n <= |cs|
    ensures first + TextOf(cs[..n - 1], t) + ChunkText(cs[n - 1], t) == first + TextOf(cs[..n], t)
  {
    assert cs[..n][..n - 1] == cs[..n - 1];
    Associate(first, TextOf(cs[..n - 1], t), ChunkText(cs[n - 1], t));
  }

  lemma {:induction false} CoalesceText(buffer: Option<Buffered>, cs: seq<Chunk>, clock: Clock, n: nat, t: BlockType)
    requires n <= |cs|
    ensures var r := Coalesce(buffer, cs, clock, n);
            TextOf(r.forwarded + Flushed(r.buffer), t) == TextOf(Flushed(buffer), t) + TextOf(cs[..n], t)
  {
    hide CoalesceOne, Flushed, TextOf, ChunkText;
    if n == 0 {
      assert [] + Flushed(buffer) == Flushed(buffer);
      assert cs[..n] == [];
      NoText(TextOf(Flushed(buffer), t), t);
    } else {
      CoalesceText(buffer, cs, clock, n - 1, t);
      var before := Coalesce(buffer, cs, clock, n - 1);
      var one := CoalesceOne(before.buffer, cs[n - 1], clock(n - 1));
      CoalesceOneText(before.buffer, cs[n - 1], clock(n - 1), t);
      TextCompose(before.forwarded, Flushed(before.buffer), one.forwarded, Flushed(one.buffer),
                  TextOf(Flushed(buffer), t) + TextOf(cs[..n - 1], t), ChunkText(cs[n - 1], t), t);
      TextOfTake(TextOf(Flushed(buffer), t), cs, n, t);
    }
  }

  lemma {:induction false} CoalesceAttributed(buffer: Option<Buffered>, cs: seq<Chunk>, clock: Clock, n: nat,
                                              t: BlockType)
    requires n <= |cs| && BufferAttributed(buffer, t) && Attributed(cs, t)
    ensures var r := Coalesce(buffer, cs, clock, n);
            BufferAttributed(r.buffer, t) && Attributed(r.forwarded, t)
  {
    hide CoalesceOne, NoEcho, BufferAttributed;
    if n > 0 {
      CoalesceAttributed(buffer, cs, clock, n - 1, t);
      CoalesceOneAttributed(Coalesce(buffer, cs, clock, n - 1).buffer, cs[n - 1], clock(n - 1), t);
    }
  }

  // ------------------------------------------------------------- whole runs

  /** What has been shown of one type of text, with what still waits in the buffer. */
  function Visible(st: State, t: BlockType): string {
    StreamedText(st.sink.queue, t) + TextOf(Flushed(st.buffer), t)
  }

  lemma EmitChunksText(st: State, cs: seq<Chunk>, clock: Clock, t: BlockType)
    requires StateOk(st) && BufferAttributed(st.buffer, t) && AllWellFormed(cs) && Attributed(cs, t)
    ensures Visible(EmitChunks(st, cs, clock), t) == Visible(st, t) + TextOf(cs, t)
    ensures BufferAttributed(EmitChunks(st, cs, clock).buffer, t)
  {
    hide Coalesce, StreamedText, EmitAll, SinkOk, PartsOk, WellFormed, ChunkText, NoEcho, BufferAttributed;
    var r := Coalesce(st.buffer, cs, clock, |cs|);
    CoalesceText(st.buffer, cs, clock, |cs|, t);
    CoalesceAttributed(st.buffer, cs, clock, |cs|, t);
    assert cs[..|cs|] == cs;
    CoalesceOk(st.buffer, cs, clock, |cs|);
    AttributedTextIsStreamed(st.sink, r.forwarded, t);
    TextOfAppend(r.forwarded, Flushed(r.buffer), t);
    Associate(StreamedText(st.sink.queue, t), TextOf(r.forwarded, t), TextOf(Flushed(r.buffer), t));
    Associate(StreamedText(st.sink.queue, t), TextOf(Flushed(st.buffer), t), TextOf(cs, t));
  }

  lemma FlushText(st: State, t: BlockType)
    requires StateOk(st) && BufferAttributed(st.buffer, t)
    ensures StreamedText(EmitAll(st.sink, Flushed(st.buffer)).queue, t) == Visible(st, t) == Visible(Flush(st), t)
  {
    AttributedTextIsStreamed(st.sink, Flushed(st.buffer), t);
    assert TextOf([], t) == "";
  }

  lemma InterruptText(st: State, i: Interrupt, t: BlockType)
    requires StateOk(st) && BufferAttributed(st.buffer, t) && Trimmed(i.requestId)
    ensures Visible(HandleInterrupt(st, i), t) == Visible(st, t)
    ensures BufferAttributed(HandleInterrupt(st, i).buffer, t)
  {
    hide SinkOk, EmitAll, Announce, BufferOk, PartsOk;
    if Accepted(st.sink.output, i) {
      FlushText(st, t);
      WaitingIsWellFormed(st.buffer);
      AnnounceKeeps(st.sink, Flushed(st.buffer), i);
      var q := EmitAll(st.sink, Flushed(st.buffer)).queue;
      var u := Announce(st.sink, Flushed(st.buffer), i);
      assert u.queue == q + [u.queue[|q|]];
      QueueSnoc(q, u.queue[|q|]);
      NoText(StreamedText(u.queue, t), t);
    }
  }

  /** The chunks generated for one input. */
  function GeneratedBy(st: State, session: string, input: Input): seq<Chunk> {
    if input.Deliver? then Generate(st.parts, session, input.event).chunks else []
  }

  lemma InterruptGeneratesNothing(g: Parts, session: string, e: Event)
    requires InterruptOf(e.body).Some?
    ensures Generate(g, session, e) == Generated(g, [])
  {
    hide StreamSession, PartIdOf;
  }

  lemma InputText(st: State, session: string, input: Input, t: BlockType)
    requires StateOk(st) && BufferAttributed(st.buffer, t) && Attributed(GeneratedBy(st, session, input), t)
    ensures Visible(Apply(st, session, input), t) == Visible(st, t) + TextOf(GeneratedBy(st, session, input), t)
    ensures BufferAttributed(Apply(st, session, input).buffer, t)
  {
    hide Visible, EmitChunks, EmitAll, SinkOk, Generate, Announce, StreamSession, NoEcho, EventSession, Strip, PartsOk,
         BufferOk;
    NoText(Visible(st, t), t);
    match input
    case FlushPoint =>
      FlushText(st, t);
    case Deliver(e, clock) =>
      var i := InterruptOf(e.body);
      if i.Some? {
        InterruptGeneratesNothing(st.parts, session, e);
        InterruptNamed(e.body);
        InterruptText(st, i.value, t);
      } else {
        GenerateOk(st.parts, session, e);
        var r := Generate(st.parts, session, e);
        PartsDoNotShow(st, r.parts, t);
        EmitChunksText(st.(parts := r.parts), r.chunks, clock, t);
      }
  }

  lemma PartsDoNotShow(st: State, parts: Parts, t: BlockType)
    ensures Visible(st.(parts := parts), t) == Visible(st, t)
  {
  }

  lemma AttributedSplit(a: seq<Chunk>, b: seq<Chunk>, t: BlockType)
    requires Attributed(a + b, t)
    ensures Attributed(a, t) && Attributed(b, t)
  {
    hide NoEcho;
    assert forall i :: 0 <= i < |a| ==> a[i] == (a + b)[i];
    assert forall i :: 0 <= i < |b| ==> b[i] == (a + b)[|a| + i];
  }

  lemma InterruptNamed(b: Body)
    ensures InterruptOf(b).Some? ==> Trimmed(InterruptOf(b).value.requestId)
  {
  }

  /** Over whole runs, whatever the clock and the flush points: the text of one type that has been shown or waits
      in the buffer is the text of that type generated from the events. It holds of all reasoning, and of text as
      far as its role is known. */
  lemma {:induction false} RunShowsText(st: State, session: string, inputs: seq<Input>, t: BlockType)
    requires StateOk(st) && BufferAttributed(st.buffer, t)
    requires Attributed(GenerateAll(st.parts, session, EventsIn(inputs)).chunks, t)
    ensures var cs := GenerateAll(st.parts, session, EventsIn(inputs)).chunks;
            && Visible(Run(st, session, inputs), t) == Visible(st, t) + TextOf(cs, t)
            && BufferAttributed(Run(st, session, inputs).buffer, t)
    ensures Run(st, session, inputs).parts == GenerateAll(st.parts, session, EventsIn(inputs)).parts
  {
    if inputs == [] {
      NoText(Visible(st, t), t);
    } else {
      var init, last := inputs[..|inputs| - 1], inputs[|inputs| - 1];
      hide StateOk, Apply, Run, Generate, GenerateAll, EventsIn, Visible, TextOf, Attributed, BufferAttributed;
      LastInput(st, session, inputs);
      RunOk(st, session, init);
      var before := GenerateAll(st.parts, session, EventsIn(init));
      var st1 := Run(st, session, init);
      InputParts(st1, session, last);
      if last.Deliver? {
        GenerateAllSnoc(st.parts, session, EventsIn(init), last.event);
        var more := Generate(before.parts, session, last.event).chunks;
        AttributedSplit(before.chunks, more, t);
        RunShowsText(st, session, init, t);
        InputText(st1, session, last, t);
        TextOfAppend(before.chunks, more, t);
        Associate(Visible(st, t), TextOf(before.chunks, t), TextOf(more, t));
      } else {
        RunShowsText(st, session, init, t);
        NothingAttributed(t);
        InputText(st1, session, last, t);
        NoText(Visible(st1, t), t);
      }
    }
  }

  lemma NothingAttributed(t: BlockType)
    ensures Attributed([], t)
  {
  }

  /** All reasoning reaches the caller: in every run that ends in a flush, the reasoning updates are the reasoning
      generated from the events. */
  lemma ReasoningIsShown(userText: string, stableId: string, namespace: string, session: string, inputs: seq<Input>)
    ensures var st := Flush(Run(InitialState(InitialOutput(userText, stableId, namespace)), session, inputs));
            StreamedText(st.sink.queue, REASONING)
            == TextOf(GenerateAll(Parts(map[], map[]), session, EventsIn(inputs)).chunks, REASONING)
  {
    var st0 := InitialState(InitialOutput(userText, stableId, namespace));
    InitialOk(userText, stableId, namespace);
    assert Visible(st0, REASONING) == "";
    assert BufferAttributed(st0.buffer, REASONING);
    RunShowsText(st0, session, inputs, REASONING);
    RunOk(st0, session, inputs);
    hide Run, StateOk, GenerateAll, TextOf;
    FlushText(Run(st0, session, inputs), REASONING);
  }
}
