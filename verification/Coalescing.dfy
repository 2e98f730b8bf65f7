/** Merging of small prose chunks under size and time limits
    (`emit_chunks` and `flush_buffered_text_chunk`), seen as a machine that takes chunks
    and flush points and forwards chunks to `_emit_chunk_now`. */
module Coalescing {
  import opened Text
  import opened StreamState

  /** Reading i of the monotonic clock while one event is handled. */
  type Clock = nat -> real

  datatype Step = Step(buffer: Option<Buffered>, forwarded: seq<Chunk>)

  function Flushed(buffer: Option<Buffered>): seq<Chunk> {
    if buffer.None? then [] else [ToChunk(buffer.value)]
  }

  /** One round of the loop in `emit_chunks`. */
  function CoalesceOne(buffer: Option<Buffered>, c: Chunk, now: real): Step {
    if IsProse(c) then
      var merged := buffer.Some? && CanMerge(buffer.value, c);
      var b := if merged then AppendChunk(buffer.value, c) else FromChunk(c, now);
      var out := if merged then [] else Flushed(buffer);
      if ShouldFlush(b, now) then Step(None, out + [ToChunk(b)]) else Step(Some(b), out)
    else
      Step(None, Flushed(buffer) + [c])
  }

  /** The chunks before index n, in order. */
  function Coalesce(buffer: Option<Buffered>, cs: seq<Chunk>, clock: Clock, n: nat): Step
    requires n <= |cs|
  {
    if n == 0 then Step(buffer, [])
    else
      var before := Coalesce(buffer, cs, clock, n - 1);
      var one := CoalesceOne(before.buffer, cs[n - 1], clock(n - 1));
      Step(one.buffer, before.forwarded + one.forwarded)
  }

  // ------------------------------------------------------------ provenance

  /** One character of prose with everything that says where it came from,
      or one whole chunk that is never merged. */
  datatype Atom =
    | Letter(c: char, blockType: BlockType, partId: Option<string>, messageId: Option<string>,
             role: Option<string>, source: Source, append: bool)
    | Whole(chunk: Chunk)

  function Letters(text: string, c: Chunk): (r: seq<Atom>)
    ensures |r| == |text|
  {
    seq(|text|, i requires 0 <= i < |text| =>
          Letter(text[i], c.blockType, c.partId, c.messageId, c.role, c.source, c.append))
  }

  function Atoms(c: Chunk): seq<Atom> {
    if IsProse(c) then Letters(c.part.text, c) else [Whole(c)]
  }

  function AllAtoms(cs: seq<Chunk>): seq<Atom> {
    if cs == [] then [] else AllAtoms(cs[..|cs| - 1]) + Atoms(cs[|cs| - 1])
  }

  lemma {:induction false} AllAtomsAppend(a: seq<Chunk>, b: seq<Chunk>)
    ensures AllAtoms(a + b) == AllAtoms(a) + AllAtoms(b)
  {
    hide Atoms;
    if b == [] {
      assert a + b == a;
      assert AllAtoms(a) + [] == AllAtoms(a);
    } else {
      var init, last := b[..|b| - 1], b[|b| - 1];
      assert (a + b)[..|a + b| - 1] == a + init;
      AllAtomsAppend(a, init);
      Associate(AllAtoms(a), AllAtoms(init), Atoms(last));
    }
  }

  predicate BufferHoldsProse(buffer: Option<Buffered>) {
    buffer.Some? ==> buffer.value.blockType != TOOL_CALL
  }

  lemma OneAtoms(c: Chunk)
    ensures AllAtoms([c]) == Atoms(c)
  {
    assert [c][..0] == [];
    assert AllAtoms([]) == [];
  }

  lemma MergeKeepsAtoms(b: Buffered, c: Chunk)
    requires b.blockType != TOOL_CALL && CanMerge(b, c)
    ensures Atoms(ToChunk(AppendChunk(b, c))) == Atoms(ToChunk(b)) + Atoms(c)
  {
  }

  lemma BufferedKeepsAtoms(c: Chunk, now: real)
    requires IsProse(c)
    ensures Atoms(ToChunk(FromChunk(c, now))) == Atoms(c)
  {
  }

  lemma {:induction false} CoalesceOneKeepsAtoms(buffer: Option<Buffered>, c: Chunk, now: real)
    requires BufferHoldsProse(buffer)
    ensures var r := CoalesceOne(buffer, c, now);
            && BufferHoldsProse(r.buffer)
            && AllAtoms(r.forwarded + Flushed(r.buffer)) == AllAtoms(Flushed(buffer)) + Atoms(c)
  {
    hide Atoms, AllAtoms, ShouldFlush;
    var r := CoalesceOne(buffer, c, now);
    if IsProse(c) && buffer.Some? && CanMerge(buffer.value, c) {
      var b := AppendChunk(buffer.value, c);
      assert r.forwarded + Flushed(r.buffer) == [ToChunk(b)];
      OneAtoms(ToChunk(b));
      OneAtoms(ToChunk(buffer.value));
      MergeKeepsAtoms(buffer.value, c);
    } else {
      var d := if IsProse(c) then ToChunk(FromChunk(c, now)) else c;
      assert r.forwarded + Flushed(r.buffer) == Flushed(buffer) + [d];
      AllAtomsAppend(Flushed(buffer), [d]);
      OneAtoms(d);
      if IsProse(c) {
        BufferedKeepsAtoms(c, now);
      }
    }
  }

  /** Two stages one after the other: f is forwarded first and leaves the buffered chunks m,
      from which g comes next and leaves the buffered chunks d. */
  lemma AtomsCompose(f: seq<Chunk>, m: seq<Chunk>, g: seq<Chunk>, d: seq<Chunk>, x: seq<Atom>, y: seq<Atom>)
    requires AllAtoms(f + m) == x
    requires AllAtoms(g + d) == AllAtoms(m) + y
    ensures AllAtoms((f + g) + d) == x + y
  {
    Associate(f, g, d);
    AllAtomsAppend(f, g + d);
    AllAtomsAppend(f, m);
    Associate(AllAtoms(f), AllAtoms(m), y);
  }

  lemma AllAtomsTake(first: seq<Chunk>, cs: seq<Chunk>, n: nat)
    requires 0 < n <= |cs|
    ensures AllAtoms(first) + AllAtoms(cs[..n - 1]) + Atoms(cs[n - 1]) == AllAtoms(first) + AllAtoms(cs[..n])
  {
    assert cs[..n][..n - 1] == cs[..n - 1];
  }

  lemma {:induction false} CoalesceKeepsAtoms(buffer: Option<Buffered>, cs: seq<Chunk>, clock: Clock, n: nat)
    requires n <= |cs| && BufferHoldsProse(buffer)
    ensures var r := Coalesce(buffer, cs, clock, n);
            && BufferHoldsProse(r.buffer)
            && AllAtoms(r.forwarded + Flushed(r.buffer)) == AllAtoms(Flushed(buffer)) + AllAtoms(cs[..n])
  {
    var r := Coalesce(buffer, cs, clock, n);
    if n == 0 {
      assert r.forwarded + Flushed(r.buffer) == Flushed(buffer);
    } else {
      CoalesceKeepsAtoms(buffer, cs, clock, n - 1);
      var before := Coalesce(buffer, cs, clock, n - 1);
      var one := CoalesceOne(before.buffer, cs[n - 1], clock(n - 1));
      CoalesceOneKeepsAtoms(before.buffer, cs[n - 1], clock(n - 1));
      var x, y := AllAtoms(Flushed(buffer)) + AllAtoms(cs[..n - 1]), Atoms(cs[n - 1]);
      AtomsCompose(before.forwarded, Flushed(before.buffer), one.forwarded, Flushed(one.buffer), x, y);
      AllAtomsTake(Flushed(buffer), cs, n);
    }
  }

  // ------------------------------------------------------------ whole runs

  datatype Supply = Chunks(cs: seq<Chunk>, clock: Clock) | Drain

  function Feed(buffer: Option<Buffered>, input: Supply): Step {
    match input
    case Chunks(cs, clock) => Coalesce(buffer, cs, clock, |cs|)
    case Drain => Step(None, Flushed(buffer))
  }

  function FeedAll(buffer: Option<Buffered>, inputs: seq<Supply>): Step {
    if inputs == [] then Step(buffer, [])
    else
      var before := FeedAll(buffer, inputs[..|inputs| - 1]);
      var one := Feed(before.buffer, inputs[|inputs| - 1]);
      Step(one.buffer, before.forwarded + one.forwarded)
  }

  function AllChunks(inputs: seq<Supply>): seq<Chunk> {
    if inputs == [] then []
    else AllChunks(inputs[..|inputs| - 1]) + ChunksOf(inputs[|inputs| - 1])
  }

  function ChunksOf(input: Supply): seq<Chunk> {
    match input
    case Chunks(cs, _) => cs
    case Drain => []
  }

  lemma {:induction false} FeedOneKeepsAtoms(buffer: Option<Buffered>, input: Supply)
    requires BufferHoldsProse(buffer)
    ensures var r := Feed(buffer, input);
            && BufferHoldsProse(r.buffer)
            && AllAtoms(r.forwarded + Flushed(r.buffer)) == AllAtoms(Flushed(buffer)) + AllAtoms(ChunksOf(input))
  {
    if input.Chunks? {
      CoalesceKeepsAtoms(buffer, input.cs, input.clock, |input.cs|);
      assert input.cs[..|input.cs|] == input.cs;
    } else {
      assert Flushed(buffer) + [] == Flushed(buffer);
    }
  }

  lemma {:induction false} FeedKeepsAtoms(inputs: seq<Supply>)
    ensures var r := FeedAll(None, inputs);
            && BufferHoldsProse(r.buffer)
            && AllAtoms(r.forwarded + Flushed(r.buffer)) == AllAtoms(AllChunks(inputs))
  {
    if inputs != [] {
      var earlier, last := inputs[..|inputs| - 1], inputs[|inputs| - 1];
      FeedKeepsAtoms(earlier);
      var before := FeedAll(None, earlier);
      var one := Feed(before.buffer, last);
      FeedOneKeepsAtoms(before.buffer, last);
      AtomsCompose(before.forwarded, Flushed(before.buffer), one.forwarded, Flushed(one.buffer),
                   AllAtoms(AllChunks(earlier)), AllAtoms(ChunksOf(last)));
      AllAtomsAppend(AllChunks(earlier), ChunksOf(last));
    }
  }

  /** Whatever the chunk lists, the clock readings and the extra flush points, once a run ends
      in a flush the characters and tool chunks forwarded are those put in: same order, same origin. */
  lemma {:induction false} CoalescingKeepsProvenance(inputs: seq<Supply>)
    ensures var r := FeedAll(None, inputs + [Drain]);
            r.buffer.None? && AllAtoms(r.forwarded) == AllAtoms(AllChunks(inputs))
  {
    FeedKeepsAtoms(inputs);
    assert (inputs + [Drain])[..|inputs|] == inputs;
  }

  /** What the buffer looks like between two calls. */
  predicate BufferSettled(buffer: Option<Buffered>) {
    buffer.Some? ==>
      && buffer.value.blockType != TOOL_CALL
      && 0 < |buffer.value.text| < if buffer.value.blockType == REASONING then 240 else 120
  }

  predicate NonEmptyProse(cs: seq<Chunk>) {
    forall i :: 0 <= i < |cs| && cs[i].part.TextPart? ==> cs[i].part.text != ""
  }

  lemma {:induction false} CoalesceSettles(buffer: Option<Buffered>, cs: seq<Chunk>, clock: Clock, n: nat)
    requires n <= |cs| && BufferSettled(buffer) && NonEmptyProse(cs)
    ensures BufferSettled(Coalesce(buffer, cs, clock, n).buffer)
  {
    if n > 0 {
      CoalesceSettles(buffer, cs, clock, n - 1);
    }
  }

  /** Between calls the buffer is empty or holds some text, but less than its limit of 120 characters, or 240 of
      reasoning. */
  lemma {:induction false} BufferStaysBelowLimit(inputs: seq<Supply>)
    requires NonEmptyProse(AllChunks(inputs))
    ensures BufferSettled(FeedAll(None, inputs).buffer)
  {
    if inputs != [] {
      var earlier, last := inputs[..|inputs| - 1], inputs[|inputs| - 1];
      var all := AllChunks(inputs);
      var head := AllChunks(earlier);
      forall i | 0 <= i < |head| ensures head[i] == all[i] {}
      BufferStaysBelowLimit(earlier);
      if last.Chunks? {
        forall i | 0 <= i < |last.cs| ensures last.cs[i] == all[|head| + i] {}
        CoalesceSettles(FeedAll(None, earlier).buffer, last.cs, last.clock, |last.cs|);
      }
    }
  }

  /** Text that stays in the buffer has not waited for its time limit at the last chunk. */
  lemma {:induction false} BufferStaysFresh(buffer: Option<Buffered>, cs: seq<Chunk>, clock: Clock)
    requires cs != []
    ensures var b := Coalesce(buffer, cs, clock, |cs|).buffer;
            b.Some? ==> clock(|cs| - 1) - b.value.startedAt < if b.value.blockType == REASONING then 0.35 else 0.2
  {
    var before := Coalesce(buffer, cs, clock, |cs| - 1);
    hide Coalesce;
    assert Coalesce(buffer, cs, clock, |cs|).buffer == CoalesceOne(before.buffer, cs[|cs| - 1], clock(|cs| - 1)).buffer
      by { CoalesceLast(buffer, cs, clock); }
  }

  lemma CoalesceLast(buffer: Option<Buffered>, cs: seq<Chunk>, clock: Clock)
    requires cs != []
    ensures var before := Coalesce(buffer, cs, clock, |cs| - 1);
            Coalesce(buffer, cs, clock, |cs|).buffer
            == CoalesceOne(before.buffer, cs[|cs| - 1], clock(|cs| - 1)).buffer
  {
    hide CoalesceOne;
  }

  /** Two pieces of text or of reasoning that differ in nothing but what they say. */
  predicate Alike(a: Chunk, b: Chunk) {
    && a.part.TextPart? && b.part.TextPart? && a.blockType == b.blockType != TOOL_CALL
    && a.partId == b.partId && a.messageId == b.messageId && a.role == b.role
    && a.source == b.source && a.append == b.append
  }

  lemma AlikeMerges(first: Chunk, text: string, start: real, c: Chunk, now: real)
    requires Alike(first, c) && |text + c.part.text| < if first.blockType == REASONING then 240 else 120
    requires now - start < if first.blockType == REASONING then 0.35 else 0.2
    ensures var b := Buffered(first.blockType, first.partId, first.messageId, first.role, first.source, first.append,
                              text, start);
            CoalesceOne(Some(b), c, now) == Step(Some(b.(text := text + c.part.text)), [])
  {
  }

  lemma FirstIsBuffered(c: Chunk, now: real)
    requires Alike(c, c) && |c.part.text| < if c.blockType == REASONING then 240 else 120
    ensures CoalesceOne(None, c, now)
            == Step(Some(Buffered(c.blockType, c.partId, c.messageId, c.role, c.source, c.append, c.part.text, now)), [])
  {
  }

  /** Merging does happen: chunks of one kind that stay below both limits, 120 characters and 0.2 seconds or for
      reasoning 240 and 0.35, are forwarded as nothing, and the buffer holds their text, since the time of the first. */
  lemma {:induction false} LikeChunksMerge(cs: seq<Chunk>, clock: Clock, n: nat)
    requires 0 < n <= |cs|
    requires forall i :: 0 <= i < n ==> Alike(cs[0], cs[i])
    requires |ProseOf(cs[..n])| < if cs[0].blockType == REASONING then 240 else 120
    requires forall i :: 0 <= i < n ==> clock(i) - clock(0) < if cs[0].blockType == REASONING then 0.35 else 0.2
    ensures var c := cs[0];
            Coalesce(None, cs, clock, n)
            == Step(Some(Buffered(c.blockType, c.partId, c.messageId, c.role, c.source, c.append,
                                  ProseOf(cs[..n]), clock(0))), [])
  {
    hide CoalesceOne;
    assert cs[..n][..n - 1] == cs[..n - 1];
    if n == 1 {
      assert ProseOf(cs[..0]) == "" && ProseOf(cs[..1]) == "" + cs[0].part.text == cs[0].part.text;
      FirstIsBuffered(cs[0], clock(0));
    } else {
      LikeChunksMerge(cs, clock, n - 1);
      AlikeMerges(cs[0], ProseOf(cs[..n - 1]), clock(0), cs[n - 1], clock(n - 1));
    }
  }
}
