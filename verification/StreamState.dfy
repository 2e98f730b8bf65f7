/** Chunks, the coalescing buffer and the output state of one streaming request,
    first as values, then as the objects whose fields the source updates. */
module StreamState {
  import opened Text

  datatype BlockType = TEXT | REASONING | TOOL_CALL

  const TEXT_FLUSH_CHARS: nat := 120
  const TEXT_FLUSH_SECONDS: real := 0.2
  const REASONING_FLUSH_CHARS: nat := 240
  const REASONING_FLUSH_SECONDS: real := 0.35

  function FlushCharLimit(b: BlockType): nat {
    if b == REASONING then REASONING_FLUSH_CHARS else TEXT_FLUSH_CHARS
  }

  function FlushTimeLimit(b: BlockType): real {
    if b == REASONING then REASONING_FLUSH_SECONDS else TEXT_FLUSH_SECONDS
  }

  /** A serialized tool payload: one line of JSON text. */
  type Json = s: string | s != "" && '\n' !in s witness "{}"

  datatype Part = TextPart(text: string) | DataPart(data: Json)

  datatype Source = DeltaEvent | DeltaEventBuffered | Delta | PartTextDiff | ToolPartUpdate | FinalSnapshot

  datatype Chunk = Chunk(
    part: Part,
    contentKey: string,
    append: bool,
    blockType: BlockType,
    source: Source,
    messageId: Option<string>,
    role: Option<string>,
    partId: Option<string>)

  datatype Buffered = Buffered(
    blockType: BlockType,
    partId: Option<string>,
    messageId: Option<string>,
    role: Option<string>,
    source: Source,
    append: bool,
    text: string,
    startedAt: real)

  predicate IsProse(c: Chunk) {
    c.part.TextPart? && (c.blockType == TEXT || c.blockType == REASONING)
  }

  /** The text of the text chunks, joined. */
  function ProseOf(cs: seq<Chunk>): string {
    if cs == [] then ""
    else
      var c := cs[|cs| - 1];
      ProseOf(cs[..|cs| - 1]) + (if c.part.TextPart? then c.part.text else "")
  }

  function FromChunk(c: Chunk, now: real): Buffered {
    Buffered(c.blockType, c.partId, c.messageId, c.role, c.source, c.append,
             if c.part.TextPart? then c.part.text else "", now)
  }

  predicate CanMerge(b: Buffered, c: Chunk) {
    && IsProse(c)
    && b.blockType == c.blockType
    && b.partId == c.partId
    && b.messageId == c.messageId
    && b.role == c.role
    && b.source == c.source
    && b.append == c.append
  }

  function AppendChunk(b: Buffered, c: Chunk): Buffered {
    if c.part.TextPart? then b.(text := b.text + c.part.text) else b
  }

  predicate ShouldFlush(b: Buffered, now: real) {
    |b.text| >= FlushCharLimit(b.blockType) || now - b.startedAt >= FlushTimeLimit(b.blockType)
  }

  function ToChunk(b: Buffered): Chunk {
    Chunk(TextPart(b.text), b.text, b.append, b.blockType, b.source, b.messageId, b.role, b.partId)
  }

  /** The fields of the output state. Token usage is left out. */
  datatype Output = Output(
    userText: string,
    stableMessageId: string,
    namespace: string,
    buffers: map<BlockType, string>,
    pendingInterrupts: set<string>,
    sawAnyChunk: bool,
    emittedStreamChunk: bool,
    sequence: nat)

  function InitialOutput(userText: string, stableMessageId: string, namespace: string): Output {
    Output(userText, stableMessageId, namespace, map[], {}, false, false, 0)
  }

  function Content(o: Output, b: BlockType): string {
    if b in o.buffers then o.buffers[b] else ""
  }

  predicate IsInitialUserEcho(o: Output, text: string, b: BlockType, role: Option<string>) {
    && role.None?
    && b == TEXT
    && !o.sawAnyChunk
    && Strip(o.userText) != ""
    && Strip(text) == Strip(o.userText)
  }

  datatype Registration = Registration(output: Output, shouldEmit: bool, append: bool)

  function Register(o: Output, b: BlockType, key: string, append: bool): Registration {
    var next := if append then Content(o, b) + key else key;
    if next == Content(o, b) then Registration(o, false, false)
    else Registration(o.(buffers := o.buffers[b := next], sawAnyChunk := true, emittedStreamChunk := true),
                      true, o.emittedStreamChunk)
  }

  datatype Snapshot = Snapshot(output: Output, shouldEmit: bool)

  function RegisterFinal(o: Output, text: string): Snapshot {
    if Strip(text) == "" || Strip(Content(o, TEXT)) == Strip(text) then Snapshot(o, false)
    else Snapshot(o.(buffers := o.buffers[TEXT := text], sawAnyChunk := true), true)
  }

  function ResolveMessageId(o: Output, id: Option<string>): string {
    if id.Some? && Strip(id.value) != "" then Strip(id.value) else o.stableMessageId
  }

  function EventId(namespace: string, sequence: nat): string {
    namespace + ":" + Decimal(sequence)
  }

  function StatusEventId(namespace: string): string {
    namespace + ":" + "status"
  }

  lemma {:induction false} EventIdInjective(namespace: string, a: nat, b: nat)
    ensures EventId(namespace, a) == EventId(namespace, b) ==> a == b
    ensures EventId(namespace, a) != StatusEventId(namespace)
  {
    var p := namespace + ":";
    assert EventId(namespace, a)[|p|..] == Decimal(a);
    assert EventId(namespace, b)[|p|..] == Decimal(b);
    assert StatusEventId(namespace)[|p|..] == "status";
    assert Decimal(a)[0] != 's';
    if Decimal(a) == Decimal(b) {
      DecimalInjective(a, b);
    }
  }

  // ---------------------------------------------------------------- objects

  class BufferedTextChunk {
    const blockType: BlockType
    const partId: Option<string>
    const messageId: Option<string>
    const role: Option<string>
    const source: Source
    const append: bool
    var text: string
    const startedAt: real

    function Value(): Buffered reads this {
      Buffered(blockType, partId, messageId, role, source, append, text, startedAt)
    }

    constructor (c: Chunk, now: real)
      ensures Value() == FromChunk(c, now)
    {
      blockType, partId, messageId, role := c.blockType, c.partId, c.messageId, c.role;
      source, append, startedAt := c.source, c.append, now;
      text := if c.part.TextPart? then c.part.text else "";
    }

    method Append(c: Chunk)
      modifies this
      ensures Value() == AppendChunk(old(Value()), c)
    {
      if !c.part.TextPart? {
        return;
      }
      text := text + c.part.text;
    }
  }

  class StreamOutputState {
    const userText: string
    const stableMessageId: string
    const namespace: string
    var buffers: map<BlockType, string>
    var pendingInterrupts: set<string>
    var sawAnyChunk: bool
    var emittedStreamChunk: bool
    var sequence: nat

    function Value(): Output reads this {
      Output(userText, stableMessageId, namespace, buffers, pendingInterrupts,
             sawAnyChunk, emittedStreamChunk, sequence)
    }

    constructor (userText: string, stableMessageId: string, namespace: string)
      ensures Value() == InitialOutput(userText, stableMessageId, namespace)
    {
      this.userText, this.stableMessageId, this.namespace := userText, stableMessageId, namespace;
      buffers, pendingInterrupts := map[], {};
      sawAnyChunk, emittedStreamChunk, sequence := false, false, 0;
    }

    method RegisterChunk(b: BlockType, key: string, append: bool)
      returns (shouldEmit: bool, effectiveAppend: bool)
      modifies this
      ensures Registration(Value(), shouldEmit, effectiveAppend) == Register(old(Value()), b, key, append)
    {
      var previous := if b in buffers then buffers[b] else "";
      var next := if append then previous + key else key;
      if next == previous {
        return false, false;
      }
      buffers := buffers[b := next];
      sawAnyChunk := true;
      effectiveAppend := emittedStreamChunk;
      emittedStreamChunk := true;
      shouldEmit := true;
    }

    method ShouldEmitFinalSnapshot(text: string) returns (emit: bool)
      modifies this
      ensures Snapshot(Value(), emit) == RegisterFinal(old(Value()), text)
    {
      if Strip(text) == "" {
        return false;
      }
      var existing := if TEXT in buffers then buffers[TEXT] else "";
      if Strip(existing) == Strip(text) {
        return false;
      }
      buffers := buffers[TEXT := text];
      sawAnyChunk := true;
      return true;
    }

    method NextSequence() returns (n: nat)
      modifies this
      ensures n == old(sequence) + 1
      ensures Value() == old(Value()).(sequence := n)
    {
      sequence := sequence + 1;
      n := sequence;
    }

    /** True exactly when the stripped id is new to the pending set. */
    method MarkInterruptPending(requestId: string) returns (marked: bool)
      modifies this
      ensures marked <==> Strip(requestId) != "" && Strip(requestId) !in old(pendingInterrupts)
      ensures Value() == if marked
                         then old(Value()).(pendingInterrupts := old(pendingInterrupts) + {Strip(requestId)})
                         else old(Value())
    {
      var normalized := Strip(requestId);
      if normalized == "" {
        return false;
      }
      if normalized in pendingInterrupts {
        return false;
      }
      pendingInterrupts := pendingInterrupts + {normalized};
      return true;
    }

    /** True exactly when the stripped id was pending. */
    method ClearInterruptPending(requestId: string) returns (cleared: bool)
      modifies this
      ensures cleared <==> Strip(requestId) != "" && Strip(requestId) in old(pendingInterrupts)
      ensures Value() == if cleared
                         then old(Value()).(pendingInterrupts := old(pendingInterrupts) - {Strip(requestId)})
                         else old(Value())
    {
      var normalized := Strip(requestId);
      if normalized == "" || normalized !in pendingInterrupts {
        return false;
      }
      pendingInterrupts := pendingInterrupts - {normalized};
      return true;
    }
  }
}
