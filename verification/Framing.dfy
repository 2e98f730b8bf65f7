/** Splitting the child process's output into lines (`_iter_stream_lines`). */
module Framing {
  import opened Text

  type Bytes = seq<bv8>

  const NEWLINE: bv8 := 10

  predicate NewlineFree(b: Bytes) {
    NEWLINE !in b
  }

  /** What has been read when the stream reports its end, that is, before the first empty read. */
  function Content(chunks: seq<Bytes>): Bytes {
    if chunks == [] || chunks[0] == [] then [] else chunks[0] + Content(chunks[1..])
  }

  /** Position of the first newline, or the length if there is none. */
  function FirstNewline(b: Bytes): (i: nat)
    ensures i <= |b| && NewlineFree(b[..i])
    ensures i < |b| ==> b[i] == NEWLINE
  {
    if b == [] || b[0] == NEWLINE then 0 else
      var i := 1 + FirstNewline(b[1..]);
      assert b[..i] == [b[0]] + b[1..][..i - 1];
      i
  }

  /** Fields glued together with newlines between them. */
  function Join(fields: seq<Bytes>): Bytes {
    if fields == [] then []
    else if |fields| == 1 then fields[0]
    else fields[0] + [NEWLINE] + Join(fields[1..])
  }

  /** The newline-separated fields of b: newline-free, and giving b back when joined. */
  predicate AreFields(b: Bytes, fields: seq<Bytes>) {
    && fields != []
    && (forall i :: 0 <= i < |fields| ==> NewlineFree(fields[i]))
    && Join(fields) == b
  }

  /** The fields, with an empty last one omitted. */
  function Lines(fields: seq<Bytes>): seq<Bytes>
    requires fields != []
  {
    if fields[|fields| - 1] == [] then fields[..|fields| - 1] else fields
  }

  /** A byte sequence has one list of fields only. */
  lemma {:induction false} FieldsAreUnique(b: Bytes, f: seq<Bytes>, g: seq<Bytes>)
    requires AreFields(b, f) && AreFields(b, g)
    ensures f == g
    decreases |f|
  {
    FirstFieldEnds(b, f);
    FirstFieldEnds(b, g);
    var n := FirstNewline(b);
    if n < |b| {
      assert |f| > 1 && |g| > 1;
      var rest := b[n + 1..];
      assert Join(f[1..]) == rest by { assert b == f[0] + [NEWLINE] + Join(f[1..]); }
      assert Join(g[1..]) == rest by { assert b == g[0] + [NEWLINE] + Join(g[1..]); }
      FieldsAreUnique(rest, f[1..], g[1..]);
      assert f == [f[0]] + f[1..] && g == [g[0]] + g[1..];
    } else {
      assert f == [f[0]] && g == [g[0]];
    }
  }

  lemma {:induction false} FirstNewlineIs(b: Bytes, k: nat)
    requires k <= |b| && NewlineFree(b[..k]) && (k < |b| ==> b[k] == NEWLINE)
    ensures FirstNewline(b) == k
  {
    if k > 0 {
      assert b[0] == b[..k][0];
      assert b[1..][..k - 1] == b[..k][1..];
      FirstNewlineIs(b[1..], k - 1);
    }
  }

  lemma FirstFieldEnds(b: Bytes, f: seq<Bytes>)
    requires AreFields(b, f)
    ensures f[0] == b[..FirstNewline(b)]
    ensures |f| == 1 <==> FirstNewline(b) == |b|
  {
    assert b[..|f[0]|] == f[0];
    FirstNewlineIs(b, |f[0]|);
  }

  lemma {:induction false} JoinSnoc(fields: seq<Bytes>, last: Bytes)
    requires fields != []
    ensures Join(fields + [last]) == Join(fields) + [NEWLINE] + last
  {
    assert (fields + [last])[1..] == fields[1..] + [last];
    if |fields| > 1 {
      JoinSnoc(fields[1..], last);
    } else {
      assert fields[1..] + [last] == [last];
    }
  }

  /** Extending the last field extends the joined bytes. */
  lemma JoinExtend(fields: seq<Bytes>, last: Bytes, more: Bytes)
    ensures Join(fields + [last + more]) == Join(fields + [last]) + more
  {
    if fields == [] {
      assert fields + [last] == [last] && fields + [last + more] == [last + more];
    } else {
      JoinSnoc(fields, last);
      JoinSnoc(fields, last + more);
    }
  }

  /** Moving a complete line from the buffer to the output. */
  lemma JoinSplit(fields: seq<Bytes>, b: Bytes, n: nat)
    requires n < |b| && b[n] == NEWLINE
    ensures Join(fields + [b[..n]] + [b[n + 1..]]) == Join(fields + [b])
  {
    JoinSnoc(fields + [b[..n]], b[n + 1..]);
    JoinExtend(fields, b[..n], b[n..]);
    assert b[..n] + b[n..] == b;
    assert b[n..] == [NEWLINE] + b[n + 1..];
  }

  /** The fields of b exist: cut at the first newline and go on. */
  function Fields(b: Bytes): (fields: seq<Bytes>)
    ensures AreFields(b, fields)
    decreases |b|
  {
    var n := FirstNewline(b);
    if n == |b| then
      assert b[..n] == b;
      [b]
    else
      var rest := Fields(b[n + 1..]);
      assert ([b[..n]] + rest)[1..] == rest;
      assert b == b[..n] + [NEWLINE] + b[n + 1..];
      [b[..n]] + rest
  }

  lemma ContentStep(chunks: seq<Bytes>, i: nat)
    requires i <= |chunks|
    ensures Content(chunks[i..]) == if i == |chunks| || chunks[i] == [] then []
                                    else chunks[i] + Content(chunks[i + 1..])
  {
    if i < |chunks| {
      assert chunks[i..][1..] == chunks[i + 1..];
    }
  }

  /** The bytes received so far are the complete lines and the rest. */
  predicate Cut(lines: seq<Bytes>, rest: Bytes, received: Bytes) {
    (forall k :: 0 <= k < |lines| ==> NewlineFree(lines[k])) && Join(lines + [rest]) == received
  }

  lemma CutStarts()
    ensures Cut([], [], [])
  {
    assert Join([[]]) == [];
  }

  lemma CutGrows(lines: seq<Bytes>, rest: Bytes, received: Bytes, chunk: Bytes)
    requires Cut(lines, rest, received)
    ensures Cut(lines, rest + chunk, received + chunk)
  {
    JoinExtend(lines, rest, chunk);
  }

  lemma CutSplits(lines: seq<Bytes>, rest: Bytes, received: Bytes)
    requires Cut(lines, rest, received) && FirstNewline(rest) < |rest|
    ensures var n := FirstNewline(rest); Cut(lines + [rest[..n]], rest[n + 1..], received)
  {
    hide FirstNewline, Join;
    JoinSplit(lines, rest, FirstNewline(rest));
  }

  lemma CutEnds(lines: seq<Bytes>, rest: Bytes, received: Bytes)
    requires Cut(lines, rest, received) && FirstNewline(rest) == |rest|
    ensures lines + [rest] == Fields(received)
  {
    assert rest[..|rest|] == rest;
    FieldsAreUnique(received, lines + [rest], Fields(received));
  }

  /** The lines yielded while reading the given chunks (an empty chunk is the end of the stream):
      exactly the newline-separated fields of everything read, without an empty last field. */
  method IterStreamLines(chunks: seq<Bytes>) returns (lines: seq<Bytes>)
    ensures lines == Lines(Fields(Content(chunks)))
  {
    hide Cut, Content, Fields, FirstNewline;
    var buffer: Bytes := [];
    var i := 0;
    lines := [];
    ghost var received: Bytes := [];
    CutStarts();
    NothingToFind();
    assert chunks[0..] == chunks && [] + Content(chunks) == Content(chunks);
    while i < |chunks| && chunks[i] != []
      invariant i <= |chunks|
      invariant Cut(lines, buffer, received) && FirstNewline(buffer) == |buffer|
      invariant received + Content(chunks[i..]) == Content(chunks)
    {
      ContentStep(chunks, i);
      Associate(received, chunks[i], Content(chunks[i + 1..]));
      CutGrows(lines, buffer, received, chunks[i]);
      buffer := buffer + chunks[i];
      received := received + chunks[i];
      i := i + 1;
      while true
        invariant Cut(lines, buffer, received)
        decreases |buffer|
      {
        var n := FirstNewline(buffer);
        if n == |buffer| {
          break;
        }
        CutSplits(lines, buffer, received);
        lines := lines + [buffer[..n]];
        buffer := buffer[n + 1..];
      }
    }
    ContentStep(chunks, i);
    assert received + [] == received;
    CutEnds(lines, buffer, received);
    if buffer != [] {
      lines := lines + [buffer];
    }
  }

  lemma NothingToFind()
    ensures FirstNewline([]) == 0
  {
  }

  /** Every line followed by a newline. */
  function Terminated(lines: seq<Bytes>): Bytes {
    if lines == [] then [] else Terminated(lines[..|lines| - 1]) + lines[|lines| - 1] + [NEWLINE]
  }

  lemma {:induction false} JoinIsTerminated(fields: seq<Bytes>, last: Bytes)
    ensures Join(fields + [last]) == Terminated(fields) + last
  {
    if fields == [] {
      assert fields + [last] == [last];
    } else {
      var init, f := fields[..|fields| - 1], fields[|fields| - 1];
      assert fields == init + [f];
      JoinIsTerminated(init, f);
      JoinSnoc(fields, last);
    }
  }

  lemma LinesTerminated(bytes: Bytes, f: seq<Bytes>)
    requires AreFields(bytes, f)
    ensures Terminated(Lines(f)) == if bytes == [] || bytes[|bytes| - 1] == NEWLINE then bytes
                                    else bytes + [NEWLINE]
  {
    var init, last := f[..|f| - 1], f[|f| - 1];
    assert f == init + [last];
    JoinIsTerminated(init, last);
    if last != [] {
      assert bytes[|bytes| - 1] == last[|last| - 1];
    } else if init != [] {
      assert Terminated(init) == bytes;
    }
  }

  /** Yielded lines hold no newline and depend on the bytes only, not on how they were cut; and writing
      them out again, a newline after each, gives back the bytes, with a newline added exactly when the
      bytes do not end in one. */
  lemma FramingIsChunkIndependent(a: seq<Bytes>, b: seq<Bytes>)
    requires Content(a) == Content(b)
    ensures var bytes, lines := Content(a), Lines(Fields(Content(a)));
            && lines == Lines(Fields(Content(b)))
            && (forall i :: 0 <= i < |lines| ==> NewlineFree(lines[i]))
            && Terminated(lines) == if bytes == [] || bytes[|bytes| - 1] == NEWLINE then bytes
                                    else bytes + [NEWLINE]
  {
    LinesTerminated(Content(a), Fields(Content(a)));
  }
}
