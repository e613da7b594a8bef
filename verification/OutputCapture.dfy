/**
 The helper's bounded two-stream capture (internal/adapter/contextexec/output.go)
 and the daemon's offset-checking receiver (internal/adapter/contextexec/server.go),
 proved each against a declarative contract and then composed.

 A "tagged byte" is a byte together with the stream it came from; the merged
 arrival order of both pipes is one sequence of tagged bytes, and everything the
 receiver stores is a projection of a prefix of it.
 */
module OutputCapture {
  import opened Prelude

  datatype Stream = Stdout | Stderr

  const READ_BUFFER := 0x4000
  const MAX_FRAME_BYTES := 0x2_0000

  // ---------------------------------------------------------------- readers

  /** What one `Read` call returned besides its bytes. */
  datatype ReadEnd = More | Eof | Failed

  datatype ReadResult = ReadResult(data: seq<byte>, end: ReadEnd)

  datatype Chunk = Data(stream: Stream, data: seq<byte>) | ReadError(stream: Stream) | Done(stream: Stream)

  /** The calls one reader goroutine makes: a full pipe until the first error or end of file. */
  ghost predicate Session(calls: seq<ReadResult>) {
    && calls != []
    && (forall i | 0 <= i < |calls| :: |calls[i].data| <= READ_BUFFER)
    && (forall i | 0 <= i < |calls| - 1 :: calls[i].end == More)
    && calls[|calls| - 1].end != More
  }

  function ReadBytes(calls: seq<ReadResult>): seq<byte> {
    if calls == [] then [] else ReadBytes(calls[..|calls| - 1]) + calls[|calls| - 1].data
  }

  function DataOf(chunks: seq<Chunk>): seq<byte> {
    if chunks == [] then []
    else DataOf(chunks[..|chunks| - 1]) +
         (if chunks[|chunks| - 1].Data? then chunks[|chunks| - 1].data else [])
  }

  /** The chunk sequences one reader can put on the channel: data, perhaps an error, then `Done`. */
  ghost predicate ReaderTrace(stream: Stream, chunks: seq<Chunk>) {
    && chunks != []
    && (forall c | c in chunks :: c.stream == stream)
    && (forall i | 0 <= i < |chunks| :: chunks[i].Done? <==> i == |chunks| - 1)
    && (forall c | c in chunks && c.Data? :: 0 < |c.data| <= READ_BUFFER)
  }

  /** Only data chunks of one stream, none empty or larger than the read buffer. */
  ghost predicate DataOnly(stream: Stream, chunks: seq<Chunk>) {
    forall c | c in chunks :: c.Data? && c.stream == stream && 0 < |c.data| <= READ_BUFFER
  }

  lemma DataOfSnoc(chunks: seq<Chunk>, c: Chunk)
    ensures DataOf(chunks + [c]) == DataOf(chunks) + if c.Data? then c.data else []
  {
    assert (chunks + [c])[..|chunks|] == chunks;
  }

  lemma ReadBytesSnoc(calls: seq<ReadResult>, i: nat)
    requires i < |calls|
    ensures ReadBytes(calls[..i + 1]) == ReadBytes(calls[..i]) + calls[i].data
  {
    assert calls[..i + 1][..i] == calls[..i];
  }

  /** The reader's closing chunks turn its data chunks into a complete trace. */
  lemma {:induction false} CloseTrace(stream: Stream, data: seq<Chunk>, failed: bool, chunks: seq<Chunk>)
    requires DataOnly(stream, data)
    requires chunks == data + (if failed then [ReadError(stream)] else []) + [Done(stream)]
    ensures ReaderTrace(stream, chunks)
    ensures DataOf(chunks) == DataOf(data)
    ensures HasReadError(chunks) <==> failed
  {
    forall i | 0 <= i < |chunks|
      ensures chunks[i] == if i < |data| then data[i] else if i == |chunks| - 1 then Done(stream) else ReadError(stream)
    {
    }
    forall c | c in chunks
      ensures c in data || c == Done(stream) || (failed && c == ReadError(stream))
    {
    }
    if failed {
      DataOfSnoc(data, ReadError(stream));
      assert chunks[|data|].ReadError?;
    } else {
      assert data + [] == data;
    }
    DataOfSnoc(data + (if failed then [ReadError(stream)] else []), Done(stream));
  }

  /** A read error reached the channel. */
  ghost predicate HasReadError(chunks: seq<Chunk>) {
    exists i :: 0 <= i < |chunks| && chunks[i].ReadError?
  }

  /** The session ends with an error other than end of file. */
  predicate ReadFails(calls: seq<ReadResult>) { calls != [] && calls[|calls| - 1].end == Failed }

  /** What one read puts on the channel: nothing, or one data chunk. */
  function ReadChunks(stream: Stream, n: ReadResult): seq<Chunk> { if |n.data| > 0 then [Data(stream, n.data)] else [] }

  lemma ReadOnce(stream: Stream, calls: seq<ReadResult>, i: nat, chunks: seq<Chunk>)
    requires i < |calls| && |calls[i].data| <= READ_BUFFER
    requires DataOnly(stream, chunks) && DataOf(chunks) == ReadBytes(calls[..i])
    ensures var chunks' := chunks + ReadChunks(stream, calls[i]);
            DataOnly(stream, chunks') && DataOf(chunks') == ReadBytes(calls[..i + 1])
  {
    hide DataOf, ReadBytes;
    ReadBytesSnoc(calls, i);
    if |calls[i].data| > 0 {
      DataOfSnoc(chunks, Data(stream, calls[i].data));
    } else {
      assert chunks + [] == chunks;
      assert ReadBytes(calls[..i]) + [] == ReadBytes(calls[..i]);
    }
  }

  lemma NothingRead(stream: Stream, calls: seq<ReadResult>)
    ensures DataOnly(stream, []) && DataOf([]) == ReadBytes(calls[..0])
  {
  }

  /** One reader goroutine: everything it read arrives, in order, before its only `Done`. */
  method ReadStream(stream: Stream, calls: seq<ReadResult>) returns (chunks: seq<Chunk>)
    requires Session(calls)
    ensures ReaderTrace(stream, chunks) && DataOf(chunks) == ReadBytes(calls)
    ensures HasReadError(chunks) <==> ReadFails(calls)
  {
    hide DataOf, ReadBytes, DataOnly, ReaderTrace, HasReadError;
    chunks := [];
    var i := 0;
    var end := More;
    NothingRead(stream, calls);
    while end == More
      invariant 0 <= i <= |calls|
      invariant end == if i == 0 then More else calls[i - 1].end
      invariant DataOnly(stream, chunks) && DataOf(chunks) == ReadBytes(calls[..i])
      decreases |calls| - i
    {
      var n := calls[i];
      ReadOnce(stream, calls, i, chunks);
      if |n.data| > 0 {
        chunks := chunks + [Data(stream, n.data)];
      } else {
        assert chunks + [] == chunks;
      }
      end := n.end;
      i := i + 1;
    }
    assert calls[..i] == calls;
    ghost var data := chunks;
    if end == Failed {
      chunks := chunks + [ReadError(stream)];
    }
    chunks := chunks + [Done(stream)];
    CloseTrace(stream, data, end == Failed, chunks);
  }

  /** `merged` is one order in which the shared channel can deliver both readers' chunks. */
  ghost predicate Interleaving(left: seq<Chunk>, right: seq<Chunk>, merged: seq<Chunk>)
    decreases |merged|
  {
    if merged == [] then left == [] && right == []
    else
      var last := merged[|merged| - 1];
      var front := merged[..|merged| - 1];
      || (left != [] && left[|left| - 1] == last && Interleaving(left[..|left| - 1], right, front))
      || (right != [] && right[|right| - 1] == last && Interleaving(left, right[..|right| - 1], front))
  }

  // ----------------------------------------------------------- tagged bytes

  datatype Tagged = Tagged(stream: Stream, value: byte)

  function Tag(stream: Stream, data: seq<byte>): (t: seq<Tagged>)
    ensures |t| == |data|
  {
    seq(|data|, i requires 0 <= i < |data| => Tagged(stream, data[i]))
  }

  function Untag(tagged: seq<Tagged>): (data: seq<byte>)
    ensures |data| == |tagged|
  {
    seq(|tagged|, i requires 0 <= i < |tagged| => tagged[i].value)
  }

  /** The bytes of one stream, in order. */
  function Project(tagged: seq<Tagged>, stream: Stream): seq<byte> {
    if tagged == [] then []
    else Project(tagged[..|tagged| - 1], stream) +
         (if tagged[|tagged| - 1].stream == stream then [tagged[|tagged| - 1].value] else [])
  }

  /** Both pipes in arrival order. */
  function Arrival(chunks: seq<Chunk>): seq<Tagged> {
    if chunks == [] then []
    else
      var c := chunks[|chunks| - 1];
      Arrival(chunks[..|chunks| - 1]) + (if c.Data? then Tag(c.stream, c.data) else [])
  }

  lemma {:induction false} ProjectConcat(a: seq<Tagged>, b: seq<Tagged>, stream: Stream)
    ensures Project(a + b, stream) == Project(a, stream) + Project(b, stream)
    decreases |b|
  {
    if b == [] {
      assert a + b == a;
    } else {
      assert (a + b)[..|a + b| - 1] == a + b[..|b| - 1];
      ProjectConcat(a, b[..|b| - 1], stream);
    }
  }

  lemma {:induction false} ProjectTag(data: seq<byte>, from: Stream, stream: Stream)
    ensures Project(Tag(from, data), stream) == if from == stream then data else []
    decreases |data|
  {
    if data != [] {
      var front := data[..|data| - 1];
      assert Tag(from, data)[..|data| - 1] == Tag(from, front);
      ProjectTag(front, from, stream);
      assert front + [data[|data| - 1]] == data;
    }
  }

  lemma {:induction false} ProjectLengths(t: seq<Tagged>)
    ensures |Project(t, Stdout)| + |Project(t, Stderr)| == |t|
    decreases |t|
  {
    if t != [] {
      ProjectLengths(t[..|t| - 1]);
    }
  }

  lemma {:induction false} ProjectPrefix(t: seq<Tagged>, n: nat, stream: Stream)
    requires n <= |t|
    ensures Project(t[..n], stream) <= Project(t, stream)
  {
    ProjectConcat(t[..n], t[n..], stream);
    assert t[..n] + t[n..] == t;
  }

  /** Whatever order the channel delivers, each pipe's own bytes stay whole and in order. */
  lemma {:induction false} ArrivalKeepsEachStream(left: seq<Chunk>, right: seq<Chunk>, merged: seq<Chunk>)
    requires Interleaving(left, right, merged)
    requires forall c | c in left :: c.stream == Stdout
    requires forall c | c in right :: c.stream == Stderr
    ensures Project(Arrival(merged), Stdout) == DataOf(left)
    ensures Project(Arrival(merged), Stderr) == DataOf(right)
    decreases |merged|
  {
    if merged != [] {
      var last := merged[|merged| - 1];
      var front := merged[..|merged| - 1];
      if left != [] && left[|left| - 1] == last && Interleaving(left[..|left| - 1], right, front) {
        ArrivalKeepsEachStream(left[..|left| - 1], right, front);
        assert last in left;
      } else {
        ArrivalKeepsEachStream(left, right[..|right| - 1], front);
        assert last in right;
      }
      var added := if last.Data? then Tag(last.stream, last.data) else [];
      forall stream | stream in {Stdout, Stderr}
        ensures Project(Arrival(merged), stream) ==
                Project(Arrival(front), stream) + (if last.Data? && last.stream == stream then last.data else [])
      {
        ProjectConcat(Arrival(front), added, stream);
        if last.Data? {
          ProjectTag(last.data, last.stream, stream);
        }
      }
      assert Stdout in {Stdout, Stderr} && Stderr in {Stdout, Stderr};
    }
  }

  lemma {:induction false} InterleavingElements(left: seq<Chunk>, right: seq<Chunk>, merged: seq<Chunk>, c: Chunk)
    requires Interleaving(left, right, merged)
    ensures c in merged <==> c in left || c in right
    decreases |merged|
  {
    if merged != [] {
      var last := merged[|merged| - 1];
      var front := merged[..|merged| - 1];
      assert merged == front + [last];
      if left != [] && left[|left| - 1] == last && Interleaving(left[..|left| - 1], right, front) {
        InterleavingElements(left[..|left| - 1], right, front, c);
        assert left == left[..|left| - 1] + [last];
      } else {
        InterleavingElements(left, right[..|right| - 1], front, c);
        assert right == right[..|right| - 1] + [last];
      }
    }
  }

  function DoneCount(chunks: seq<Chunk>): nat {
    if chunks == [] then 0
    else DoneCount(chunks[..|chunks| - 1]) + (if chunks[|chunks| - 1].Done? then 1 else 0)
  }

  lemma {:induction false} DoneCountOfTrace(stream: Stream, chunks: seq<Chunk>, n: nat)
    requires ReaderTrace(stream, chunks)
    requires n <= |chunks|
    ensures DoneCount(chunks[..n]) == if n == |chunks| then 1 else 0
    decreases n
  {
    if n > 0 {
      assert chunks[..n][..n - 1] == chunks[..n - 1];
      DoneCountOfTrace(stream, chunks, n - 1);
    }
  }

  lemma {:induction false} DoneCountMerged(left: seq<Chunk>, right: seq<Chunk>, merged: seq<Chunk>)
    requires Interleaving(left, right, merged)
    ensures DoneCount(merged) == DoneCount(left) + DoneCount(right)
    decreases |merged|
  {
    if merged != [] {
      var last := merged[|merged| - 1];
      var front := merged[..|merged| - 1];
      if left != [] && left[|left| - 1] == last && Interleaving(left[..|left| - 1], right, front) {
        DoneCountMerged(left[..|left| - 1], right, front);
      } else {
        DoneCountMerged(left, right[..|right| - 1], front);
      }
    }
  }

  lemma {:induction false} DoneCountMonotone(chunks: seq<Chunk>, n: nat)
    requires n <= |chunks|
    ensures DoneCount(chunks[..n]) <= DoneCount(chunks)
    decreases |chunks| - n
  {
    if n == |chunks| {
      assert chunks[..n] == chunks;
    } else {
      assert chunks[..n + 1][..n] == chunks[..n];
      DoneCountMonotone(chunks, n + 1);
    }
  }

  /** The channel the consumer drains: two complete readers in any interleaving. */
  ghost predicate Channel(left: seq<Chunk>, right: seq<Chunk>, merged: seq<Chunk>) {
    && ReaderTrace(Stdout, left)
    && ReaderTrace(Stderr, right)
    && Interleaving(left, right, merged)
  }

  /** The consumer has seen both `Done` markers exactly when it has drained everything. */
  lemma SecondDoneIsLast(left: seq<Chunk>, right: seq<Chunk>, merged: seq<Chunk>, n: nat)
    requires Channel(left, right, merged)
    requires n <= |merged|
    ensures DoneCount(merged[..n]) <= 2
    ensures DoneCount(merged[..n]) == 2 <==> n == |merged|
  {
    DoneCountOfTrace(Stdout, left, |left|);
    DoneCountOfTrace(Stderr, right, |right|);
    assert left[..|left|] == left && right[..|right|] == right;
    DoneCountMerged(left, right, merged);
    if n < |merged| {
      DoneCountMonotone(merged[..|merged| - 1], n);
      assert merged[..|merged| - 1][..n] == merged[..n];
      assert merged[|merged| - 1].Done?;
    } else {
      assert merged[..n] == merged;
    }
  }

  // ---------------------------------------------------------------- capture

  datatype OutputFrame = OutputFrame(stream: Stream, offset: int, data: seq<byte>)

  datatype CanonicalOutput = CanonicalOutput(stdoutBytes: int, stderrBytes: int, complete: bool, truncated: bool)

  datatype CaptureError = InvalidCapture | ReadFailed(stream: Stream) | SendFailed(frame: nat)

  /** The payload of a frame sequence, in order. */
  function Payload(frames: seq<OutputFrame>): seq<Tagged> {
    if frames == [] then []
    else Payload(frames[..|frames| - 1]) + Tag(frames[|frames| - 1].stream, frames[|frames| - 1].data)
  }

  /** Every frame starts where the earlier frames of its stream stopped. */
  ghost predicate Contiguous(frames: seq<OutputFrame>) {
    forall i | 0 <= i < |frames| ::
      frames[i].offset == |Project(Payload(frames[..i]), frames[i].stream)|
  }

  function Min(a: int, b: int): int { if a < b then a else b }

  /** The frames carry exactly `kept`, each stream without gaps, and the summary counts it. */
  ghost predicate Carries(kept: seq<Tagged>, frames: seq<OutputFrame>, r: CanonicalOutput) {
    && Payload(frames) == kept
    && Contiguous(frames)
    && (forall f | f in frames :: 0 < |f.data| <= READ_BUFFER)
    && r.stdoutBytes == |Project(kept, Stdout)|
    && r.stderrBytes == |Project(kept, Stderr)|
  }

  /** The first `maxBytes` arriving bytes. */
  ghost function Kept(chunks: seq<Chunk>, maxBytes: int): seq<Tagged>
    requires 0 < maxBytes
  {
    Arrival(chunks)[..Min(maxBytes, |Arrival(chunks)|)]
  }

  /** What a capture that started promises: the frames carry exactly the first
      `maxBytes` arriving bytes, and truncation is reported exactly when more arrived. */
  ghost predicate Captured(chunks: seq<Chunk>, maxBytes: int, frames: seq<OutputFrame>, r: CanonicalOutput)
    requires 0 < maxBytes
  {
    && Carries(Kept(chunks, maxBytes), frames, r)
    && (r.truncated <==> |Arrival(chunks)| > maxBytes)
  }

  ghost predicate SomeSendFails(sendFails: nat -> bool, n: nat) {
    exists i: nat :: i < n && sendFails(i)
  }

  /** A chunk gives a frame when it carries data and the budget is not used up. */
  ghost predicate GivesFrame(chunks: seq<Chunk>, i: nat, maxBytes: int)
    requires i < |chunks|
  {
    chunks[i].Data? && |Arrival(chunks[..i])| < maxBytes
  }

  /** How many frames were sent for these chunks. */
  ghost function FrameCount(chunks: seq<Chunk>, maxBytes: int): nat {
    if chunks == [] then 0
    else FrameCount(chunks[..|chunks| - 1], maxBytes) + if GivesFrame(chunks, |chunks| - 1, maxBytes) then 1 else 0
  }

  /** The error that chunk `i` causes. */
  ghost function ErrorAt(chunks: seq<Chunk>, i: nat, maxBytes: int, sendFails: nat -> bool): Option<CaptureError>
    requires i < |chunks|
  {
    var n := FrameCount(chunks[..i], maxBytes);
    if chunks[i].ReadError? then Some(ReadFailed(chunks[i].stream))
    else if GivesFrame(chunks, i, maxBytes) && sendFails(n) then Some(SendFailed(n))
    else None
  }

  /** The error of a capture is that of the first chunk that causes one. */
  ghost predicate IsFirstError(chunks: seq<Chunk>, maxBytes: int, sendFails: nat -> bool, err: Option<CaptureError>) {
    match err
    case None => forall i | 0 <= i < |chunks| :: ErrorAt(chunks, i, maxBytes, sendFails).None?
    case Some(_) =>
      exists i | 0 <= i < |chunks| ::
        && ErrorAt(chunks, i, maxBytes, sendFails) == err
        && forall j | 0 <= j < i :: ErrorAt(chunks, j, maxBytes, sendFails).None?
  }

  lemma ErrorStays(seen: seq<Chunk>, c: Chunk, i: nat, maxBytes: int, sendFails: nat -> bool)
    requires i < |seen|
    ensures ErrorAt(seen + [c], i, maxBytes, sendFails) == ErrorAt(seen, i, maxBytes, sendFails)
  {
    assert (seen + [c])[..i] == seen[..i];
  }

  lemma FirstErrorSnoc(seen: seq<Chunk>, c: Chunk, maxBytes: int, sendFails: nat -> bool, err: Option<CaptureError>)
    requires IsFirstError(seen, maxBytes, sendFails, err)
    ensures var own := ErrorAt(seen + [c], |seen|, maxBytes, sendFails);
            IsFirstError(seen + [c], maxBytes, sendFails, if err.Some? then err else own)
  {
    var all := seen + [c];
    hide ErrorAt;
    forall i | 0 <= i < |seen|
      ensures ErrorAt(all, i, maxBytes, sendFails) == ErrorAt(seen, i, maxBytes, sendFails)
    {
      ErrorStays(seen, c, i, maxBytes, sendFails);
    }
    if err.Some? {
      var i :| 0 <= i < |seen| && ErrorAt(seen, i, maxBytes, sendFails) == err &&
        forall j | 0 <= j < i :: ErrorAt(seen, j, maxBytes, sendFails).None?;
      assert ErrorAt(all, i, maxBytes, sendFails) == err;
    } else {
      assert ErrorAt(all, |seen|, maxBytes, sendFails).Some? ==>
          forall j | 0 <= j < |seen| :: ErrorAt(all, j, maxBytes, sendFails).None?;
    }
  }

  /** The error that the next chunk causes, and the frames sent after it. */
  lemma NextError(seen: seq<Chunk>, c: Chunk, maxBytes: int, sendFails: nat -> bool)
    ensures var room, n := |Arrival(seen)| < maxBytes, FrameCount(seen, maxBytes);
            && FrameCount(seen + [c], maxBytes) == n + (if c.Data? && room then 1 else 0)
            && ErrorAt(seen + [c], |seen|, maxBytes, sendFails) ==
               if c.ReadError? then Some(ReadFailed(c.stream))
               else if c.Data? && room && sendFails(n) then Some(SendFailed(n)) else None
  {
    assert (seen + [c])[..|seen|] == seen;
  }

  lemma TagPrefix(stream: Stream, data: seq<byte>, n: nat)
    requires n <= |data|
    ensures Tag(stream, data)[..n] == Tag(stream, data[..n])
  {
  }

  lemma {:induction false} ArrivalMonotone(chunks: seq<Chunk>, n: nat)
    requires n <= |chunks|
    ensures Arrival(chunks[..n]) <= Arrival(chunks)
    decreases |chunks| - n
  {
    if n == |chunks| {
      assert chunks[..n] == chunks;
    } else {
      assert chunks[..n + 1][..n] == chunks[..n];
      ArrivalMonotone(chunks, n + 1);
    }
  }

  /** Cutting the next chunk at the remaining budget extends the kept prefix by exactly that much. */
  lemma KeptGrows(before: seq<Tagged>, stream: Stream, chunk: seq<byte>, maxBytes: int, cut: nat)
    requires 0 < maxBytes
    requires cut == if |chunk| > maxBytes - Min(maxBytes, |before|) then maxBytes - Min(maxBytes, |before|) else |chunk|
    ensures cut <= |chunk|
    ensures var after := before + Tag(stream, chunk);
            after[..Min(maxBytes, |after|)] == before[..Min(maxBytes, |before|)] + Tag(stream, chunk[..cut])
  {
    var after := before + Tag(stream, chunk);
    if |before| < maxBytes {
      TagPrefix(stream, chunk, cut);
      assert after[..|before| + cut] == before + Tag(stream, chunk)[..cut];
    }
  }

  lemma {:induction false} ContiguousSnoc(frames: seq<OutputFrame>, f: OutputFrame)
    requires Contiguous(frames)
    requires f.offset == |Project(Payload(frames), f.stream)|
    ensures Contiguous(frames + [f])
    ensures Payload(frames + [f]) == Payload(frames) + Tag(f.stream, f.data)
  {
    var all := frames + [f];
    assert all[..|frames|] == frames;
    forall i | 0 <= i < |all|
      ensures all[i].offset == |Project(Payload(all[..i]), all[i].stream)|
    {
      if i < |frames| {
        assert all[..i] == frames[..i] && all[i] == frames[i];
      }
    }
  }

  /** The length of a stream's share after appending bytes tagged `from`. */
  lemma ShareGrows(kept: seq<Tagged>, from: Stream, data: seq<byte>, stream: Stream)
    ensures |Project(kept + Tag(from, data), stream)| ==
            |Project(kept, stream)| + if from == stream then |data| else 0
  {
    ProjectConcat(kept, Tag(from, data), stream);
    ProjectTag(data, from, stream);
  }

  lemma ArrivalSnoc(chunks: seq<Chunk>, c: Chunk)
    ensures Arrival(chunks + [c]) == Arrival(chunks) + if c.Data? then Tag(c.stream, c.data) else []
  {
    assert (chunks + [c])[..|chunks|] == chunks;
  }

  lemma KeptSnoc(chunks: seq<Chunk>, c: Chunk, maxBytes: int, cut: nat)
    requires 0 < maxBytes && c.Data? && c.data != []
    requires cut == Min(|c.data|, maxBytes - |Kept(chunks, maxBytes)|)
    ensures Kept(chunks + [c], maxBytes) == Kept(chunks, maxBytes) + Tag(c.stream, c.data[..cut])
    ensures |Arrival(chunks + [c])| > maxBytes <==> |Arrival(chunks)| > maxBytes || cut != |c.data|
  {
    ArrivalSnoc(chunks, c);
    KeptGrows(Arrival(chunks), c.stream, c.data, maxBytes, cut);
  }

  /** The next frame and the counters after sending `data` from `stream`; nothing is sent for no bytes. */
  function Sent(frames: seq<OutputFrame>, r: CanonicalOutput, stream: Stream, data: seq<byte>): seq<OutputFrame> {
    if data == [] then frames
    else frames + [OutputFrame(stream, if stream == Stdout then r.stdoutBytes else r.stderrBytes, data)]
  }

  function Counted(r: CanonicalOutput, stream: Stream, n: nat, cut: bool): CanonicalOutput {
    r.(stdoutBytes := r.stdoutBytes + (if stream == Stdout then n else 0),
       stderrBytes := r.stderrBytes + (if stream == Stderr then n else 0),
       truncated := r.truncated || cut)
  }

  lemma {:induction false} CarriesMore(kept: seq<Tagged>, frames: seq<OutputFrame>, r: CanonicalOutput, stream: Stream,
                                       data: seq<byte>, cut: bool)
    requires Carries(kept, frames, r)
    requires |data| <= READ_BUFFER
    ensures Carries(kept + Tag(stream, data), Sent(frames, r, stream, data), Counted(r, stream, |data|, cut))
  {
    ShareGrows(kept, stream, data, Stdout);
    ShareGrows(kept, stream, data, Stderr);
    if data == [] {
      assert kept + Tag(stream, data) == kept;
    } else {
      ContiguousSnoc(frames, Sent(frames, r, stream, data)[|frames|]);
    }
  }

  /** One data chunk, cut at the budget, keeps the capture promise. */
  lemma CaptureStep(chunks: seq<Chunk>, c: Chunk, maxBytes: int, frames: seq<OutputFrame>, r: CanonicalOutput, cut: nat)
    requires 0 < maxBytes && c.Data? && 0 < |c.data| <= READ_BUFFER
    requires Captured(chunks, maxBytes, frames, r)
    requires cut == Min(|c.data|, maxBytes - |Payload(frames)|)
    ensures Captured(chunks + [c], maxBytes, Sent(frames, r, c.stream, c.data[..cut]),
                     Counted(r, c.stream, cut, cut != |c.data|))
    ensures |Payload(Sent(frames, r, c.stream, c.data[..cut]))| == |Payload(frames)| + cut
  {
    KeptSnoc(chunks, c, maxBytes, cut);
    CarriesMore(Kept(chunks, maxBytes), frames, r, c.stream, c.data[..cut], cut != |c.data|);
  }

  /** A chunk without data changes nothing that was captured. */
  lemma CaptureSkip(chunks: seq<Chunk>, c: Chunk, maxBytes: int, frames: seq<OutputFrame>, r: CanonicalOutput)
    requires 0 < maxBytes && !c.Data?
    requires Captured(chunks, maxBytes, frames, r)
    ensures Captured(chunks + [c], maxBytes, frames, r)
  {
    ArrivalSnoc(chunks, c);
    assert Arrival(chunks) + [] == Arrival(chunks);
  }

  lemma HasReadErrorSnoc(chunks: seq<Chunk>, c: Chunk)
    ensures HasReadError(chunks + [c]) <==> HasReadError(chunks) || c.ReadError?
  {
    var all := chunks + [c];
    if c.ReadError? {
      assert all[|chunks|].ReadError?;
    }
    if HasReadError(chunks) {
      var k :| 0 <= k < |chunks| && chunks[k].ReadError?;
      assert all[k].ReadError?;
    }
  }

  lemma NextChunk(left: seq<Chunk>, right: seq<Chunk>, chunks: seq<Chunk>, i: nat)
    requires Channel(left, right, chunks)
    requires i <= |chunks| && DoneCount(chunks[..i]) < 2
    ensures i < |chunks|
    ensures chunks[..i + 1] == chunks[..i] + [chunks[i]]
    ensures DoneCount(chunks[..i + 1]) == DoneCount(chunks[..i]) + if chunks[i].Done? then 1 else 0
    ensures chunks[i].Data? ==> 0 < |chunks[i].data| <= READ_BUFFER
  {
    SecondDoneIsLast(left, right, chunks, i);
    assert chunks[..i + 1][..i] == chunks[..i];
    InterleavingElements(left, right, chunks, chunks[i]);
  }

  lemma SendFailsNext(sendFails: nat -> bool, n: nat)
    ensures SomeSendFails(sendFails, n + 1) <==> SomeSendFails(sendFails, n) || sendFails(n)
  {
  }

  /** The consumer's handling of one data chunk: cut it at the budget, send what is left, count it. */
  method Forward(stream: Stream, chunk: seq<byte>, remaining: int, sendFails: nat -> bool,
                 frames: seq<OutputFrame>, r: CanonicalOutput, err: Option<CaptureError>)
    returns (frames': seq<OutputFrame>, r': CanonicalOutput, err': Option<CaptureError>, remaining': int)
    requires 0 <= remaining
    ensures var cut := Min(|chunk|, remaining);
            && frames' == Sent(frames, r, stream, chunk[..cut])
            && r' == Counted(r, stream, cut, cut != |chunk|)
            && remaining' == remaining - cut
            && err' == if cut > 0 && err.None? && sendFails(|frames|) then Some(SendFailed(|frames|)) else err
  {
    frames', r', err', remaining' := frames, r, err, remaining;
    var data := chunk;
    if |data| > remaining {
      data := if remaining > 0 then data[..remaining] else [];
      r' := r'.(truncated := true);
    }
    if |data| > 0 {
      var offset := if stream == Stdout then r.stdoutBytes else r.stderrBytes;
      if sendFails(|frames|) && err.None? {
        err' := Some(SendFailed(|frames|));
      }
      frames' := frames + [OutputFrame(stream, offset, data)];
      remaining' := remaining - |data|;
      if stream == Stdout {
        r' := r'.(stdoutBytes := r'.stdoutBytes + |data|);
      } else {
        r' := r'.(stderrBytes := r'.stderrBytes + |data|);
      }
    }
    assert data == chunk[..Min(|chunk|, remaining)];
    if |data| != |chunk| {
      r' := r'.(truncated := true);
    }
  }

  /** Where the consumer stands after draining `seen`. */
  ghost predicate Progress(seen: seq<Chunk>, maxBytes: int, sendFails: nat -> bool, frames: seq<OutputFrame>,
                           r: CanonicalOutput, err: Option<CaptureError>, remaining: int, done: int)
  {
    && 0 < maxBytes
    && Captured(seen, maxBytes, frames, r)
    && 0 <= remaining == maxBytes - |Payload(frames)|
    && done == DoneCount(seen)
    && (err.Some? <==> HasReadError(seen) || SomeSendFails(sendFails, |frames|))
    && IsFirstError(seen, maxBytes, sendFails, err) && |frames| == FrameCount(seen, maxBytes)
  }

  /** The budget is used up when as much as it arrived. */
  lemma RoomLeft(seen: seq<Chunk>, maxBytes: int, frames: seq<OutputFrame>, r: CanonicalOutput)
    requires 0 < maxBytes && Captured(seen, maxBytes, frames, r)
    ensures maxBytes - |Payload(frames)| > 0 <==> |Arrival(seen)| < maxBytes
  {
  }

  lemma ProgressData(seen: seq<Chunk>, c: Chunk, maxBytes: int, sendFails: nat -> bool, frames: seq<OutputFrame>,
                     r: CanonicalOutput, err: Option<CaptureError>, remaining: int, done: int)
    requires Progress(seen, maxBytes, sendFails, frames, r, err, remaining, done)
    requires c.Data? && 0 < |c.data| <= READ_BUFFER
    ensures var cut := Min(|c.data|, remaining);
            Progress(seen + [c], maxBytes, sendFails, Sent(frames, r, c.stream, c.data[..cut]),
                     Counted(r, c.stream, cut, cut != |c.data|),
                     if cut > 0 && err.None? && sendFails(|frames|) then Some(SendFailed(|frames|)) else err,
                     remaining - cut, done)
  {
    hide Captured, Payload, HasReadError, SomeSendFails, DoneCount, IsFirstError, ErrorAt, FrameCount;
    RoomLeft(seen, maxBytes, frames, r);
    FirstErrorSnoc(seen, c, maxBytes, sendFails, err);
    NextError(seen, c, maxBytes, sendFails);
    CaptureStep(seen, c, maxBytes, frames, r, Min(|c.data|, remaining));
    SendFailsNext(sendFails, |frames|);
    HasReadErrorSnoc(seen, c);
    DoneCountSnoc(seen, c);
  }

  lemma DoneCountSnoc(seen: seq<Chunk>, c: Chunk)
    ensures DoneCount(seen + [c]) == DoneCount(seen) + if c.Done? then 1 else 0
  {
    assert (seen + [c])[..|seen|] == seen;
  }

  lemma ProgressOther(seen: seq<Chunk>, c: Chunk, maxBytes: int, sendFails: nat -> bool, frames: seq<OutputFrame>,
                      r: CanonicalOutput, err: Option<CaptureError>, remaining: int, done: int)
    requires Progress(seen, maxBytes, sendFails, frames, r, err, remaining, done)
    requires !c.Data?
    ensures Progress(seen + [c], maxBytes, sendFails, frames, r,
                     if c.ReadError? && err.None? then Some(ReadFailed(c.stream)) else err,
                     remaining, done + if c.Done? then 1 else 0)
  {
    hide Captured, Payload, HasReadError, SomeSendFails, DoneCount, IsFirstError, ErrorAt, FrameCount;
    FirstErrorSnoc(seen, c, maxBytes, sendFails, err);
    NextError(seen, c, maxBytes, sendFails);
    CaptureSkip(seen, c, maxBytes, frames, r);
    HasReadErrorSnoc(seen, c);
    DoneCountSnoc(seen, c);
  }

  lemma ProgressStart(maxBytes: int, sendFails: nat -> bool)
    requires 0 < maxBytes
    ensures Progress([], maxBytes, sendFails, [], CanonicalOutput(0, 0, false, false), None, maxBytes, 0)
  {
  }

  lemma CompletenessIsSeparate(chunks: seq<Chunk>, maxBytes: int, frames: seq<OutputFrame>, r: CanonicalOutput,
                               complete: bool)
    requires 0 < maxBytes && Captured(chunks, maxBytes, frames, r)
    ensures Captured(chunks, maxBytes, frames, r.(complete := complete))
  {
    hide Arrival, Kept, Payload, Project, Contiguous;
  }

  /** output.go `CaptureOutput`: one consumer draining both readers under one byte budget. */
  method CaptureOutput(havePipes: bool, chunks: seq<Chunk>, maxBytes: int, sendFails: nat -> bool,
                       ghost left: seq<Chunk>, ghost right: seq<Chunk>)
    returns (r: CanonicalOutput, frames: seq<OutputFrame>, err: Option<CaptureError>)
    requires Channel(left, right, chunks)
    ensures !havePipes || maxBytes < 1 ==>
              frames == [] && err == Some(InvalidCapture) && r == CanonicalOutput(0, 0, false, false)
    ensures havePipes && 0 < maxBytes ==>
              && Captured(chunks, maxBytes, frames, r)
              && (err.Some? <==> HasReadError(chunks) || SomeSendFails(sendFails, |frames|))
              && IsFirstError(chunks, maxBytes, sendFails, err)
              && (r.complete <==> err.None? && !r.truncated)
  {
    hide Channel, Captured, Payload, HasReadError, SomeSendFails, DoneCount, Sent, Counted, IsFirstError, FrameCount;
    r, frames, err := CanonicalOutput(0, 0, false, false), [], None;
    if !havePipes || maxBytes < 1 {
      err := Some(InvalidCapture);
      return;
    }
    var remaining, done, i := maxBytes, 0, 0;
    ProgressStart(maxBytes, sendFails);
    assert chunks[..0] == [];
    while done < 2
      invariant 0 <= i <= |chunks|
      invariant Progress(chunks[..i], maxBytes, sendFails, frames, r, err, remaining, done)
      decreases |chunks| - i
    {
      NextChunk(left, right, chunks, i);
      var chunk := chunks[i];
      if chunk.Data? {
        ProgressData(chunks[..i], chunk, maxBytes, sendFails, frames, r, err, remaining, done);
        frames, r, err, remaining := Forward(chunk.stream, chunk.data, remaining, sendFails, frames, r, err);
      } else {
        ProgressOther(chunks[..i], chunk, maxBytes, sendFails, frames, r, err, remaining, done);
        if chunk.Done? {
          done := done + 1;
        } else if err.None? {
          err := Some(ReadFailed(chunk.stream));
        }
      }
      i := i + 1;
    }
    SecondDoneIsLast(left, right, chunks, i);
    assert chunks[..i] == chunks;
    CompletenessIsSeparate(chunks, maxBytes, frames, r, err.None? && !r.truncated);
    r := r.(complete := err.None? && !r.truncated);
  }

  // --------------------------------------------------------------- receiver

  /** The identity a terminal frame must repeat. */
  datatype Binding = Binding(contextExecId: string, fingerprint: string, context: string, helper: Option<string>)

  datatype Terminal = Terminal(wellFormed: bool, childTerminal: bool, authority: string, binding: Binding,
                               stdoutBytes: int, stderrBytes: int)

  /** One frame as the daemon finds it. `Stray` is a prepared or spawn frame, which the receiver
      skips; `Refused` is any frame whose envelope, kind or JSON it rejects. */
  datatype Incoming = Output(frame: OutputFrame) | Final(terminal: Terminal) | Stray | Refused

  datatype Received = Received(stdout: seq<byte>, stderr: seq<byte>, combined: seq<byte>, terminal: Terminal)

  datatype Execution = Execution(binding: Binding, maxOutputBytes: int)

  function Outputs(incoming: seq<Incoming>): seq<OutputFrame> {
    if incoming == [] then []
    else Outputs(incoming[..|incoming| - 1]) +
         (if incoming[|incoming| - 1].Output? then [incoming[|incoming| - 1].frame] else [])
  }

  /** protocol.go `OutputFrame.Validate`, for a frame that names one of the two streams. */
  predicate ValidFrame(f: OutputFrame) {
    0 <= f.offset && |f.data| <= MAX_FRAME_BYTES / 2
  }

  /** The receiver lets frame `i` pass and keeps reading. */
  ghost predicate Passes(incoming: seq<Incoming>, i: nat, state: Execution)
    requires i < |incoming|
  {
    var before := Payload(Outputs(incoming[..i]));
    match incoming[i]
    case Stray => true
    case Output(f) =>
      && ValidFrame(f)
      && f.offset == |Project(before, f.stream)|
      && |before| + |f.data| <= state.maxOutputBytes
    case Final(_) => false
    case Refused => false
  }

  ghost predicate TerminalAccepted(t: Terminal, state: Execution, before: seq<Tagged>) {
    && t.wellFormed
    && t.childTerminal && t.authority == ""
    && t.binding == state.binding && state.binding.helper.Some?
    && t.stdoutBytes == |Project(before, Stdout)|
    && t.stderrBytes == |Project(before, Stderr)|
  }

  /** The exchange ends with a result at frame `n`. */
  ghost predicate EndsAt(incoming: seq<Incoming>, n: nat, cancelled: nat -> bool, state: Execution) {
    && n < |incoming|
    && (forall i: nat | i <= n :: !cancelled(i))
    && (forall i: nat | i < n :: Passes(incoming, i, state))
    && incoming[n].Final?
    && TerminalAccepted(incoming[n].terminal, state, Payload(Outputs(incoming[..n])))
  }

  /** The three buffers hold exactly the payload: each stream its share, `combined` all of it. */
  ghost predicate Holds(payload: seq<Tagged>, stdout: seq<byte>, stderr: seq<byte>, combined: seq<byte>) {
    stdout == Project(payload, Stdout) && stderr == Project(payload, Stderr) && combined == Untag(payload)
  }

  lemma OutputsSnoc(incoming: seq<Incoming>, i: nat)
    requires i < |incoming|
    ensures Outputs(incoming[..i + 1]) ==
            Outputs(incoming[..i]) + if incoming[i].Output? then [incoming[i].frame] else []
  {
    assert incoming[..i + 1][..i] == incoming[..i];
  }

  lemma PayloadSnoc(frames: seq<OutputFrame>, f: OutputFrame)
    ensures Payload(frames + [f]) == Payload(frames) + Tag(f.stream, f.data)
  {
    assert (frames + [f])[..|frames|] == frames;
  }

  lemma UntagConcat(payload: seq<Tagged>, stream: Stream, data: seq<byte>)
    ensures Untag(payload + Tag(stream, data)) == Untag(payload) + data
  {
  }

  lemma ProjectMore(payload: seq<Tagged>, from: Stream, data: seq<byte>, stream: Stream)
    ensures Project(payload + Tag(from, data), stream) ==
            if from == stream then Project(payload, stream) + data else Project(payload, stream)
  {
    ProjectConcat(payload, Tag(from, data), stream);
    ProjectTag(data, from, stream);
  }

  lemma HoldsMore(payload: seq<Tagged>, stdout: seq<byte>, stderr: seq<byte>, combined: seq<byte>,
                  stream: Stream, data: seq<byte>)
    requires Holds(payload, stdout, stderr, combined)
    ensures Holds(payload + Tag(stream, data), if stream == Stdout then stdout + data else stdout,
                  if stream == Stderr then stderr + data else stderr, combined + data)
  {
    ProjectMore(payload, stream, data, Stdout);
    ProjectMore(payload, stream, data, Stderr);
    UntagConcat(payload, stream, data);
  }

  lemma FrameBeforeEndPasses(incoming: seq<Incoming>, m: nat, n: nat, cancelled: nat -> bool, state: Execution)
    requires m < n && EndsAt(incoming, n, cancelled, state)
    ensures !EndsAt(incoming, m, cancelled, state)
  {
    assert Passes(incoming, m, state);
  }

  lemma EndsAtIsUnique(incoming: seq<Incoming>, m: nat, n: nat, cancelled: nat -> bool, state: Execution)
    requires EndsAt(incoming, m, cancelled, state) && EndsAt(incoming, n, cancelled, state)
    ensures m == n
  {
    if m < n {
      FrameBeforeEndPasses(incoming, m, n, cancelled, state);
    } else if n < m {
      FrameBeforeEndPasses(incoming, n, m, cancelled, state);
    }
  }

  /** A frame that neither passes nor ends the exchange refuses every later result. */
  lemma NoLaterEnd(incoming: seq<Incoming>, i: nat, cancelled: nat -> bool, state: Execution)
    requires i <= |incoming| && (forall k: nat | k < i :: Passes(incoming, k, state))
    requires i < |incoming| && !cancelled(i) ==> !Passes(incoming, i, state) && !EndsAt(incoming, i, cancelled, state)
    ensures !exists n: nat :: EndsAt(incoming, n, cancelled, state)
  {
    forall n: nat
      ensures !EndsAt(incoming, n, cancelled, state)
    {
      if n < i {
        assert Passes(incoming, n, state);
      }
    }
  }

  /** Where the receiver stands before reading frame `i`. */
  ghost predicate Receiving(incoming: seq<Incoming>, i: nat, cancelled: nat -> bool, state: Execution,
                            stdout: seq<byte>, stderr: seq<byte>, combined: seq<byte>)
  {
    && i <= |incoming|
    && (forall k: nat | k < i :: !cancelled(k) && Passes(incoming, k, state))
    && Holds(Payload(Outputs(incoming[..i])), stdout, stderr, combined)
  }

  lemma ReceivingStart(incoming: seq<Incoming>, cancelled: nat -> bool, state: Execution)
    ensures Receiving(incoming, 0, cancelled, state, [], [], [])
  {
    assert incoming[..0] == [];
  }

  lemma ReceivingTotals(incoming: seq<Incoming>, i: nat, cancelled: nat -> bool, state: Execution,
                        stdout: seq<byte>, stderr: seq<byte>, combined: seq<byte>)
    requires Receiving(incoming, i, cancelled, state, stdout, stderr, combined)
    ensures i <= |incoming|
    ensures var before := Payload(Outputs(incoming[..i]));
            |before| == |stdout| + |stderr| && |Project(before, Stdout)| == |stdout| &&
              |Project(before, Stderr)| == |stderr|
  {
    ProjectLengths(Payload(Outputs(incoming[..i])));
  }

  /** A frame that passes leaves the receiver with its bytes appended. */
  lemma ReceivingNext(incoming: seq<Incoming>, i: nat, cancelled: nat -> bool, state: Execution,
                      stdout: seq<byte>, stderr: seq<byte>, combined: seq<byte>)
    requires Receiving(incoming, i, cancelled, state, stdout, stderr, combined)
    requires i < |incoming| && !cancelled(i) && Passes(incoming, i, state)
    ensures incoming[i].Stray? ==> Receiving(incoming, i + 1, cancelled, state, stdout, stderr, combined)
    ensures incoming[i].Output? ==>
              var f := incoming[i].frame;
              Receiving(incoming, i + 1, cancelled, state, if f.stream == Stdout then stdout + f.data else stdout,
                        if f.stream == Stderr then stderr + f.data else stderr, combined + f.data)
  {
    OutputsSnoc(incoming, i);
    var frames := Outputs(incoming[..i]);
    if incoming[i].Output? {
      var f := incoming[i].frame;
      PayloadSnoc(frames, f);
      HoldsMore(Payload(frames), stdout, stderr, combined, f.stream, f.data);
    } else {
      assert frames + [] == frames;
    }
  }

  /** A result is what the contract of the receiver asks for. */
  ghost predicate IsResult(incoming: seq<Incoming>, cancelled: nat -> bool, state: Execution, r: Option<Received>) {
    && (r.Some? <==> exists n: nat :: EndsAt(incoming, n, cancelled, state))
    && (forall n: nat | EndsAt(incoming, n, cancelled, state) ::
          && r.Some?
          && r.value.terminal == incoming[n].terminal
          && Holds(Payload(Outputs(incoming[..n])), r.value.stdout, r.value.stderr, r.value.combined))
  }

  lemma NoResult(incoming: seq<Incoming>, i: nat, cancelled: nat -> bool, state: Execution,
                 stdout: seq<byte>, stderr: seq<byte>, combined: seq<byte>)
    requires Receiving(incoming, i, cancelled, state, stdout, stderr, combined)
    requires i < |incoming| && !cancelled(i) ==>
               && !Passes(incoming, i, state)
               && !(incoming[i].Final? &&
                  TerminalAccepted(incoming[i].terminal, state, Payload(Outputs(incoming[..i]))))
    ensures IsResult(incoming, cancelled, state, None)
  {
    hide Passes, TerminalAccepted, Holds;
    NoLaterEnd(incoming, i, cancelled, state);
  }

  lemma ReceivingEnds(incoming: seq<Incoming>, i: nat, cancelled: nat -> bool, state: Execution,
                      stdout: seq<byte>, stderr: seq<byte>, combined: seq<byte>)
    requires Receiving(incoming, i, cancelled, state, stdout, stderr, combined)
    requires i < |incoming| && !cancelled(i) && incoming[i].Final?
    requires TerminalAccepted(incoming[i].terminal, state, Payload(Outputs(incoming[..i])))
    ensures IsResult(incoming, cancelled, state, Some(Received(stdout, stderr, combined, incoming[i].terminal)))
  {
    assert EndsAt(incoming, i, cancelled, state);
    forall n: nat | EndsAt(incoming, n, cancelled, state)
      ensures n == i
    {
      EndsAtIsUnique(incoming, n, i, cancelled, state);
    }
  }

  /** server.go `receiveResult`: a result is returned exactly when some prefix of the exchange
      is gap-free, within bounds and closed by a terminal frame that agrees with it. */
  method ReceiveResult(incoming: seq<Incoming>, cancelled: nat -> bool, state: Execution) returns (r: Option<Received>)
    ensures IsResult(incoming, cancelled, state, r)
  {
    var stdout: seq<byte>, stderr: seq<byte>, combined: seq<byte> := [], [], [];
    var offsets := map[Stdout := 0, Stderr := 0];
    hide Outputs, Payload, Project, Receiving, IsResult;
    var i := 0;
    ReceivingStart(incoming, cancelled, state);
    while i < |incoming|
      invariant 0 <= i <= |incoming|
      invariant Receiving(incoming, i, cancelled, state, stdout, stderr, combined)
      invariant Stdout in offsets && offsets[Stdout] == |stdout|
      invariant Stderr in offsets && offsets[Stderr] == |stderr|
    {
      ReceivingTotals(incoming, i, cancelled, state, stdout, stderr, combined);
      if cancelled(i) {
        break;
      }
      match incoming[i] {
        case Stray =>
          ReceivingNext(incoming, i, cancelled, state, stdout, stderr, combined);
        case Refused =>
          break;
        case Output(f) =>
          assert f.stream == Stdout || f.stream == Stderr;
          if !ValidFrame(f) || f.offset != offsets[f.stream] {
            break;
          }
          if offsets[Stdout] + offsets[Stderr] + |f.data| > state.maxOutputBytes {
            break;
          }
          ReceivingNext(incoming, i, cancelled, state, stdout, stderr, combined);
          offsets := offsets[f.stream := offsets[f.stream] + |f.data|];
          combined := combined + f.data;
          if f.stream == Stdout {
            stdout := stdout + f.data;
          } else {
            stderr := stderr + f.data;
          }
        case Final(t) =>
          if !t.wellFormed || !t.childTerminal || t.authority != "" {
            break;
          }
          if t.binding != state.binding || state.binding.helper.None? {
            break;
          }
          if t.stdoutBytes != offsets[Stdout] || t.stderrBytes != offsets[Stderr] {
            break;
          }
          ReceivingEnds(incoming, i, cancelled, state, stdout, stderr, combined);
          return Some(Received(stdout, stderr, combined, t));
      }
      i := i + 1;
    }
    ReceivingTotals(incoming, i, cancelled, state, stdout, stderr, combined);
    NoResult(incoming, i, cancelled, state, stdout, stderr, combined);
    return None;
  }

  /** The frames up to `n` are an exchange the daemon may take as a result: stray frames and outputs of at
      most 64 KiB, the outputs of each stream without gaps and together within the bound, closed by a
      terminal frame for this very request that counts them. */
  ghost predicate SoundExchange(incoming: seq<Incoming>, n: nat, state: Execution)
    requires n < |incoming|
  {
    var outputs := Outputs(incoming[..n]);
    var payload := Payload(outputs);
    && (forall i | 0 <= i < n :: incoming[i].Stray? || incoming[i].Output?)
    && SoundOutputs(outputs, state)
    && state.binding.helper.Some?
    && incoming[n] == Final(Terminal(true, true, "", state.binding, |Project(payload, Stdout)|,
                                     |Project(payload, Stderr)|))
  }

  ghost predicate SoundOutputs(outputs: seq<OutputFrame>, state: Execution) {
    && (forall f | f in outputs :: |f.data| <= 64 * 1024)
    && Contiguous(outputs) && (outputs != [] ==> |Payload(outputs)| <= state.maxOutputBytes)
  }

  lemma OneMoreOutput(outputs: seq<OutputFrame>, f: OutputFrame, state: Execution)
    requires SoundOutputs(outputs, state) && |f.data| <= 64 * 1024
    requires f.offset == |Project(Payload(outputs), f.stream)| && |Payload(outputs)| + |f.data| <= state.maxOutputBytes
    ensures SoundOutputs(outputs + [f], state)
  {
    hide Project;
    ContiguousSnoc(outputs, f);
    hide Payload, Contiguous;
  }

  /** The frames passed one by one make up a sound exchange so far. */
  lemma {:induction false} PassingIsContiguous(incoming: seq<Incoming>, n: nat, state: Execution)
    requires n <= |incoming| && forall i: nat | i < n :: Passes(incoming, i, state)
    ensures forall i | 0 <= i < n :: incoming[i].Stray? || incoming[i].Output?
    ensures SoundOutputs(Outputs(incoming[..n]), state)
    decreases n
  {
    if n == 0 {
      assert incoming[..0] == [];
    } else {
      PassingIsContiguous(incoming, n - 1, state);
      OutputsSnoc(incoming, n - 1);
      assert Passes(incoming, n - 1, state);
      hide Outputs, Payload, Project, SoundOutputs;
      if incoming[n - 1].Output? {
        OneMoreOutput(Outputs(incoming[..n - 1]), incoming[n - 1].frame, state);
      } else {
        assert incoming[n - 1].Stray?;
        assert Outputs(incoming[..n - 1]) + [] == Outputs(incoming[..n - 1]);
      }
    }
  }

  lemma SoundFramePasses(incoming: seq<Incoming>, i: nat, n: nat, state: Execution)
    requires i < n < |incoming| && SoundExchange(incoming, n, state)
    ensures Passes(incoming, i, state)
  {
    OutputsPrefix(incoming, i, n);
    hide Outputs, Payload, Project;
    if incoming[i].Output? {
      var outputs, part := Outputs(incoming[..n]), Outputs(incoming[..i]);
      var k := |part|;
      assert part == outputs[..k] && outputs[k] == incoming[i].frame;
      OutputsBounded(outputs, k);
      assert outputs[k] in outputs;
    }
  }

  /** What a result means: it is given exactly for a sound exchange during which the daemon was not
      cancelled, and holds its outputs, each stream's on its own and all of them in order, and its terminal. */
  lemma ResultExactlyWhen(incoming: seq<Incoming>, cancelled: nat -> bool, state: Execution, r: Option<Received>)
    requires IsResult(incoming, cancelled, state, r)
    ensures r.Some? <==>
            exists n: nat :: n < |incoming| && SoundExchange(incoming, n, state) && Uncancelled(cancelled, n)
    ensures forall n: nat | n < |incoming| && SoundExchange(incoming, n, state) && Uncancelled(cancelled, n) ::
              var payload := Payload(Outputs(incoming[..n]));
              r == Some(Received(Project(payload, Stdout), Project(payload, Stderr), Untag(payload),
                                 incoming[n].terminal))
  {
    forall n: nat | n < |incoming|
      ensures SoundExchange(incoming, n, state) && Uncancelled(cancelled, n) <==> EndsAt(incoming, n, cancelled, state)
    {
      EndsAtSound(incoming, n, cancelled, state);
    }
    hide SoundExchange, Uncancelled, EndsAt, Outputs, Payload, Project;
    if r.Some? {
      var n: nat :| EndsAt(incoming, n, cancelled, state);
      EndsInside(incoming, n, cancelled, state);
      assert n < |incoming| && SoundExchange(incoming, n, state) && Uncancelled(cancelled, n);
    }
  }

  lemma EndsInside(incoming: seq<Incoming>, n: nat, cancelled: nat -> bool, state: Execution)
    requires EndsAt(incoming, n, cancelled, state)
    ensures n < |incoming| && incoming[n].Final?
  {
  }

  ghost predicate Uncancelled(cancelled: nat -> bool, n: nat) { forall i: nat | i <= n :: !cancelled(i) }

  lemma EndsAtSound(incoming: seq<Incoming>, n: nat, cancelled: nat -> bool, state: Execution)
    requires n < |incoming|
    ensures SoundExchange(incoming, n, state) && Uncancelled(cancelled, n) <==> EndsAt(incoming, n, cancelled, state)
  {
    if EndsAt(incoming, n, cancelled, state) {
      hide Outputs, Payload, Project, Contiguous, Passes;
      PassingIsContiguous(incoming, n, state);
    }
    if SoundExchange(incoming, n, state) {
      forall i: nat | i < n
        ensures Passes(incoming, i, state)
      {
        SoundFramePasses(incoming, i, n, state);
      }
      hide Passes, Outputs, Payload, Project, Contiguous;
    }
  }

  // ------------------------------------------------------------ composition

  /** The helper's terminal frame for a capture, carrying the counts it reports. */
  function TerminalFor(binding: Binding, r: CanonicalOutput): Terminal {
    Terminal(true, true, "", binding, r.stdoutBytes, r.stderrBytes)
  }

  lemma {:induction false} OutputsBounded(frames: seq<OutputFrame>, i: nat)
    requires i < |frames|
    ensures |Payload(frames[..i])| + |frames[i].data| <= |Payload(frames)|
    decreases |frames|
  {
    var front := frames[..|frames| - 1];
    if i < |frames| - 1 {
      OutputsBounded(front, i);
      assert front[..i] == frames[..i];
    }
  }

  /** The outputs among the first `i` frames are the first few of all outputs. */
  lemma {:induction false} OutputsPrefix(incoming: seq<Incoming>, i: nat, n: nat)
    requires i <= n <= |incoming|
    ensures var part := Outputs(incoming[..i]);
            part <= Outputs(incoming[..n]) &&
            (i < n && incoming[i].Output? ==>
              |part| < |Outputs(incoming[..n])| && Outputs(incoming[..n])[|part|] == incoming[i].frame)
    decreases n - i
  {
    if i < n {
      OutputsSnoc(incoming, i);
      OutputsPrefix(incoming, i + 1, n);
    }
  }

  /** Every frame the capture emitted passes the receiver, whatever stray frames lie between. */
  lemma {:induction false} CapturedFramePasses(frames: seq<OutputFrame>, kept: seq<Tagged>, r: CanonicalOutput,
                                               incoming: seq<Incoming>, n: nat, i: nat, state: Execution)
    requires Carries(kept, frames, r) && |kept| <= state.maxOutputBytes
    requires i < n <= |incoming| && Outputs(incoming[..n]) == frames
    requires incoming[i].Output? || incoming[i].Stray?
    ensures Passes(incoming, i, state)
  {
    OutputsPrefix(incoming, i, n);
    if incoming[i].Output? {
      var k := |Outputs(incoming[..i])|;
      assert Outputs(incoming[..i]) == frames[..k];
      OutputsBounded(frames, k);
      assert frames[k] in frames;
    }
  }

  /** What the byte budget keeps, in terms of what each pipe produced. */
  ghost predicate KeepsPrefixes(kept: seq<Tagged>, stdout: seq<byte>, stderr: seq<byte>, maxBytes: int) {
    && |kept| == Min(maxBytes, |stdout| + |stderr|)
    && Project(kept, Stdout) <= stdout
    && Project(kept, Stderr) <= stderr
  }

  /** For every interleaving, the budget keeps a prefix of each pipe, and cuts exactly when both
      pipes together produced more than the budget. */
  lemma {:induction false} BudgetKeepsPrefixes(left: seq<Chunk>, right: seq<Chunk>, chunks: seq<Chunk>, maxBytes: int)
    requires Channel(left, right, chunks)
    requires 0 < maxBytes
    ensures KeepsPrefixes(Kept(chunks, maxBytes), DataOf(left), DataOf(right), maxBytes)
    ensures |Arrival(chunks)| == |DataOf(left)| + |DataOf(right)|
  {
    ArrivalKeepsEachStream(left, right, chunks);
    KeptPrefixes(Arrival(chunks), Min(maxBytes, |Arrival(chunks)|));
  }

  lemma KeptPrefixes(t: seq<Tagged>, n: nat)
    requires n <= |t|
    ensures |Project(t, Stdout)| + |Project(t, Stderr)| == |t|
    ensures Project(t[..n], Stdout) <= Project(t, Stdout)
    ensures Project(t[..n], Stderr) <= Project(t, Stderr)
  {
    ProjectLengths(t);
    ProjectPrefix(t, n, Stdout);
    ProjectPrefix(t, n, Stderr);
  }

  /** The exchange carries `frames` and then their terminal, with only stray frames between. */
  ghost predicate Exchange(incoming: seq<Incoming>, n: nat, frames: seq<OutputFrame>, terminal: Terminal) {
    && n < |incoming| && incoming[n] == Final(terminal)
    && (forall i | 0 <= i < n :: incoming[i].Output? || incoming[i].Stray?)
    && Outputs(incoming[..n]) == frames
  }

  /** The frames of a capture, closed by the terminal built from its summary, are all accepted,
      and the payload the daemon takes is exactly what the frames carry. */
  lemma {:induction false} CaptureIsReceived(kept: seq<Tagged>, frames: seq<OutputFrame>, summary: CanonicalOutput,
                                             state: Execution, incoming: seq<Incoming>, n: nat, cancelled: nat -> bool)
    requires Carries(kept, frames, summary) && |kept| <= state.maxOutputBytes
    requires state.binding.helper.Some?
    requires Exchange(incoming, n, frames, TerminalFor(state.binding, summary))
    requires forall i: nat | i <= n :: !cancelled(i)
    ensures EndsAt(incoming, n, cancelled, state)
    ensures Payload(Outputs(incoming[..n])) == kept
  {
    forall i: nat | i < n
      ensures Passes(incoming, i, state)
    {
      CapturedFramePasses(frames, kept, summary, incoming, n, i, state);
    }
  }

  /** An exchange without a terminal frame never yields a result. */
  lemma NoTerminalNoResult(incoming: seq<Incoming>, cancelled: nat -> bool, state: Execution)
    requires forall i | 0 <= i < |incoming| :: !incoming[i].Final?
    ensures !exists n: nat :: EndsAt(incoming, n, cancelled, state)
  {
  }

  /** What the daemon stores is faithful to the child: prefixes of both pipes, `combined` a merge of
      the two in arrival order, and whole exactly when the summary calls it complete. */
  ghost predicate Faithful(kept: seq<Tagged>, stdout: seq<byte>, stderr: seq<byte>, maxBytes: int,
                           received: Received, summary: CanonicalOutput)
  {
    && received.stdout == Project(kept, Stdout) && received.stderr == Project(kept, Stderr)
    && received.combined == Untag(kept)
    && received.stdout <= stdout
    && received.stderr <= stderr
    && |received.combined| == Min(maxBytes, |stdout| + |stderr|)
    && received.terminal.stdoutBytes == |received.stdout|
    && received.terminal.stderrBytes == |received.stderr|
    && (summary.complete <==> received.stdout == stdout && received.stderr == stderr)
  }

  lemma ResultIsFaithful(kept: seq<Tagged>, stdout: seq<byte>, stderr: seq<byte>, maxBytes: int,
                         received: Received, summary: CanonicalOutput)
    requires KeepsPrefixes(kept, stdout, stderr, maxBytes)
    requires Holds(kept, received.stdout, received.stderr, received.combined)
    requires received.terminal.stdoutBytes == |Project(kept, Stdout)|
    requires received.terminal.stderrBytes == |Project(kept, Stderr)|
    requires summary.complete <==> |stdout| + |stderr| <= maxBytes
    ensures Faithful(kept, stdout, stderr, maxBytes, received, summary)
  {
    ProjectLengths(kept);
  }

  /** A result can only end at the terminal frame of the exchange, however much of it arrives. */
  lemma EndsAtTheTerminal(full: seq<Incoming>, n: nat, frames: seq<OutputFrame>, terminal: Terminal,
                          incoming: seq<Incoming>, m: nat, cancelled: nat -> bool, state: Execution)
    requires Exchange(full, n, frames, terminal) && incoming <= full && EndsAt(incoming, m, cancelled, state)
    ensures m == n && incoming[n] == Final(terminal) && incoming[..n] == full[..n]
  {
    hide Passes, TerminalAccepted, Outputs;
    assert incoming[m] == full[m];
    if n < m {
      assert Passes(incoming, n, state);
      FinalDoesNotPass(incoming, n, state);
    }
  }

  lemma FinalDoesNotPass(incoming: seq<Incoming>, i: nat, state: Execution)
    requires i < |incoming| && incoming[i].Final?
    ensures !Passes(incoming, i, state)
  {
  }

  /** An error-free capture, with stray frames anywhere, of which only a part may arrive and during which the
      daemon may be cancelled: a result is faithful; and there is one when the terminal frame arrives and
      the daemon is not cancelled before it. */
  lemma {:induction false} ErrorFreeCaptureIsFaithful(kept: seq<Tagged>, stdout: seq<byte>, stderr: seq<byte>,
                                                      state: Execution, frames: seq<OutputFrame>,
                                                      summary: CanonicalOutput, full: seq<Incoming>, n: nat,
                                                      incoming: seq<Incoming>, cancelled: nat -> bool,
                                                      received: Option<Received>)
    requires KeepsPrefixes(kept, stdout, stderr, state.maxOutputBytes)
    requires 0 < state.maxOutputBytes && state.binding.helper.Some?
    requires Carries(kept, frames, summary)
    requires summary.complete <==> |stdout| + |stderr| <= state.maxOutputBytes
    requires Exchange(full, n, frames, TerminalFor(state.binding, summary)) && incoming <= full
    requires IsResult(incoming, cancelled, state, received)
    ensures received.Some? ==> Faithful(kept, stdout, stderr, state.maxOutputBytes, received.value, summary)
    ensures n < |incoming| && (forall i: nat | i <= n :: !cancelled(i)) ==> received.Some?
  {
    hide Project, Payload, Outputs, KeepsPrefixes, Carries, Faithful;
    KeptWithinBudget(kept, stdout, stderr, state.maxOutputBytes);
    if received.Some? {
      var m: nat :| EndsAt(incoming, m, cancelled, state);
      EndsAtTheTerminal(full, n, frames, TerminalFor(state.binding, summary), incoming, m, cancelled, state);
      PayloadIsKept(kept, frames, summary);
      ResultIsFaithful(kept, stdout, stderr, state.maxOutputBytes, received.value, summary);
    }
    if n < |incoming| && forall i: nat | i <= n :: !cancelled(i) {
      assert incoming[..n] == full[..n] && incoming[n] == full[n];
      assert Exchange(incoming, n, frames, TerminalFor(state.binding, summary));
      CaptureIsReceived(kept, frames, summary, state, incoming, n, cancelled);
    }
  }

  lemma PayloadIsKept(kept: seq<Tagged>, frames: seq<OutputFrame>, summary: CanonicalOutput)
    requires Carries(kept, frames, summary)
    ensures Payload(frames) == kept && summary.stdoutBytes == |Project(kept, Stdout)| &&
            summary.stderrBytes == |Project(kept, Stderr)|
  {
  }

  lemma KeptWithinBudget(kept: seq<Tagged>, stdout: seq<byte>, stderr: seq<byte>, maxBytes: int)
    requires KeepsPrefixes(kept, stdout, stderr, maxBytes)
    ensures |kept| <= maxBytes
  {
  }
}
