/**
 The helper's output on its way to the daemon: what the capture emits (internal/adapter/contextexec/output.go)
 is encoded, framed and written (protocol.go), the connection may break after any byte, and the daemon
 decodes and checks what arrives (server.go).
 */
module OutputDelivery {
  import opened Prelude
  import opened OutputCapture
  import FrameStream

  // --------------------------------------------------------------------- encoding

  /** The encoding of messages; one that does not fit a frame is refused. */
  datatype Codec = Codec(encode: Incoming -> Option<seq<byte>>, decode: seq<byte> -> Incoming)

  ghost predicate Codes(codec: Codec) {
    && codec.encode(Stray).Some?
    && forall m :: codec.encode(m).Some? ==>
         && 0 < |codec.encode(m).value| <= FrameStream.MAX_FRAME_BYTES
         && codec.decode(codec.encode(m).value) == m
  }

  predicate Encodable(messages: seq<Incoming>, codec: Codec) {
    forall i | 0 <= i < |messages| :: codec.encode(messages[i]).Some?
  }

  function Encoded(messages: seq<Incoming>, codec: Codec): (raw: seq<seq<byte>>)
    requires Encodable(messages, codec)
    ensures |raw| == |messages| && forall i | 0 <= i < |raw| :: raw[i] == codec.encode(messages[i]).value
  {
    seq(|messages|, i requires 0 <= i < |messages| => codec.encode(messages[i]).value)
  }

  function Decoded(raw: seq<seq<byte>>, codec: Codec): (messages: seq<Incoming>)
    ensures |messages| == |raw| && forall i | 0 <= i < |raw| :: messages[i] == codec.decode(raw[i])
  {
    seq(|raw|, i requires 0 <= i < |raw| => codec.decode(raw[i]))
  }

  function Bytes(messages: seq<Incoming>, codec: Codec): seq<byte>
    requires Encodable(messages, codec) && Codes(codec)
  {
    FrameStream.Wire(Encoded(messages, codec))
  }

  /** What the daemon decodes of these messages when the connection breaks after so many bytes. */
  function Arriving(messages: seq<Incoming>, codec: Codec, breakAt: nat): seq<Incoming>
    requires Encodable(messages, codec) && Codes(codec)
  {
    var wire := Bytes(messages, codec);
    Decoded(FrameStream.ReadAll(wire[..if breakAt < |wire| then breakAt else |wire|]), codec)
  }

  /** A broken connection delivers a beginning of what was sent, and an unbroken one all of it. */
  lemma ArrivesAsPrefix(messages: seq<Incoming>, codec: Codec, breakAt: nat)
    requires Encodable(messages, codec) && Codes(codec)
    ensures Arriving(messages, codec, breakAt) <= messages
    ensures breakAt >= |Bytes(messages, codec)| ==> Arriving(messages, codec, breakAt) == messages
  {
    var frames := Encoded(messages, codec);
    var wire := FrameStream.Wire(frames);
    var k := if breakAt < |wire| then breakAt else |wire|;
    FrameStream.BrokenConnectionYieldsWholeFrames(frames, k);
    var raw := FrameStream.ReadAll(wire[..k]);
    hide FrameStream.Wire, FrameStream.ReadAll, FrameStream.WholeWithin;
    forall i | 0 <= i < |raw|
      ensures Decoded(raw, codec)[i] == messages[i]
    {
      assert raw[i] == frames[i];
    }
  }

  // ----------------------------------------------------------------- stray frames

  function Strays(n: nat): (strays: seq<Incoming>)
    ensures |strays| == n && forall i | 0 <= i < n :: strays[i] == Stray
  {
    seq(n, _ => Stray)
  }

  /** The messages with stray prepared and spawn frames before each of them. */
  function Sprinkled(messages: seq<Incoming>, strays: nat -> nat): seq<Incoming> {
    if messages == [] then []
    else
      var front := messages[..|messages| - 1];
      Sprinkled(front, strays) + Strays(strays(|front|)) + [messages[|front|]]
  }

  lemma {:induction false} SprinkledElements(messages: seq<Incoming>, strays: nat -> nat, m: Incoming)
    requires m in Sprinkled(messages, strays)
    ensures m == Stray || m in messages
    decreases |messages|
  {
    var front := messages[..|messages| - 1];
    if m in Sprinkled(front, strays) {
      SprinkledElements(front, strays, m);
    }
  }

  lemma {:induction false} OutputsSkipStrays(incoming: seq<Incoming>, n: nat)
    ensures Outputs(incoming + Strays(n)) == Outputs(incoming)
    decreases n
  {
    if n == 0 {
      assert incoming + Strays(n) == incoming;
    } else {
      assert (incoming + Strays(n))[..|incoming| + n - 1] == incoming + Strays(n - 1);
      OutputsSkipStrays(incoming, n - 1);
    }
  }

  function Outgoing(frames: seq<OutputFrame>): (messages: seq<Incoming>)
    ensures |messages| == |frames| && forall i | 0 <= i < |frames| :: messages[i] == Output(frames[i])
  {
    seq(|frames|, i requires 0 <= i < |frames| => Output(frames[i]))
  }

  lemma {:induction false} OutputsOfSprinkled(frames: seq<OutputFrame>, strays: nat -> nat)
    ensures Outputs(Sprinkled(Outgoing(frames), strays)) == frames
    decreases |frames|
  {
    if frames != [] {
      var front := frames[..|frames| - 1];
      assert Outgoing(frames)[..|front|] == Outgoing(front);
      OutputsOfSprinkled(front, strays);
      var before := Sprinkled(Outgoing(front), strays);
      OutputsSkipStrays(before, strays(|front|));
      var last := Output(frames[|front|]);
      var all := before + Strays(strays(|front|)) + [last];
      assert all[..|all| - 1] == before + Strays(strays(|front|));
      assert front + [frames[|front|]] == frames;
    }
  }

  /** Sprinkled with strays, an error-free capture and its terminal frame are still its exchange. */
  lemma SprinkledIsExchange(frames: seq<OutputFrame>, terminal: Terminal, strays: nat -> nat) returns (n: nat)
    ensures Exchange(Sprinkled(Outgoing(frames) + [Final(terminal)], strays), n, frames, terminal)
    ensures n + 1 == |Sprinkled(Outgoing(frames) + [Final(terminal)], strays)|
  {
    var messages := Outgoing(frames) + [Final(terminal)];
    assert messages[..|frames|] == Outgoing(frames);
    var before := Sprinkled(Outgoing(frames), strays);
    var between := Strays(strays(|frames|));
    var full := Sprinkled(messages, strays);
    assert full == before + between + [Final(terminal)];
    n := |before + between|;
    assert full[..n] == before + between;
    OutputsOfSprinkled(frames, strays);
    OutputsSkipStrays(before, strays(|frames|));
    hide Outputs, Sprinkled;
    forall i | 0 <= i < n
      ensures full[i].Output? || full[i].Stray?
    {
      if i < |before| {
        SprinkledElements(Outgoing(frames), strays, before[i]);
      } else {
        assert full[i] == between[i - |before|];
      }
    }
  }

  // ----------------------------------------------------------------- both ends

  /** The frames that were written: those that fit and whose send did not fail. */
  function Written(frames: seq<OutputFrame>, codec: Codec, sendFails: nat -> bool): (messages: seq<Incoming>)
    ensures Encodable(messages, codec) && forall i | 0 <= i < |messages| :: messages[i].Output?
  {
    if frames == [] then []
    else
      var front := frames[..|frames| - 1];
      var last := Output(frames[|front|]);
      Written(front, codec, sendFails) + if sendFails(|front|) || codec.encode(last).None? then [] else [last]
  }

  lemma {:induction false} SprinkledEncodes(messages: seq<Incoming>, codec: Codec, strays: nat -> nat)
    requires Codes(codec) && Encodable(messages, codec)
    ensures Encodable(Sprinkled(messages, strays), codec)
    decreases |messages|
  {
    var all := Sprinkled(messages, strays);
    forall i | 0 <= i < |all|
      ensures codec.encode(all[i]).Some?
    {
      SprinkledElements(messages, strays, all[i]);
    }
  }

  /** Everything the helper writes for an error-free capture. */
  function Sending(frames: seq<OutputFrame>, terminal: Terminal, strays: nat -> nat): seq<Incoming> {
    Sprinkled(Outgoing(frames) + [Final(terminal)], strays)
  }

  /** The helper captures and sends, the daemon receives. A frame whose send fails or that does not fit is
      lost; the terminal frame is sent only after an error-free capture. Wherever the connection breaks,
      whatever strays lie between and whenever the daemon is cancelled, a result is faithful to the child;
      and there is one when nothing is lost, broken off or cancelled. */
  method CaptureAndReceive(chunks: seq<Chunk>, sendFails: nat -> bool, state: Execution, codec: Codec,
                           strays: nat -> nat, breakAt: nat, cancelled: nat -> bool,
                           ghost left: seq<Chunk>, ghost right: seq<Chunk>)
    returns (received: Option<Received>, summary: CanonicalOutput, frames: seq<OutputFrame>)
    requires Channel(left, right, chunks) && Codes(codec)
    requires 0 < state.maxOutputBytes && state.binding.helper.Some?
    ensures received.Some? ==>
              && !HasReadError(chunks) && !SomeSendFails(sendFails, |frames|)
              && Faithful(Kept(chunks, state.maxOutputBytes), DataOf(left), DataOf(right), state.maxOutputBytes,
                          received.value, summary)
    ensures Captured(chunks, state.maxOutputBytes, frames, summary)
    ensures var sending := Sending(frames, TerminalFor(state.binding, summary), strays);
            && !HasReadError(chunks) && (forall i: nat :: !sendFails(i)) && Encodable(sending, codec)
            && breakAt >= |Bytes(sending, codec)| && (forall i: nat :: !cancelled(i))
            ==> received.Some?
  {
    hide Channel, Codes, Captured, Faithful, IsResult, HasReadError, Arriving, Bytes, Sprinkled, Exchange, Encodable,
      IsFirstError, SomeSendFails;
    var err;
    summary, frames, err := CaptureOutput(true, chunks, state.maxOutputBytes, sendFails, left, right);
    var terminal := TerminalFor(state.binding, summary);
    var sending := Sending(frames, terminal, strays);
    if err.Some? || !Encodable(sending, codec) {
      var written := Sprinkled(Written(frames, codec, sendFails), strays);
      SprinkledEncodes(Written(frames, codec, sendFails), codec, strays);
      received := ReceiveResult(Arriving(written, codec, breakAt), cancelled, state);
      LostOutputLeavesNoResult(frames, codec, sendFails, strays, breakAt, cancelled, state, received);
      NoErrorsNoSendFails(sendFails, |frames|);
      return;
    }
    received := ReceiveResult(Arriving(sending, codec, breakAt), cancelled, state);
    ArrivesAsPrefix(sending, codec, breakAt);
    var n := SprinkledIsExchange(frames, terminal, strays);
    CapturedParts(chunks, state.maxOutputBytes, frames, summary);
    BudgetKeepsPrefixes(left, right, chunks, state.maxOutputBytes);
    ErrorFreeCaptureIsFaithful(Kept(chunks, state.maxOutputBytes), DataOf(left), DataOf(right), state, frames, summary,
                               sending, n, Arriving(sending, codec, breakAt), cancelled, received);
  }

  lemma CapturedParts(chunks: seq<Chunk>, maxBytes: int, frames: seq<OutputFrame>, r: CanonicalOutput)
    requires 0 < maxBytes && Captured(chunks, maxBytes, frames, r)
    ensures Carries(Kept(chunks, maxBytes), frames, r) && (r.truncated <==> |Arrival(chunks)| > maxBytes)
  {
  }

  lemma NoErrorsNoSendFails(sendFails: nat -> bool, n: nat)
    ensures (forall i: nat :: !sendFails(i)) ==> !SomeSendFails(sendFails, n)
  {
  }

  lemma LostOutputLeavesNoResult(frames: seq<OutputFrame>, codec: Codec, sendFails: nat -> bool, strays: nat -> nat,
                                 breakAt: nat, cancelled: nat -> bool, state: Execution, received: Option<Received>)
    requires Codes(codec)
    requires var written := Sprinkled(Written(frames, codec, sendFails), strays);
             Encodable(written, codec) && IsResult(Arriving(written, codec, breakAt), cancelled, state, received)
    ensures received.None?
  {
    var messages := Written(frames, codec, sendFails);
    var written := Sprinkled(messages, strays);
    var arriving := Arriving(written, codec, breakAt);
    ArrivesAsPrefix(written, codec, breakAt);
    hide Codes, Arriving, Written, Sprinkled, EndsAt;
    forall i | 0 <= i < |arriving|
      ensures !arriving[i].Final?
    {
      assert arriving[i] == written[i];
      SprinkledElements(messages, strays, written[i]);
    }
    NoTerminalNoResult(arriving, cancelled, state);
  }
}
