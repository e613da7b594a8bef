/**
 Length-prefixed framing on the helper connection (internal/adapter/contextexec/protocol.go):
 a four-byte big-endian size, then that many bytes. A connection may break after any byte; the
 reader then gets exactly the frames that arrived whole.
 */
module FrameStream {
  import opened Prelude

  const MAX_FRAME_BYTES := 0x2_0000

  function Header(n: nat): (h: seq<byte>)
    requires n < 0x1_0000_0000
    ensures |h| == 4
  {
    [(n / 0x100_0000) as byte, (n / 0x1_0000 % 0x100) as byte, (n / 0x100 % 0x100) as byte, (n % 0x100) as byte]
  }

  function HeaderValue(h: seq<byte>): nat
    requires |h| == 4
  {
    h[0] as int * 0x100_0000 + h[1] as int * 0x1_0000 + h[2] as int * 0x100 + h[3] as int
  }

  lemma HeaderRoundTrip(n: nat)
    requires n < 0x1_0000_0000
    ensures HeaderValue(Header(n)) == n
  {
    var high, low := n / 0x1_0000, n % 0x1_0000;
    assert n / 0x100_0000 == high / 0x100;
    assert n / 0x100 == high * 0x100 + low / 0x100;
    assert n / 0x100 % 0x100 == low / 0x100;
    assert n % 0x100 == low % 0x100;
  }

  /** The bytes put on the wire for one encoded frame; a frame that is empty or too large is refused. */
  function WriteFrame(raw: seq<byte>): Option<seq<byte>> {
    if 0 < |raw| <= MAX_FRAME_BYTES then Some(Header(|raw|) + raw) else None
  }

  datatype ReadOutcome = Frame(raw: seq<byte>, rest: seq<byte>) | BadSize | ConnectionLost

  /** One frame from what is left of the connection before it broke or was closed. */
  function ReadFrame(s: seq<byte>): ReadOutcome {
    if |s| < 4 then ConnectionLost
    else
      var size := HeaderValue(s[..4]);
      if size == 0 || size > MAX_FRAME_BYTES then BadSize
      else if |s| < 4 + size then ConnectionLost
      else Frame(s[4..4 + size], s[4 + size..])
  }

  predicate Writable(frames: seq<seq<byte>>) {
    forall raw | raw in frames :: 0 < |raw| <= MAX_FRAME_BYTES
  }

  /** Everything written for a list of frames. */
  function Wire(frames: seq<seq<byte>>): seq<byte>
    requires Writable(frames)
  {
    if frames == [] then [] else WriteFrame(frames[0]).value + Wire(frames[1..])
  }

  /** Every frame the peer reads before its first read error. */
  function ReadAll(s: seq<byte>): seq<seq<byte>>
    decreases |s|
  {
    match ReadFrame(s)
    case Frame(raw, rest) => [raw] + ReadAll(rest)
    case _ => []
  }

  lemma ReadWritten(raw: seq<byte>, rest: seq<byte>)
    requires 0 < |raw| <= MAX_FRAME_BYTES
    ensures ReadFrame(WriteFrame(raw).value + rest) == Frame(raw, rest)
  {
    HeaderRoundTrip(|raw|);
    var s := WriteFrame(raw).value + rest;
    assert s[..4] == Header(|raw|);
    assert s[4..4 + |raw|] == raw && s[4 + |raw|..] == rest;
  }

  lemma ReadCutShort(raw: seq<byte>, k: nat)
    requires 0 < |raw| <= MAX_FRAME_BYTES
    requires k < |WriteFrame(raw).value|
    ensures ReadFrame(WriteFrame(raw).value[..k]) == ConnectionLost
  {
    HeaderRoundTrip(|raw|);
    if 4 <= k {
      assert WriteFrame(raw).value[..k][..4] == Header(|raw|);
    }
  }

  /** Four bytes are the header of the size they spell, the most significant byte first. */
  lemma HeaderOfValue(h: seq<byte>)
    requires |h| == 4
    ensures HeaderValue(h) < 0x1_0000_0000 && Header(HeaderValue(h)) == h
    ensures Header(0x102_0304) == [1, 2, 3, 4]
  {
    var n, high, low := HeaderValue(h), h[0] as int * 0x100 + h[1] as int, h[2] as int * 0x100 + h[3] as int;
    assert n == high * 0x1_0000 + low;
    assert n / 0x1_0000 == high && n % 0x1_0000 == low;
    assert n / 0x100_0000 == high / 0x100 && n / 0x100 == high * 0x100 + low / 0x100;
    assert n / 0x100 % 0x100 == low / 0x100;
    assert n % 0x100 == low % 0x100;
    assert high / 0x100 == h[0] as int && high % 0x100 == h[1] as int;
    assert low / 0x100 == h[2] as int && low % 0x100 == h[3] as int;
  }

  /** A frame is read exactly when it was written: it has 1 byte to 128 KiB and its big-endian size stands before
      it. A connection whose header spells another size is refused; every other one is cut short. */
  lemma ReadExactlyWhen(s: seq<byte>, raw: seq<byte>, rest: seq<byte>)
    ensures ReadFrame(s) == Frame(raw, rest) <==> 0 < |raw| <= 128 * 1024 && s == Header(|raw|) + raw + rest
    ensures WriteFrame(raw) == if 0 < |raw| <= 128 * 1024 then Some(Header(|raw|) + raw) else None
    ensures ReadFrame(s) == BadSize <==> |s| >= 4 && !(0 < HeaderValue(s[..4]) <= 128 * 1024)
    ensures ReadFrame(s) == ConnectionLost <==>
            |s| < 4 || (0 < HeaderValue(s[..4]) <= 128 * 1024 && |s| - 4 < HeaderValue(s[..4]))
  {
    if 0 < |raw| <= 128 * 1024 && s == Header(|raw|) + raw + rest {
      ReadWritten(raw, rest);
    }
    if ReadFrame(s) == Frame(raw, rest) {
      HeaderOfValue(s[..4]);
      assert s == s[..4] + raw + rest;
    }
  }

  /** Exactly `m` of the frames lie wholly within the first `k` bytes of the wire. */
  ghost predicate WholeWithin(frames: seq<seq<byte>>, k: nat, m: nat)
    requires Writable(frames)
  {
    && m <= |frames|
    && |Wire(frames[..m])| <= k
    && (m < |frames| ==> k < |Wire(frames[..m + 1])|)
  }

  lemma {:induction false} WholeWithinTail(frames: seq<seq<byte>>, k: nat, m: nat)
    requires frames != [] && Writable(frames)
    requires var first := |WriteFrame(frames[0]).value|; first <= k && WholeWithin(frames[1..], k - first, m)
    ensures WholeWithin(frames, k, m + 1)
  {
    assert frames[..m + 1][1..] == frames[1..][..m];
    if m + 1 < |frames| {
      assert frames[..m + 2][1..] == frames[1..][..m + 1];
    }
  }

  lemma NothingToRead()
    ensures ReadAll([]) == []
  {
  }

  /** The break falls inside the first frame. */
  lemma {:induction false} BreakInFirst(frames: seq<seq<byte>>, k: nat)
    requires Writable(frames) && frames != [] && k < |WriteFrame(frames[0]).value|
    ensures ReadAll(Wire(frames)[..k]) == [] && WholeWithin(frames, k, 0) && k < |Wire(frames)|
  {
    var head := WriteFrame(frames[0]).value;
    ReadCutShort(frames[0], k);
    assert Wire(frames)[..k] == head[..k];
    hide ReadFrame, WriteFrame;
    assert frames[..1][1..] == [];
    assert frames[..0] == [];
  }

  /** The break falls after the first frame. */
  lemma {:induction false} BreakLater(frames: seq<seq<byte>>, k: nat)
    requires Writable(frames) && frames != [] && |WriteFrame(frames[0]).value| <= k <= |Wire(frames)|
    ensures var first := |WriteFrame(frames[0]).value|;
            && k - first <= |Wire(frames[1..])|
            && ReadAll(Wire(frames)[..k]) == [frames[0]] + ReadAll(Wire(frames[1..])[..k - first])
  {
    var head := WriteFrame(frames[0]).value;
    var rest := Wire(frames[1..])[..k - |head|];
    ReadWritten(frames[0], rest);
    hide ReadFrame, WriteFrame;
    assert Wire(frames)[..k] == head + rest;
  }

  /** Wherever the connection breaks, the reader gets the frames that arrived whole, in order, and
      nothing else; with nothing lost it gets all of them. */
  lemma {:induction false} BrokenConnectionYieldsWholeFrames(frames: seq<seq<byte>>, k: nat)
    requires Writable(frames) && k <= |Wire(frames)|
    ensures ReadAll(Wire(frames)[..k]) <= frames
    ensures WholeWithin(frames, k, |ReadAll(Wire(frames)[..k])|)
    ensures k == |Wire(frames)| ==> ReadAll(Wire(frames)[..k]) == frames
    decreases |frames|
  {
    hide ReadAll;
    if frames == [] {
      NothingToRead();
    } else if k < |WriteFrame(frames[0]).value| {
      BreakInFirst(frames, k);
    } else {
      var left := k - |WriteFrame(frames[0]).value|;
      BreakLater(frames, k);
      BrokenConnectionYieldsWholeFrames(frames[1..], left);
      WholeWithinTail(frames, k, |ReadAll(Wire(frames[1..])[..left])|);
      hide WholeWithin, WriteFrame;
      assert frames == [frames[0]] + frames[1..];
    }
  }
}
