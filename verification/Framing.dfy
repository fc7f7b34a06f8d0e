/** The frame reader, online-accounts-ui/ipc.cpp: as functions on streams and as the loops it has. */
module Framing {
  import opened Search

  newtype Byte = x: int | 0 <= x < 256

  /** A frame is four bytes of length and that many bytes of payload. */
  type Bytes = seq<Byte>

  /** "OAUinitIPC" */
  const WELCOME: Bytes := [79, 65, 85, 105, 110, 105, 116, 73, 80, 67]

  const HEADER: nat := 4

  const PEEK: nat := 40

  const MAX_LENGTH: nat := 0x8000_0000

  // ----- the length header: an `int` in the byte order of the machine (little endian) -----

  function EncodeLength(n: nat): (h: Bytes)
    requires n < MAX_LENGTH
    ensures |h| == HEADER
  {
    [(n % 256) as Byte, (n / 256 % 256) as Byte, (n / 65536 % 256) as Byte, (n / 16777216) as Byte]
  }

  function DecodeLength(h: Bytes): int
    requires |h| == HEADER
  {
    var u := h[0] as int + 256 * (h[1] as int) + 65536 * (h[2] as int) + 16777216 * (h[3] as int);
    if u < MAX_LENGTH then u else u - 2 * MAX_LENGTH
  }

  lemma LengthRoundTrip(n: nat)
    requires n < MAX_LENGTH
    ensures DecodeLength(EncodeLength(n)) == n
    ensures var h := EncodeLength(n);
            n == h[0] as int + 0x100 * h[1] as int + 0x1_0000 * h[2] as int + 0x100_0000 * h[3] as int
  {
    var a, b := n / 256, n / 65536;
    assert b == a / 256 && n / 16777216 == b / 256;
    assert n == n % 256 + 256 * a && a == a % 256 + 256 * b && b == b % 256 + 256 * (b / 256);
  }

  /** A header whose last byte is below 128 is that of a length, any other is negative. */
  lemma HeaderRoundTrip(h: Bytes)
    requires |h| == HEADER
    ensures h[3] < 128 ==> 0 <= DecodeLength(h) < MAX_LENGTH && EncodeLength(DecodeLength(h)) == h
    ensures h[3] >= 128 ==> DecodeLength(h) < 0
  {
    if h[3] < 128 {
      var b, c, d := h[1] as int, h[2] as int, h[3] as int;
      var v, w := c + 256 * d, b + 256 * (c + 256 * d);
      var n := DecodeLength(h);
      assert n == h[0] as int + 256 * w;
      assert n / 256 == w && w / 256 == v && v / 256 == d;
      assert n / 65536 == v && n / 16777216 == d;
    }
  }

  // ----- the reader -----

  /** The state of an `Ipc` object; `spinning` stands for the endless loop that a negative length puts
      `onReadyRead` in. */
  datatype Reader = Reader(channel: Bytes, expectedLength: int, gotWelcome: bool,
                           readBuffer: Bytes, emitted: seq<Bytes>, spinning: bool)

  const FRESH := Reader([], 0, false, [], [], false)

  /** The effect of waitWelcomeMessage, said without its forty-byte window. */
  function Scan(r: Reader): Reader {
    if r.gotWelcome then r
    else
      var (found, rest) := Skip(WELCOME, r.channel);
      r.(channel := rest, gotWelcome := found)
  }

  /** The reader once a frame is complete. */
  function Emitting(r: Reader, frame: Bytes, rest: Bytes): Reader {
    r.(channel := rest, readBuffer := frame, emitted := r.emitted + [frame], expectedLength := 0)
  }

  /** One `readyRead`: consume all that the channel holds. */
  function Drain(r: Reader): Reader
    decreases |r.channel|, if r.expectedLength == 0 then 0 else 2
  {
    if r.spinning then r
    else if r.expectedLength != 0 then Fill(r)
    else
      var s := Scan(r);
      if !s.gotWelcome then s
      else if |s.channel| < HEADER then s.(channel := [])
      else Fill(s.(channel := s.channel[HEADER..],
                   expectedLength := DecodeLength(s.channel[..HEADER]), readBuffer := []))
  }

  function Fill(r: Reader): Reader
    decreases |r.channel|, 1
  {
    var needed := r.expectedLength - |r.readBuffer|;
    if needed < 0 then r.(spinning := true)
    else if |r.channel| < needed then r.(channel := [], readBuffer := r.readBuffer + r.channel)
    else
      var frame := r.readBuffer + r.channel[..needed];
      Drain(Emitting(r, frame, r.channel[needed..]))
  }

  /** A chunk of bytes becomes readable. */
  function Arrive(r: Reader, chunk: Bytes): Reader {
    Drain(r.(channel := r.channel + chunk))
  }

  /** A sequence of chunks becomes readable, one after the other. */
  function Feed(r: Reader, chunks: seq<Bytes>): Reader {
    if chunks == [] then r
    else Arrive(Feed(r, chunks[..|chunks| - 1]), chunks[|chunks| - 1])
  }

  function Flatten(chunks: seq<Bytes>): Bytes {
    if chunks == [] then []
    else Flatten(chunks[..|chunks| - 1]) + chunks[|chunks| - 1]
  }

  /** How a reader on a socket begins: there is no welcome message to wait for. */
  const FRESH_SOCKET := FRESH.(gotWelcome := true)

  /** What a reader looks like between two signals. */
  ghost predicate AtRest(r: Reader) {
    && !r.spinning
    && r.expectedLength >= 0
    && (!r.gotWelcome ==> r.expectedLength == 0 && |r.channel| <= |WELCOME| && Absent(WELCOME, r.channel))
    && (r.gotWelcome ==> r.channel == [])
    && (r.expectedLength != 0 ==> |r.readBuffer| < r.expectedLength)
  }

  /** The number of header bytes that a drain reads and forgets (ipc.cpp:112-114). */
  function Lost(r: Reader): (n: nat)
    ensures n < HEADER
    decreases |r.channel|, if r.expectedLength == 0 then 0 else 2
  {
    if r.spinning then 0
    else if r.expectedLength != 0 then LostAfter(r)
    else
      var s := Scan(r);
      if !s.gotWelcome then 0
      else if |s.channel| < HEADER then |s.channel|
      else LostAfter(s.(channel := s.channel[HEADER..],
                        expectedLength := DecodeLength(s.channel[..HEADER]), readBuffer := []))
  }

  function LostAfter(r: Reader): (n: nat)
    ensures n < HEADER
    decreases |r.channel|, 1
  {
    var needed := r.expectedLength - |r.readBuffer|;
    if needed < 0 || |r.channel| < needed then 0
    else
      var frame := r.readBuffer + r.channel[..needed];
      Lost(Emitting(r, frame, r.channel[needed..]))
  }

  // ----- chunking -----

  lemma {:induction false} DrainRests(r: Reader)
    requires r.expectedLength == 0 || (r.gotWelcome && 0 <= |r.readBuffer| < r.expectedLength)
    ensures Drain(r).spinning || AtRest(Drain(r))
    decreases |r.channel|, if r.expectedLength == 0 then 0 else 2
  {
    if r.spinning {
    } else if r.expectedLength != 0 {
      FillRests(r);
    } else {
      var s := Scan(r);
      if !s.gotWelcome {
        forall j: nat ensures !OccursAt(WELCOME, s.channel, j) {
          OccursInSuffix(WELCOME, r.channel, |r.channel| - |s.channel|, j);
        }
      } else if |s.channel| >= HEADER {
        FillRests(s.(channel := s.channel[HEADER..],
                     expectedLength := DecodeLength(s.channel[..HEADER]), readBuffer := []));
      }
    }
  }

  lemma {:induction false} FillRests(r: Reader)
    requires r.gotWelcome && !r.spinning
    ensures Fill(r).spinning || AtRest(Fill(r))
    decreases |r.channel|, 1
  {
    var needed := r.expectedLength - |r.readBuffer|;
    if 0 <= needed <= |r.channel| {
      var frame := r.readBuffer + r.channel[..needed];
      DrainRests(Emitting(r, frame, r.channel[needed..]));
    }
  }

  /** Draining twice is draining once, when the first drain lost nothing. */
  lemma {:induction false} DrainAppend(r: Reader, y: Bytes)
    requires Lost(r) == 0 && (r.expectedLength != 0 ==> r.gotWelcome)
    ensures Drain(r.(channel := r.channel + y)) == Arrive(Drain(r), y)
    decreases |r.channel|, if r.expectedLength == 0 then 0 else 2
  {
    var long := r.(channel := r.channel + y);
    if r.spinning {
    } else if r.expectedLength != 0 {
      FillAppend(r, y);
    } else {
      if !r.gotWelcome { SkipAppend(WELCOME, r.channel, y); }
      var s := Scan(r);
      if !s.gotWelcome {
      } else if |s.channel| >= HEADER {
        var t := s.channel + y;
        assert Scan(long) == s.(channel := t);
        assert t[..HEADER] == s.channel[..HEADER];
        assert t[HEADER..] == s.channel[HEADER..] + y;
        FillAppend(s.(channel := s.channel[HEADER..],
                      expectedLength := DecodeLength(s.channel[..HEADER]), readBuffer := []), y);
      } else {
        assert s.channel == [] && Drain(r) == s;
        assert Scan(long) == s.(channel := y) && [] + y == y;
      }
    }
  }

  lemma {:induction false} FillAppend(r: Reader, y: Bytes)
    requires LostAfter(r) == 0 && !r.spinning && r.gotWelcome
    ensures Fill(r.(channel := r.channel + y)) == Arrive(Fill(r), y)
    decreases |r.channel|, 1
  {
    var needed := r.expectedLength - |r.readBuffer|;
    if needed < 0 {
    } else if |r.channel| < needed {
      FillShort(r, y);
    } else {
      var t := r.channel + y;
      DropAppend(r.channel, y, needed);
      assert t[..needed] == r.channel[..needed];
      var frame := r.readBuffer + r.channel[..needed];
      DrainAppend(Emitting(r, frame, r.channel[needed..]), y);
    }
  }

  lemma FillShort(r: Reader, y: Bytes)
    requires !r.spinning && |r.channel| < r.expectedLength - |r.readBuffer|
    ensures Fill(r.(channel := r.channel + y)) == Arrive(Fill(r), y)
  {
    var f := r.(channel := y, readBuffer := r.readBuffer + r.channel);
    assert Arrive(Fill(r), y) == Fill(f) by { assert [] + y == y; }
    FillSplit(r, r.channel, y);
  }

  lemma FillEnough(r: Reader, frame: Bytes, rest: Bytes)
    requires 0 <= r.expectedLength - |r.readBuffer| <= |r.channel|
    requires frame == r.readBuffer + r.channel[..r.expectedLength - |r.readBuffer|]
    requires rest == r.channel[r.expectedLength - |r.readBuffer|..]
    ensures Fill(r) == Drain(Emitting(r, frame, rest))
  {
  }

  /** What has come so far may as well lie in the buffer. */
  lemma FillSplit(r: Reader, x: Bytes, y: Bytes)
    requires |x| <= r.expectedLength - |r.readBuffer|
    ensures Fill(r.(channel := x + y)) == Fill(r.(channel := y, readBuffer := r.readBuffer + x))
  {
    var needed := r.expectedLength - |r.readBuffer|;
    if |x + y| < needed {
      assert r.readBuffer + (x + y) == (r.readBuffer + x) + y;
    } else {
      FillSplitLong(r, x, y);
    }
  }

  lemma FillSplitLong(r: Reader, x: Bytes, y: Bytes)
    requires |x| <= r.expectedLength - |r.readBuffer| <= |x + y|
    ensures Fill(r.(channel := x + y)) == Fill(r.(channel := y, readBuffer := r.readBuffer + x))
  {
    var needed := r.expectedLength - |r.readBuffer|;
    var frame, rest := r.readBuffer + (x + y)[..needed], (x + y)[needed..];
    var a, b := r.(channel := x + y), r.(channel := y, readBuffer := r.readBuffer + x);
    AcrossBuffer(r.readBuffer, x, y, needed);
    FillEnough(a, frame, rest);
    FillEnough(b, frame, rest);
    assert Emitting(a, frame, rest) == Emitting(b, frame, rest);
  }

  lemma AcrossBuffer(buffer: Bytes, x: Bytes, y: Bytes, needed: nat)
    requires |x| <= needed <= |x + y|
    ensures buffer + (x + y)[..needed] == (buffer + x) + y[..needed - |x|]
    ensures (x + y)[needed..] == y[needed - |x|..]
  {
    assert (x + y)[..needed] == x + y[..needed - |x|];
  }

  /** After a header was split, the rest of that header does not repair it. */
  lemma {:induction false} SplitHeader(r: Reader, y: Bytes)
    requires Lost(r) > 0 && |y| == HEADER - Lost(r) && (r.expectedLength != 0 ==> r.gotWelcome)
    ensures Drain(r) == Reader([], 0, true, Drain(r).readBuffer, Drain(r).emitted, false)
    ensures var d := Drain(r.(channel := r.channel + y));
            d.spinning || d.expectedLength != 0 || |d.emitted| > |Drain(r).emitted|
    decreases |r.channel|, if r.expectedLength == 0 then 0 else 2
  {
    if r.expectedLength != 0 {
      SplitHeaderFill(r, y);
    } else {
      if !r.gotWelcome { SkipAppend(WELCOME, r.channel, y); }
      var s := Scan(r);
      var t := s.channel + y;
      var long := r.(channel := r.channel + y);
      assert Scan(long) == s.(channel := t);
      if |s.channel| >= HEADER {
        DropAppend(s.channel, y, HEADER);
        assert t[..HEADER] == s.channel[..HEADER];
        SplitHeaderFill(s.(channel := s.channel[HEADER..],
                           expectedLength := DecodeLength(s.channel[..HEADER]), readBuffer := []), y);
      } else {
        var f := s.(channel := t[HEADER..], expectedLength := DecodeLength(t[..HEADER]), readBuffer := []);
        assert f.channel == [] && Drain(long) == Fill(f);
        if f.expectedLength == 0 {
          var g := f.(readBuffer := [] + f.channel[..0], emitted := f.emitted + [[] + f.channel[..0]]);
          assert Fill(f) == Drain(g.(channel := f.channel[0..]));
        }
      }
    }
  }

  lemma {:induction false} SplitHeaderFill(r: Reader, y: Bytes)
    requires LostAfter(r) > 0 && |y| == HEADER - LostAfter(r) && r.gotWelcome && !r.spinning
    ensures Fill(r) == Reader([], 0, true, Fill(r).readBuffer, Fill(r).emitted, false)
    ensures var d := Fill(r.(channel := r.channel + y));
            d.spinning || d.expectedLength != 0 || |d.emitted| > |Fill(r).emitted|
    decreases |r.channel|, 1
  {
    var needed := r.expectedLength - |r.readBuffer|;
    var t := r.channel + y;
    DropAppend(r.channel, y, needed);
    assert t[..needed] == r.channel[..needed];
    var frame := r.readBuffer + r.channel[..needed];
    SplitHeader(Emitting(r, frame, r.channel[needed..]), y);
  }

  /** Two chunks are worth their concatenation, whatever the second one is, exactly when the
      first does not end inside a header. */
  lemma ChunkingInvariance(r: Reader, x: Bytes)
    requires AtRest(r)
    ensures (forall y :: Arrive(Arrive(r, x), y) == Arrive(r, x + y)) <==>
            Lost(r.(channel := r.channel + x)) == 0
  {
    var t := r.(channel := r.channel + x);
    if Lost(t) == 0 {
      forall y ensures Arrive(Arrive(r, x), y) == Arrive(r, x + y) {
        DrainAppend(t, y);
        assert r.channel + (x + y) == t.channel + y;
      }
    } else {
      var y: Bytes := seq(HEADER - Lost(t), _ => 0);
      RestOfHeader(t, y);
      assert r.channel + (x + y) == t.channel + y;
    }
  }

  lemma RestOfHeader(t: Reader, y: Bytes)
    requires Lost(t) > 0 && |y| == HEADER - Lost(t) && (t.expectedLength != 0 ==> t.gotWelcome)
    ensures Arrive(Drain(t), y) != Drain(t.(channel := t.channel + y))
  {
    SplitHeader(t, y);
    assert [] + y == y;
    var d := Drain(t);
    assert Arrive(d, y) == d.(channel := []);
  }

  /** A run of chunks none of which ends inside a header is worth its concatenation. */
  lemma {:induction false} FeedWhole(r: Reader, chunks: seq<Bytes>)
    requires r.channel == [] && AtRest(r)
    requires forall n: nat :: n < |chunks| ==> Lost(r.(channel := Flatten(chunks[..n]))) == 0
    ensures Feed(r, chunks) == if chunks == [] then r else Drain(r.(channel := Flatten(chunks)))
  {
    if chunks != [] {
      var n := |chunks| - 1;
      var front, last := chunks[..n], chunks[n];
      forall m: nat | m < |front| ensures Lost(r.(channel := Flatten(front[..m]))) == 0 {
        assert front[..m] == chunks[..m];
      }
      FeedWhole(r, front);
      if front == [] {
        assert [] + last == last && Flatten(chunks) == last;
      } else {
        DrainAppend(r.(channel := Flatten(front)), last);
      }
    }
  }

  // ----- the writing side -----

  predicate Sendable(payloads: seq<Bytes>) {
    forall i :: 0 <= i < |payloads| ==> |payloads[i]| < MAX_LENGTH
  }

  /** What Ipc::write puts on the wire. */
  function Frame(payload: Bytes): (f: Bytes)
    requires |payload| < MAX_LENGTH
    ensures |f| == HEADER + |payload|
  {
    EncodeLength(|payload|) + payload
  }

  function Wire(payloads: seq<Bytes>): Bytes
    requires Sendable(payloads)
  {
    if payloads == [] then [] else Frame(payloads[0]) + Wire(payloads[1..])
  }

  /** Whether cutting the wire at `b` cuts through one of its headers. */
  predicate CutsHeader(payloads: seq<Bytes>, b: nat) {
    payloads != [] &&
    var frame := HEADER + |payloads[0]|;
    if b < frame then 0 < b < HEADER else CutsHeader(payloads[1..], b - frame)
  }

  /** What is written before the frames: nothing on a socket; on the standard output whatever
      the process printed, up to and including the first welcome message. */
  ghost predicate Preamble(r: Reader, pre: Bytes) {
    || (r == FRESH_SOCKET && pre == [])
    || (r == FRESH && |pre| >= |WELCOME| && IsFirst(WELCOME, pre, |pre| - |WELCOME|))
  }

  /** A reader at a frame boundary. */
  ghost predicate Ready(r: Reader) {
    !r.spinning && r.gotWelcome && r.expectedLength == 0
  }

  lemma DrainFrame(r: Reader, p: Bytes, tail: Bytes)
    requires Ready(r) && |p| < MAX_LENGTH && r.channel == Frame(p) + tail
    ensures var next := r.(channel := tail, readBuffer := p, emitted := r.emitted + [p]);
            Drain(r) == Drain(next) && Lost(r) == Lost(next)
  {
    LengthRoundTrip(|p|);
    assert r.channel[..HEADER] == EncodeLength(|p|);
    assert r.channel[HEADER..] == p + tail;
    var mid := r.(channel := p + tail, expectedLength := |p|, readBuffer := []);
    assert Drain(r) == Fill(mid) && Lost(r) == LostAfter(mid);
    assert [] + mid.channel[..|p|] == p && mid.channel[|p|..] == tail;
  }

  lemma DrainPartOfFrame(r: Reader, p: Bytes, b: nat)
    requires Ready(r) && |p| < MAX_LENGTH && b < HEADER + |p| && r.channel == Frame(p)[..b]
    ensures Lost(r) > 0 <==> 0 < b < HEADER
    ensures !Drain(r).spinning && Volume(Drain(r)) == Volume(r) - Lost(r)
  {
    if b >= HEADER {
      LengthRoundTrip(|p|);
      assert r.channel[..HEADER] == EncodeLength(|p|);
      var mid := r.(channel := r.channel[HEADER..], expectedLength := |p|, readBuffer := []);
      assert Drain(r) == Fill(mid) && Lost(r) == LostAfter(mid);
      assert Fill(mid) == mid.(channel := [], readBuffer := [] + mid.channel);
    }
  }

  lemma {:induction false} DrainWire(r: Reader, payloads: seq<Bytes>, b: nat)
    requires Sendable(payloads) && b <= |Wire(payloads)|
    requires Ready(r) && r.channel == Wire(payloads)[..b]
    ensures Lost(r) > 0 <==> CutsHeader(payloads, b)
    ensures b == |Wire(payloads)| ==> Drain(r).emitted == r.emitted + payloads
    ensures !Drain(r).spinning && Volume(Drain(r)) == Volume(r) - Lost(r)
    decreases |payloads|
  {
    if payloads == [] {
      assert Drain(r).emitted == r.emitted;
    } else {
      var p, rest := payloads[0], payloads[1..];
      var f := Frame(p);
      if b < |f| {
        assert Wire(payloads)[..b] == f[..b];
        DrainPartOfFrame(r, p, b);
      } else {
        var tail := Wire(rest)[..b - |f|];
        assert Wire(payloads)[..b] == f + tail;
        DrainFrame(r, p, tail);
        var next := r.(channel := tail, readBuffer := p, emitted := r.emitted + [p]);
        DrainWire(next, rest, b - |f|);
        WeightAppend(r.emitted, p);
        assert Volume(next) == Volume(r);
        assert r.emitted + payloads == r.emitted + [p] + rest;
      }
    }
  }

  /** The bytes that a sequence of frames takes on the wire. */
  function Weight(payloads: seq<Bytes>): nat {
    if payloads == [] then 0 else HEADER + |payloads[0]| + Weight(payloads[1..])
  }

  lemma {:induction false} WeightAppend(payloads: seq<Bytes>, p: Bytes)
    ensures Weight(payloads + [p]) == Weight(payloads) + HEADER + |p|
  {
    if payloads == [] {
    } else {
      assert (payloads + [p])[1..] == payloads[1..] + [p];
      WeightAppend(payloads[1..], p);
    }
  }

  lemma {:induction false} WireWeight(payloads: seq<Bytes>)
    requires Sendable(payloads)
    ensures |Wire(payloads)| == Weight(payloads)
  {
    if payloads != [] { WireWeight(payloads[1..]); }
  }

  /** The bytes a reader has accounted for: emitted, collected or still to be read. */
  function Volume(r: Reader): nat {
    Weight(r.emitted) + (if r.expectedLength == 0 then 0 else HEADER + |r.readBuffer|) + |r.channel|
  }

  /** No drain makes up bytes. */
  lemma {:induction false} VolumeOfDrain(r: Reader)
    requires r.gotWelcome
    ensures Drain(r).gotWelcome && Volume(Drain(r)) <= Volume(r)
    decreases |r.channel|, if r.expectedLength == 0 then 0 else 2
  {
    if r.spinning {
    } else if r.expectedLength != 0 {
      VolumeOfFill(r);
    } else if |r.channel| >= HEADER {
      VolumeOfFill(r.(channel := r.channel[HEADER..],
                      expectedLength := DecodeLength(r.channel[..HEADER]), readBuffer := []));
    }
  }

  lemma {:induction false} VolumeOfFill(r: Reader)
    requires r.gotWelcome && !r.spinning
    ensures Fill(r).gotWelcome
    ensures Volume(Fill(r)) <= Weight(r.emitted) + HEADER + |r.readBuffer| + |r.channel|
    decreases |r.channel|, 1
  {
    var needed := r.expectedLength - |r.readBuffer|;
    if 0 <= needed <= |r.channel| {
      var frame := r.readBuffer + r.channel[..needed];
      WeightAppend(r.emitted, frame);
      VolumeOfDrain(Emitting(r, frame, r.channel[needed..]));
    }
  }

  lemma {:induction false} VolumeOfFeed(r: Reader, chunks: seq<Bytes>)
    requires r.gotWelcome
    ensures Feed(r, chunks).gotWelcome && Volume(Feed(r, chunks)) <= Volume(r) + |Flatten(chunks)|
  {
    if chunks != [] {
      var n := |chunks| - 1;
      VolumeOfFeed(r, chunks[..n]);
      var f := Feed(r, chunks[..n]);
      VolumeOfDrain(f.(channel := f.channel + chunks[n]));
    }
  }

  lemma {:induction false} FlattenSplit(chunks: seq<Bytes>, n: nat)
    requires n <= |chunks|
    ensures Flatten(chunks) == Flatten(chunks[..n]) + Flatten(chunks[n..])
    decreases |chunks|
  {
    if n == |chunks| {
      assert chunks[..n] == chunks;
    } else {
      var m := |chunks| - 1;
      FlattenSplit(chunks[..m], n);
      assert chunks[..m][..n] == chunks[..n] && chunks[n..][..m - n] == chunks[..m][n..];
    }
  }

  lemma FeedSnoc(r: Reader, chunks: seq<Bytes>, last: Bytes)
    ensures Feed(r, chunks + [last]) == Arrive(Feed(r, chunks), last)
  {
    assert (chunks + [last])[..|chunks|] == chunks;
  }

  lemma {:induction false} FeedSplit(r: Reader, chunks: seq<Bytes>, n: nat)
    requires n <= |chunks|
    ensures Feed(r, chunks) == Feed(Feed(r, chunks[..n]), chunks[n..])
    ensures Flatten(chunks) == Flatten(chunks[..n]) + Flatten(chunks[n..])
    decreases |chunks|
  {
    FlattenSplit(chunks, n);
    if n == |chunks| {
      assert chunks[..n] == chunks && chunks[n..] == [];
    } else {
      var m := |chunks| - 1;
      var front, back, last := chunks[..n], chunks[..m][n..], chunks[m];
      FeedSplit(r, chunks[..m], n);
      assert chunks[..m][..n] == front && chunks == chunks[..m] + [last] && chunks[n..] == back + [last];
      FeedSnoc(r, chunks[..m], last);
      FeedSnoc(Feed(r, front), back, last);
    }
  }

  /** Once the preamble has come in full, the reader is one that began on the wire itself. */
  lemma AfterPreamble(r: Reader, pre: Bytes, wire: Bytes, b: nat)
    requires Preamble(r, pre) && b <= |pre + wire|
    ensures var part := r.(channel := (pre + wire)[..b]);
            && (b < |pre| ==> Lost(part) == 0)
            && (b >= |pre| ==>
                  var onWire := FRESH_SOCKET.(channel := wire[..b - |pre|]);
                  Drain(part) == Drain(onWire) && Lost(part) == Lost(onWire))
  {
    var seen := (pre + wire)[..b];
    if r == FRESH_SOCKET {
      assert seen == wire[..b - |pre|];
    } else {
      var i := |pre| - |WELCOME|;
      if b < |pre| {
        forall j: nat ensures !OccursAt(WELCOME, seen, j) {
          if j + |WELCOME| <= b {
            assert pre == seen + pre[b..];
            OccursInPrefix(WELCOME, seen, pre[b..], j);
          }
        }
        assert IndexOf(WELCOME, seen, 0) == -1;
      } else {
        var tail := wire[..b - |pre|];
        assert seen == pre + tail;
        IndexOfUnique(WELCOME, pre, i);
        FoundAppend(WELCOME, pre, tail);
        assert seen[|pre|..] == tail;
        assert Scan(r.(channel := seen)) == FRESH_SOCKET.(channel := tail);
      }
    }
  }

  ghost predicate CutsAHeader(pre: Bytes, payloads: seq<Bytes>, b: nat) {
    b >= |pre| && CutsHeader(payloads, b - |pre|)
  }

  lemma LostExactlyAtCuts(r: Reader, pre: Bytes, payloads: seq<Bytes>, b: nat)
    requires Preamble(r, pre) && Sendable(payloads) && b <= |pre| + |Wire(payloads)|
    ensures Lost(r.(channel := (pre + Wire(payloads))[..b])) > 0 <==> CutsAHeader(pre, payloads, b)
  {
    AfterPreamble(r, pre, Wire(payloads), b);
    if b >= |pre| {
      DrainWire(FRESH_SOCKET.(channel := Wire(payloads)[..b - |pre|]), payloads, b - |pre|);
    }
  }

  /** A cut after `n` chunks loses bytes exactly when it is inside a length header. */
  lemma LostAfterChunks(r: Reader, pre: Bytes, payloads: seq<Bytes>, chunks: seq<Bytes>, n: nat)
    requires Preamble(r, pre) && Sendable(payloads) && Flatten(chunks) == pre + Wire(payloads) && n <= |chunks|
    ensures Lost(r.(channel := Flatten(chunks[..n]))) > 0 <==> CutsAHeader(pre, payloads, |Flatten(chunks[..n])|)
  {
    FeedSplit(r, chunks, n);
    var stream, b := pre + Wire(payloads), |Flatten(chunks[..n])|;
    assert Flatten(chunks[..n]) == stream[..b];
    LostExactlyAtCuts(r, pre, payloads, b);
  }

  lemma UncutChunkingWorks(r: Reader, pre: Bytes, payloads: seq<Bytes>, chunks: seq<Bytes>)
    requires Preamble(r, pre) && Sendable(payloads) && Flatten(chunks) == pre + Wire(payloads)
    requires forall n: nat :: n < |chunks| ==> Lost(r.(channel := Flatten(chunks[..n]))) == 0
    ensures Feed(r, chunks).emitted == payloads
  {
    var stream := pre + Wire(payloads);
    FeedWhole(r, chunks);
    AfterPreamble(r, pre, Wire(payloads), |stream|);
    assert stream[..|stream|] == stream;
    var onWire := FRESH_SOCKET.(channel := Wire(payloads)[..|Wire(payloads)|]);
    DrainWire(onWire, payloads, |Wire(payloads)|);
    assert onWire.emitted + payloads == payloads;
  }

  /** The reader emits exactly the payloads that were written, in order, if and only if no
      chunk ends inside a length header. */
  lemma DeframingInvertsFraming(r: Reader, pre: Bytes, payloads: seq<Bytes>, chunks: seq<Bytes>)
    requires Preamble(r, pre) && Sendable(payloads) && Flatten(chunks) == pre + Wire(payloads)
    ensures Feed(r, chunks).emitted == payloads <==>
            forall n: nat :: n < |chunks| ==> !CutsAHeader(pre, payloads, |Flatten(chunks[..n])|)
  {
    forall n: nat | n <= |chunks|
      ensures Lost(r.(channel := Flatten(chunks[..n]))) > 0 <==> CutsAHeader(pre, payloads, |Flatten(chunks[..n])|)
    {
      LostAfterChunks(r, pre, payloads, chunks, n);
    }
    if n: nat :| n < |chunks| && CutsAHeader(pre, payloads, |Flatten(chunks[..n])|) {
      var first := FirstCut(pre, payloads, chunks, n);
      CutChunkingFails(r, pre, payloads, chunks, first);
    } else {
      UncutChunkingWorks(r, pre, payloads, chunks);
    }
  }

  /** The first of the cuts up to the one after `n` chunks. */
  lemma {:induction false} FirstCut(pre: Bytes, payloads: seq<Bytes>, chunks: seq<Bytes>, n: nat) returns (m: nat)
    requires n < |chunks| && CutsAHeader(pre, payloads, |Flatten(chunks[..n])|)
    ensures m <= n && CutsAHeader(pre, payloads, |Flatten(chunks[..m])|)
    ensures forall k: nat :: k < m ==> !CutsAHeader(pre, payloads, |Flatten(chunks[..k])|)
    decreases n
  {
    m := n;
    if k: nat :| k < n && CutsAHeader(pre, payloads, |Flatten(chunks[..k])|) {
      m := FirstCut(pre, payloads, chunks, k);
    }
  }

  /** Bytes lost to a split header are missing at the end. */
  lemma CutChunkingFails(r: Reader, pre: Bytes, payloads: seq<Bytes>, chunks: seq<Bytes>, n: nat)
    requires Preamble(r, pre) && Sendable(payloads) && Flatten(chunks) == pre + Wire(payloads)
    requires n < |chunks| && CutsAHeader(pre, payloads, |Flatten(chunks[..n])|)
    requires forall k: nat :: k < n ==> Lost(r.(channel := Flatten(chunks[..k]))) == 0
    ensures Feed(r, chunks).emitted != payloads
  {
    var front, back := chunks[..n], chunks[n..];
    var b := |Flatten(front)|;
    forall k: nat | k < |front| ensures Lost(r.(channel := Flatten(front[..k]))) == 0 {
      assert front[..k] == chunks[..k];
    }
    FeedWhole(r, front);
    FeedSplit(r, chunks, n);
    assert Flatten(front) == (pre + Wire(payloads))[..b];
    AfterPreamble(r, pre, Wire(payloads), b);
    var onWire := FRESH_SOCKET.(channel := Wire(payloads)[..b - |pre|]);
    DrainWire(onWire, payloads, b - |pre|);
    var mid := Feed(r, front);
    assert mid == Drain(onWire) && Volume(mid) < b - |pre|;
    VolumeOfDrain(onWire);
    VolumeOfFeed(mid, back);
    WireWeight(payloads);
  }

  /** One frame in two chunks, cut inside its length: nothing is emitted. */
  lemma FrameIsLost() returns (payloads: seq<Bytes>, chunks: seq<Bytes>)
    ensures Sendable(payloads) && Flatten(chunks) == Wire(payloads) && payloads != []
    ensures Feed(FRESH_SOCKET, chunks).emitted == []
  {
    var first, second: Bytes := [1, 0], [0, 0, 1];
    payloads, chunks := [[1]], [first, second];
    assert payloads[..0] == [] && Wire(payloads) == Frame([1]) == [1, 0, 0, 0, 1];
    assert chunks[..|chunks| - 1] == [first] && [first][..0] == [];
    assert Flatten([first]) == [] + first == first;
    assert Flatten(chunks) == first + second;
    assert first + second == [1, 0, 0, 0, 1];
    assert Arrive(FRESH_SOCKET, first) == FRESH_SOCKET by { assert [] + first == first; }
    assert Arrive(FRESH_SOCKET, second) == FRESH_SOCKET by { assert [] + second == second; }
    assert Feed(FRESH_SOCKET, [first]) == FRESH_SOCKET;
  }

  // ----- the welcome scanner, across any chunking -----

  lemma {:induction false} FeedFile(chunks: seq<Bytes>)
    requires IndexOf(WELCOME, Flatten(chunks), 0) == -1
    ensures Feed(FRESH, chunks) == FRESH.(channel := Skip(WELCOME, Flatten(chunks)).1)
  {
    if chunks != [] {
      var n := |chunks| - 1;
      var front, last := chunks[..n], chunks[n];
      if IndexOf(WELCOME, Flatten(front), 0) >= 0 { FoundAppend(WELCOME, Flatten(front), last); }
      FeedFile(front);
      SkipAppend(WELCOME, Flatten(front), last);
    }
  }

  /** The chunk that completes the message: what follows the message is handed on. */
  lemma WelcomeCompleted(front: seq<Bytes>, last: Bytes, i: nat)
    requires IndexOf(WELCOME, Flatten(front), 0) == -1 && IndexOf(WELCOME, Flatten(front) + last, 0) == i
    ensures |Flatten(front)| < i + |WELCOME| <= |Flatten(front) + last|
    ensures Feed(FRESH, front + [last]) ==
            Drain(FRESH_SOCKET.(channel := (Flatten(front) + last)[i + |WELCOME|..]))
  {
    var before := Flatten(front);
    if i + |WELCOME| <= |before| {
      OccursInPrefix(WELCOME, before, last, i);
      assert false;
    }
    FeedFile(front);
    SkipAppend(WELCOME, before, last);
    FeedSnoc(FRESH, front, last);
    ScanHit(Feed(FRESH, front), last, (before + last)[i + |WELCOME|..]);
  }

  lemma ScanHit(r: Reader, last: Bytes, rest: Bytes)
    requires r == FRESH.(channel := r.channel) && Skip(WELCOME, r.channel + last) == (true, rest)
    ensures Arrive(r, last) == Drain(FRESH_SOCKET.(channel := rest))
  {
    assert Scan(r.(channel := r.channel + last)) == FRESH_SOCKET.(channel := rest);
  }

  /** A file reader whose stream holds the welcome message turns, in the chunk that completes
      its first occurrence, into a socket reader fed with what follows that occurrence. */
  lemma WelcomeFound(chunks: seq<Bytes>, n: nat)
    requires n < |chunks|
    requires IndexOf(WELCOME, Flatten(chunks[..n]), 0) == -1
    requires IndexOf(WELCOME, Flatten(chunks[..n + 1]), 0) >= 0
    ensures
      var i := IndexOf(WELCOME, Flatten(chunks), 0);
      && i >= 0
      && IsFirst(WELCOME, Flatten(chunks), i)
      && |Flatten(chunks[..n])| < i + |WELCOME| <= |Flatten(chunks[..n + 1])|
      && Feed(FRESH, chunks) ==
         Feed(Drain(FRESH_SOCKET.(channel := Flatten(chunks[..n + 1])[i + |WELCOME|..])), chunks[n + 1..])
  {
    var i := IndexOf(WELCOME, Flatten(chunks[..n + 1]), 0);
    WelcomeIndex(chunks, n + 1);
    IndexIsFirst(WELCOME, Flatten(chunks));
    WelcomeHandedOn(chunks, n, i);
  }

  lemma WelcomeIndex(chunks: seq<Bytes>, m: nat)
    requires m <= |chunks| && IndexOf(WELCOME, Flatten(chunks[..m]), 0) >= 0
    ensures IndexOf(WELCOME, Flatten(chunks), 0) == IndexOf(WELCOME, Flatten(chunks[..m]), 0)
  {
    FlattenSplit(chunks, m);
    FoundAppend(WELCOME, Flatten(chunks[..m]), Flatten(chunks[m..]));
  }

  lemma WelcomeHandedOn(chunks: seq<Bytes>, n: nat, i: nat)
    requires n < |chunks| && IndexOf(WELCOME, Flatten(chunks[..n]), 0) == -1
    requires IndexOf(WELCOME, Flatten(chunks[..n + 1]), 0) == i
    ensures |Flatten(chunks[..n])| < i + |WELCOME| <= |Flatten(chunks[..n + 1])|
    ensures Feed(FRESH, chunks) ==
            Feed(Drain(FRESH_SOCKET.(channel := Flatten(chunks[..n + 1])[i + |WELCOME|..])), chunks[n + 1..])
  {
    var front, seen := chunks[..n], chunks[..n + 1];
    assert seen == front + [chunks[n]] && seen[..n] == front;
    assert Flatten(seen) == Flatten(front) + chunks[n];
    FeedSplit(FRESH, chunks, n + 1);
    WelcomeCompleted(front, chunks[n], i);
  }

  /** The incremental scanner agrees with searching the whole stream: it finds the message
      exactly when it is there, in the chunk that completes it, and drops only what is before. */
  lemma ScannerAgrees(chunks: seq<Bytes>)
    ensures Absent(WELCOME, Flatten(chunks)) ==>
              Feed(FRESH, chunks) == FRESH.(channel := Skip(WELCOME, Flatten(chunks)).1)
    ensures forall i: nat :: IsFirst(WELCOME, Flatten(chunks), i) ==> exists n: nat :: TurnsIntoSocket(chunks, i, n)
  {
    if IndexOf(WELCOME, Flatten(chunks), 0) == -1 { FeedFile(chunks); }
    forall i: nat | IsFirst(WELCOME, Flatten(chunks), i) ensures exists n: nat :: TurnsIntoSocket(chunks, i, n) {
      IndexOfUnique(WELCOME, Flatten(chunks), i);
      assert chunks[..|chunks|] == chunks;
      var n := Completing(chunks, |chunks|);
      WelcomeFound(chunks, n);
      assert TurnsIntoSocket(chunks, i, n);
    }
  }

  ghost predicate TurnsIntoSocket(chunks: seq<Bytes>, i: nat, n: nat) {
    && n < |chunks|
    && |Flatten(chunks[..n])| < i + |WELCOME| <= |Flatten(chunks[..n + 1])|
    && Feed(FRESH, chunks) ==
       Feed(Drain(FRESH_SOCKET.(channel := Flatten(chunks[..n + 1])[i + |WELCOME|..])), chunks[n + 1..])
  }

  /** The chunk that completes the first occurrence. */
  lemma {:induction false} Completing(chunks: seq<Bytes>, m: nat) returns (n: nat)
    requires m <= |chunks| && IndexOf(WELCOME, Flatten(chunks[..m]), 0) >= 0
    ensures n < m && IndexOf(WELCOME, Flatten(chunks[..n]), 0) == -1
    ensures IndexOf(WELCOME, Flatten(chunks[..n + 1]), 0) >= 0
  {
    n := m - 1;
    if IndexOf(WELCOME, Flatten(chunks[..n]), 0) >= 0 {
      n := Completing(chunks, n);
    }
  }

  // ----- the forty-byte window -----

  /** The scanner may drop the first `d` bytes. */
  ghost predicate Dropped(all: Bytes, d: nat) {
    && d <= |all|
    && (d == 0 || |WELCOME| <= |all| - d)
    && forall j: nat :: j < d ==> !OccursAt(WELCOME, all, j)
  }

  lemma WindowHit(all: Bytes, d: nat, n: nat)
    requires Dropped(all, d) && d + n <= |all|
    requires IndexOf(WELCOME, all[d..][..n], 0) >= 0
    ensures var k := IndexOf(WELCOME, all[d..][..n], 0);
            k + |WELCOME| <= n && Skip(WELCOME, all) == (true, all[d..][k + |WELCOME|..])
  {
    var front, back := all[d..][..n], all[d..][n..];
    assert all[d..] == front + back;
    IndexAhead(WELCOME, all, d, front, back);
    SkipToFound(WELCOME, all, d, IndexOf(WELCOME, front, 0));
  }

  lemma WindowMiss(all: Bytes, d: nat, n: nat)
    requires Dropped(all, d) && |WELCOME| < n && d + n <= |all|
    requires IndexOf(WELCOME, all[d..][..n], 0) == -1
    ensures var skip := n - |WELCOME|;
            Dropped(all, d + skip) && all[d..][skip..] == all[d + skip..]
  {
    var skip := n - |WELCOME|;
    DropDrop(all, d, skip);
    forall j: nat | d <= j < d + skip ensures !OccursAt(WELCOME, all, j) {
      var ahead := all[d..];
      assert ahead == ahead[..n] + ahead[n..];
      OccursInSuffix(WELCOME, all, d, j - d);
      OccursInPrefix(WELCOME, ahead[..n], ahead[n..], j - d);
    }
  }

  lemma WindowEnd(all: Bytes, d: nat)
    requires Dropped(all, d) && |all| - d <= |WELCOME|
    requires IndexOf(WELCOME, all[d..][..|all| - d], 0) == -1
    ensures Skip(WELCOME, all) == (false, all[d..])
  {
    assert all[d..][..|all| - d] == all[d..];
    IndexOfSuffix(WELCOME, all, d);
  }

  // ----- the objects -----

  /** One end of the channel: what can be read, and what has been written to the peer. */
  class Ipc {
    var readChannel: Bytes
    var written: Bytes
    var expectedLength: int
    var gotWelcomeMessage: bool
    var readBuffer: Bytes
    var emitted: seq<Bytes>
    var spinning: bool

    function State(): Reader
      reads this
    {
      Reader(readChannel, expectedLength, gotWelcomeMessage, readBuffer, emitted, spinning)
    }

    constructor ()
      ensures State() == FRESH && written == []
    {
      readChannel, written, expectedLength := [], [], 0;
      gotWelcomeMessage, readBuffer, emitted, spinning := false, [], [], false;
    }

    /** Connect to the devices, each of which may be a file or a socket. */
    method SetChannels(available: Bytes, readsFile: bool, writesFile: bool)
      requires State() == FRESH
      modifies this
      ensures State() == Drain((if readsFile then FRESH else FRESH_SOCKET).(channel := available))
      ensures written == old(written) + if writesFile then WELCOME else []
    {
      readChannel := available;
      if !readsFile {
        gotWelcomeMessage := true;
      }
      OnReadyRead();
      if writesFile {
        written := written + WELCOME;
      }
    }

    /** The device signals that `chunk` can be read. */
    method ReadyRead(chunk: Bytes)
      modifies this
      ensures State() == Arrive(old(State()), chunk)
      ensures written == old(written)
    {
      readChannel := readChannel + chunk;
      OnReadyRead();
    }

    method Read(count: nat) returns (bytes: Bytes)
      modifies this`readChannel
      ensures |bytes| == if count <= old(|readChannel|) then count else old(|readChannel|)
      ensures old(readChannel) == bytes + readChannel
    {
      var n := if count <= |readChannel| then count else |readChannel|;
      bytes, readChannel := readChannel[..n], readChannel[n..];
    }

    method OnReadyRead()
      modifies this
      ensures State() == Drain(old(State()))
      ensures written == old(written)
    {
      if spinning { return; }
      ghost var start := State();
      while true
        invariant Drain(State()) == Drain(start) && !spinning && written == old(written)
        decreases |readChannel|, if expectedLength == 0 then 0 else 1
      {
        ghost var top := State();
        if expectedLength == 0 {
          var found := WaitWelcomeMessage();
          if !found { break; }
          ghost var scanned := State();
          var header := Read(HEADER);
          if |header| < HEADER { break; }
          expectedLength := DecodeLength(header);
          readBuffer := [];
          assert header == scanned.channel[..HEADER] && readChannel == scanned.channel[HEADER..];
        }
        ghost var mid := State();
        assert Drain(top) == Fill(mid);
        var neededBytes := expectedLength - |readBuffer|;
        if neededBytes < 0 {
          // QIODevice::read gives nothing for a negative count: neither exit is ever taken
          spinning := true;
          break;
        }
        var buffer := Read(neededBytes);
        assert |buffer| == neededBytes ==>
          buffer == mid.channel[..neededBytes] && readChannel == mid.channel[neededBytes..];
        readBuffer := readBuffer + buffer;
        if |buffer| < neededBytes { break; }
        emitted := emitted + [readBuffer];
        expectedLength := 0;
      }
    }

    /** Skip everything up to the end of the first welcome message, forty bytes at a time. */
    method WaitWelcomeMessage() returns (found: bool)
      modifies this`readChannel, this`gotWelcomeMessage
      ensures State() == Scan(old(State())) && found == gotWelcomeMessage
    {
      if gotWelcomeMessage { return true; }
      ghost var all := readChannel;
      ghost var dropped: nat := 0;
      while true
        invariant !gotWelcomeMessage && Dropped(all, dropped) && readChannel == all[dropped..]
        decreases |readChannel|
      {
        var buffer := readChannel[..if PEEK <= |readChannel| then PEEK else |readChannel|];
        var foundAt := IndexOf(WELCOME, buffer, 0);
        if foundAt >= 0 {
          WindowHit(all, dropped, |buffer|);
          var _ := Read(foundAt + |WELCOME|);
          gotWelcomeMessage := true;
          return true;
        }
        var skip := |buffer| - |WELCOME|;
        if skip <= 0 { break; }
        WindowMiss(all, dropped, |buffer|);
        var _ := Read(skip);
        dropped := dropped + skip;
      }
      WindowEnd(all, dropped);
      return false;
    }

    method Write(data: Bytes)
      requires |data| < MAX_LENGTH
      modifies this`written
      ensures written == old(written) + Frame(data)
    {
      written := written + EncodeLength(|data|);
      written := written + data;
    }
  }
}
