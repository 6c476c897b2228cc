/** Length-prefixed framing of JSON messages over a byte stream. */
module FrameProtocol {
  import opened Wrappers

  type Byte = b: nat | b < 256
  type Bytes = seq<Byte>

  const HEADER_SIZE: nat := 4
  const HEADER_LIMIT: nat := 0x1_0000_0000

  /** Big-endian unsigned 32-bit header. */
  function Pack(n: nat): (h: Bytes)
    requires n < HEADER_LIMIT
    ensures |h| == HEADER_SIZE
  {
    [n / 0x100_0000, n / 0x1_0000 % 256, n / 256 % 256, n % 256]
  }

  function Unpack(b: Bytes): (n: nat)
    requires |b| >= HEADER_SIZE
    ensures n < HEADER_LIMIT
  {
    b[0] as int * 0x100_0000 + b[1] as int * 0x1_0000 + b[2] as int * 256 + b[3] as int
  }

  lemma HeaderRoundTrip(n: nat, rest: Bytes)
    requires n < HEADER_LIMIT
    ensures Unpack(Pack(n) + rest) == n
  {
    var low, middle, high := n / 256, n / 0x1_0000, n / 0x100_0000;
    assert n == low * 256 + n % 256;
    assert low == middle * 256 + low % 256;
    assert middle == high * 256 + middle % 256;
  }

  /** The four digits of the size in base 256, the most significant first. */
  lemma HeaderIsBigEndian(n: nat, b: Bytes)
    requires n < HEADER_LIMIT && |b| >= 4
    ensures Unpack(b) == ((b[0] as int * 256 + b[1] as int) * 256 + b[2] as int) * 256 + b[3] as int
    ensures Pack(n) == b[..4] <==> n == ((b[0] as int * 256 + b[1] as int) * 256 + b[2] as int) * 256 + b[3] as int
  {
    HeaderRoundTrip(n, []);
    assert Pack(n) + [] == Pack(n);
    var m := Unpack(b);
    assert m / 0x100_0000 == b[0] as int && m / 0x1_0000 == b[0] as int * 256 + b[1] as int;
    assert m / 256 == (b[0] as int * 256 + b[1] as int) * 256 + b[2] as int;
    assert Pack(m) == b[..4];
  }

  /** What json.loads makes of a frame body. */
  datatype Parsed<+M> = Object(message: M) | NotObject | Malformed

  /** JSON text: `Serialize` is None for a message that is not finite JSON data. */
  datatype Codec<!M> = Codec(Serialize: M -> Option<Bytes>, Parse: Bytes -> Parsed<M>)

  ghost predicate Faithful<M(!new)>(c: Codec<M>) {
    forall m :: c.Serialize(m).Some? ==> c.Parse(c.Serialize(m).value) == Object(m)
  }

  datatype EncodeError = NotFinite | BadLength(size: nat) | HeaderOverflow

  datatype DecodeError = InvalidLength(size: nat) | InvalidJson | RootNotObject

  /** encode_frame. */
  function Encode<M>(c: Codec<M>, m: M, limit: int): Result<Bytes, EncodeError> {
    match c.Serialize(m)
    case None => Failure(NotFinite)
    case Some(body) =>
      if body == [] || |body| > limit then Failure(BadLength(|body|))
      else if |body| >= HEADER_LIMIT then Failure(HeaderOverflow)
      else Success(Pack(|body|) + body)
  }

  /** What one feed makes of the buffered bytes: the decoded messages and the bytes kept, or
      an error that discards the messages decoded before it. */
  datatype Outcome<+M> = Decoded(messages: seq<M>, rest: Bytes) | Failed(error: DecodeError, discarded: seq<M>)

  function Prepend<M>(ms: seq<M>, o: Outcome<M>): Outcome<M> {
    match o
    case Decoded(messages, rest) => Decoded(ms + messages, rest)
    case Failed(error, discarded) => Failed(error, ms + discarded)
  }

  /** The frames of a byte string, one after the other. */
  function Drain<M>(c: Codec<M>, max: nat, b: Bytes): Outcome<M>
    decreases |b|
  {
    if |b| < HEADER_SIZE then Decoded([], b)
    else
      var size := Unpack(b);
      if size == 0 || size > max then Failed(InvalidLength(size), [])
      else if |b| < HEADER_SIZE + size then Decoded([], b)
      else match c.Parse(b[HEADER_SIZE..HEADER_SIZE + size])
        case Malformed => Failed(InvalidJson, [])
        case NotObject => Failed(RootNotObject, [])
        case Object(m) => Prepend([m], Drain(c, max, b[HEADER_SIZE + size..]))
  }

  /** The first frame decides how a non-empty buffer is read: by its big-endian size, and by
      its body once all of that has arrived. */
  lemma FirstFrameDecides<M>(c: Codec<M>, max: nat, b: Bytes, size: nat)
    requires |b| >= 4 && size == ((b[0] as int * 256 + b[1] as int) * 256 + b[2] as int) * 256 + b[3] as int
    ensures size == 0 || size > max ==> Drain(c, max, b) == Failed(InvalidLength(size), [])
    ensures 0 < size <= max && |b| < 4 + size ==> Drain(c, max, b) == Decoded([], b)
    ensures 0 < size <= max && |b| >= 4 + size ==>
      match c.Parse(b[4..4 + size])
      case Malformed => Drain(c, max, b) == Failed(InvalidJson, [])
      case NotObject => Drain(c, max, b) == Failed(RootNotObject, [])
      case Object(m) =>
        match Drain(c, max, b[4 + size..])
        case Decoded(messages, rest) => Drain(c, max, b) == Decoded([m] + messages, rest)
        case Failed(error, discarded) => Drain(c, max, b) == Failed(error, [m] + discarded)
  {
    HeaderIsBigEndian(0, b);
  }

  /** A message is refused exactly when it is not finite JSON data, or its text is empty,
      longer than the limit or beyond a 32-bit size; otherwise the text follows its size. */
  lemma EncodingIsExact<M>(c: Codec<M>, m: M, limit: int)
    ensures Encode(c, m, limit).Success? <==>
      exists body :: c.Serialize(m) == Some(body) && 0 < |body| <= limit && |body| < 0x1_0000_0000
    ensures Encode(c, m, limit).Success? ==>
      var f := Encode(c, m, limit).value;
      && |f| > 4 && c.Serialize(m) == Some(f[4..])
      && |f| - 4 == ((f[0] as int * 256 + f[1] as int) * 256 + f[2] as int) * 256 + f[3] as int
  {
    if Encode(c, m, limit).Success? {
      var body, f := c.Serialize(m).value, Encode(c, m, limit).value;
      assert f[4..] == body && f[..4] == Pack(|body|);
      HeaderIsBigEndian(|body|, f);
    }
  }

  /** The incremental decoder of one connection. */
  class FrameDecoder<M> {
    const codec: Codec<M>
    const max: nat
    var buffer: Bytes

    constructor (codec: Codec<M>, max: nat)
      requires max > 0
      ensures this.codec == codec && this.max == max && buffer == []
    {
      this.codec := codec;
      this.max := max;
      buffer := [];
    }

    method Feed(chunk: Bytes) returns (r: Result<seq<M>, DecodeError>)
      modifies this
      ensures match Drain(codec, max, old(buffer) + chunk)
        case Decoded(messages, rest) => r == Success(messages) && buffer == rest
        case Failed(error, _) => r == Failure(error) && buffer == []
    {
      buffer := buffer + chunk;
      var decoded := [];
      ghost var whole := buffer;
      while |buffer| >= HEADER_SIZE
        invariant Drain(codec, max, whole) == Prepend(decoded, Drain(codec, max, buffer))
        decreases |buffer|
      {
        var size := Unpack(buffer);
        if size <= 0 || size > max {
          buffer := [];
          return Failure(InvalidLength(size));
        }
        var frameSize := HEADER_SIZE + size;
        if |buffer| < frameSize {
          break;
        }
        var body := buffer[HEADER_SIZE..frameSize];
        ghost var tail := Drain(codec, max, buffer[frameSize..]);
        buffer := buffer[frameSize..];
        match codec.Parse(body) {
          case Malformed =>
            buffer := [];
            return Failure(InvalidJson);
          case NotObject =>
            buffer := [];
            return Failure(RootNotObject);
          case Object(m) =>
            PrependTwice(decoded, [m], tail);
            decoded := decoded + [m];
        }
      }
      assert decoded + [] == decoded;
      return Success(decoded);
    }
  }

  lemma PrependTwice<M>(a: seq<M>, b: seq<M>, o: Outcome<M>)
    ensures Prepend(a, Prepend(b, o)) == Prepend(a + b, o)
  {
    if o.Decoded? {
      assert a + (b + o.messages) == a + b + o.messages;
    } else {
      assert a + (b + o.discarded) == a + b + o.discarded;
    }
  }

  lemma PrependNothing<M>(o: Outcome<M>)
    ensures Prepend([], o) == o
  {
  }

  /** More bytes only continue the work: what was decoded stays decoded, what failed fails. */
  lemma {:induction false} DrainContinues<M>(c: Codec<M>, max: nat, a: Bytes, b: Bytes)
    ensures var first := Drain(c, max, a);
      Drain(c, max, a + b) == if first.Decoded? then Prepend(first.messages, Drain(c, max, first.rest + b)) else first
    decreases |a|
  {
    var first := Drain(c, max, a);
    PrependNothing(Drain(c, max, a + b));
    if |a| >= HEADER_SIZE {
      var size := Unpack(a);
      assert Unpack(a + b) == size;
      var frame := HEADER_SIZE + size;
      if 0 < size <= max && |a| >= frame {
        assert (a + b)[HEADER_SIZE..frame] == a[HEADER_SIZE..frame];
        assert (a + b)[frame..] == a[frame..] + b;
        var parsed := c.Parse(a[HEADER_SIZE..frame]);
        if parsed.Object? {
          DrainContinues(c, max, a[frame..], b);
          var next := Drain(c, max, a[frame..]);
          if next.Decoded? {
            PrependTwice([parsed.message], next.messages, Drain(c, max, next.rest + b));
          }
        }
      }
    }
  }

  // A connection: the feeds of one decoder up to the first error.

  function Concat(chunks: seq<Bytes>): Bytes {
    if chunks == [] then [] else chunks[0] + Concat(chunks[1..])
  }

  /** What the reader of a connection has received when the chunks are used up, or when a
      feed failed: `delivered` came from earlier feeds, `discarded` was decoded by the
      failing one. */
  datatype Reading<+M> =
    | Reading(delivered: seq<M>, buffer: Bytes)
    | Broken(delivered: seq<M>, discarded: seq<M>, error: DecodeError)

  function After<M>(ms: seq<M>, r: Reading<M>): Reading<M> {
    match r
    case Reading(delivered, buffer) => Reading(ms + delivered, buffer)
    case Broken(delivered, discarded, error) => Broken(ms + delivered, discarded, error)
  }

  function Read<M>(c: Codec<M>, max: nat, buffer: Bytes, chunks: seq<Bytes>): Reading<M>
    decreases |chunks|
  {
    if chunks == [] then Reading([], buffer)
    else match Drain(c, max, buffer + chunks[0])
      case Failed(error, discarded) => Broken([], discarded, error)
      case Decoded(messages, rest) =>
        After(messages, Read(c, max, rest, chunks[1..]))
  }

  /** Feeding in any chunks decodes what feeding everything at once decodes. */
  predicate Matches<M(==)>(r: Reading<M>, whole: Outcome<M>) {
    match whole
    case Decoded(messages, rest) => r == Reading(messages, rest)
    case Failed(error, discarded) => r.Broken? && r.error == error && r.delivered + r.discarded == discarded
  }

  lemma {:induction false} FeedingEqualsDraining<M>(c: Codec<M>, max: nat, buffer: Bytes, chunks: seq<Bytes>)
    requires Drain(c, max, buffer) == Decoded([], buffer)
    ensures Matches(Read(c, max, buffer, chunks), Drain(c, max, buffer + Concat(chunks)))
    decreases |chunks|
  {
    if chunks == [] {
      assert buffer + Concat(chunks) == buffer;
    } else {
      var now, later := buffer + chunks[0], Concat(chunks[1..]);
      assert buffer + Concat(chunks) == now + later;
      DrainContinues(c, max, now, later);
      var first := Drain(c, max, now);
      if first.Decoded? {
        RestIsStuck(c, max, now);
        FeedingEqualsDraining(c, max, first.rest, chunks[1..]);
        var r, tail := Read(c, max, first.rest, chunks[1..]), Drain(c, max, first.rest + later);
        if tail.Failed? {
          assert first.messages + (r.delivered + r.discarded) == first.messages + r.delivered + r.discarded;
        }
      }
    }
  }

  lemma {:induction false} RestIsStuck<M>(c: Codec<M>, max: nat, b: Bytes)
    requires Drain(c, max, b).Decoded?
    ensures var rest := Drain(c, max, b).rest; Drain(c, max, rest) == Decoded([], rest)
    decreases |b|
  {
    if |b| >= HEADER_SIZE && |b| >= HEADER_SIZE + Unpack(b) {
      RestIsStuck(c, max, b[HEADER_SIZE + Unpack(b)..]);
    }
  }

  /** How the bytes were cut does not matter: the same error, or the same messages and
      buffer; with an error, the same messages were decoded, delivered or not. */
  lemma ChunkingIsIrrelevant<M>(c: Codec<M>, max: nat, a: seq<Bytes>, b: seq<Bytes>)
    requires Concat(a) == Concat(b)
    ensures var x, y := Read(c, max, [], a), Read(c, max, [], b);
      && (x.Reading? <==> y.Reading?)
      && (x.Reading? ==> x == y)
      && (x.Broken? ==> x.error == y.error && x.delivered + x.discarded == y.delivered + y.discarded)
  {
    FeedingEqualsDraining(c, max, [], a);
    FeedingEqualsDraining(c, max, [], b);
  }

  // Round trip of valid messages.

  predicate Fits<M>(c: Codec<M>, max: nat, m: M) {
    Encode(c, m, max).Success?
  }

  predicate AllFit<M>(c: Codec<M>, max: nat, ms: seq<M>) {
    forall i :: 0 <= i < |ms| ==> Fits(c, max, ms[i])
  }

  function EncodeAll<M>(c: Codec<M>, max: nat, ms: seq<M>): Bytes
    requires AllFit(c, max, ms)
  {
    if ms == [] then [] else Encode(c, ms[0], max).value + EncodeAll(c, max, ms[1..])
  }

  /** A frame decodes to its message and leaves what follows it. */
  lemma FrameRoundTrip<M(!new)>(c: Codec<M>, max: nat, m: M, rest: Bytes)
    requires Faithful(c) && Fits(c, max, m)
    ensures Drain(c, max, Encode(c, m, max).value + rest) == Prepend([m], Drain(c, max, rest))
  {
    var body := c.Serialize(m).value;
    var b := Encode(c, m, max).value + rest;
    assert b == Pack(|body|) + (body + rest);
    HeaderRoundTrip(|body|, body + rest);
    assert b[HEADER_SIZE..HEADER_SIZE + |body|] == body;
    assert b[HEADER_SIZE + |body|..] == rest;
  }

  /** A proper prefix of a frame is kept whole. */
  lemma PartialFrame<M(!new)>(c: Codec<M>, max: nat, m: M, part: Bytes)
    requires Fits(c, max, m) && part < Encode(c, m, max).value
    ensures Drain(c, max, part) == Decoded([], part)
  {
    var body := c.Serialize(m).value;
    if |part| >= HEADER_SIZE {
      HeaderRoundTrip(|body|, body);
      assert Unpack(part) == Unpack(Pack(|body|) + body);
    }
  }

  /** A prefix of an encoded stream decodes to the messages whose frames are complete. */
  lemma {:induction false} DrainOfPrefix<M(!new)>(c: Codec<M>, max: nat, ms: seq<M>, b: Bytes) returns (k: nat)
    requires Faithful(c) && AllFit(c, max, ms) && b <= EncodeAll(c, max, ms)
    ensures Complete(c, max, ms, b, k)
    ensures Drain(c, max, b) == Decoded(ms[..k], b[|EncodeAll(c, max, ms[..k])|..])
    decreases |ms|
  {
    if ms == [] {
      k := 0;
    } else {
      var frame, later := Encode(c, ms[0], max).value, EncodeAll(c, max, ms[1..]);
      if |b| < |frame| {
        k := 0;
        assert b == (frame + later)[..|b|] == frame[..|b|];
        PartialFrame(c, max, ms[0], b);
        assert ms[..0] == [];
      } else {
        assert b == frame + b[|frame|..];
        var j := DrainOfPrefix(c, max, ms[1..], b[|frame|..]);
        k := j + 1;
        assert ms[..k] == [ms[0]] + ms[1..][..j];
        assert ms[..k][1..] == ms[1..][..j];
        FrameRoundTrip(c, max, ms[0], b[|frame|..]);
        assert b[|EncodeAll(c, max, ms[..k])|..] == b[|frame|..][|EncodeAll(c, max, ms[1..][..j])|..];
      }
    }
  }

  /** Exactly the first `k` frames of the stream are complete in its prefix `b`. */
  ghost predicate Complete<M>(c: Codec<M>, max: nat, ms: seq<M>, b: Bytes, k: nat)
    requires AllFit(c, max, ms)
  {
    && k <= |ms|
    && EncodeAll(c, max, ms[..k]) <= b
    && (k < |ms| ==> |b| < |EncodeAll(c, max, ms[..k])| + |Encode(c, ms[k], max).value|)
  }

  /** Whatever prefix of an encoded stream has arrived, in whatever chunks: the decoder has
      returned exactly the messages whose frames are complete, and keeps the rest. */
  lemma FragmentationIndependence<M(!new)>(c: Codec<M>, max: nat, ms: seq<M>, chunks: seq<Bytes>) returns (k: nat)
    requires Faithful(c) && AllFit(c, max, ms) && Concat(chunks) <= EncodeAll(c, max, ms)
    ensures Complete(c, max, ms, Concat(chunks), k)
    ensures Read(c, max, [], chunks) == Reading(ms[..k], Concat(chunks)[|EncodeAll(c, max, ms[..k])|..])
  {
    assert [] + Concat(chunks) == Concat(chunks);
    FeedingEqualsDraining(c, max, [], chunks);
    k := DrainOfPrefix(c, max, ms, Concat(chunks));
  }

  /** The whole stream arrives as the whole message list, and nothing stays behind. */
  lemma StreamRoundTrip<M(!new)>(c: Codec<M>, max: nat, ms: seq<M>, chunks: seq<Bytes>)
    requires Faithful(c) && AllFit(c, max, ms) && Concat(chunks) == EncodeAll(c, max, ms)
    ensures Read(c, max, [], chunks) == Reading(ms, [])
  {
    var k := FragmentationIndependence(c, max, ms, chunks);
    assert ms[..|ms|] == ms;
    if k < |ms| {
      FramesAddUp(c, max, ms, k);
    }
  }

  lemma {:induction false} FramesAddUp<M>(c: Codec<M>, max: nat, ms: seq<M>, k: nat)
    requires AllFit(c, max, ms) && k < |ms|
    ensures |EncodeAll(c, max, ms[..k])| + |Encode(c, ms[k], max).value| <= |EncodeAll(c, max, ms)|
    decreases k
  {
    if k > 0 {
      FramesAddUp(c, max, ms[1..], k - 1);
      assert ms[..k][1..] == ms[1..][..k - 1];
    } else {
      assert ms[..0] == [];
    }
  }

  // What does depend on the chunks: messages decoded by the feed that fails are lost

  /** How many bytes of a stream that starts with a bad frame it takes to see that it is bad. */
  function BadFrameSize(max: nat, bad: Bytes): nat {
    if |bad| < HEADER_SIZE || Unpack(bad) == 0 || Unpack(bad) > max then HEADER_SIZE else HEADER_SIZE + Unpack(bad)
  }

  lemma BadFrameIsThere<M>(c: Codec<M>, max: nat, bad: Bytes)
    requires Drain(c, max, bad).Failed? && Drain(c, max, bad).discarded == []
    ensures HEADER_SIZE <= BadFrameSize(max, bad) <= |bad|
  {
  }

  /** A prefix of a bad frame waits for the rest of it and fails as soon as it is there. */
  lemma BadFramePrefix<M>(c: Codec<M>, max: nat, bad: Bytes, q: Bytes)
    requires Drain(c, max, bad).Failed? && Drain(c, max, bad).discarded == [] && q <= bad
    ensures Drain(c, max, q) == if |q| < BadFrameSize(max, bad) then Decoded([], q) else Drain(c, max, bad)
  {
    var size, needed := Unpack(bad), BadFrameSize(max, bad);
    if |q| >= HEADER_SIZE {
      assert Unpack(q) == size;
      if |q| >= needed > HEADER_SIZE {
        assert q[HEADER_SIZE..needed] == bad[HEADER_SIZE..needed];
      }
    }
  }

  lemma {:induction false} DrainOfAll<M(!new)>(c: Codec<M>, max: nat, ms: seq<M>, rest: Bytes)
    requires Faithful(c) && AllFit(c, max, ms)
    ensures Drain(c, max, EncodeAll(c, max, ms) + rest) == Prepend(ms, Drain(c, max, rest))
    decreases |ms|
  {
    if ms == [] {
      assert EncodeAll(c, max, ms) + rest == rest;
      PrependNothing(Drain(c, max, rest));
    } else {
      var frame, later := Encode(c, ms[0], max).value, EncodeAll(c, max, ms[1..]);
      assert EncodeAll(c, max, ms) + rest == frame + (later + rest);
      FrameRoundTrip(c, max, ms[0], later + rest);
      DrainOfAll(c, max, ms[1..], rest);
      PrependTwice([ms[0]], ms[1..], Drain(c, max, rest));
      assert [ms[0]] + ms[1..] == ms;
    }
  }

  /** The stream: valid frames, then a bad one. */
  ghost predicate Breaks<M(!new)>(c: Codec<M>, max: nat, ms: seq<M>, bad: Bytes, error: DecodeError) {
    Faithful(c) && AllFit(c, max, ms) && Drain(c, max, bad) == Failed(error, [])
  }

  /** Exactly the first `k` frames are complete in the first `n` bytes. */
  ghost predicate CompleteIn<M>(c: Codec<M>, max: nat, ms: seq<M>, n: nat, k: nat)
    requires AllFit(c, max, ms)
  {
    && k <= |ms|
    && |EncodeAll(c, max, ms[..k])| <= n
    && (k < |ms| ==> n < |EncodeAll(c, max, ms[..k])| + |Encode(c, ms[k], max).value|)
  }

  lemma PrefixOfConcat(p: Bytes, a: Bytes, b: Bytes)
    requires p <= a + b
    ensures if |p| <= |a| then p <= a else p == a + p[|a|..] && p[|a|..] <= b
  {
    if |p| <= |a| {
      assert p == (a + b)[..|p|] == a[..|p|];
    } else {
      assert p[|a|..] == (a + b)[|a|..|p|] == b[..|p| - |a|];
    }
  }

  /** What a prefix of such a stream decodes to: the complete frames while the bad one is not,
      and the error afterwards. */
  lemma DrainOfBrokenPrefix<M(!new)>(c: Codec<M>, max: nat, ms: seq<M>, bad: Bytes, error: DecodeError, b: Bytes) returns (k: nat)
    requires Breaks(c, max, ms, bad, error) && b <= EncodeAll(c, max, ms) + bad
    ensures CompleteIn(c, max, ms, |b|, k)
    ensures var o := Drain(c, max, b);
      if |b| < |EncodeAll(c, max, ms)| + BadFrameSize(max, bad) then o.Decoded? && o.messages == ms[..k]
      else o == Failed(error, ms)
  {
    BadFrameIsThere(c, max, bad);
    var all := EncodeAll(c, max, ms);
    PrefixOfConcat(b, all, bad);
    if |b| <= |all| {
      k := DrainOfPrefix(c, max, ms, b);
    } else {
      k := |ms|;
      assert ms[..k] == ms;
      var q := b[|all|..];
      BadFramePrefix(c, max, bad, q);
      DrainOfAll(c, max, ms, q);
      assert ms + [] == ms;
    }
  }

  lemma {:induction false} ConcatSplits(chunks: seq<Bytes>, i: nat)
    requires i <= |chunks|
    ensures Concat(chunks) == Concat(chunks[..i]) + Concat(chunks[i..])
    decreases i
  {
    if i == 0 {
      assert chunks[..0] == [] && chunks[0..] == chunks;
    } else {
      ConcatSplits(chunks[1..], i - 1);
      assert chunks[1..][..i - 1] == chunks[..i][1..] && chunks[1..][i - 1..] == chunks[i..];
      assert Concat(chunks[..i]) == chunks[0] + Concat(chunks[1..][..i - 1]);
    }
  }

  /** Bytes up to the i-th chunk, and with it. */
  lemma ConcatNext(chunks: seq<Bytes>, i: nat)
    requires i < |chunks|
    ensures Concat(chunks[..i + 1]) == Concat(chunks[..i]) + chunks[i]
  {
    ConcatSplits(chunks[..i + 1], i);
    assert chunks[..i + 1][..i] == chunks[..i] && chunks[..i + 1][i..] == [chunks[i]];
    assert Concat([chunks[i]]) == chunks[i];
  }

  /** The chunk that brings the `n`-th byte. */
  predicate Brings(chunks: seq<Bytes>, i: nat, n: nat) {
    i < |chunks| && |Concat(chunks[..i])| < n <= |Concat(chunks[..i + 1])|
  }

  lemma {:induction false} SomeChunkBrings(chunks: seq<Bytes>, n: nat) returns (i: nat)
    requires 0 < n <= |Concat(chunks)|
    ensures Brings(chunks, i, n)
    decreases |chunks|
  {
    var last := |chunks| - 1;
    assert chunks[..last + 1] == chunks;
    if |Concat(chunks[..last])| < n {
      i := last;
    } else {
      i := SomeChunkBrings(chunks[..last], n);
      assert chunks[..last][..i] == chunks[..i] && chunks[..last][..i + 1] == chunks[..i + 1];
    }
  }

  lemma AfterTwice<M>(a: seq<M>, b: seq<M>, r: Reading<M>)
    ensures After(a, After(b, r)) == After(a + b, r)
  {
    assert a + (b + r.delivered) == a + b + r.delivered;
  }

  /** Reading the first chunks, then the others from the buffer they left. */
  lemma {:induction false} ReadSplits<M>(c: Codec<M>, max: nat, buffer: Bytes, chunks: seq<Bytes>, i: nat)
    requires i <= |chunks| && Read(c, max, buffer, chunks[..i]).Reading?
    ensures var first := Read(c, max, buffer, chunks[..i]);
      Read(c, max, buffer, chunks) == After(first.delivered, Read(c, max, first.buffer, chunks[i..]))
    decreases i
  {
    if i == 0 {
      assert chunks[..0] == [] && chunks[0..] == chunks;
      assert [] + Read(c, max, buffer, chunks).delivered == Read(c, max, buffer, chunks).delivered;
    } else {
      var later := chunks[1..];
      assert chunks[..i][1..] == later[..i - 1] && later[i - 1..] == chunks[i..] && chunks[..i][0] == chunks[0];
      var now := Drain(c, max, buffer + chunks[0]);
      ReadSplits(c, max, now.rest, later, i - 1);
      var middle := Read(c, max, now.rest, later[..i - 1]);
      AfterTwice(now.messages, middle.delivered, Read(c, max, middle.buffer, chunks[i..]));
    }
  }

  /** A connection on which valid frames are followed by a bad one breaks at the chunk that
      completes the bad frame.  The messages whose frames were complete before that chunk have
      been delivered, the others are lost. */
  lemma BrokenConnection<M(!new)>(c: Codec<M>, max: nat, ms: seq<M>, bad: Bytes, error: DecodeError, chunks: seq<Bytes>, i: nat)
    returns (k: nat)
    requires Breaks(c, max, ms, bad, error) && Concat(chunks) == EncodeAll(c, max, ms) + bad
    requires Brings(chunks, i, |EncodeAll(c, max, ms)| + BadFrameSize(max, bad))
    ensures CompleteIn(c, max, ms, |Concat(chunks[..i])|, k)
    ensures Read(c, max, [], chunks) == Broken(ms[..k], ms[k..], error)
  {
    BadFrameIsThere(c, max, bad);
    var before, with := Concat(chunks[..i]), Concat(chunks[..i + 1]);
    ConcatSplits(chunks, i);
    ConcatSplits(chunks, i + 1);
    ConcatNext(chunks, i);
    k := DrainOfBrokenPrefix(c, max, ms, bad, error, before);
    var all := DrainOfBrokenPrefix(c, max, ms, bad, error, with);
    assert [] + before == before;
    FeedingEqualsDraining(c, max, [], chunks[..i]);
    var rest := Drain(c, max, before).rest;
    DrainContinues(c, max, before, chunks[i]);
    ReadSplits(c, max, [], chunks, i);
    assert chunks[i..][0] == chunks[i];
    var last := Drain(c, max, rest + chunks[i]);
    assert ms[..k] + last.discarded == ms;
    assert last.discarded == ms[k..];
    assert ms[..k] + [] == ms[..k];
  }

  /** There is such a chunk. */
  lemma SomeChunkCompletesTheBadFrame<M(!new)>(c: Codec<M>, max: nat, ms: seq<M>, bad: Bytes, error: DecodeError, chunks: seq<Bytes>)
    returns (i: nat)
    requires Breaks(c, max, ms, bad, error) && Concat(chunks) == EncodeAll(c, max, ms) + bad
    ensures Brings(chunks, i, |EncodeAll(c, max, ms)| + BadFrameSize(max, bad))
  {
    BadFrameIsThere(c, max, bad);
    i := SomeChunkBrings(chunks, |EncodeAll(c, max, ms)| + BadFrameSize(max, bad));
  }

  /** Nothing is lost exactly when every valid frame was complete before that chunk. */
  lemma NothingLostIffFramesCameBefore<M(!new)>(c: Codec<M>, max: nat, ms: seq<M>, bad: Bytes, error: DecodeError, chunks: seq<Bytes>, i: nat)
    requires Breaks(c, max, ms, bad, error) && Concat(chunks) == EncodeAll(c, max, ms) + bad
    requires Brings(chunks, i, |EncodeAll(c, max, ms)| + BadFrameSize(max, bad))
    ensures var r := Read(c, max, [], chunks);
      && r.Broken? && r.error == error && r.delivered + r.discarded == ms
      && (r.delivered == ms <==> |EncodeAll(c, max, ms)| <= |Concat(chunks[..i])|)
  {
    var k := BrokenConnection(c, max, ms, bad, error, chunks, i);
    AllCompleteIff(c, max, ms, |Concat(chunks[..i])|, k);
    assert ms[..k] + ms[k..] == ms;
  }

  lemma AllCompleteIff<M>(c: Codec<M>, max: nat, ms: seq<M>, n: nat, k: nat)
    requires AllFit(c, max, ms) && CompleteIn(c, max, ms, n, k)
    ensures ms[..k] == ms <==> |EncodeAll(c, max, ms)| <= n
  {
    if k < |ms| {
      FramesAddUp(c, max, ms, k);
      assert |ms[..k]| != |ms|;
    } else {
      assert ms[..k] == ms;
    }
  }
}
