/** The secure channel of infod_common/src/lib.rs: one frame on the wire is an
    8-byte big-endian length, a 24-byte nonce and the sealed payload.  The AEAD
    cipher and the JSON codec are foreign code; they are parameters of the
    model, with the round trips they promise stated as predicates. */
module Wire {
  import opened Outcomes
  import opened Records

  type Byte = b: int | 0 <= b < 256
  type Bytes = seq<Byte>

  const LENGTH_SIZE: nat := 8
  const NONCE_SIZE: nat := 24
  const U64_LIMIT: nat := 0x1_0000_0000_0000_0000

  /** An XChaCha20 nonce. */
  type Nonce = n: Bytes | |n| == 24 witness seq(24, _ => 0)

  // ---------------------------------------------------------------------------
  // Big-endian integers

  function Pow256(k: nat): (p: nat)
    ensures p > 0
  {
    if k == 0 then 1 else 256 * Pow256(k - 1)
  }

  /** `to_be_bytes`: the low `width` bytes of `n`, most significant first. */
  function BigEndian(n: nat, width: nat): (b: Bytes)
    ensures |b| == width
  {
    if width == 0 then [] else BigEndian(n / 256, width - 1) + [n % 256]
  }

  /** `from_be_bytes` */
  function FromBigEndian(b: Bytes): (n: nat)
    ensures n < Pow256(|b|)
  {
    if b == [] then 0 else FromBigEndian(b[..|b| - 1]) * 256 + b[|b| - 1]
  }

  lemma {:induction false} BigEndianRoundTrip(n: nat, width: nat)
    requires n < Pow256(width)
    ensures FromBigEndian(BigEndian(n, width)) == n
  {
    if width > 0 {
      BigEndianRoundTrip(n / 256, width - 1);
      var b := BigEndian(n, width);
      assert b[..|b| - 1] == BigEndian(n / 256, width - 1);
    }
  }

  lemma {:induction false} FromBigEndianRoundTrip(b: Bytes)
    ensures BigEndian(FromBigEndian(b), |b|) == b
  {
    if b != [] {
      var init := b[..|b| - 1];
      FromBigEndianRoundTrip(init);
      var n := FromBigEndian(b);
      assert n / 256 == FromBigEndian(init) && n % 256 == b[|b| - 1];
      assert init + [b[|b| - 1]] == b;
    }
  }

  /** Proof helper: 256^8 is the 64-bit limit. */
  lemma {:induction false} Pow256Of8()
    ensures Pow256(8) == U64_LIMIT
  {
  }

  // ---------------------------------------------------------------------------
  // The foreign collaborators

  /** XChaCha20-Poly1305 keyed with the derived secret. */
  datatype Cipher = Cipher(seal: (Nonce, Bytes) -> Bytes, open: (Nonce, Bytes) -> Option<Bytes>) {
    /** Opening with the nonce something was sealed with gives it back. */
    ghost predicate OpensWhatItSeals() {
      forall n: Nonce, p: Bytes :: open(n, seal(n, p)) == Some(p)
    }
  }

  /** serde_json for `Frame`. */
  datatype Json = Json(encode: Frame -> Bytes, decode: Bytes -> Option<Frame>) {
    ghost predicate DecodesWhatItEncodes() {
      forall f: Frame :: decode(encode(f)) == Some(f)
    }
  }

  // ---------------------------------------------------------------------------
  // The frame layout

  /** What `send_frame` writes for a sealed payload; the length is taken
      `as u64`. */
  function FrameBytes(nonce: Nonce, sealed: Bytes): (b: Bytes)
    ensures |b| == LENGTH_SIZE + NONCE_SIZE + |sealed|
    ensures b[LENGTH_SIZE..LENGTH_SIZE + NONCE_SIZE] == nonce
    ensures b[LENGTH_SIZE + NONCE_SIZE..] == sealed
  {
    BigEndian(|sealed| % U64_LIMIT, LENGTH_SIZE) + nonce + sealed
  }

  function EncodeFrame(cipher: Cipher, json: Json, nonce: Nonce, frame: Frame): Bytes {
    FrameBytes(nonce, cipher.seal(nonce, json.encode(frame)))
  }

  /** `read_exact` of `n` bytes: the bytes and what is left, or the end of the
      stream (which leaves nothing to read). */
  function TakeExact(input: Bytes, n: nat): (r: (Outcome<Bytes>, Bytes))
    ensures r.0.Ok? ==> |r.0.value| == n && r.0.value + r.1 == input
    ensures !r.0.Ok? <==> |input| < n
    ensures !r.0.Ok? ==> r == (Err(UnexpectedEof), [])
  {
    if |input| < n then (Err(UnexpectedEof), []) else (Ok(input[..n]), input[n..])
  }

  /** The three fixed-size reads of `read_frame`: the nonce and the sealed
      payload, and what is left on the stream. */
  function Unframe(input: Bytes): (r: (Outcome<(Nonce, Bytes)>, Bytes))
    ensures !r.0.Ok? ==> r == (Err(UnexpectedEof), [])
    ensures r.0.Ok? <==> |input| >= LENGTH_SIZE + NONCE_SIZE
                         && |input| >= LENGTH_SIZE + NONCE_SIZE + FromBigEndian(input[..LENGTH_SIZE])
  {
    var (length, afterLength) := TakeExact(input, LENGTH_SIZE);
    if !length.Ok? then (Err(UnexpectedEof), [])
    else
      var (nonce, afterNonce) := TakeExact(afterLength, NONCE_SIZE);
      if !nonce.Ok? then (Err(UnexpectedEof), [])
      else
        var (sealed, rest) := TakeExact(afterNonce, FromBigEndian(length.value));
        if !sealed.Ok? then (Err(UnexpectedEof), [])
        else (Ok((nonce.value, sealed.value)), rest)
  }

  /** The outcome of `read_frame` and what is left on the stream. */
  datatype Received = Received(result: Outcome<Option<Frame>>, rest: Bytes)

  /** `read_frame`: never `None`; a short stream is an error, a payload that
      does not open panics, one that does not decode is an error, and one that
      decodes is that frame. A whole frame leaves what followed it. */
  function Receive(cipher: Cipher, json: Json, input: Bytes): (r: Received)
    ensures r.result != Ok(None)
    ensures r.result == Err(UnexpectedEof) <==> !Unframe(input).0.Ok?
    ensures r.result.Panic? <==> (Unframe(input).0.Ok?
                                 && cipher.open(Unframe(input).0.value.0, Unframe(input).0.value.1).None?)
    ensures r.result.Panic? ==> r.result.abort == AuthenticationFailed
    ensures Unframe(input).0.Ok? && cipher.open(Unframe(input).0.value.0, Unframe(input).0.value.1).Some? ==>
              var data := cipher.open(Unframe(input).0.value.0, Unframe(input).0.value.1).value;
              && (r.result == Err(MalformedFrame) <==> json.decode(data).None?)
              && (json.decode(data).Some? ==> r.result == Ok(Some(json.decode(data).value)))
    ensures Unframe(input).0.Ok? ==> r.rest == Unframe(input).1
  {
    var (payload, rest) := Unframe(input);
    if !payload.Ok? then Received(Err(UnexpectedEof), [])
    else
      match cipher.open(payload.value.0, payload.value.1)
      case None => Received(Panic(AuthenticationFailed), rest)
      case Some(data) =>
        match json.decode(data)
        case None => Received(Err(MalformedFrame), rest)
        case Some(frame) => Received(Ok(Some(frame)), rest)
  }

  /** Reading the bytes of a frame gives back its nonce and payload and leaves
      exactly what followed it. */
  lemma {:induction false} UnframeFrameBytes(nonce: Nonce, sealed: Bytes, rest: Bytes)
    requires |sealed| < U64_LIMIT
    ensures Unframe(FrameBytes(nonce, sealed) + rest) == (Ok((nonce, sealed)), rest)
  {
    var len := |sealed|;
    assert len % U64_LIMIT == len;
    var header := BigEndian(len, LENGTH_SIZE);
    var input := header + (nonce + (sealed + rest));
    assert FrameBytes(nonce, sealed) + rest == input;
    Pow256Of8();
    BigEndianRoundTrip(len, LENGTH_SIZE);
    assert input[..LENGTH_SIZE] == header && input[LENGTH_SIZE..] == nonce + (sealed + rest);
    var afterNonce := sealed + rest;
    assert (nonce + afterNonce)[..NONCE_SIZE] == nonce && (nonce + afterNonce)[NONCE_SIZE..] == afterNonce;
    assert afterNonce[..len] == sealed && afterNonce[len..] == rest;
  }

  /** What one side sends, the other side receives: under the cipher's and the
      codec's round trips, receiving an encoded frame gives the frame. */
  lemma {:induction false} FrameRoundTrip(cipher: Cipher, json: Json, nonce: Nonce, frame: Frame, rest: Bytes)
    requires cipher.OpensWhatItSeals() && json.DecodesWhatItEncodes()
    requires |cipher.seal(nonce, json.encode(frame))| < U64_LIMIT
    ensures Receive(cipher, json, EncodeFrame(cipher, json, nonce, frame) + rest)
            == Received(Ok(Some(frame)), rest)
  {
    var sealed := cipher.seal(nonce, json.encode(frame));
    UnframeFrameBytes(nonce, sealed, rest);
    assert cipher.open(nonce, sealed) == Some(json.encode(frame));
    assert json.decode(json.encode(frame)) == Some(frame);
  }

  /** A TCP stream: the bytes the peer will send, and whether it accepts what
      is written to it. */
  datatype Stream = Stream(incoming: Bytes, acceptsWrites: bool)

  /** `Connection`: a buffered reader and a buffered writer over one stream. */
  class Connection {
    const cipher: Cipher
    const acceptsWrites: bool
    /** The bytes not yet read. */
    var incoming: Bytes
    /** The bytes written and flushed so far. */
    var outgoing: Bytes

    constructor (cipher: Cipher, stream: Stream)
      ensures this.cipher == cipher && acceptsWrites == stream.acceptsWrites
      ensures incoming == stream.incoming && outgoing == []
    {
      this.cipher := cipher;
      acceptsWrites := stream.acceptsWrites;
      incoming := stream.incoming;
      outgoing := [];
    }

    method ReadExact(n: nat) returns (r: Outcome<Bytes>)
      modifies this`incoming
      ensures (r, incoming) == TakeExact(old(incoming), n)
    {
      if |incoming| < n {
        incoming := [];
        return Err(UnexpectedEof);
      }
      r := Ok(incoming[..n]);
      incoming := incoming[n..];
    }

    /** `read_frame` */
    method ReadFrame(json: Json) returns (r: Outcome<Option<Frame>>)
      modifies this`incoming
      ensures Received(r, incoming) == Receive(cipher, json, old(incoming))
    {
      var length :- ReadExact(LENGTH_SIZE);
      var nonce :- ReadExact(NONCE_SIZE);
      var sealed :- ReadExact(FromBigEndian(length));
      var data := cipher.open(nonce, sealed);
      if data.None? {
        return Panic(AuthenticationFailed);
      }
      var frame := json.decode(data.value);
      if frame.None? {
        return Err(MalformedFrame);
      }
      r := Ok(Some(frame.value));
    }

    /** `send_frame`, with the nonce the random generator draws as a parameter:
        the length, the nonce and the sealed payload in one write. */
    method SendFrame(json: Json, frame: Frame, nonce: Nonce) returns (r: Outcome<()>)
      modifies this`outgoing
      ensures acceptsWrites ==> r == Ok(()) && outgoing == old(outgoing) + EncodeFrame(cipher, json, nonce, frame)
      ensures !acceptsWrites ==> r == Err(Io) && outgoing == old(outgoing)
    {
      var data := json.encode(frame);
      var sealed := cipher.seal(nonce, data);
      var buf: Bytes := [];
      buf := buf + BigEndian(|sealed| % U64_LIMIT, LENGTH_SIZE);
      buf := buf + nonce;
      buf := buf + sealed;
      if !acceptsWrites {
        return Err(Io);
      }
      outgoing := outgoing + buf;
      r := Ok(());
    }
  }
}
