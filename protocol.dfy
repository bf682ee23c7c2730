/** One poll from end to end: the client's `CheckState` crosses the wire to the
    server, the server's reply crosses back, and the client acts on it. */
module Protocol {
  import opened Outcomes
  import opened Records
  import opened Wire
  import opened Filesystem
  import opened Client
  import opened Server

  /** Every sealed frame fits the 8-byte length. */
  ghost predicate SealsFit(cipher: Cipher, json: Json) {
    forall n: Nonce, f: Frame :: |cipher.seal(n, json.encode(f))| < U64_LIMIT
  }

  /** The foreign collaborators keep their round trips. */
  ghost predicate Faithful(cipher: Cipher, json: Json) {
    cipher.OpensWhatItSeals() && json.DecodesWhatItEncodes() && SealsFit(cipher, json)
  }

  /** A poll over a connection that works both ways: what the server answers
      to the client's `CheckState(c)`, and what the client then does. */
  datatype Exchanged = Exchanged(answered: Answered, polled: Polled)

  function Exchange(config: ClientConfig, env: Env, files: Files, cipher: Cipher, json: Json,
                    c: StateId, id: StateId, state: State, clientNonce: Nonce, serverNonce: Nonce): Exchanged
  {
    var request := CheckStateBytes(cipher, json, Some(Stream([], true)), c, clientNonce);
    var answered := Answer(cipher, json, id, state, Stream(request, true), serverNonce);
    var reply := Reply(cipher, json, Some(Stream(answered.sent, true)));
    Exchanged(answered, PollStep(config, env, files, c, reply))
  }

  lemma {:induction false} ReceiveEncoded(cipher: Cipher, json: Json, nonce: Nonce, frame: Frame)
    requires Faithful(cipher, json)
    ensures Receive(cipher, json, EncodeFrame(cipher, json, nonce, frame)).result == Ok(Some(frame))
  {
    var bytes := EncodeFrame(cipher, json, nonce, frame);
    assert bytes + [] == bytes;
    FrameRoundTrip(cipher, json, nonce, frame, []);
  }

  /** A client holding the server's version is told nothing changed and
      changes nothing; any other client adopts the server's version and writes
      the server's state. */
  lemma {:induction false} ExchangeSpec(config: ClientConfig, env: Env, files: Files, cipher: Cipher, json: Json,
                     c: StateId, id: StateId, state: State, clientNonce: Nonce, serverNonce: Nonce)
    requires Faithful(cipher, json)
    ensures var e := Exchange(config, env, files, cipher, json, c, id, state, clientNonce, serverNonce);
            && e.answered.outcome == Ok(())
            && (c == id ==> e.polled == Polled(Ok(()), c, files))
            && (c != id ==> var a := Simulate(env, files, StatePlan(config, state));
                            e.polled == Polled(a.outcome, id, a.files))
  {
    ReceiveEncoded(cipher, json, clientNonce, CheckState(c));
    var request := CheckStateBytes(cipher, json, Some(Stream([], true)), c, clientNonce);
    var response := if c == id then NoChanges else NewState(id, state);
    assert Answer(cipher, json, id, state, Stream(request, true), serverNonce)
           == Answered(Ok(()), EncodeFrame(cipher, json, serverNonce, response));
    ReceiveEncoded(cipher, json, serverNonce, response);
  }

  /** After one poll the client holds the server's version, whether or not it
      could write the state; the next poll is answered `NoChanges` and leaves
      the files alone. */
  lemma {:induction false} Converges(config: ClientConfig, env: Env, files: Files, cipher: Cipher, json: Json,
                  c: StateId, id: StateId, state: State, nonces: seq<Nonce>)
    requires Faithful(cipher, json) && |nonces| == 4
    ensures var first := Exchange(config, env, files, cipher, json, c, id, state, nonces[0], nonces[1]).polled;
            && first.stateId == id
            && Exchange(config, env, first.files, cipher, json, first.stateId, id, state, nonces[2], nonces[3]).polled
               == Polled(Ok(()), id, first.files)
  {
    ExchangeSpec(config, env, files, cipher, json, c, id, state, nonces[0], nonces[1]);
    var first := Exchange(config, env, files, cipher, json, c, id, state, nonces[0], nonces[1]).polled;
    ExchangeSpec(config, env, first.files, cipher, json, id, id, state, nonces[2], nonces[3]);
  }
}
