/** infod_server/src/main.rs: the server reads a snapshot from four files
    once, draws a random version for it, and answers every connection with one
    frame against that fixed pair. */
module Server {
  import opened Outcomes
  import opened Text
  import opened Records
  import opened Wire

  const SPOOL_DIR: string := "/var/spool/infod"

  /** The `[server]` table of the configuration, without the listen address. */
  datatype ServerConfig = ServerConfig(passwdFile: Option<string>, groupFile: Option<string>,
                                       shadowFile: Option<string>, mountFile: Option<string>)

  /** The text of every file the server can open. */
  type Disk = map<string, string>

  /** A configured path, or the file of that name in the spool directory. */
  function SourcePath(configured: Option<string>, name: string): (p: string)
    ensures configured.None? ==> p == PathJoin(SPOOL_DIR, name)
    ensures configured.Some? ==> p == configured.value
  {
    configured.GetOr(PathJoin(SPOOL_DIR, name))
  }

  /** `File::open` then `read_*`: a file that cannot be opened is an I/O error. */
  function ReadSource<T>(disk: Disk, path: string, parse: string -> Outcome<T>): (r: Outcome<seq<T>>)
    ensures path !in disk ==> r == Err(Io)
  {
    if path !in disk then Err(Io) else ParseLines(Lines(disk[path]), parse)
  }

  /** The snapshot of lines 26-61: passwd, shadow, group, then mounts; the
      first failure ends the start-up. */
  function Snapshot(config: ServerConfig, disk: Disk): Outcome<State> {
    var users :- ReadSource(disk, SourcePath(config.passwdFile, "passwd"), ParseUser);
    var shadow :- ReadSource(disk, SourcePath(config.shadowFile, "shadow"), ParseShadow);
    var groups :- ReadSource(disk, SourcePath(config.groupFile, "group"), ParseGroup);
    var mounts :- ReadSource(disk, SourcePath(config.mountFile, "mounts"), ParseMount);
    Ok(State(users, shadow, groups, mounts))
  }

  method ReadFile<T>(disk: Disk, path: string, parse: string -> Outcome<T>) returns (r: Outcome<seq<T>>)
    ensures r == ReadSource(disk, path, parse)
  {
    if path !in disk {
      return Err(Io);
    }
    r := ReadRecords(disk[path], parse);
  }

  /** Lines 26-61. */
  method LoadState(config: ServerConfig, disk: Disk) returns (r: Outcome<State>)
    ensures r == Snapshot(config, disk)
  {
    var users :- ReadFile(disk, config.passwdFile.GetOr(PathJoin(SPOOL_DIR, "passwd")), ParseUser);
    var shadow :- ReadFile(disk, config.shadowFile.GetOr(PathJoin(SPOOL_DIR, "shadow")), ParseShadow);
    var groups :- ReadFile(disk, config.groupFile.GetOr(PathJoin(SPOOL_DIR, "group")), ParseGroup);
    var mounts :- ReadFile(disk, config.mountFile.GetOr(PathJoin(SPOOL_DIR, "mounts")), ParseMount);
    r := Ok(State(users, shadow, groups, mounts));
  }

  /** The server starts exactly when all four files open and every line of
      each parses; the snapshot then holds each file's records in order. */
  lemma {:induction false} SnapshotSpec(config: ServerConfig, disk: Disk)
    ensures var users := ReadSource(disk, SourcePath(config.passwdFile, "passwd"), ParseUser);
            var shadow := ReadSource(disk, SourcePath(config.shadowFile, "shadow"), ParseShadow);
            var groups := ReadSource(disk, SourcePath(config.groupFile, "group"), ParseGroup);
            var mounts := ReadSource(disk, SourcePath(config.mountFile, "mounts"), ParseMount);
            && (Snapshot(config, disk).Ok? <==> users.Ok? && shadow.Ok? && groups.Ok? && mounts.Ok?)
            && (Snapshot(config, disk).Ok? ==>
                  Snapshot(config, disk).value == State(users.value, shadow.value, groups.value, mounts.value))
  {
  }

  /** A line of the server's mounts file: the four fields, tab-separated. */
  function MountsFileLine(m: Mount): string {
    Join([m.mountpoint, m.key, m.params, m.location], '\t')
  }

  predicate WritableMount(m: Mount) {
    IsWord(m.mountpoint) && IsWord(m.key) && IsWord(m.params) && IsWord(m.location)
  }

  lemma {:induction false} WordIsPlain(w: string)
    requires IsWord(w)
    ensures '\n' !in w && !EndsWithCr(w)
  {
    assert IsWhitespace('\n') && IsWhitespace('\r');
  }

  /** `read_mounts` gives back entries written one tab-separated line each,
      when no field is empty or holds whitespace. */
  lemma {:induction false} MountsRoundTrip(mounts: seq<Mount>)
    requires forall i :: 0 <= i < |mounts| ==> WritableMount(mounts[i])
    ensures ParseLines(Lines(Render(mounts, MountsFileLine)), ParseMount) == Ok(mounts)
  {
    forall i | 0 <= i < |mounts|
      ensures IsPlainLine(MountsFileLine(mounts[i]))
      ensures ParseMount(MountsFileLine(mounts[i])) == Ok(mounts[i])
    {
      var m := mounts[i];
      var fields := [m.mountpoint, m.key, m.params, m.location];
      forall j | 0 <= j < 4 ensures '\n' !in fields[j] && !EndsWithCr(fields[j]) {
        WordIsPlain(fields[j]);
      }
      JoinAvoids(fields, '\t', '\n');
      JoinEndsWithCr(fields, '\t');
      MountLineRoundTrip(m);
    }
    ParseRendered(mounts, MountsFileLine, ParseMount);
  }

  /** The files the server reads, holding a state as `write_*` (and, for the
      mounts, one tab-separated line per entry) would have written it. */
  predicate DiskHolds(config: ServerConfig, disk: Disk, state: State) {
    && SourcePath(config.passwdFile, "passwd") in disk
    && disk[SourcePath(config.passwdFile, "passwd")] == Render(state.users, FormatUser)
    && SourcePath(config.shadowFile, "shadow") in disk
    && disk[SourcePath(config.shadowFile, "shadow")] == Render(state.shadow, FormatShadow)
    && SourcePath(config.groupFile, "group") in disk
    && disk[SourcePath(config.groupFile, "group")] == Render(state.groups, FormatGroup)
    && SourcePath(config.mountFile, "mounts") in disk
    && disk[SourcePath(config.mountFile, "mounts")] == Render(state.mounts, MountsFileLine)
  }

  /** A state that survives the line formats is read back exactly. */
  lemma {:induction false} SnapshotOfWritten(config: ServerConfig, disk: Disk, state: State)
    requires DiskHolds(config, disk, state)
    requires forall i :: 0 <= i < |state.users| ==> WritableUser(state.users[i])
    requires forall i :: 0 <= i < |state.shadow| ==> WritableShadow(state.shadow[i])
    requires forall i :: 0 <= i < |state.groups| ==> WritableGroup(state.groups[i])
    requires forall i :: 0 <= i < |state.mounts| ==> WritableMount(state.mounts[i])
    ensures Snapshot(config, disk) == Ok(state)
  {
    UsersRoundTrip(state.users);
    ShadowRoundTrip(state.shadow);
    GroupsRoundTrip(state.groups);
    MountsRoundTrip(state.mounts);
  }

  // ---------------------------------------------------------------------------
  // Answering a connection

  /** Lines 80-90: the reply to what was read from a connection. */
  function Respond(id: StateId, state: State, request: Outcome<Option<Frame>>): (r: Outcome<Frame>)
    ensures r.Ok? ==> !r.value.CheckState?
  {
    match request
    case Err(e) => Err(e)
    case Panic(a) => Panic(a)
    case Ok(None) => Panic(InvalidFrame)
    case Ok(Some(frame)) =>
      match frame
      case CheckState(cid) => if cid == id then Ok(NoChanges) else Ok(NewState(id, state))
      case NewState(_, _) => Panic(InvalidFrame)
      case NoChanges => Panic(InvalidFrame)
  }

  /** A client that holds the server's version is told nothing changed; any
      other version gets the server's pair, state unchanged; anything other
      than a `CheckState` gets no reply. */
  lemma {:induction false} RespondRule(id: StateId, state: State, request: Outcome<Option<Frame>>)
    ensures var r := Respond(id, state, request);
            && (r.Ok? <==> request.Ok? && request.value.Some? && request.value.value.CheckState?)
            && (r == Ok(NoChanges) <==> request == Ok(Some(CheckState(id))))
            && (r.Ok? && request != Ok(Some(CheckState(id))) ==> r == Ok(NewState(id, state)))
            && (request.Err? ==> r == request.PropagateFailure())
            && (!r.Ok? && !request.Err? ==> r.Panic?)
  {
  }

  /** What one connection leads to: the outcome, and the frame bytes sent. */
  datatype Answered = Answered(outcome: Outcome<()>, sent: Bytes)

  function Answer(cipher: Cipher, json: Json, id: StateId, state: State, stream: Stream, nonce: Nonce): Answered {
    var response := Respond(id, state, Receive(cipher, json, stream.incoming).result);
    if !response.Ok? then Answered(response.PropagateFailure(), [])
    else if !stream.acceptsWrites then Answered(Err(Io), [])
    else Answered(Ok(()), EncodeFrame(cipher, json, nonce, response.value))
  }

  /** Lines 79-91: one frame read, one frame sent. */
  method HandleConnection(cipher: Cipher, json: Json, id: StateId, state: State, stream: Stream, nonce: Nonce)
    returns (r: Outcome<()>, sent: Bytes)
    ensures Answered(r, sent) == Answer(cipher, json, id, state, stream, nonce)
  {
    var conn := new Connection(cipher, stream);
    var request := conn.ReadFrame(json);
    var response := Respond(id, state, request);
    if !response.Ok? {
      return response.PropagateFailure(), [];
    }
    var written := conn.SendFrame(json, response.value, nonce);
    if !written.Ok? {
      return Err(Io), [];
    }
    r, sent := Ok(()), conn.outgoing;
  }

  /** One accepted connection (or an error from `incoming`), with the nonce
      drawn for the reply. */
  datatype Incoming = Incoming(stream: Option<Stream>, nonce: Nonce)

  /** The accept loop over a number of connections: every failure ends it. */
  datatype Served = Served(outcome: Outcome<()>, replies: seq<Bytes>)

  function Serve(cipher: Cipher, json: Json, id: StateId, state: State, incoming: seq<Incoming>): Served
    decreases |incoming|
  {
    if incoming == [] then Served(Ok(()), [])
    else if incoming[0].stream.None? then Served(Err(Io), [])
    else
      var a := Answer(cipher, json, id, state, incoming[0].stream.value, incoming[0].nonce);
      if !a.outcome.Ok? then Served(a.outcome, [])
      else
        var rest := Serve(cipher, json, id, state, incoming[1..]);
        Served(rest.outcome, [a.sent] + rest.replies)
  }

  /** Lines 78-92. */
  method Listen(cipher: Cipher, json: Json, id: StateId, state: State, incoming: seq<Incoming>)
    returns (r: Outcome<()>, replies: seq<Bytes>)
    ensures Served(r, replies) == Serve(cipher, json, id, state, incoming)
  {
    replies := [];
    var i := 0;
    while i < |incoming|
      invariant i <= |incoming|
      invariant Serve(cipher, json, id, state, incoming)
                == var rest := Serve(cipher, json, id, state, incoming[i..]);
                   Served(rest.outcome, replies + rest.replies)
    {
      assert incoming[i..][0] == incoming[i] && incoming[i..][1..] == incoming[i + 1..];
      var stream := incoming[i].stream;
      if stream.None? {
        return Err(Io), replies;
      }
      var done, sent := HandleConnection(cipher, json, id, state, stream.value, incoming[i].nonce);
      if !done.Ok? {
        return done, replies;
      }
      replies := replies + [sent];
      i := i + 1;
    }
    r := Ok(());
  }

  /** `main` after the configuration is read: the snapshot, then the accept
      loop; `id` is the random version drawn at line 63. */
  method RunServer(config: ServerConfig, disk: Disk, cipher: Cipher, json: Json, id: StateId,
                   incoming: seq<Incoming>)
    returns (r: Outcome<()>, replies: seq<Bytes>)
    ensures var snapshot := Snapshot(config, disk);
            if snapshot.Ok? then Served(r, replies) == Serve(cipher, json, id, snapshot.value, incoming)
            else r == snapshot.PropagateFailure() && replies == []
  {
    var state := LoadState(config, disk);
    if !state.Ok? {
      return state.PropagateFailure(), [];
    }
    r, replies := Listen(cipher, json, id, state.value, incoming);
  }

  /** Every connection served is answered with exactly one frame, computed from
      its own request against the same version and state; a run that ends
      without failure has answered every connection. */
  lemma {:induction false} ServeAnswersEach(cipher: Cipher, json: Json, id: StateId, state: State,
                                            incoming: seq<Incoming>)
    ensures var s := Serve(cipher, json, id, state, incoming);
            && |s.replies| <= |incoming|
            && (s.outcome.Ok? ==> |s.replies| == |incoming|)
            && forall i :: 0 <= i < |s.replies| ==>
                 incoming[i].stream.Some?
                 && var stream := incoming[i].stream.value;
                    var response := Respond(id, state, Receive(cipher, json, stream.incoming).result);
                    response.Ok? && s.replies[i] == EncodeFrame(cipher, json, incoming[i].nonce, response.value)
    decreases |incoming|
  {
    if incoming != [] && incoming[0].stream.Some? {
      var a := Answer(cipher, json, id, state, incoming[0].stream.value, incoming[0].nonce);
      if a.outcome.Ok? {
        ServeAnswersEach(cipher, json, id, state, incoming[1..]);
        var s := Serve(cipher, json, id, state, incoming);
        forall i | 1 <= i < |s.replies|
          ensures incoming[i] == incoming[1..][i - 1]
        {
        }
      }
    }
  }
}
