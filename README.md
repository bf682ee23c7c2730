# infod in Dafny

infod distributes a site's accounts and automount maps from one server to many
clients:

- **The server** reads four files once at start-up: passwd, shadow, group and an
  autofs mounts file. It draws a random 64-bit version id. It then answers
  every connection. A client holding the current id gets `NoChanges`; any
  other client gets `NewState(id, state)`.
- **The client** polls the server in a loop. It sends `CheckState(id)` with the
  id it remembers. On `NewState` it adopts the new id and writes the state
  below its destination directory (`/var/spool/infod` by default):
  - the three record files are staged as `*.new`, readable by their owner only,
    and then renamed over the live files;
  - one autofs map file is written per mount point.
- **The NSS module** answers passwd, group, shadow and initgroups queries from
  the three files in `/var/spool/infod`. Its host queries always answer empty.
- **Frames on the wire** are an 8-byte big-endian length, a 24-byte nonce and
  the sealed JSON encoding of the frame.

The model is split into these modules:

| module | file | what it holds |
|---|---|---|
| `Outcomes` | outcomes.dfy | Rust's `Result` and panics as one failure-compatible `Outcome`, so `:-` models `?` |
| `Text` | text.dfy | `split`, `join`, `BufRead::lines`, `split_whitespace`, decimal printing, integer parsing, `Path::join` and byte-wise string order |
| `Records` | records.dfy | the line formats of `infod_common` and the `read_*` / `write_*` loops, with their round trips |
| `Wire` | wire.dfy | the frame layout and the `Connection` class, whose `read_frame` and `send_frame` work over a byte stream |
| `Filesystem` | filesystem.dfy | a file system that holds contents and modes, with an explicit set of failing operations; a `FileSystem` class whose methods change it |
| `Mounts` | mounts.dfy | the `BTreeMap` that groups mounts by mount point |
| `Client` | client.dfy | `write_state`, both as methods over a `FileSystem` and as a plan of file operations; `start_client`; the polling loop |
| `Server` | server.dfy | loading the snapshot, answering one connection, and the accept loop |
| `Protocol` | protocol.dfy | one poll from end to end: client frame, server answer, client action |
| `Nss` | nss.dfy | the NSS hooks over a map from path to file text |
| `Installation` | installation.dfy | the files a client installs, read back by the NSS module |

Cryptography and JSON are not modelled. They are *parameters*:

- a `Cipher` is a pair of seal and open functions;
- a `Json` is a pair of encode and decode functions.

Each comes with the round-trip predicate it is trusted to keep. Lemmas that
need a round trip take that predicate as a precondition, so there are no
axioms.

## Where the code and the design differ

The model follows the code in each of these points:

- **When the client adopts a version.** The design adopts a new version only
  after it was applied, so a failed apply is retried on the next poll. In the
  code, `start_client` stores the new id before calling `write_state`
  (infod_client/src/main.rs:68-69). The next poll then gets `NoChanges`, and a
  failed write is never retried while the server keeps its id.
  `Client.PollAdoptsNewState` and `Protocol.Converges` state this behaviour.
- **Whether an apply is all or nothing.** The design promises this. In the
  code, the three renames and the mount files are separate steps. A failure
  part-way leaves some files new and others old;
  `Client.GroupRenameFailureMixes` shows one such case.
- **How mount files are written.** The design says final paths are never
  modified in place. In the code, mount files are created or truncated and
  written in place, with no temporary file and no mode change
  (infod_client/src/main.rs:136).
- **Whether a written file is complete.** Each record and mount file is written
  through a `BufWriter` that is never flushed, and an error raised when it is
  dropped is ignored (infod_client/src/main.rs:103, 136). A write whose tail
  is lost still lets `write_state` return `Ok`, and the truncated file is
  renamed into place. `Client.LostTailInstalled` shows such a run.
- **What a bad peer does to the server.** The design makes protocol and
  encoding errors fatal to one connection only. In the code, an accept error,
  a truncated frame or a payload that does not decode leaves `main` through
  `?`, and a payload that does not open or a frame other than `CheckState`
  panics (infod_server/src/main.rs:78-91). Either way, one bad peer ends the
  whole server. `Server.Listen` and `Server.ServeAnswersEach` state this: the
  loop stops at the first failure.
- **Reload.** The design describes a reload request and a file-blob frame
  variant. The code has neither: `Frame` has three variants, and the server
  reads its files once.
- **What `read_frame` returns.** It never returns `Ok(None)`. A closed stream
  is an `UnexpectedEof` error, so the `None => panic!` arms of client and
  server cannot be reached (`Wire.Receive`, `Client.Reply`).

## Model

| member | source | states |
|---|---|---|
| `Text.SplitJoin` | infod_common/src/lib.rs:284-289 | splitting a join of separator-free pieces on the same separator gives back the pieces |
| `Text.JoinSplit` | infod_common/src/lib.rs:284-289 | joining the pieces of a split gives back the text |
| `Text.LinesUnlines` | infod_common/src/lib.rs:193-194 | `lines()` of newline-terminated lines that hold no newline and do not end in CR gives back those lines |
| `Text.WordsJoinTab` | infod_common/src/lib.rs:321-338 | `split_whitespace` of tab-joined words gives back the words |
| `Text.DecimalValue` | infod_common/src/lib.rs:217 | the decimal digits printed for a number have that number as their value |
| `Text.ParseDecimal` | infod_common/src/lib.rs:199-200 | `from_str_radix(_, 10)` reads back a printed number below the type's limit |
| `Text.ParseUnsignedSign` | infod_common/src/lib.rs:199-200 | an unsigned parse accepts a leading `+` and rejects a leading `-` |
| `Text.ParseI64` | infod_nss/src/lib.rs:136-141 | a successful signed parse lies in the 64-bit signed range |
| `Text.PathJoinInjective` | infod_client/src/main.rs:87-94 | joining different relative names to one directory gives different paths |
| `Text.StrLessTotal` | infod_client/src/main.rs:118 | the key order of the mount map is total: of two different keys, one is smaller |
| `Records.Field` | infod_common/src/lib.rs:196-203 | indexing a missing field panics; any other index gives that field |
| `Records.U32Field` | infod_common/src/lib.rs:199-200 | a numeric field is read iff it exists and parses below 2^32; a missing one panics, a bad one is an error |
| `Records.ParseUser` | infod_common/src/lib.rs:195-204 | a passwd line is read iff it has at least 7 fields and fields 3 and 4 are u32s, and then its fields are the first seven in order with the two numbers parsed; it is a number error iff the first of the two numbers that exists fails to parse, and a missing-field panic otherwise |
| `Records.ParseShadow` | infod_common/src/lib.rs:232-243 | a shadow line is read iff it has at least 9 fields, and then its fields are the first nine in order; otherwise it panics |
| `Records.ParseGroup` | infod_common/src/lib.rs:279-290 | a group line is read iff it has at least 4 fields and field 3 is a u32, and then name, password and gid are the first three fields with the gid parsed, and its members are field 4 split on commas; it is a number error iff a third field exists and does not parse, and a missing-field panic otherwise |
| `Records.ParseMount` | infod_common/src/lib.rs:321-327 | a mounts line is read iff it has at least 4 whitespace-separated words, and then its fields are the first four words in order; otherwise it panics |
| `Records.ParseLinesSpec` | infod_common/src/lib.rs:193-206 | a file is read iff every line parses, giving the records in order; otherwise the result is the failure of the first line that fails |
| `Records.ReadRecords` | infod_common/src/lib.rs:188-207 | the reading loop returns the outcome of parsing the lines of the text |
| `Records.WriteRecords` | infod_common/src/lib.rs:209-223 | the writing loop writes each record's line followed by a newline, in order |
| `Records.UserLineRoundTrip` | infod_common/src/lib.rs:195-217 | a user whose text fields hold no `:` or newline prints as one line that reads back as that user |
| `Records.UsersRoundTrip` | infod_common/src/lib.rs:188-223 | `read_users` of what `write_users` wrote gives back the users |
| `Records.ShadowLineRoundTrip` | infod_common/src/lib.rs:232-264 | a shadow entry without `:` or newline in its fields prints as one line that reads back as that entry |
| `Records.ShadowRoundTrip` | infod_common/src/lib.rs:225-270 | `read_shadow` of what `write_shadow` wrote gives back the entries |
| `Records.ShadowExtraFieldsIgnored` | infod_common/src/lib.rs:232-243 | a shadow line with fields beyond the ninth reads as the entry of its first nine |
| `Records.MembersField` | infod_common/src/lib.rs:284-306 | a non-empty member list with no `,` or `:` in its names becomes a single field that splits back into the list |
| `Records.GroupLineRoundTrip` | infod_common/src/lib.rs:279-306 | a group with at least one member and plain fields prints as one line that reads back as that group |
| `Records.GroupsRoundTrip` | infod_common/src/lib.rs:272-312 | `read_groups` of what `write_groups` wrote gives back the groups |
| `Records.GroupWithoutMembersReadsBack` | infod_common/src/lib.rs:284-306 | a group with no members reads back with one empty member name |
| `Records.MountLineRoundTrip` | infod_common/src/lib.rs:321-327 | a tab-separated mounts line of four words reads back as that mount |
| `Records.MountExtraWordsIgnored` | infod_common/src/lib.rs:321-327 | a mounts line with words beyond the fourth reads as the mount of its first four |
| `Records.MapLineFields` | infod_common/src/lib.rs:336-339 | an autofs map line holds key, parameters and location, and lacking the mount point it is not a line `read_mounts` accepts |
| `Wire.BigEndianRoundTrip` | infod_common/src/lib.rs:141-167 | decoding the big-endian bytes of a number that fits gives back the number |
| `Wire.FromBigEndianRoundTrip` | infod_common/src/lib.rs:141-143 | encoding the value of any bytes gives back those bytes |
| `Wire.FrameBytes` | infod_common/src/lib.rs:165-171 | a frame is 8 length bytes, then the 24-byte nonce, then the sealed payload |
| `Wire.TakeExact` | infod_common/src/lib.rs:142 | `read_exact` succeeds iff enough bytes remain, and splits off exactly that many; otherwise it is an EOF error |
| `Wire.Unframe` | infod_common/src/lib.rs:141-150 | the frame header and body are read iff the input holds the header and the announced length |
| `Wire.Receive` | infod_common/src/lib.rs:140-156 | `read_frame` never gives `None`; it is an EOF error iff the frame is truncated; it panics iff the payload does not open; an opened payload that does not decode is a malformed-frame error, and one that decodes is that frame; a whole frame leaves the bytes after it |
| `Wire.UnframeFrameBytes` | infod_common/src/lib.rs:141-171 | reading back a written frame gives its nonce and payload, and leaves what followed |
| `Wire.FrameRoundTrip` | infod_common/src/lib.rs:140-176 | with a faithful cipher and JSON codec, `read_frame` of what `send_frame` wrote gives the frame back |
| `Wire.Connection.constructor` | infod_common/src/lib.rs:123-137 | a new connection reads the stream's bytes and has written nothing |
| `Wire.Connection.ReadExact` | infod_common/src/lib.rs:142 | reading consumes exactly what `read_exact` takes |
| `Wire.Connection.ReadFrame` | infod_common/src/lib.rs:140-156 | the method's result and the bytes it leaves are those of `Receive` |
| `Wire.Connection.SendFrame` | infod_common/src/lib.rs:159-176 | a writable stream gets the encoded frame appended; otherwise the send is an I/O error and nothing is written |
| `Filesystem.Effect` | infod_client/src/main.rs:96-136 | a failed file operation is an I/O error and changes nothing |
| `Filesystem.Kept` | infod_client/src/main.rs:103 | a write leaves a prefix of its data in the file, all of it unless the unflushed tail is lost |
| `Filesystem.EffectUntouched` | infod_client/src/main.rs:96-136 | an operation leaves every path it does not name as it was |
| `Filesystem.Simulate` | infod_client/src/main.rs:96-136 | a run of `write_state`'s operations ends either without failure or with an I/O error |
| `Filesystem.SimulateRemovals` | infod_client/src/main.rs:96-98 | a run of removals never fails, because their errors are discarded |
| `Filesystem.SimulateFailsAt` | infod_client/src/main.rs:101-136 | a failed run failed at a step that is not a removal; everything before that step succeeded, and the files are as they were just before it |
| `Filesystem.SimulateAppend` | infod_client/src/main.rs:96-137 | running two sequences runs the second from where the first ended, unless the first failed |
| `Filesystem.SimulateUntouched` | infod_client/src/main.rs:96-137 | a run leaves every path none of its operations names as it was |
| `Filesystem.SimulateStops` | infod_client/src/main.rs:96-137 | after a failure, no later operation runs |
| `Filesystem.FileSystem.Remove` | infod_client/src/main.rs:96 | `remove_file` changes the files as `Effect` says |
| `Filesystem.FileSystem.Create` | infod_client/src/main.rs:101 | `File::create` changes the files as `Effect` says |
| `Filesystem.FileSystem.Chmod` | infod_client/src/main.rs:102 | `fchmod` changes the files as `Effect` says |
| `Filesystem.FileSystem.Write` | infod_client/src/main.rs:103 | a write changes the files as `Effect` says: the file gets what `Kept` says survives |
| `Filesystem.FileSystem.Rename` | infod_client/src/main.rs:114 | `rename` changes the files as `Effect` says |
| `Mounts.GroupMounts` | infod_client/src/main.rs:118-124 | the loop builds the map that entering each mount in order gives |
| `Mounts.EnterKeys` | infod_client/src/main.rs:120-123 | `entry(..).or_insert_with(..)` adds exactly the mount's mount point to the keys |
| `Mounts.EnterAscending` | infod_client/src/main.rs:120-123 | inserting keeps the keys strictly ascending |
| `Mounts.EnterLookup` | infod_client/src/main.rs:120-123 | a mount is appended to its own group's list and to no other |
| `Mounts.GroupByMountpointSpec` | infod_client/src/main.rs:118-124 | the map's keys are ascending and are the state's mount points; under each key are exactly the mounts with that mount point, in state order |
| `Mounts.GroupsPartitionMounts` | infod_client/src/main.rs:118-126 | every group iterated is non-empty and holds its mount point's mounts; every mount of the state lands in a group |
| `Client.MountPlan` | infod_client/src/main.rs:126-137 | the mount phase performs two operations per mount point |
| `Client.MountPlanAt` | infod_client/src/main.rs:126-136 | the operations for the i-th mount point create its file and write its rendered mounts |
| `Client.RemoveStaleFiles` | infod_client/src/main.rs:96-98 | removing the three temporary files never fails, and changes the files as the removals do |
| `Client.StageRecordFile` | infod_client/src/main.rs:101-103 | one record file is created, made owner-readable and filled, with the outcome of that run |
| `Client.WriteTempFiles` | infod_client/src/main.rs:100-112 | passwd, then shadow, then group are staged; the first failure stops the rest |
| `Client.ReplaceLiveFiles` | infod_client/src/main.rs:114-116 | the three renames run in order; the first failure stops the rest |
| `Client.WriteMountFile` | infod_client/src/main.rs:136 | one mount file is created or truncated, then written |
| `Client.WriteMountFiles` | infod_client/src/main.rs:126-137 | the loop writes the map's files in key order and stops at the first failure |
| `Client.WriteState` | infod_client/src/main.rs:80-140 | `write_state` has the outcome and the effect of its whole plan: removals, staging, renames, mount files |
| `Client.RecordPathsDistinct` | infod_client/src/main.rs:87-94 | the three live paths and their three `.new` paths are six different paths |
| `Client.StagedEffect` | infod_client/src/main.rs:101-111 | staging without failure leaves the temporary file holding what the write kept, with mode 0400 |
| `Client.RenamesEffect` | infod_client/src/main.rs:114-116 | renaming without failure moves each temporary file over its live file and removes the temporary files |
| `Client.LostTailInstalled` | infod_client/src/main.rs:101-116 | when the unflushed tail of a staged write is lost, staging and renaming still succeed, and the live file holds a truncated text |
| `Client.RecordPlanTouchesRecordPaths` | infod_client/src/main.rs:87-116 | the record phases name only the six record paths |
| `Client.MountPlanTouches` | infod_client/src/main.rs:126-136 | the mount phase names only mount file paths |
| `Client.TempWritesEffect` | infod_client/src/main.rs:100-112 | staging without failure fills the three temporary files with the rendered records |
| `Client.RemovalsEffect` | infod_client/src/main.rs:96-98 | the removals change nothing but the temporary paths |
| `Client.RecordPhaseEffect` | infod_client/src/main.rs:96-116 | the record phases without failure leave the live files holding the rendered records with mode 0400, and no temporary file |
| `Client.CreateWriteEffect` | infod_client/src/main.rs:136 | creating and writing a file in place leaves it holding what the write kept, with its old mode or the mode of a new file |
| `Client.MountPlanEffect` | infod_client/src/main.rs:126-137 | the mount phase without failure leaves each group's file holding the group's rendered mounts |
| `Client.FailedStagingKeepsLiveFiles` | infod_client/src/main.rs:96-116 | when staging fails, no path other than the temporary ones has changed |
| `Client.StagingEffect` | infod_client/src/main.rs:96-112 | staging without failure fills the passwd, group and shadow temporary files with the rendered records and leaves every other path as it was |
| `Client.SecondRenameFails` | infod_client/src/main.rs:114-115 | if the group rename fails after the passwd rename succeeded, only the passwd file has moved |
| `Client.GroupRenameFailureMixes` | infod_client/src/main.rs:114-116 | a failing group rename leaves the new passwd file beside the old group file, and the run fails |
| `Client.GroupFilesApart` | infod_client/src/main.rs:118-135 | when mount points map to their own paths, each group's file is distinct, is not a record file, and holds its mount point's mounts |
| `Client.RecordPhaseInstalls` | infod_client/src/main.rs:96-116 | the record phases without failure install the record files and change no other path |
| `Client.MountPhaseKeepsRecordFiles` | infod_client/src/main.rs:126-137 | the mount phase leaves the installed record files alone |
| `Client.MountPhaseWrites` | infod_client/src/main.rs:118-137 | the mount phase without failure leaves each mount point's file holding exactly its mounts, in order |
| `Client.StateWritten` | infod_client/src/main.rs:80-140 | a successful `write_state` installs the record files and writes every mount point's file |
| `Client.Reply` | infod_client/src/main.rs:54-62 | the reply to a poll is never `Ok(None)` |
| `Client.PollAdoptsNewState` | infod_client/src/main.rs:67-70 | on `NewState` the client takes the new id whatever the write's outcome; the files are those the write left |
| `Client.PollChangesOnlyOnNewState` | infod_client/src/main.rs:64-75 | the id or the files change only on a `NewState` reply, and then the id becomes the offered one |
| `Client.PollNoChanges` | infod_client/src/main.rs:72 | `NoChanges` succeeds and changes nothing |
| `Client.PollPanics` | infod_client/src/main.rs:64-75 | a poll panics exactly on a panic while reading, on `None` and on `CheckState`, and a panic changes nothing |
| `Client.PollsVersion` | infod_client/src/main.rs:29-37 | after any number of polls, the id is the initial one or one some server offered |
| `Client.Client.constructor` | infod_client/src/main.rs:29 | the client starts with id 0 |
| `Client.Client.StartClient` | infod_client/src/main.rs:40-78 | one poll sends `CheckState` with the current id and then acts on the reply as `PollStep` says |
| `Client.Client.Run` | infod_client/src/main.rs:29-37 | the loop polls until a panic, carrying the id and the files from poll to poll |
| `Server.SourcePath` | infod_server/src/main.rs:26-51 | a configured path is used as given; otherwise the file is in the spool directory |
| `Server.ReadSource` | infod_server/src/main.rs:31-32 | a file that cannot be opened is an I/O error |
| `Server.ReadFile` | infod_server/src/main.rs:31-32 | opening and reading one source file gives `ReadSource` |
| `Server.LoadState` | infod_server/src/main.rs:26-61 | start-up loads the snapshot of the four files |
| `Server.SnapshotSpec` | infod_server/src/main.rs:26-61 | the snapshot loads iff all four files read, and it is the state made of their records |
| `Server.MountsRoundTrip` | infod_server/src/main.rs:50-54 | a mounts file of tab-separated words reads back as its mounts |
| `Server.SnapshotOfWritten` | infod_server/src/main.rs:26-61 | source files holding the rendered records of a state load as that state |
| `Server.Respond` | infod_server/src/main.rs:80-90 | the server never answers with `CheckState` |
| `Server.RespondRule` | infod_server/src/main.rs:80-90 | only `CheckState` is answered; the current id gets `NoChanges`, any other id gets `NewState(id, state)`; read errors pass on and anything else panics |
| `Server.HandleConnection` | infod_server/src/main.rs:79-91 | one connection is read once and answered once, as `Answer` says |
| `Server.Listen` | infod_server/src/main.rs:78-92 | the accept loop answers connections in turn and stops at the first failure |
| `Server.RunServer` | infod_server/src/main.rs:26-92 | a snapshot that fails to load ends the server before it answers anything; otherwise it serves that snapshot |
| `Server.ServeAnswersEach` | infod_server/src/main.rs:78-92 | the i-th reply answers the i-th connection with the encoded response to its request; every connection is answered unless the loop failed |
| `Protocol.ReceiveEncoded` | infod_common/src/lib.rs:140-176 | a whole frame sent is received as that frame |
| `Protocol.ExchangeSpec` | infod_server/src/main.rs:78-92 | a client holding the server's id changes nothing; any other client takes the server's id and writes the server's state |
| `Protocol.Converges` | infod_client/src/main.rs:60-72 | after one poll the client holds the server's id even when writing failed, and the next poll changes nothing |
| `Nss.ReadListing` | infod_nss/src/lib.rs:26-34 | a file that cannot be opened is `Unavail`, and a listing is never `NotFound` |
| `Nss.MapListing` | infod_nss/src/lib.rs:36-48 | a successful listing is converted entry by entry in order; any other is `Unavail`, and a panic passes on |
| `Nss.FindFirst` | infod_nss/src/lib.rs:54-57 | `find` gives the first matching element, or none iff none matches |
| `Nss.Filter` | infod_nss/src/lib.rs:189-192 | `filter` keeps exactly the matching elements |
| `Nss.FilterAppend` | infod_nss/src/lib.rs:189-192 | filtering keeps the order of the elements |
| `Nss.Lookup` | infod_nss/src/lib.rs:52-60 | a lookup in a successful listing is `NotFound` iff nothing matches, else the first matching entry; a listing that is not a success gives `Unavail`; an error or panic passes on |
| `Nss.PasswdEntriesSpec` | infod_nss/src/lib.rs:25-50 | passwd entries are the users of the file, one each, with password "x"; a read error is `Unavail` and a short line panics |
| `Nss.PasswdByUid` | infod_nss/src/lib.rs:52-60 | by uid: `NotFound` iff no entry of the listing has the uid, else the first entry that has it; `Unavail` with the listing |
| `Nss.PasswdByName` | infod_nss/src/lib.rs:62-70 | by name: `NotFound` iff no entry of the listing has the name, else the first entry that has it; `Unavail` with the listing |
| `Nss.GroupByGid` | infod_nss/src/lib.rs:101-109 | by gid: `NotFound` iff no group of the listing has the gid, else the first group that has it; `Unavail` with the listing |
| `Nss.GroupByName` | infod_nss/src/lib.rs:111-119 | by name: `NotFound` iff no group of the listing has the name, else the first group that has it; `Unavail` with the listing |
| `Nss.GroupsOfUserSpec` | infod_nss/src/lib.rs:186-196 | initgroups answers exactly the groups that list the user as a member, in file order, or `Unavail` |
| `Nss.ShadowByName` | infod_nss/src/lib.rs:154-162 | by name: `NotFound` iff no shadow entry of the listing has the name, else the first shadow entry that has it; `Unavail` with the listing |
| `Nss.NumberOr` | infod_nss/src/lib.rs:136-141 | `parse().unwrap_or(d)` gives the parsed number, or `d` when the field does not parse |
| `Nss.ShadowDefaults` | infod_nss/src/lib.rs:132-144 | empty policy fields read as 0, 0, 99999, 7, -1 and -1, and the reserved field is 0 |
| `Nss.NumberOfDecimal` | infod_nss/src/lib.rs:136-141 | a printed non-negative number in range is read as itself |
| `Nss.NumberOfNegative` | infod_nss/src/lib.rs:140-141 | a printed negative number in range, such as -1, is read as itself |
| `Nss.ShadowEntriesKeepsAll` | infod_nss/src/lib.rs:126-152 | every shadow line read is kept (the `filter_map` never drops one) and converted in order |
| `Nss.HostEntries` | infod_nss/src/lib.rs:169-171 | the host listing is always empty |
| `Nss.HostByAddr` | infod_nss/src/lib.rs:173-175 | a host lookup by address is always `NotFound` |
| `Nss.HostByName` | infod_nss/src/lib.rs:177-179 | a host lookup by name is always `NotFound` |
| `Nss.InstalledPasswdEntries` | infod_nss/src/lib.rs:25-50 | a passwd file holding rendered users lists exactly those users, in order |
| `Nss.InstalledPasswdByUid` | infod_nss/src/lib.rs:52-60 | in an installed passwd file a uid is found iff some user has it, and the first such user is answered |
| `Nss.InstalledGroupEntries` | infod_nss/src/lib.rs:77-99 | a group file holding rendered groups lists exactly those groups, in order |
| `Nss.InstalledGroupsOfUser` | infod_nss/src/lib.rs:186-196 | for an installed group file, initgroups answers exactly the groups listing the user |
| `Nss.InstalledShadowEntries` | infod_nss/src/lib.rs:126-152 | a shadow file holding rendered entries lists exactly those entries, converted, in order |
| `Installation.DefaultPathsMatch` | infod_client/src/main.rs:81-94 | with no destination configured, the client's record files are the paths the NSS module opens |
| `Installation.InstalledDisk` | infod_client/src/main.rs:87-116 | installed record files, seen as a disk, hold the rendered records at the NSS paths |
| `Installation.PolledStateServed` | infod_nss/src/lib.rs:25-152 | after a successful poll that brought a new state, the NSS module lists exactly that state's users, groups and shadow entries |

## Left out

- Key derivation (SHA-512 of the secret, `cipher_from_secret_key`), XChaCha20-Poly1305 and `OsRng` nonces are not modelled. The cipher is a parameter trusted to open what it seals. Nonce uniqueness and authentication strength are not modelled.
- serde_json is a parameter trusted to decode what it encodes. Its encode failure path (`wrap_err("Encoding frame")`) is not modelled: encoding is total.
- Reading the TOML configuration (`read_config`) and `read_key_from_file` are not modelled. A configuration is a value.
- Address resolution, the IPv4 filter, TCP connect with exponential backoff, `bind` and the default listen address are not modelled. The server a poll reaches is an optional stream, and each accepted connection is an optional stream.
- The sleep between polls and its `f64` interval, logging, and error reports are not modelled.
- The server's `rand::random` id is a parameter.
- `infoctl` is not part of this model.
- `Wire.Connection.constructor`: the `try_clone().expect(..)` panics are not modelled; cloning is taken to succeed.
- `Wire.Connection.SendFrame`: a write is whole or fails. Short writes, buffering and errors raised when the writer is dropped are not modelled.
- File writes in `write_state` are whole, fail, or lose their tail (`Filesystem.Kept`). The lost tail stands for the data an unflushed `BufWriter` fails to write when it is dropped. Which write loses how much is a parameter of the run, like the failing operations. A write that fails changes nothing in the model. In the code, `write_users` and `write_mounts` issue one `write` per record, and the `BufWriter` may already have passed earlier lines to the file when a later one fails. So a failed run can leave a partly written mount file (written in place, infod_client/src/main.rs:136) or a partly written temporary file, where the model leaves them empty.
- `Wire.Unframe`: the allocation of `length as usize` bytes for a huge announced length is not modelled. A too-short stream is an EOF error.
- `Wire.Connection.ReadExact`: on a short read the model leaves nothing to read. The real stream may keep the bytes it had.
- `Records.ReadRecords`: the UTF-8 validation and I/O errors of `lines()` are not modelled. Text is a sequence of characters.
- `Records.WriteRecords`: the count returned by `write` is ignored by the source, and the model writes each line whole.
- `Filesystem.FileSystem.Rename`: crash atomicity, `fsync` and concurrent readers are not modelled. Each operation either happens or fails, as the fault set says.
- File permissions for readers are not modelled. The record files have mode 0400, so only their owner (root) can open them; a non-root caller of the NSS module gets `Unavail`. `Installation.Contents` assumes a reader that can open every file.
- `Client.StateWritten`: stated only when mount files are apart (`Client.MountFilesApart`): every prefixed mount point is a plain relative name, with no empty, `.` or `..` component, and names neither a record file nor another mount point's file. Paths are compared as strings; symbolic links in the destination are not resolved. A mount point named `passwd`, `group`, `shadow` or one of their `.new` names, an absolute one, or one such as `./passwd` would overwrite files.
- `Client.StateWritten`: also stated only for runs where no write loses its tail (`Filesystem.NoLostWrites`). The `BufWriter`s are never flushed and errors on drop are ignored, so an `Ok` from `write_state` can install a truncated file (`Client.LostTailInstalled`).
- `Client.RecordPhaseInstalls`: stated only for runs where no write loses its tail, for the same reason.
- `Client.MountPhaseWrites`: stated only for runs where no write loses its tail, for the same reason.
- `Client.TempWritesEffect`: stated only for runs where no write loses its tail, for the same reason.
- `Client.StagingEffect`: stated only for runs where no write loses its tail, for the same reason.
- `Client.RecordPhaseEffect`: stated only for runs where no write loses its tail, for the same reason.
- `Client.MountPlanEffect`: stated only for runs where no write loses its tail, for the same reason.
- `Client.GroupRenameFailureMixes`: stated only for runs where no write loses its tail, for the same reason.
- `Client.PollAdoptsNewState`: the files it states after a successful write are those of runs where no write loses its tail, with mount files apart.
- `Client.MountPhaseKeepsRecordFiles`: stated only when mount files are apart, for the same reason as `Client.StateWritten`.
- `Installation.PolledStateServed`: stated only for the default destination, for runs where no write loses its tail, for mount files that are apart, and for records whose text fields hold no `:` or newline, whose last field does not end in CR, and whose groups have at least one member. Records outside that set do not read back as written (see `Records.GroupWithoutMembersReadsBack`).
- `Nss.ShadowDefaults`: the policy fields are parsed as 64-bit signed numbers (`isize` on a 64-bit target). Other widths are not modelled.
- The C interface of libnss (buffers, `errno`, response kinds other than success, not-found and unavailable) is not modelled. A hook's answer is a value.
