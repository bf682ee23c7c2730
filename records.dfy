/** The records infod distributes, the snapshot and the protocol frame
    (infod_common/src/lib.rs), and the line formats they are read from and
    written to: colon-separated passwd, shadow and group lines, and
    whitespace-separated mount lines. */
module Records {
  import opened Outcomes
  import opened Text

  const U32_LIMIT: nat := 0x1_0000_0000
  type U32 = n: nat | n < 0x1_0000_0000
  type U64 = n: nat | n < 0x1_0000_0000_0000_0000

  /** A snapshot version: an opaque random number compared only for equality. */
  type StateId = U64

  datatype User = User(username: string, password: string, uid: U32, gid: U32,
                       gecos: string, home: string, shell: string)

  /** A shadow entry keeps all eight policy fields as uninterpreted text. */
  datatype Shadow = Shadow(username: string, pwdp: string, lstchg: string, min: string,
                           max: string, warn: string, inact: string, expire: string,
                           flag: string)

  datatype Group = Group(name: string, password: string, gid: U32, members: seq<string>)

  datatype Mount = Mount(mountpoint: string, key: string, params: string, location: string)

  /** The snapshot the server holds and the client materialises. */
  datatype State = State(users: seq<User>, shadow: seq<Shadow>, groups: seq<Group>,
                         mounts: seq<Mount>)

  /** One protocol message; there is no reload request. */
  datatype Frame = CheckState(id: StateId) | NewState(id: StateId, state: State) | NoChanges

  // ---------------------------------------------------------------------------
  // Fields of a split line; indexing past the end panics, as `parts[i]` does

  function Field(parts: seq<string>, i: nat): (r: Outcome<string>)
    ensures r.Ok? <==> i < |parts|
    ensures r.Ok? ==> r.value == parts[i]
    ensures !r.Ok? ==> r == Panic(MissingField)
  {
    if i < |parts| then Ok(parts[i]) else Panic(MissingField)
  }

  /** `u32::from_str_radix(&parts[i], 10)?` */
  function U32Field(parts: seq<string>, i: nat): (r: Outcome<U32>)
    ensures r.Ok? <==> i < |parts| && ParseUnsigned(parts[i], U32_LIMIT).Some?
    ensures r.Ok? ==> ParseUnsigned(parts[i], U32_LIMIT) == Some(r.value as nat)
    ensures i >= |parts| ==> r == Panic(MissingField)
    ensures i < |parts| && !r.Ok? ==> r == Err(BadNumber)
  {
    if i >= |parts| then Panic(MissingField)
    else
      match ParseUnsigned(parts[i], U32_LIMIT)
      case None => Err(BadNumber)
      case Some(v) => Ok(v)
  }

  // ---------------------------------------------------------------------------
  // One line of each format

  /** One passwd line, fields taken in struct order, so that a bad uid is an
      error even on a line that is also too short. */
  function ParseUser(line: string): (r: Outcome<User>)
    ensures var p := Split(line, ':');
            r.Ok? <==> |p| >= 7 && ParseUnsigned(p[2], U32_LIMIT).Some?
                                 && ParseUnsigned(p[3], U32_LIMIT).Some?
    ensures !r.Ok? ==> r == Err(BadNumber) || r == Panic(MissingField)
    ensures var p := Split(line, ':');
            r == Err(BadNumber) <==> (|p| >= 3 && ParseUnsigned(p[2], U32_LIMIT).None?)
                                     || (|p| >= 4 && ParseUnsigned(p[2], U32_LIMIT).Some?
                                                  && ParseUnsigned(p[3], U32_LIMIT).None?)
    ensures var p := Split(line, ':');
            r.Ok? ==> && r.value.username == p[0] && r.value.password == p[1]
                      && Some(r.value.uid as nat) == ParseUnsigned(p[2], U32_LIMIT)
                      && Some(r.value.gid as nat) == ParseUnsigned(p[3], U32_LIMIT)
                      && r.value.gecos == p[4] && r.value.home == p[5] && r.value.shell == p[6]
  {
    var p := Split(line, ':');
    var username := p[0];
    var password :- Field(p, 1);
    var uid :- U32Field(p, 2);
    var gid :- U32Field(p, 3);
    var gecos :- Field(p, 4);
    var home :- Field(p, 5);
    var shell :- Field(p, 6);
    Ok(User(username, password, uid, gid, gecos, home, shell))
  }

  /** One passwd line as `write_users` formats it, without its newline. */
  function FormatUser(u: User): string {
    Join([u.username, u.password, Decimal(u.uid), Decimal(u.gid), u.gecos, u.home, u.shell], ':')
  }

  /** One shadow line: the first nine fields, in order; any further field is
      ignored. */
  function ParseShadow(line: string): (r: Outcome<Shadow>)
    ensures r.Ok? <==> |Split(line, ':')| >= 9
    ensures !r.Ok? ==> r == Panic(MissingField)
    ensures r.Ok? ==> var p := Split(line, ':');
                      r.value == Shadow(p[0], p[1], p[2], p[3], p[4], p[5], p[6], p[7], p[8])
  {
    var p := Split(line, ':');
    var username := p[0];
    var pwdp :- Field(p, 1);
    var lstchg :- Field(p, 2);
    var min :- Field(p, 3);
    var max :- Field(p, 4);
    var warn :- Field(p, 5);
    var inact :- Field(p, 6);
    var expire :- Field(p, 7);
    var flag :- Field(p, 8);
    Ok(Shadow(username, pwdp, lstchg, min, max, warn, inact, expire, flag))
  }

  function FormatShadow(e: Shadow): string {
    Join([e.username, e.pwdp, e.lstchg, e.min, e.max, e.warn, e.inact, e.expire, e.flag], ':')
  }

  /** One group line; the member field is split on ','. */
  function ParseGroup(line: string): (r: Outcome<Group>)
    ensures var p := Split(line, ':');
            r.Ok? <==> |p| >= 4 && ParseUnsigned(p[2], U32_LIMIT).Some?
    ensures r.Ok? ==> r.value.members == Split(Split(line, ':')[3], ',')
    ensures !r.Ok? ==> r == Err(BadNumber) || r == Panic(MissingField)
    ensures var p := Split(line, ':');
            r == Err(BadNumber) <==> |p| >= 3 && ParseUnsigned(p[2], U32_LIMIT).None?
    ensures var p := Split(line, ':');
            r.Ok? ==> && r.value.name == p[0] && r.value.password == p[1]
                      && Some(r.value.gid as nat) == ParseUnsigned(p[2], U32_LIMIT)
  {
    var p := Split(line, ':');
    var name := p[0];
    var password :- Field(p, 1);
    var gid :- U32Field(p, 2);
    var members :- Field(p, 3);
    Ok(Group(name, password, gid, Split(members, ',')))
  }

  function FormatGroup(g: Group): string {
    Join([g.name, g.password, Decimal(g.gid), Join(g.members, ',')], ':')
  }

  /** One line of the server's mounts file: the first four whitespace-separated
      words; any further word is ignored. */
  function ParseMount(line: string): (r: Outcome<Mount>)
    ensures r.Ok? <==> |Words(line)| >= 4
    ensures !r.Ok? ==> r == Panic(MissingField)
    ensures r.Ok? ==> var w := Words(line);
                      r.value == Mount(w[0], w[1], w[2], w[3])
  {
    var p := Words(line);
    var mountpoint :- Field(p, 0);
    var key :- Field(p, 1);
    var params :- Field(p, 2);
    var location :- Field(p, 3);
    Ok(Mount(mountpoint, key, params, location))
  }

  /** One line of a per-mountpoint map file as `write_mounts` formats it: the
      mountpoint is not written, it names the file. */
  function FormatMount(m: Mount): string {
    Join([m.key, m.params, m.location], '\t')
  }

  // ---------------------------------------------------------------------------
  // Whole files: the `read_*` and `write_*` loops

  /** The outcome of parsing every line in order: all records, or the failure of
      the first line that fails. */
  function ParseLines<T>(lines: seq<string>, parse: string -> Outcome<T>): (r: Outcome<seq<T>>)
    ensures r.Ok? ==> |r.value| == |lines|
    decreases |lines|
  {
    if lines == [] then Ok([])
    else
      var first :- parse(lines[0]);
      var rest :- ParseLines(lines[1..], parse);
      Ok([first] + rest)
  }

  /** Parsing succeeds exactly when every line parses, and then yields each
      line's record in order; otherwise it fails as the first failing line does. */
  lemma {:induction false} ParseLinesSpec<T>(lines: seq<string>, parse: string -> Outcome<T>)
    ensures var r := ParseLines(lines, parse);
            && (r.Ok? <==> forall i :: 0 <= i < |lines| ==> parse(lines[i]).Ok?)
            && (r.Ok? ==> forall i :: 0 <= i < |lines| ==> parse(lines[i]) == Ok(r.value[i]))
            && (!r.Ok? ==> exists i :: 0 <= i < |lines| && !parse(lines[i]).Ok?
                                       && r == parse(lines[i]).PropagateFailure()
                                       && forall j :: 0 <= j < i ==> parse(lines[j]).Ok?)
    decreases |lines|
  {
    if lines != [] {
      var tail := lines[1..];
      ParseLinesSpec(tail, parse);
      var r := ParseLines(lines, parse);
      if parse(lines[0]).Ok? {
        var rest := ParseLines(tail, parse);
        if rest.Ok? {
          forall i | 0 <= i < |lines| ensures parse(lines[i]) == Ok(r.value[i]) {
            if i > 0 {
              assert lines[i] == tail[i - 1];
            }
          }
        } else {
          var k :| 0 <= k < |tail| && !parse(tail[k]).Ok? && rest == parse(tail[k]).PropagateFailure()
                   && forall j :: 0 <= j < k ==> parse(tail[j]).Ok?;
          assert lines[k + 1] == tail[k];
          assert forall j :: 0 < j < k + 1 ==> lines[j] == tail[j - 1];
        }
      }
    }
  }

  /** Lines that all parse give their records. */
  lemma {:induction false} ParseLinesAllOk<T>(lines: seq<string>, parse: string -> Outcome<T>, records: seq<T>)
    requires |records| == |lines|
    requires forall i :: 0 <= i < |lines| ==> parse(lines[i]) == Ok(records[i])
    ensures ParseLines(lines, parse) == Ok(records)
    decreases |lines|
  {
    if lines != [] {
      ParseLinesAllOk(lines[1..], parse, records[1..]);
      assert [records[0]] + records[1..] == records;
    }
  }

  lemma {:induction false} ParseLinesSnoc<T>(lines: seq<string>, line: string, parse: string -> Outcome<T>, records: seq<T>)
    requires ParseLines(lines, parse) == Ok(records)
    ensures ParseLines(lines + [line], parse) ==
              if parse(line).Ok? then Ok(records + [parse(line).value])
              else parse(line).PropagateFailure()
    decreases |lines|
  {
    var all := lines + [line];
    if lines == [] {
      assert all == [line] && all[1..] == [];
      assert records == [] && ParseLines(all[1..], parse) == Ok([]);
      if parse(line).Ok? {
        assert [parse(line).value] + [] == records + [parse(line).value];
      }
    } else {
      assert all[0] == lines[0] && all[1..] == lines[1..] + [line];
      ParseLinesSnoc(lines[1..], line, parse, records[1..]);
      if parse(line).Ok? {
        assert [records[0]] + (records[1..] + [parse(line).value]) == records + [parse(line).value];
      }
    }
  }

  /** The text `write_*` produces: one "\n"-terminated line per record, in order. */
  function Render<T>(records: seq<T>, format: T -> string): string {
    Unlines(seq(|records|, i requires 0 <= i < |records| => format(records[i])))
  }

  lemma {:induction false} UnlinesSnoc(ls: seq<string>, l: string)
    ensures Unlines(ls + [l]) == Unlines(ls) + l + "\n"
    decreases |ls|
  {
    if ls != [] {
      assert (ls + [l])[1..] == ls[1..] + [l];
      UnlinesSnoc(ls[1..], l);
    }
  }

  /** The common shape of `read_users`, `read_shadow`, `read_groups` and
      `read_mounts`: one record pushed per line, the first failing line ending
      the loop. */
  method ReadRecords<T>(text: string, parse: string -> Outcome<T>) returns (r: Outcome<seq<T>>)
    ensures r == ParseLines(Lines(text), parse)
  {
    var lines := Lines(text);
    var records: seq<T> := [];
    var i := 0;
    while i < |lines|
      invariant 0 <= i <= |lines|
      invariant ParseLines(lines[..i], parse) == Ok(records)
    {
      ParseLinesStep(lines, i, parse, records);
      var record := parse(lines[i]);
      if !record.Ok? {
        return record.PropagateFailure();
      }
      records := records + [record.value];
      i := i + 1;
    }
    assert lines[..i] == lines;
    r := Ok(records);
  }

  /** One turn of the `read_*` loop. */
  lemma {:induction false} ParseLinesStep<T>(lines: seq<string>, i: nat, parse: string -> Outcome<T>, records: seq<T>)
    requires i < |lines| && ParseLines(lines[..i], parse) == Ok(records)
    ensures parse(lines[i]).Ok? ==> ParseLines(lines[..i + 1], parse) == Ok(records + [parse(lines[i]).value])
    ensures !parse(lines[i]).Ok? ==> ParseLines(lines, parse) == parse(lines[i]).PropagateFailure()
  {
    assert lines[..i] + [lines[i]] == lines[..i + 1];
    ParseLinesSnoc(lines[..i], lines[i], parse, records);
    if !parse(lines[i]).Ok? {
      ParseLinesStop(lines, i + 1, parse);
    }
  }

  /** A prefix that fails decides the whole. */
  lemma {:induction false} ParseLinesStop<T>(lines: seq<string>, k: nat, parse: string -> Outcome<T>)
    requires k <= |lines| && !ParseLines(lines[..k], parse).Ok?
    ensures ParseLines(lines, parse) == ParseLines(lines[..k], parse)
  {
    assert lines[..k] + lines[k..] == lines;
    ParseLinesFailurePersists(lines[..k], lines[k..], parse);
  }

  lemma {:induction false} ParseLinesFailurePersists<T>(lines: seq<string>, more: seq<string>, parse: string -> Outcome<T>)
    requires !ParseLines(lines, parse).Ok?
    ensures ParseLines(lines + more, parse) == ParseLines(lines, parse)
    decreases |lines|
  {
    var all := lines + more;
    assert all[0] == lines[0];
    if parse(lines[0]).Ok? {
      assert all[1..] == lines[1..] + more;
      ParseLinesFailurePersists(lines[1..], more, parse);
    }
  }

  /** The common shape of `write_users`, `write_shadow`, `write_groups` and
      `write_mounts`: one formatted line appended per record. */
  method WriteRecords<T>(records: seq<T>, format: T -> string) returns (out: string)
    ensures out == Render(records, format)
  {
    out := "";
    var i := 0;
    while i < |records|
      invariant 0 <= i <= |records|
      invariant out == Render(records[..i], format)
    {
      ghost var lines := seq(i, k requires 0 <= k < i => format(records[k]));
      assert seq(i + 1, k requires 0 <= k < i + 1 => format(records[..i + 1][k])) == lines + [format(records[i])];
      assert seq(i, k requires 0 <= k < i => format(records[..i][k])) == lines;
      UnlinesSnoc(lines, format(records[i]));
      out := out + format(records[i]) + "\n";
      i := i + 1;
    }
    assert records[..i] == records;
  }

  // ---------------------------------------------------------------------------
  // Round trips

  /** A string field that can be written between ':' separators and read back. */
  predicate ColonField(f: string) {
    ':' !in f && '\n' !in f
  }

  lemma {:induction false} DecimalIsPlain(n: nat)
    ensures ':' !in Decimal(n) && ',' !in Decimal(n) && '\n' !in Decimal(n)
    ensures !EndsWithCr(Decimal(n))
  {
    var s := Decimal(n);
    assert forall i :: 0 <= i < |s| ==> IsDigit(s[i]);
  }

  lemma {:induction false} JoinAvoids(parts: seq<string>, sep: char, c: char)
    requires sep != c
    requires forall i :: 0 <= i < |parts| ==> c !in parts[i]
    ensures c !in Join(parts, sep)
    decreases |parts|
  {
    if |parts| > 1 {
      JoinAvoids(parts[1..], sep, c);
    }
  }

  lemma {:induction false} JoinEndsWithCr(parts: seq<string>, sep: char)
    requires |parts| >= 1 && sep != '\r'
    requires !EndsWithCr(parts[|parts| - 1])
    ensures !EndsWithCr(Join(parts, sep))
    decreases |parts|
  {
    if |parts| > 1 {
      JoinEndsWithCr(parts[1..], sep);
      var tail := Join(parts[1..], sep);
      assert Join(parts, sep) == parts[0] + [sep] + tail;
      if tail != [] {
        assert Join(parts, sep)[|Join(parts, sep)| - 1] == tail[|tail| - 1];
      }
    }
  }

  /** Rendering records and parsing the text back gives the records, when every
      record renders to a plain line that parses back to it. */
  lemma {:induction false} ParseRendered<T>(records: seq<T>, format: T -> string, parse: string -> Outcome<T>)
    requires forall i :: 0 <= i < |records| ==> IsPlainLine(format(records[i]))
    requires forall i :: 0 <= i < |records| ==> parse(format(records[i])) == Ok(records[i])
    ensures ParseLines(Lines(Render(records, format)), parse) == Ok(records)
  {
    var lines := seq(|records|, i requires 0 <= i < |records| => format(records[i]));
    LinesUnlines(lines);
    ParseLinesAllOk(lines, parse, records);
  }

  predicate WritableUser(u: User) {
    ColonField(u.username) && ColonField(u.password) && ColonField(u.gecos)
    && ColonField(u.home) && ColonField(u.shell) && !EndsWithCr(u.shell)
  }

  lemma {:induction false} UserLineRoundTrip(u: User)
    requires WritableUser(u)
    ensures IsPlainLine(FormatUser(u))
    ensures ParseUser(FormatUser(u)) == Ok(u)
  {
    var fields := [u.username, u.password, Decimal(u.uid), Decimal(u.gid), u.gecos, u.home, u.shell];
    DecimalIsPlain(u.uid);
    DecimalIsPlain(u.gid);
    SplitJoin(fields, ':');
    JoinAvoids(fields, ':', '\n');
    JoinEndsWithCr(fields, ':');
    ParseDecimal(u.uid, U32_LIMIT);
    ParseDecimal(u.gid, U32_LIMIT);
  }

  /** `read_users` gives back what `write_users` wrote, when no field holds a
      ':' or a newline and the shell does not end in a carriage return. */
  lemma {:induction false} UsersRoundTrip(users: seq<User>)
    requires forall i :: 0 <= i < |users| ==> WritableUser(users[i])
    ensures ParseLines(Lines(Render(users, FormatUser)), ParseUser) == Ok(users)
  {
    forall i | 0 <= i < |users| ensures IsPlainLine(FormatUser(users[i])) && ParseUser(FormatUser(users[i])) == Ok(users[i]) {
      UserLineRoundTrip(users[i]);
    }
    ParseRendered(users, FormatUser, ParseUser);
  }


  predicate WritableShadow(e: Shadow) {
    ColonField(e.username) && ColonField(e.pwdp) && ColonField(e.lstchg) && ColonField(e.min)
    && ColonField(e.max) && ColonField(e.warn) && ColonField(e.inact) && ColonField(e.expire)
    && ColonField(e.flag) && !EndsWithCr(e.flag)
  }

  lemma {:induction false} ShadowLineRoundTrip(e: Shadow)
    requires WritableShadow(e)
    ensures IsPlainLine(FormatShadow(e))
    ensures ParseShadow(FormatShadow(e)) == Ok(e)
  {
    var fields := [e.username, e.pwdp, e.lstchg, e.min, e.max, e.warn, e.inact, e.expire, e.flag];
    SplitJoin(fields, ':');
    JoinAvoids(fields, ':', '\n');
    JoinEndsWithCr(fields, ':');
  }

  /** A shadow line with more than nine fields reads as its first nine. */
  lemma {:induction false} ShadowExtraFieldsIgnored(e: Shadow, extra: string)
    requires WritableShadow(e)
    ensures ParseShadow(FormatShadow(e) + [':'] + extra) == Ok(e)
  {
    var fields := [e.username, e.pwdp, e.lstchg, e.min, e.max, e.warn, e.inact, e.expire, e.flag];
    SplitJoinThen(fields, ':', extra);
  }

  /** `read_shadow` gives back what `write_shadow` wrote, under the same
      conditions as for passwd. */
  lemma {:induction false} ShadowRoundTrip(entries: seq<Shadow>)
    requires forall i :: 0 <= i < |entries| ==> WritableShadow(entries[i])
    ensures ParseLines(Lines(Render(entries, FormatShadow)), ParseShadow) == Ok(entries)
  {
    forall i | 0 <= i < |entries| ensures IsPlainLine(FormatShadow(entries[i])) && ParseShadow(FormatShadow(entries[i])) == Ok(entries[i]) {
      ShadowLineRoundTrip(entries[i]);
    }
    ParseRendered(entries, FormatShadow, ParseShadow);
  }


  /** A group survives the round trip when it has at least one member and no
      member holds ',', ':' or a newline. */
  predicate WritableGroup(g: Group) {
    ColonField(g.name) && ColonField(g.password) && |g.members| >= 1
    && (forall i :: 0 <= i < |g.members| ==> ColonField(g.members[i]) && ',' !in g.members[i])
    && !EndsWithCr(g.members[|g.members| - 1])
  }

  /** The member list of a writable group survives as the fourth field. */
  lemma {:induction false} MembersField(members: seq<string>)
    requires |members| >= 1
    requires forall i :: 0 <= i < |members| ==> ColonField(members[i]) && ',' !in members[i]
    requires !EndsWithCr(members[|members| - 1])
    ensures ColonField(Join(members, ',')) && !EndsWithCr(Join(members, ','))
    ensures Split(Join(members, ','), ',') == members
  {
    JoinAvoids(members, ',', ':');
    JoinAvoids(members, ',', '\n');
    JoinEndsWithCr(members, ',');
    SplitJoin(members, ',');
  }

  lemma {:induction false} GroupLineRoundTrip(g: Group)
    requires WritableGroup(g)
    ensures IsPlainLine(FormatGroup(g))
    ensures ParseGroup(FormatGroup(g)) == Ok(g)
  {
    var members := Join(g.members, ',');
    MembersField(g.members);
    var fields := [g.name, g.password, Decimal(g.gid), members];
    DecimalIsPlain(g.gid);
    assert forall i :: 0 <= i < |fields| ==> ':' !in fields[i] && '\n' !in fields[i];
    SplitJoin(fields, ':');
    JoinAvoids(fields, ':', '\n');
    JoinEndsWithCr(fields, ':');
    ParseDecimal(g.gid, U32_LIMIT);
    assert U32Field(fields, 2) == Ok(g.gid);
  }

  /** `read_groups` gives back what `write_groups` wrote, for writable groups. */
  lemma {:induction false} GroupsRoundTrip(groups: seq<Group>)
    requires forall i :: 0 <= i < |groups| ==> WritableGroup(groups[i])
    ensures ParseLines(Lines(Render(groups, FormatGroup)), ParseGroup) == Ok(groups)
  {
    forall i | 0 <= i < |groups| ensures IsPlainLine(FormatGroup(groups[i])) && ParseGroup(FormatGroup(groups[i])) == Ok(groups[i]) {
      GroupLineRoundTrip(groups[i]);
    }
    ParseRendered(groups, FormatGroup, ParseGroup);
  }


  /** A group without members is written with an empty member field, which
      reads back as one member with the empty name. */
  lemma {:induction false} GroupWithoutMembersReadsBack(name: string, password: string, gid: U32)
    requires ColonField(name) && ColonField(password)
    ensures ParseGroup(FormatGroup(Group(name, password, gid, []))) == Ok(Group(name, password, gid, [""]))
  {
    var fields := [name, password, Decimal(gid), ""];
    DecimalIsPlain(gid);
    SplitJoin(fields, ':');
    ParseDecimal(gid, U32_LIMIT);
  }

  /** A mounts line with its four fields separated by tabs reads back. */
  lemma {:induction false} MountLineRoundTrip(m: Mount)
    requires IsWord(m.mountpoint) && IsWord(m.key) && IsWord(m.params) && IsWord(m.location)
    ensures ParseMount(Join([m.mountpoint, m.key, m.params, m.location], '\t')) == Ok(m)
  {
    WordsJoinTab([m.mountpoint, m.key, m.params, m.location]);
  }

  /** A mounts line with more than four words reads as its first four. */
  lemma {:induction false} MountExtraWordsIgnored(m: Mount, extra: string)
    requires IsWord(m.mountpoint) && IsWord(m.key) && IsWord(m.params) && IsWord(m.location)
    ensures ParseMount(Join([m.mountpoint, m.key, m.params, m.location], '\t') + ['\t'] + extra) == Ok(m)
  {
    WordsJoinTabThen([m.mountpoint, m.key, m.params, m.location], extra);
  }

  /** A map line that `write_mounts` emits splits into key, options and
      location, and, having only three fields, is not a line `read_mounts`
      accepts. */
  lemma {:induction false} MapLineFields(m: Mount)
    requires IsWord(m.key) && IsWord(m.params) && IsWord(m.location)
    ensures Words(FormatMount(m)) == [m.key, m.params, m.location]
    ensures ParseMount(FormatMount(m)) == Panic(MissingField)
  {
    WordsJoinTab([m.key, m.params, m.location]);
  }
}
