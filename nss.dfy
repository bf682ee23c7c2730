/** infod_nss/src/lib.rs: the name-service module reads the files the client
    installs and answers passwd, group, shadow, initgroups and host queries. */
module Nss {
  import opened Outcomes
  import opened Text
  import opened Records

  /** The answer of a name-service hook. */
  datatype Response<+T> = Success(value: T) | NotFound | Unavail

  const PASSWD_PATH: string := "/var/spool/infod/passwd"
  const GROUP_PATH: string := "/var/spool/infod/group"
  const SHADOW_PATH: string := "/var/spool/infod/shadow"

  /** The text of every file the calling process can open. */
  type Disk = map<string, string>

  /** libnss's passwd entry. */
  datatype Passwd = Passwd(name: string, passwd: string, uid: U32, gid: U32, gecos: string,
                           dir: string, shell: string)

  /** libnss's group entry. */
  datatype GroupEntry = GroupEntry(name: string, passwd: string, gid: U32, members: seq<string>)

  /** libnss's shadow entry: the policy fields are numbers. */
  datatype ShadowEntry = ShadowEntry(name: string, passwd: string, lastChange: int, changeMinDays: int,
                                     changeMaxDays: int, changeWarnDays: int, changeInactiveDays: int,
                                     expireDate: int, reserved: nat)

  /** Opening and reading a file: a file that cannot be opened and a returned
      error are both `Unavail`; a line too short to index panics, inside the
      calling process. */
  function ReadListing<T>(disk: Disk, path: string, parse: string -> Outcome<T>): (r: Outcome<Response<seq<T>>>)
    ensures r.Ok? ==> !r.value.NotFound?
    ensures path !in disk ==> r == Ok(Unavail)
  {
    if path !in disk then Ok(Unavail)
    else
      match ParseLines(Lines(disk[path]), parse)
      case Ok(records) => Ok(Success(records))
      case Err(_) => Ok(Unavail)
      case Panic(a) => Panic(a)
  }

  /** A listing's entries, each converted. */
  function MapListing<T, U>(listing: Outcome<Response<seq<T>>>, convert: T -> U): (r: Outcome<Response<seq<U>>>)
    ensures listing.Ok? && listing.value.Success? ==>
              r.Ok? && r.value.Success? && |r.value.value| == |listing.value.value|
              && forall i :: 0 <= i < |r.value.value| ==> r.value.value[i] == convert(listing.value.value[i])
    ensures !(listing.Ok? && listing.value.Success?) ==>
              (listing.Ok? ==> r == Ok(Unavail)) && (listing.Panic? ==> r == Panic(listing.abort))
  {
    match listing
    case Ok(Success(records)) => Ok(Success(seq(|records|, i requires 0 <= i < |records| => convert(records[i]))))
    case Ok(_) => Ok(Unavail)
    case Err(e) => Err(e)
    case Panic(a) => Panic(a)
  }

  // ---------------------------------------------------------------------------
  // First match and filter

  /** `into_iter().find(p)` */
  function FindFirst<T>(xs: seq<T>, p: T -> bool): (r: Option<T>)
    ensures r.None? <==> forall i :: 0 <= i < |xs| ==> !p(xs[i])
    ensures r.Some? ==> exists i :: 0 <= i < |xs| && xs[i] == r.value && p(xs[i])
                                    && forall j :: 0 <= j < i ==> !p(xs[j])
    decreases |xs|
  {
    if xs == [] then None
    else if p(xs[0]) then Some(xs[0])
    else
      var r := FindFirst(xs[1..], p);
      assert forall i :: 1 <= i < |xs| ==> xs[i] == xs[1..][i - 1];
      r
  }

  /** `into_iter().filter(p).collect()` */
  function Filter<T>(xs: seq<T>, p: T -> bool): (r: seq<T>)
    ensures forall i :: 0 <= i < |r| ==> r[i] in xs && p(r[i])
    ensures forall i :: 0 <= i < |xs| && p(xs[i]) ==> xs[i] in r
    ensures |r| <= |xs|
    decreases |xs|
  {
    if xs == [] then []
    else
      var rest := Filter(xs[1..], p);
      assert forall i :: 1 <= i < |xs| ==> xs[i] == xs[1..][i - 1];
      if p(xs[0]) then [xs[0]] + rest else rest
  }

  /** Filtering keeps the order: it distributes over concatenation. */
  lemma {:induction false} FilterAppend<T>(a: seq<T>, b: seq<T>, p: T -> bool)
    ensures Filter(a + b, p) == Filter(a, p) + Filter(b, p)
    decreases |a|
  {
    if a == [] {
      assert a + b == b;
    } else {
      assert (a + b)[0] == a[0] && (a + b)[1..] == a[1..] + b;
      FilterAppend(a[1..], b, p);
    }
  }

  /** What a `get_entry_by_*` hook answers from a listing: for a successful
      listing, `NotFound` iff no entry matches, else the first entry that
      matches; `Unavail` for a listing that is not a success; an error or a
      panic passes on. */
  predicate FirstMatch<T(==)>(listing: Outcome<Response<seq<T>>>, r: Outcome<Response<T>>, p: T -> bool) {
    && (listing.Ok? && listing.value.Success? ==>
          var all := listing.value.value;
          && r.Ok?
          && (r.value.NotFound? <==> forall i :: 0 <= i < |all| ==> !p(all[i]))
          && (r.value.Success? ==>
                exists i :: 0 <= i < |all| && all[i] == r.value.value && p(all[i])
                            && forall j :: 0 <= j < i ==> !p(all[j]))
          && (r.value.Success? || r.value.NotFound?))
    && (listing.Ok? && !listing.value.Success? ==> r == Ok(Unavail))
    && (listing.Err? ==> r == Err(listing.error))
    && (listing.Panic? ==> r == Panic(listing.abort))
  }

  /** The `get_entry_by_*` shape. */
  function Lookup<T(==)>(listing: Outcome<Response<seq<T>>>, p: T -> bool): (r: Outcome<Response<T>>)
    ensures FirstMatch(listing, r, p)
  {
    var all :- listing;
    match all
    case Success(entries) =>
      (match FindFirst(entries, p)
       case None => Ok(NotFound)
       case Some(e) => Ok(Success(e)))
    case _ => Ok(Unavail)
  }

  // ---------------------------------------------------------------------------
  // passwd

  /** Lines 39-47: every field copied, the password replaced by "x". */
  function ToPasswd(u: User): Passwd {
    Passwd(u.username, "x", u.uid, u.gid, u.gecos, u.home, u.shell)
  }

  /** Lines 25-50. */
  function PasswdEntries(disk: Disk): Outcome<Response<seq<Passwd>>> {
    MapListing(ReadListing(disk, PASSWD_PATH, ParseUser), ToPasswd)
  }

  /** Lines 52-60: the first entry with that uid. */
  function PasswdByUid(disk: Disk, uid: U32): (r: Outcome<Response<Passwd>>)
    ensures FirstMatch(PasswdEntries(disk), r, (p: Passwd) => p.uid == uid)
  {
    Lookup(PasswdEntries(disk), (p: Passwd) => p.uid == uid)
  }

  /** Lines 62-70: the first entry with that name. */
  function PasswdByName(disk: Disk, name: string): (r: Outcome<Response<Passwd>>)
    ensures FirstMatch(PasswdEntries(disk), r, (p: Passwd) => p.name == name)
  {
    Lookup(PasswdEntries(disk), (p: Passwd) => p.name == name)
  }

  /** The passwd listing maps each user of the file to one entry, in order,
      without its password; a file that is missing or holds a bad number is
      `Unavail`. */
  lemma {:induction false} PasswdEntriesSpec(disk: Disk)
    ensures var users := if PASSWD_PATH in disk then ParseLines(Lines(disk[PASSWD_PATH]), ParseUser) else Err(Io);
            var r := PasswdEntries(disk);
            && (r.Ok? && r.value.Success? <==> users.Ok?)
            && (users.Ok? ==> |r.value.value| == |users.value|
                              && forall i :: 0 <= i < |users.value| ==>
                                   var (p, u) := (r.value.value[i], users.value[i]);
                                   p.name == u.username && p.passwd == "x" && p.uid == u.uid && p.gid == u.gid
                                   && p.gecos == u.gecos && p.dir == u.home && p.shell == u.shell)
            && (users.Err? ==> r == Ok(Unavail))
            && (users.Panic? ==> r == Panic(users.abort))
  {
  }

  // ---------------------------------------------------------------------------
  // group

  /** Lines 91-96: every field copied. */
  function ToGroupEntry(g: Group): GroupEntry {
    GroupEntry(g.name, g.password, g.gid, g.members)
  }

  /** Lines 77-99. */
  function GroupEntries(disk: Disk): Outcome<Response<seq<GroupEntry>>> {
    MapListing(ReadListing(disk, GROUP_PATH, ParseGroup), ToGroupEntry)
  }

  /** Lines 101-109: the first group with that gid. */
  function GroupByGid(disk: Disk, gid: U32): (r: Outcome<Response<GroupEntry>>)
    ensures FirstMatch(GroupEntries(disk), r, (g: GroupEntry) => g.gid == gid)
  {
    Lookup(GroupEntries(disk), (g: GroupEntry) => g.gid == gid)
  }

  /** Lines 111-119: the first group with that name. */
  function GroupByName(disk: Disk, name: string): (r: Outcome<Response<GroupEntry>>)
    ensures FirstMatch(GroupEntries(disk), r, (g: GroupEntry) => g.name == name)
  {
    Lookup(GroupEntries(disk), (g: GroupEntry) => g.name == name)
  }

  /** Lines 186-196: the groups that list `user` as a member. */
  function GroupsOfUser(disk: Disk, user: string): Outcome<Response<seq<GroupEntry>>> {
    var all :- GroupEntries(disk);
    match all
    case Success(groups) => Ok(Success(Filter(groups, (g: GroupEntry) => user in g.members)))
    case _ => Ok(Unavail)
  }

  /** initgroups answers exactly the groups of the listing that have `user`
      among their members, in file order, or `Unavail` with the listing. */
  lemma {:induction false} GroupsOfUserSpec(disk: Disk, user: string)
    ensures var all := GroupEntries(disk);
            var r := GroupsOfUser(disk, user);
            && (all.Ok? && all.value.Success? ==>
                  r == Ok(Success(Filter(all.value.value, (g: GroupEntry) => user in g.members)))
                  && (forall i :: 0 <= i < |r.value.value| ==>
                        r.value.value[i] in all.value.value && user in r.value.value[i].members)
                  && (forall i :: 0 <= i < |all.value.value| && user in all.value.value[i].members ==>
                        all.value.value[i] in r.value.value))
            && (all.Ok? && !all.value.Success? ==> r == Ok(Unavail))
            && (all.Panic? ==> r == Panic(all.abort))
  {
  }

  // ---------------------------------------------------------------------------
  // shadow

  /** `parse().unwrap_or(default)` of a policy field. */
  function NumberOr(field: string, default: int): (n: int)
    ensures ParseI64(field).None? ==> n == default
    ensures ParseI64(field).Some? ==> n == ParseI64(field).value
  {
    ParseI64(field).GetOr(default)
  }

  /** Lines 133-143: the numeric fields with their defaults, `reserved` 0. */
  function ToShadowEntry(e: Shadow): ShadowEntry {
    ShadowEntry(e.username, e.pwdp, NumberOr(e.lstchg, 0), NumberOr(e.min, 0), NumberOr(e.max, 99999),
                NumberOr(e.warn, 7), NumberOr(e.inact, -1), NumberOr(e.expire, -1), 0)
  }

  /** Lines 126-152. */
  function ShadowEntries(disk: Disk): Outcome<Response<seq<ShadowEntry>>> {
    MapListing(ReadListing(disk, SHADOW_PATH, ParseShadow), ToShadowEntry)
  }

  /** Lines 154-162: the first shadow entry with that name. */
  function ShadowByName(disk: Disk, name: string): (r: Outcome<Response<ShadowEntry>>)
    ensures FirstMatch(ShadowEntries(disk), r, (s: ShadowEntry) => s.name == name)
  {
    Lookup(ShadowEntries(disk), (s: ShadowEntry) => s.name == name)
  }

  /** Empty policy fields read as the defaults. */
  lemma {:induction false} ShadowDefaults(username: string, pwdp: string, flag: string)
    ensures ToShadowEntry(Shadow(username, pwdp, "", "", "", "", "", "", flag))
            == ShadowEntry(username, pwdp, 0, 0, 99999, 7, -1, -1, 0)
  {
  }

  /** A policy field holding a decimal number reads as that number. */
  lemma {:induction false} NumberOfDecimal(n: nat, default: int)
    requires n < I64_HALF
    ensures NumberOr(Decimal(n), default) == n
  {
    ParseDecimal(n, I64_HALF);
    assert IsDigit(Decimal(n)[0]);
  }

  /** A negative decimal number is read as well. */
  lemma {:induction false} NumberOfNegative(n: nat, default: int)
    requires 0 < n <= I64_HALF
    ensures NumberOr("-" + Decimal(n), default) == -(n as int)
  {
    DecimalValue(n);
    assert ("-" + Decimal(n))[1..] == Decimal(n);
  }

  /** No shadow entry is dropped: the listing has one entry per line, in
      order, whatever its numeric fields hold. */
  lemma {:induction false} ShadowEntriesKeepsAll(disk: Disk)
    requires SHADOW_PATH in disk
    ensures var entries := ParseLines(Lines(disk[SHADOW_PATH]), ParseShadow);
            entries.Ok? ==>
              var r := ShadowEntries(disk);
              r.Ok? && r.value.Success? && |r.value.value| == |entries.value|
              && forall i :: 0 <= i < |entries.value| ==> r.value.value[i] == ToShadowEntry(entries.value[i])
  {
  }

  // ---------------------------------------------------------------------------
  // hosts

  /** Lines 169-179: infod serves no hosts. */
  function HostEntries(): (r: Response<seq<string>>)
    ensures r == Success([])
  {
    Success([])
  }

  function HostByAddr<A>(addr: A): (r: Response<string>)
    ensures r == NotFound
  {
    NotFound
  }

  function HostByName<F>(name: string, family: F): (r: Response<string>)
    ensures r == NotFound
  {
    NotFound
  }

  // ---------------------------------------------------------------------------
  // Reading what the client installs

  /** The passwd file written from a state lists one entry per user, in order. */
  lemma {:induction false} InstalledPasswdEntries(disk: Disk, users: seq<User>)
    requires PASSWD_PATH in disk && disk[PASSWD_PATH] == Render(users, FormatUser)
    requires forall i :: 0 <= i < |users| ==> WritableUser(users[i])
    ensures var r := PasswdEntries(disk);
            && r.Ok? && r.value.Success? && |r.value.value| == |users|
            && forall i :: 0 <= i < |users| ==> r.value.value[i] == ToPasswd(users[i])
  {
    UsersRoundTrip(users);
    assert ReadListing(disk, PASSWD_PATH, ParseUser) == Ok(Success(users));
  }

  /** The passwd file written from a state answers lookups from that state:
      by uid, the first user with that uid. */
  lemma {:induction false} InstalledPasswdByUid(disk: Disk, users: seq<User>, uid: U32)
    requires PASSWD_PATH in disk && disk[PASSWD_PATH] == Render(users, FormatUser)
    requires forall i :: 0 <= i < |users| ==> WritableUser(users[i])
    ensures var r := PasswdByUid(disk, uid);
            && r.Ok?
            && (r.value.NotFound? <==> forall i :: 0 <= i < |users| ==> users[i].uid != uid)
            && (r.value.Success? ==> exists i :: 0 <= i < |users| && r.value.value == ToPasswd(users[i])
                                                && users[i].uid == uid
                                                && forall j :: 0 <= j < i ==> users[j].uid != uid)
  {
    InstalledPasswdEntries(disk, users);
    var entries := PasswdEntries(disk).value.value;
    assert forall i :: 0 <= i < |users| ==> entries[i].uid == users[i].uid;
  }

  /** The group file written from a state lists one entry per group, in order. */
  lemma {:induction false} InstalledGroupEntries(disk: Disk, groups: seq<Group>)
    requires GROUP_PATH in disk && disk[GROUP_PATH] == Render(groups, FormatGroup)
    requires forall i :: 0 <= i < |groups| ==> WritableGroup(groups[i])
    ensures var r := GroupEntries(disk);
            && r.Ok? && r.value.Success? && |r.value.value| == |groups|
            && forall i :: 0 <= i < |groups| ==> r.value.value[i] == ToGroupEntry(groups[i])
  {
    GroupsRoundTrip(groups);
    assert ReadListing(disk, GROUP_PATH, ParseGroup) == Ok(Success(groups));
  }

  /** initgroups over the group file written from a state: exactly the groups
      of the state that list the user. */
  lemma {:induction false} InstalledGroupsOfUser(disk: Disk, groups: seq<Group>, user: string)
    requires GROUP_PATH in disk && disk[GROUP_PATH] == Render(groups, FormatGroup)
    requires forall i :: 0 <= i < |groups| ==> WritableGroup(groups[i])
    ensures var r := GroupsOfUser(disk, user);
            && r.Ok? && r.value.Success?
            && (forall i :: 0 <= i < |r.value.value| ==>
                  exists j :: 0 <= j < |groups| && r.value.value[i] == ToGroupEntry(groups[j])
                              && user in groups[j].members)
            && (forall j :: 0 <= j < |groups| && user in groups[j].members ==>
                  ToGroupEntry(groups[j]) in r.value.value)
  {
    InstalledGroupEntries(disk, groups);
    GroupsOfUserSpec(disk, user);
    var entries := GroupEntries(disk).value.value;
    var r := GroupsOfUser(disk, user).value.value;
    forall i | 0 <= i < |r|
      ensures exists j :: 0 <= j < |groups| && r[i] == ToGroupEntry(groups[j]) && user in groups[j].members
    {
      var j :| 0 <= j < |entries| && entries[j] == r[i];
      assert r[i] == ToGroupEntry(groups[j]);
    }
    forall j | 0 <= j < |groups| && user in groups[j].members
      ensures ToGroupEntry(groups[j]) in r
    {
      assert entries[j] == ToGroupEntry(groups[j]);
    }
  }

  /** The shadow file written from a state lists one entry per shadow record,
      in order, with its policy fields read as numbers or defaults. */
  lemma {:induction false} InstalledShadowEntries(disk: Disk, entries: seq<Shadow>)
    requires SHADOW_PATH in disk && disk[SHADOW_PATH] == Render(entries, FormatShadow)
    requires forall i :: 0 <= i < |entries| ==> WritableShadow(entries[i])
    ensures var r := ShadowEntries(disk);
            && r.Ok? && r.value.Success? && |r.value.value| == |entries|
            && forall i :: 0 <= i < |entries| ==> r.value.value[i] == ToShadowEntry(entries[i])
  {
    ShadowRoundTrip(entries);
    assert ReadListing(disk, SHADOW_PATH, ParseShadow) == Ok(Success(entries));
  }
}
