/** infod_client/src/main.rs: polling the server and installing the state it
    sends as files for the NSS module and autofs. */
module Client {
  import opened Outcomes
  import opened Text
  import opened Records
  import opened Wire
  import opened Filesystem
  import opened Mounts

  /** The `[client]` table of the configuration that `write_state` reads. */
  datatype ClientConfig = ClientConfig(mountpointPrefix: Option<string>, destination: Option<string>)

  const DEFAULT_DESTINATION: string := "/var/spool/infod"

  function Destination(config: ClientConfig): string {
    config.destination.GetOr(DEFAULT_DESTINATION)
  }

  /** `destination.join(name)` */
  function LivePath(config: ClientConfig, name: string): Path {
    PathJoin(Destination(config), name)
  }

  /** `with_extension("new")` on a file name that has no extension. */
  function TempPath(p: Path): Path {
    p + ".new"
  }

  /** `destination.join(format!("{}{}", prefix, mountpoint))` */
  function MountFile(config: ClientConfig, mountpoint: string): Path {
    PathJoin(Destination(config), config.mountpointPrefix.GetOr("") + mountpoint)
  }

  /** Lines 96-98 of `write_state`: the temporary files are removed. */
  function Removals(config: ClientConfig): seq<FsOp> {
    [ Remove(TempPath(LivePath(config, "passwd"))), Remove(TempPath(LivePath(config, "group"))),
      Remove(TempPath(LivePath(config, "shadow"))) ]
  }

  /** One record file written to its temporary path: created, made readable by
      its owner only, then filled. */
  function Staged(tmp: Path, text: string): seq<FsOp> {
    [Create(tmp), Chmod(tmp, OWNER_READ), Write(tmp, text)]
  }

  /** Lines 100-112: passwd, then shadow, then group. */
  function TempWrites(config: ClientConfig, state: State): seq<FsOp> {
    Staged(TempPath(LivePath(config, "passwd")), Render(state.users, FormatUser))
    + Staged(TempPath(LivePath(config, "shadow")), Render(state.shadow, FormatShadow))
    + Staged(TempPath(LivePath(config, "group")), Render(state.groups, FormatGroup))
  }

  /** Lines 114-116: each temporary file replaces its live file. */
  function Renames(config: ClientConfig): seq<FsOp> {
    [ Rename(TempPath(LivePath(config, "passwd")), LivePath(config, "passwd")),
      Rename(TempPath(LivePath(config, "group")), LivePath(config, "group")),
      Rename(TempPath(LivePath(config, "shadow")), LivePath(config, "shadow")) ]
  }

  /** One mount file per group, created (or truncated) and written in place. */
  function MountPlan(config: ClientConfig, groups: seq<MountGroup>): (plan: seq<FsOp>)
    ensures |plan| == 2 * |groups|
  {
    seq(2 * |groups|, i requires 0 <= i < 2 * |groups| =>
      var g := groups[i / 2];
      if i % 2 == 0 then Create(MountFile(config, g.mountpoint))
      else Write(MountFile(config, g.mountpoint), Render(g.mounts, FormatMount)))
  }

  /** The two operations for the `i`th group. */
  lemma {:induction false} MountPlanAt(config: ClientConfig, groups: seq<MountGroup>, i: nat)
    requires i < |groups|
    ensures var g := groups[i];
            MountPlan(config, groups)[2 * i..2 * i + 2]
            == [Create(MountFile(config, g.mountpoint)), Write(MountFile(config, g.mountpoint), Render(g.mounts, FormatMount))]
  {
    var plan := MountPlan(config, groups);
    assert (2 * i) / 2 == i && (2 * i) % 2 == 0;
    assert (2 * i + 1) / 2 == i && (2 * i + 1) % 2 == 1;
    assert plan[2 * i..2 * i + 2] == [plan[2 * i], plan[2 * i + 1]];
  }

  /** Everything `write_state` does, in order. */
  function StatePlan(config: ClientConfig, state: State): seq<FsOp> {
    Removals(config) + TempWrites(config, state) + Renames(config)
    + MountPlan(config, GroupByMountpoint(state.mounts))
  }

  /** Lines 96-98: removals whose failures are ignored, so they never end the run. */
  method RemoveStaleFiles(fs: FileSystem, passwdTmp: Path, groupTmp: Path, shadowTmp: Path)
    modifies fs`files
    ensures var a := Simulate(fs.env, old(fs.files), [Remove(passwdTmp), Remove(groupTmp), Remove(shadowTmp)]);
            a.outcome.Ok? && fs.files == a.files
  {
    ghost var plan := [Remove(passwdTmp), Remove(groupTmp), Remove(shadowTmp)];
    ghost var start := fs.files;
    assert plan[..0] == [];
    RanStep(fs.env, start, plan, 0, fs.files);
    var _ := fs.Remove(passwdTmp);
    RanStep(fs.env, start, plan, 1, fs.files);
    var _ := fs.Remove(groupTmp);
    RanStep(fs.env, start, plan, 2, fs.files);
    var _ := fs.Remove(shadowTmp);
    RanAll(fs.env, start, plan, fs.files);
  }

  /** `File::create`, `fchmod(.., S_IRUSR)` and the `write_*` of the records. */
  method StageRecordFile<T>(fs: FileSystem, tmp: Path, records: seq<T>, format: T -> string)
    returns (r: Outcome<()>)
    modifies fs`files
    ensures var a := Simulate(fs.env, old(fs.files), Staged(tmp, Render(records, format)));
            r == a.outcome && fs.files == a.files
  {
    ghost var plan := Staged(tmp, Render(records, format));
    ghost var start := fs.files;
    assert plan[..0] == [];
    RanStep(fs.env, start, plan, 0, fs.files);
    var _ :- fs.Create(tmp);
    RanStep(fs.env, start, plan, 1, fs.files);
    var _ :- fs.Chmod(tmp, OWNER_READ);
    var text := WriteRecords(records, format);
    RanStep(fs.env, start, plan, 2, fs.files);
    var _ :- fs.Write(tmp, text);
    RanAll(fs.env, start, plan, fs.files);
    r := Ok(());
  }

  /** Proof helper: a plan made of three three-step runs slices back into them. */
  lemma {:induction false} ThreeSegments(p: seq<FsOp>, s: seq<FsOp>, g: seq<FsOp>)
    requires |p| == |s| == |g| == 3
    ensures var plan := p + s + g;
            plan[..0] == [] && plan[0..3] == p && plan[3..6] == s && plan[6..9] == g
  {
    var plan := p + s + g;
    assert plan[0..3] == p;
    assert plan[3..6] == s;
    assert plan[6..9] == g;
  }

  /** Lines 100-112: the three temporary files. */
  method WriteTempFiles(fs: FileSystem, state: State, passwdTmp: Path, shadowTmp: Path, groupTmp: Path)
    returns (r: Outcome<()>)
    modifies fs`files
    ensures var a := Simulate(fs.env, old(fs.files),
                              Staged(passwdTmp, Render(state.users, FormatUser))
                              + Staged(shadowTmp, Render(state.shadow, FormatShadow))
                              + Staged(groupTmp, Render(state.groups, FormatGroup)));
            r == a.outcome && fs.files == a.files
  {
    ghost var start := fs.files;
    ghost var p := Staged(passwdTmp, Render(state.users, FormatUser));
    ghost var s := Staged(shadowTmp, Render(state.shadow, FormatShadow));
    ghost var g := Staged(groupTmp, Render(state.groups, FormatGroup));
    ghost var plan := p + s + g;
    ThreeSegments(p, s, g);
    RanSegment(fs.env, start, plan, 0, p, fs.files);
    var _ :- StageRecordFile(fs, passwdTmp, state.users, FormatUser);
    RanSegment(fs.env, start, plan, 3, s, fs.files);
    var _ :- StageRecordFile(fs, shadowTmp, state.shadow, FormatShadow);
    RanSegment(fs.env, start, plan, 6, g, fs.files);
    var _ :- StageRecordFile(fs, groupTmp, state.groups, FormatGroup);
    RanAll(fs.env, start, plan, fs.files);
    r := Ok(());
  }

  /** Lines 114-116: the renames, each of which can end the run. */
  method ReplaceLiveFiles(fs: FileSystem, passwdTmp: Path, passwdPath: Path, groupTmp: Path,
                          groupPath: Path, shadowTmp: Path, shadowPath: Path)
    returns (r: Outcome<()>)
    modifies fs`files
    ensures var a := Simulate(fs.env, old(fs.files),
                              [Rename(passwdTmp, passwdPath), Rename(groupTmp, groupPath),
                               Rename(shadowTmp, shadowPath)]);
            r == a.outcome && fs.files == a.files
  {
    ghost var plan := [Rename(passwdTmp, passwdPath), Rename(groupTmp, groupPath), Rename(shadowTmp, shadowPath)];
    ghost var start := fs.files;
    assert plan[..0] == [];
    RanStep(fs.env, start, plan, 0, fs.files);
    var _ :- fs.Rename(passwdTmp, passwdPath);
    RanStep(fs.env, start, plan, 1, fs.files);
    var _ :- fs.Rename(groupTmp, groupPath);
    RanStep(fs.env, start, plan, 2, fs.files);
    var _ :- fs.Rename(shadowTmp, shadowPath);
    RanAll(fs.env, start, plan, fs.files);
    r := Ok(());
  }

  /** Line 136: `File::create` of the mount file, then `write_mounts`. */
  method WriteMountFile(fs: FileSystem, path: Path, mounts: seq<Mount>) returns (r: Outcome<()>)
    modifies fs`files
    ensures var a := Simulate(fs.env, old(fs.files), [Create(path), Write(path, Render(mounts, FormatMount))]);
            r == a.outcome && fs.files == a.files
  {
    ghost var plan := [Create(path), Write(path, Render(mounts, FormatMount))];
    ghost var start := fs.files;
    assert plan[..0] == [];
    RanStep(fs.env, start, plan, 0, fs.files);
    var _ :- fs.Create(path);
    var text := WriteRecords(mounts, FormatMount);
    RanStep(fs.env, start, plan, 1, fs.files);
    var _ :- fs.Write(path, text);
    RanAll(fs.env, start, plan, fs.files);
    r := Ok(());
  }

  /** Lines 126-137: one mount file per group, in key order. */
  method WriteMountFiles(fs: FileSystem, config: ClientConfig, mountpoints: seq<MountGroup>)
    returns (r: Outcome<()>)
    modifies fs`files
    ensures var a := Simulate(fs.env, old(fs.files), MountPlan(config, mountpoints));
            r == a.outcome && fs.files == a.files
  {
    ghost var plan := MountPlan(config, mountpoints);
    ghost var start := fs.files;
    assert plan[..0] == [];
    var destination := config.destination.GetOr(DEFAULT_DESTINATION);
    var prefix := config.mountpointPrefix.GetOr("");
    var i := 0;
    while i < |mountpoints|
      invariant i <= |mountpoints|
      invariant Ran(fs.env, start, plan, 2 * i, fs.files)
    {
      var path := PathJoin(destination, prefix + mountpoints[i].mountpoint);
      ghost var seg := [Create(path), Write(path, Render(mountpoints[i].mounts, FormatMount))];
      MountPlanAt(config, mountpoints, i);
      RanSegment(fs.env, start, plan, 2 * i, seg, fs.files);
      var _ :- WriteMountFile(fs, path, mountpoints[i].mounts);
      i := i + 1;
    }
    RanAll(fs.env, start, plan, fs.files);
    r := Ok(());
  }

  /** `write_state`: the stale temporary files are removed (failures ignored),
      each record file is written to a temporary file readable by its owner
      only, the three are renamed over the live files, and the mount files are
      written; the first failure after the removals ends it. */
  method WriteState(fs: FileSystem, state: State, config: ClientConfig) returns (r: Outcome<()>)
    modifies fs`files
    ensures var a := Simulate(fs.env, old(fs.files), StatePlan(config, state));
            r == a.outcome && fs.files == a.files
  {
    ghost var start := fs.files;
    ghost var removals := Removals(config);
    ghost var temps := TempWrites(config, state);
    ghost var renames := Renames(config);
    ghost var mounts := MountPlan(config, GroupByMountpoint(state.mounts));
    SimulateAppend(fs.env, start, removals + temps + renames, mounts);
    SimulateAppend(fs.env, start, removals + temps, renames);
    SimulateAppend(fs.env, start, removals, temps);

    var destination := config.destination.GetOr(DEFAULT_DESTINATION);
    var passwdPath := PathJoin(destination, "passwd");
    var passwdTmp := passwdPath + ".new";
    var groupPath := PathJoin(destination, "group");
    var groupTmp := groupPath + ".new";
    var shadowPath := PathJoin(destination, "shadow");
    var shadowTmp := shadowPath + ".new";

    RemoveStaleFiles(fs, passwdTmp, groupTmp, shadowTmp);
    var _ :- WriteTempFiles(fs, state, passwdTmp, shadowTmp, groupTmp);
    var _ :- ReplaceLiveFiles(fs, passwdTmp, passwdPath, groupTmp, groupPath, shadowTmp, shadowPath);

    var mountpoints := GroupMounts(state.mounts);
    r := WriteMountFiles(fs, config, mountpoints);
  }

  // ---------------------------------------------------------------------------
  // What `write_state` leaves on disk

  /** The live and temporary paths of the three record files. */
  function RecordPaths(config: ClientConfig): set<Path> {
    { LivePath(config, "passwd"), LivePath(config, "group"), LivePath(config, "shadow"),
      TempPath(LivePath(config, "passwd")), TempPath(LivePath(config, "group")),
      TempPath(LivePath(config, "shadow")) }
  }

  /** Proof helper: a temporary path is the joined path with `.new` appended. */
  lemma {:induction false} TempJoin(dir: string, name: string)
    requires |name| > 0 && name[0] != '/'
    ensures TempPath(PathJoin(dir, name)) == PathJoin(dir, name + ".new")
  {
  }

  /** The six record paths are pairwise different, whatever the destination. */
  lemma {:induction false} RecordPathsDistinct(config: ClientConfig)
    ensures var p, g, s := LivePath(config, "passwd"), LivePath(config, "group"), LivePath(config, "shadow");
            && p != g && p != s && g != s
            && TempPath(p) != TempPath(g) && TempPath(p) != TempPath(s) && TempPath(g) != TempPath(s)
            && TempPath(p) !in {p, g, s} && TempPath(g) !in {p, g, s} && TempPath(s) !in {p, g, s}
  {
    var d := Destination(config);
    PathJoinInjective(d, "passwd", "group");
    PathJoinInjective(d, "passwd", "shadow");
    PathJoinInjective(d, "passwd", "passwd.new");
    PathJoinInjective(d, "passwd", "group.new");
    PathJoinInjective(d, "passwd", "shadow.new");
    PathJoinInjective(d, "group", "shadow");
    PathJoinInjective(d, "group", "passwd.new");
    PathJoinInjective(d, "group", "group.new");
    PathJoinInjective(d, "group", "shadow.new");
    PathJoinInjective(d, "shadow", "passwd.new");
    PathJoinInjective(d, "shadow", "group.new");
    PathJoinInjective(d, "shadow", "shadow.new");
    PathJoinInjective(d, "passwd.new", "group.new");
    PathJoinInjective(d, "passwd.new", "shadow.new");
    PathJoinInjective(d, "group.new", "shadow.new");
    TempJoin(d, "passwd");
    TempJoin(d, "group");
    TempJoin(d, "shadow");
    assert "passwd" + ".new" == "passwd.new" && "group" + ".new" == "group.new" && "shadow" + ".new" == "shadow.new";
  }

  /** A record file staged without failure holds what its write kept (all of
      its text unless the write lost its tail) and is readable by its owner
      only, whatever was at its path before. */
  lemma {:induction false} StagedEffect(env: Env, files: Files, tmp: Path, text: string)
    requires Simulate(env, files, Staged(tmp, text)).outcome.Ok?
    ensures Simulate(env, files, Staged(tmp, text)).files
            == files[tmp := File(Kept(env, Write(tmp, text)), OWNER_READ)]
  {
    SimulateThree(env, files, Create(tmp), Chmod(tmp, OWNER_READ), Write(tmp, text));
    assert "" + Kept(env, Write(tmp, text)) == Kept(env, Write(tmp, text));
  }

  /** A staged file whose write lost its tail is still renamed into place:
      the run succeeds, and the live file holds only the part of the text that
      reached the disk. */
  lemma {:induction false} LostTailInstalled(env: Env, files: Files, tmp: Path, live: Path, text: string)
    requires tmp != live
    requires Create(tmp) !in env.faults && Chmod(tmp, OWNER_READ) !in env.faults
    requires Write(tmp, text) !in env.faults && Rename(tmp, live) !in env.faults
    requires Write(tmp, text) in env.lostTails && env.lostTails[Write(tmp, text)] < |text|
    ensures var a := Simulate(env, files, Staged(tmp, text) + [Rename(tmp, live)]);
            && a.outcome == Ok(())
            && live in a.files && a.files[live] == File(text[..env.lostTails[Write(tmp, text)]], OWNER_READ)
            && a.files[live].content != text
  {
    var staged := Staged(tmp, text);
    assert staged == [Create(tmp)] + ([Chmod(tmp, OWNER_READ)] + ([Write(tmp, text)] + []));
    var f1 := Effect(env, files, Create(tmp)).1;
    var f2 := Effect(env, f1, Chmod(tmp, OWNER_READ)).1;
    var f3 := Effect(env, f2, Write(tmp, text)).1;
    SimulateCons(env, files, Create(tmp), [Chmod(tmp, OWNER_READ)] + ([Write(tmp, text)] + []));
    SimulateCons(env, f1, Chmod(tmp, OWNER_READ), [Write(tmp, text)] + []);
    SimulateCons(env, f2, Write(tmp, text), []);
    StagedEffect(env, files, tmp, text);
    SimulateAppend(env, files, staged, [Rename(tmp, live)]);
    SimulateCons(env, f3, Rename(tmp, live), []);
  }

  /** The three renames, all without failure: each live file now holds what its
      temporary file held, the temporary files are gone, nothing else moved. */
  lemma {:induction false} RenamesEffect(env: Env, files: Files, config: ClientConfig)
    requires Simulate(env, files, Renames(config)).outcome.Ok?
    ensures var p, g, s := LivePath(config, "passwd"), LivePath(config, "group"), LivePath(config, "shadow");
            var result := Simulate(env, files, Renames(config)).files;
            && TempPath(p) in files && TempPath(g) in files && TempPath(s) in files
            && result == (files - {TempPath(p), TempPath(g), TempPath(s)})
                         [p := files[TempPath(p)]][g := files[TempPath(g)]][s := files[TempPath(s)]]
  {
    var p, g, s := LivePath(config, "passwd"), LivePath(config, "group"), LivePath(config, "shadow");
    RecordPathsDistinct(config);
    SimulateThree(env, files, Rename(TempPath(p), p), Rename(TempPath(g), g), Rename(TempPath(s), s));
  }

  /** The first phases, up to the renames, touch only the record paths. */
  lemma {:induction false} RecordPlanTouchesRecordPaths(config: ClientConfig, state: State, q: Path)
    requires q !in RecordPaths(config)
    ensures var plan := Removals(config) + TempWrites(config, state) + Renames(config);
            forall i :: 0 <= i < |plan| ==> !Touches(plan[i], q)
  {
  }

  /** The mount phase touches only the mount files. */
  lemma {:induction false} MountPlanTouches(config: ClientConfig, groups: seq<MountGroup>, q: Path)
    requires forall i :: 0 <= i < |groups| ==> MountFile(config, groups[i].mountpoint) != q
    ensures forall i :: 0 <= i < |MountPlan(config, groups)| ==> !Touches(MountPlan(config, groups)[i], q)
  {
  }

  /** The three record files as `write_state` leaves them. */
  function PasswdFile(state: State): File { File(Render(state.users, FormatUser), OWNER_READ) }
  function GroupFile(state: State): File { File(Render(state.groups, FormatGroup), OWNER_READ) }
  function ShadowFile(state: State): File { File(Render(state.shadow, FormatShadow), OWNER_READ) }

  /** The temporary files, written without failure. */
  lemma {:induction false} TempWritesEffect(env: Env, files: Files, config: ClientConfig, state: State)
    requires NoLostWrites(env)
    requires Simulate(env, files, TempWrites(config, state)).outcome.Ok?
    ensures var p, g, s := LivePath(config, "passwd"), LivePath(config, "group"), LivePath(config, "shadow");
            Simulate(env, files, TempWrites(config, state)).files
              == files[TempPath(p) := PasswdFile(state)][TempPath(s) := ShadowFile(state)][TempPath(g) := GroupFile(state)]
  {
    var p, g, s := LivePath(config, "passwd"), LivePath(config, "group"), LivePath(config, "shadow");
    var sp := Staged(TempPath(p), Render(state.users, FormatUser));
    var ss := Staged(TempPath(s), Render(state.shadow, FormatShadow));
    var sg := Staged(TempPath(g), Render(state.groups, FormatGroup));
    SimulateAppend(env, files, sp + ss, sg);
    SimulateAppend(env, files, sp, ss);
    StagedEffect(env, files, TempPath(p), Render(state.users, FormatUser));
    var f1 := files[TempPath(p) := PasswdFile(state)];
    StagedEffect(env, f1, TempPath(s), Render(state.shadow, FormatShadow));
    var f2 := f1[TempPath(s) := ShadowFile(state)];
    StagedEffect(env, f2, TempPath(g), Render(state.groups, FormatGroup));
  }

  /** The removals change nothing but the temporary paths. */
  lemma {:induction false} RemovalsEffect(env: Env, files: Files, config: ClientConfig)
    ensures var p, g, s := LivePath(config, "passwd"), LivePath(config, "group"), LivePath(config, "shadow");
            var result := Simulate(env, files, Removals(config)).files;
            forall q :: q !in {TempPath(p), TempPath(g), TempPath(s)} ==>
              (q in result <==> q in files) && (q in files ==> result[q] == files[q])
  {
    forall q | q !in {TempPath(LivePath(config, "passwd")), TempPath(LivePath(config, "group")),
                      TempPath(LivePath(config, "shadow"))}
      ensures var result := Simulate(env, files, Removals(config)).files;
              (q in result <==> q in files) && (q in files ==> result[q] == files[q])
    {
      SimulateUntouched(env, files, Removals(config), q);
    }
  }

  /** Proof helper: the map arithmetic of staging three files and renaming them over three
      others, starting from files that differ from `files` only at the
      temporary paths. */
  lemma {:induction false} ReplaceThree(files: Files, f1: Files, tp: Path, tg: Path, ts: Path, p: Path, g: Path, s: Path,
                     pf: File, gf: File, sf: File)
    requires p != g && p != s && g != s && tp != tg && tp != ts && tg != ts
    requires tp !in {p, g, s} && tg !in {p, g, s} && ts !in {p, g, s}
    requires forall q :: q !in {tp, tg, ts} ==> (q in f1 <==> q in files) && (q in files ==> f1[q] == files[q])
    ensures var f2 := f1[tp := pf][ts := sf][tg := gf];
            (f2 - {tp, tg, ts})[p := f2[tp]][g := f2[tg]][s := f2[ts]]
              == (files - {p, g, s, tp, tg, ts})[p := pf][g := gf][s := sf]
  {
  }

  /** Before the mount phase: after a run of the record phases without failure,
      each live record file holds its rendered records, readable by its owner
      only, the temporary files are gone, and no other path has changed. */
  lemma {:induction false} RecordPhaseEffect(env: Env, files: Files, config: ClientConfig, state: State)
    requires NoLostWrites(env)
    requires Simulate(env, files, Removals(config) + TempWrites(config, state) + Renames(config)).outcome.Ok?
    ensures var p, g, s := LivePath(config, "passwd"), LivePath(config, "group"), LivePath(config, "shadow");
            Simulate(env, files, Removals(config) + TempWrites(config, state) + Renames(config)).files
              == (files - RecordPaths(config))[p := PasswdFile(state)][g := GroupFile(state)][s := ShadowFile(state)]
  {
    var p, g, s := LivePath(config, "passwd"), LivePath(config, "group"), LivePath(config, "shadow");
    var removals, temps, renames := Removals(config), TempWrites(config, state), Renames(config);
    SimulateAppend(env, files, removals + temps, renames);
    SimulateAppend(env, files, removals, temps);
    var f1 := Simulate(env, files, removals).files;
    TempWritesEffect(env, f1, config, state);
    var f2 := f1[TempPath(p) := PasswdFile(state)][TempPath(s) := ShadowFile(state)][TempPath(g) := GroupFile(state)];
    RenamesEffect(env, f2, config);
    RecordPathsDistinct(config);
    RemovalsEffect(env, files, config);
    ReplaceThree(files, f1, TempPath(p), TempPath(g), TempPath(s), p, g, s,
                 PasswdFile(state), GroupFile(state), ShadowFile(state));
  }

  /** Creating (or truncating) a file and writing it, without failure: it holds
      what the write kept, and keeps the mode it had, or gets the mode of a new
      file. */
  lemma {:induction false} CreateWriteEffect(env: Env, files: Files, path: Path, text: string)
    requires Simulate(env, files, [Create(path), Write(path, text)]).outcome.Ok?
    ensures Simulate(env, files, [Create(path), Write(path, text)]).files
            == files[path := File(Kept(env, Write(path, text)),
                                  if path in files then files[path].mode else env.createMode)]
  {
    var create, write := Create(path), Write(path, text);
    assert [create, write] == [create] + ([write] + []);
    SimulateCons(env, files, create, [write] + []);
    var f1 := Effect(env, files, create).1;
    SimulateCons(env, f1, write, []);
    assert "" + Kept(env, write) == Kept(env, write);
  }

  /** Proof helper: the mount plan of one more group is the plan so far plus that group's operations. */
  lemma {:induction false} MountPlanSnoc(config: ClientConfig, groups: seq<MountGroup>)
    requires groups != []
    ensures var last := groups[|groups| - 1];
            var path := MountFile(config, last.mountpoint);
            MountPlan(config, groups)
              == MountPlan(config, groups[..|groups| - 1]) + [Create(path), Write(path, Render(last.mounts, FormatMount))]
  {
  }

  /** No two groups are written to the same file. */
  predicate MountFilesDistinct(config: ClientConfig, groups: seq<MountGroup>) {
    forall i, j :: 0 <= i < j < |groups| ==>
      MountFile(config, groups[i].mountpoint) != MountFile(config, groups[j].mountpoint)
  }

  /** The mount phase, run without failure: every group's file holds the
      group's rendered mounts, with the mode the file had before (it is written
      in place) or the mode of a new file. */
  lemma {:induction false} MountPlanEffect(env: Env, files: Files, config: ClientConfig, groups: seq<MountGroup>)
    requires NoLostWrites(env)
    requires MountFilesDistinct(config, groups)
    requires Simulate(env, files, MountPlan(config, groups)).outcome.Ok?
    ensures var result := Simulate(env, files, MountPlan(config, groups)).files;
            forall i :: 0 <= i < |groups| ==>
              var path := MountFile(config, groups[i].mountpoint);
              path in result
              && result[path] == File(Render(groups[i].mounts, FormatMount),
                                      if path in files then files[path].mode else env.createMode)
  {
    if groups != [] {
      var init := groups[..|groups| - 1];
      var last := groups[|groups| - 1];
      var path := MountFile(config, last.mountpoint);
      var text := Render(last.mounts, FormatMount);
      MountPlanSnoc(config, groups);
      SimulateAppend(env, files, MountPlan(config, init), [Create(path), Write(path, text)]);
      assert MountFilesDistinct(config, init) by {
        forall i, j | 0 <= i < j < |init|
          ensures MountFile(config, init[i].mountpoint) != MountFile(config, init[j].mountpoint)
        {
          assert init[i] == groups[i] && init[j] == groups[j];
        }
      }
      MountPlanEffect(env, files, config, init);
      var before := Simulate(env, files, MountPlan(config, init)).files;
      CreateWriteEffect(env, before, path, text);
      assert forall i :: 0 <= i < |init| ==> MountFile(config, init[i].mountpoint) != path by {
        forall i | 0 <= i < |init| ensures MountFile(config, init[i].mountpoint) != path {
          assert init[i] == groups[i];
        }
      }
      MountPlanTouches(config, init, path);
      SimulateUntouched(env, files, MountPlan(config, init), path);
      forall i | 0 <= i < |groups| - 1
        ensures MountFile(config, groups[i].mountpoint) != path && init[i] == groups[i]
      {
      }
    }
  }

  /** A run that fails before the renames changes nothing but the temporary
      files: in particular the live record files and the mount files are as
      they were. */
  lemma {:induction false} FailedStagingKeepsLiveFiles(env: Env, files: Files, config: ClientConfig, state: State)
    requires !Simulate(env, files, Removals(config) + TempWrites(config, state)).outcome.Ok?
    ensures var p, g, s := LivePath(config, "passwd"), LivePath(config, "group"), LivePath(config, "shadow");
            var result := Simulate(env, files, StatePlan(config, state)).files;
            forall q :: q !in {TempPath(p), TempPath(g), TempPath(s)} ==>
              (q in result <==> q in files) && (q in files ==> result[q] == files[q])
  {
    var staging := Removals(config) + TempWrites(config, state);
    var rest := Renames(config) + MountPlan(config, GroupByMountpoint(state.mounts));
    assert StatePlan(config, state) == staging + rest;
    SimulateStops(env, files, staging, rest);
    forall q | q !in {TempPath(LivePath(config, "passwd")), TempPath(LivePath(config, "group")),
                      TempPath(LivePath(config, "shadow"))}
      ensures var result := Simulate(env, files, staging).files;
              (q in result <==> q in files) && (q in files ==> result[q] == files[q])
    {
      SimulateUntouched(env, files, staging, q);
    }
  }

  /** Staging without failure: the three temporary files hold the rendered
      records and every other path is as it was. */
  lemma {:induction false} StagingEffect(env: Env, files: Files, config: ClientConfig, state: State)
    requires NoLostWrites(env)
    requires Simulate(env, files, Removals(config) + TempWrites(config, state)).outcome.Ok?
    ensures var p, g, s := LivePath(config, "passwd"), LivePath(config, "group"), LivePath(config, "shadow");
            var staged := Simulate(env, files, Removals(config) + TempWrites(config, state)).files;
            && TempPath(p) in staged && staged[TempPath(p)] == PasswdFile(state)
            && TempPath(g) in staged && staged[TempPath(g)] == GroupFile(state)
            && TempPath(s) in staged && staged[TempPath(s)] == ShadowFile(state)
            && forall q :: q !in {TempPath(p), TempPath(g), TempPath(s)} ==>
                 (q in staged <==> q in files) && (q in files ==> staged[q] == files[q])
  {
    SimulateAppend(env, files, Removals(config), TempWrites(config, state));
    var removed := Simulate(env, files, Removals(config));
    SimulateRemovals(env, files, Removals(config));
    RemovalsEffect(env, files, config);
    TempWritesEffect(env, removed.files, config, state);
    RecordPathsDistinct(config);
  }

  /** The renames when the first goes through and the second fails. */
  lemma {:induction false} SecondRenameFails(env: Env, staged: Files, config: ClientConfig)
    requires TempPath(LivePath(config, "passwd")) in staged
    requires Rename(TempPath(LivePath(config, "passwd")), LivePath(config, "passwd")) !in env.faults
    requires Rename(TempPath(LivePath(config, "group")), LivePath(config, "group")) in env.faults
    ensures var tp := TempPath(LivePath(config, "passwd"));
            Simulate(env, staged, Renames(config))
              == Applied(Err(Io), (staged - {tp})[LivePath(config, "passwd") := staged[tp]])
  {
    var renames := Renames(config);
    var moved := Effect(env, staged, renames[0]).1;
    assert Simulate(env, staged, renames) == Simulate(env, moved, renames[1..]);
    assert renames[1..][0] == renames[1];
  }

  /** The files are not replaced as one unit: when the group rename fails
      after the passwd rename went through, the new passwd file stands next to
      the old group file and the run fails. */
  lemma {:induction false} GroupRenameFailureMixes(env: Env, files: Files, config: ClientConfig, state: State)
    requires NoLostWrites(env)
    requires Simulate(env, files, Removals(config) + TempWrites(config, state)).outcome.Ok?
    requires Rename(TempPath(LivePath(config, "passwd")), LivePath(config, "passwd")) !in env.faults
    requires Rename(TempPath(LivePath(config, "group")), LivePath(config, "group")) in env.faults
    ensures var p, g := LivePath(config, "passwd"), LivePath(config, "group");
            var result := Simulate(env, files, StatePlan(config, state));
            && result.outcome == Err(Io)
            && p in result.files && result.files[p] == PasswdFile(state)
            && (g in result.files <==> g in files) && (g in files ==> result.files[g] == files[g])
  {
    var p, g := LivePath(config, "passwd"), LivePath(config, "group");
    var pre := Removals(config) + TempWrites(config, state);
    var staged := Simulate(env, files, pre).files;
    StagingEffect(env, files, config, state);
    RecordPathsDistinct(config);
    SecondRenameFails(env, staged, config);
    SimulateAppend(env, files, pre, Renames(config));
    SimulateStops(env, files, pre + Renames(config), MountPlan(config, GroupByMountpoint(state.mounts)));
  }

  /** A relative name whose components are all proper names: none is empty
      (no leading, doubled or trailing `/`), `.` or `..`.  Two such names below
      one directory are the same file only when they are the same string (or a
      symbolic link joins them). */
  predicate PlainName(name: string) {
    var parts := Split(name, '/');
    forall i :: 0 <= i < |parts| ==> parts[i] != "" && parts[i] != "." && parts[i] != ".."
  }

  /** What `write_state` needs of the mount points to keep its files apart:
      each mount file's name is plain, no mount file is a record file, and
      different mount points name different files.  Paths are compared as
      strings, which the plain names make sound up to symbolic links. */
  predicate MountFilesApart(config: ClientConfig, mounts: seq<Mount>) {
    && (forall m :: m in mounts ==> PlainName(config.mountpointPrefix.GetOr("") + m.mountpoint))
    && (forall m :: m in mounts ==> MountFile(config, m.mountpoint) !in RecordPaths(config))
    && (forall m, n :: m in mounts && n in mounts && m.mountpoint != n.mountpoint ==>
          MountFile(config, m.mountpoint) != MountFile(config, n.mountpoint))
  }

  /** The groups of a state whose mount files are apart: each group's file is
      its own and is not a record file, and each holds the state's mounts for
      that mount point. */
  lemma {:induction false} GroupFilesApart(config: ClientConfig, mounts: seq<Mount>)
    requires MountFilesApart(config, mounts)
    ensures var groups := GroupByMountpoint(mounts);
            && MountFilesDistinct(config, groups)
            && (forall i :: 0 <= i < |groups| ==>
                  MountFile(config, groups[i].mountpoint) !in RecordPaths(config)
                  && groups[i].mounts == MountsAt(mounts, groups[i].mountpoint))
            && (forall m :: m in mounts ==> exists i :: 0 <= i < |groups| && groups[i].mountpoint == m.mountpoint)
  {
    var groups := GroupByMountpoint(mounts);
    GroupsPartitionMounts(mounts);
    GroupByMountpointSpec(mounts);
    forall i | 0 <= i < |groups|
      ensures exists m :: m in mounts && m.mountpoint == groups[i].mountpoint
    {
      assert groups[i].mountpoint in Keys(groups);
    }
    forall i, j | 0 <= i < j < |groups|
      ensures MountFile(config, groups[i].mountpoint) != MountFile(config, groups[j].mountpoint)
    {
      StrLessIrreflexive(groups[i].mountpoint);
      var m :| m in mounts && m.mountpoint == groups[i].mountpoint;
      var n :| n in mounts && n.mountpoint == groups[j].mountpoint;
    }
  }

  /** The record files as a successful `write_state` leaves them: each live
      file holds its rendered records, readable by its owner only, and the
      temporary files are gone. */
  predicate RecordFilesInstalled(config: ClientConfig, state: State, files: Files) {
    var p, g, s := LivePath(config, "passwd"), LivePath(config, "group"), LivePath(config, "shadow");
    && p in files && files[p] == PasswdFile(state)
    && g in files && files[g] == GroupFile(state)
    && s in files && files[s] == ShadowFile(state)
    && TempPath(p) !in files && TempPath(g) !in files && TempPath(s) !in files
  }

  /** The mount files as a successful `write_state` leaves them, starting from
      `before`: each mount point's file holds exactly the state's mounts for
      it, in order, with the mode it had or the mode of a new file. */
  predicate MountFilesWritten(env: Env, config: ClientConfig, state: State, before: Files, files: Files) {
    forall m :: m in state.mounts ==>
      var path := MountFile(config, m.mountpoint);
      path in files
      && files[path] == File(Render(MountsAt(state.mounts, m.mountpoint), FormatMount),
                             if path in before then before[path].mode else env.createMode)
  }

  /** The record phases, run without failure, install the record files and
      change no other path. */
  lemma {:induction false} RecordPhaseInstalls(env: Env, files: Files, config: ClientConfig, state: State)
    requires NoLostWrites(env)
    requires Simulate(env, files, Removals(config) + TempWrites(config, state) + Renames(config)).outcome.Ok?
    ensures var installed := Simulate(env, files, Removals(config) + TempWrites(config, state) + Renames(config)).files;
            && RecordFilesInstalled(config, state, installed)
            && forall q :: q !in RecordPaths(config) ==>
                 (q in installed <==> q in files) && (q in files ==> installed[q] == files[q])
  {
    RecordPhaseEffect(env, files, config, state);
    RecordPathsDistinct(config);
  }

  /** The mount phase leaves the record files alone. */
  lemma {:induction false} MountPhaseKeepsRecordFiles(env: Env, files: Files, config: ClientConfig, state: State)
    requires RecordFilesInstalled(config, state, files)
    requires MountFilesApart(config, state.mounts)
    ensures RecordFilesInstalled(config, state,
                                 Simulate(env, files, MountPlan(config, GroupByMountpoint(state.mounts))).files)
  {
    var groups := GroupByMountpoint(state.mounts);
    GroupFilesApart(config, state.mounts);
    forall q | q in RecordPaths(config)
      ensures var result := Simulate(env, files, MountPlan(config, groups)).files;
              (q in result <==> q in files) && (q in files ==> result[q] == files[q])
    {
      MountPlanTouches(config, groups, q);
      SimulateUntouched(env, files, MountPlan(config, groups), q);
    }
  }

  /** The mount phase, run without failure after the record files were
      installed, writes every mount point's file. */
  lemma {:induction false} MountPhaseWrites(env: Env, files: Files, installed: Files, config: ClientConfig, state: State)
    requires NoLostWrites(env)
    requires MountFilesApart(config, state.mounts)
    requires forall q :: q !in RecordPaths(config) ==>
               (q in installed <==> q in files) && (q in files ==> installed[q] == files[q])
    requires Simulate(env, installed, MountPlan(config, GroupByMountpoint(state.mounts))).outcome.Ok?
    ensures MountFilesWritten(env, config, state, files,
                              Simulate(env, installed, MountPlan(config, GroupByMountpoint(state.mounts))).files)
  {
    var groups := GroupByMountpoint(state.mounts);
    GroupFilesApart(config, state.mounts);
    MountPlanEffect(env, installed, config, groups);
    forall m | m in state.mounts
      ensures var path := MountFile(config, m.mountpoint);
              var result := Simulate(env, installed, MountPlan(config, groups)).files;
              path in result
              && result[path] == File(Render(MountsAt(state.mounts, m.mountpoint), FormatMount),
                                      if path in files then files[path].mode else env.createMode)
    {
      var i :| 0 <= i < |groups| && groups[i].mountpoint == m.mountpoint;
    }
  }

  /** `write_state` run to the end without failure, on a state whose mount
      files are apart: the record files are installed and every mount file is
      written. */
  lemma {:induction false} StateWritten(env: Env, files: Files, config: ClientConfig, state: State)
    requires NoLostWrites(env)
    requires Simulate(env, files, StatePlan(config, state)).outcome.Ok?
    requires MountFilesApart(config, state.mounts)
    ensures var result := Simulate(env, files, StatePlan(config, state)).files;
            RecordFilesInstalled(config, state, result) && MountFilesWritten(env, config, state, files, result)
  {
    var records := Removals(config) + TempWrites(config, state) + Renames(config);
    SimulateAppend(env, files, records, MountPlan(config, GroupByMountpoint(state.mounts)));
    RecordPhaseInstalls(env, files, config, state);
    var installed := Simulate(env, files, records).files;
    MountPhaseKeepsRecordFiles(env, installed, config, state);
    MountPhaseWrites(env, files, installed, config, state);
  }

  // ---------------------------------------------------------------------------
  // `start_client` and the polling loop of `main`

  /** What the client gets back for its `CheckState`: a failure to connect or
      to write ends the poll with an I/O error, otherwise `read_frame` on what
      the server sent. */
  function Reply(cipher: Cipher, json: Json, server: Option<Stream>): (r: Outcome<Option<Frame>>)
    ensures r != Ok(None)
  {
    match server
    case None => Err(Io)
    case Some(stream) =>
      if !stream.acceptsWrites then Err(Io) else Receive(cipher, json, stream.incoming).result
  }

  /** The bytes written for the `CheckState` of a poll. */
  function CheckStateBytes(cipher: Cipher, json: Json, server: Option<Stream>, id: StateId, nonce: Nonce): Bytes {
    if server.Some? && server.value.acceptsWrites then EncodeFrame(cipher, json, nonce, CheckState(id)) else []
  }

  /** One poll: its outcome, the remembered version and the files afterwards. */
  datatype Polled = Polled(outcome: Outcome<()>, stateId: StateId, files: Files)

  /** The reply handling of `start_client`: `NoChanges` changes nothing, a new
      state is adopted and then written, `None` and `CheckState` panic, and a
      failed read leaves everything as it was. */
  function PollStep(config: ClientConfig, env: Env, files: Files, id: StateId,
                    reply: Outcome<Option<Frame>>): Polled
  {
    match reply
    case Err(e) => Polled(Err(e), id, files)
    case Panic(a) => Polled(Panic(a), id, files)
    case Ok(None) => Polled(Panic(InvalidFrame), id, files)
    case Ok(Some(frame)) =>
      match frame
      case CheckState(_) => Polled(Panic(InvalidFrame), id, files)
      case NoChanges => Polled(Ok(()), id, files)
      case NewState(v, state) =>
        var a := Simulate(env, files, StatePlan(config, state));
        Polled(a.outcome, v, a.files)
  }

  /** A new state is adopted before it is written: the remembered version is
      the new one whether or not the files could be written. */
  lemma {:induction false} PollAdoptsNewState(config: ClientConfig, env: Env, files: Files, id: StateId, v: StateId, state: State)
    ensures var p := PollStep(config, env, files, id, Ok(Some(NewState(v, state))));
            var a := Simulate(env, files, StatePlan(config, state));
            && p.stateId == v && p.files == a.files && p.outcome == a.outcome
            && (p.outcome.Ok? && MountFilesApart(config, state.mounts) && NoLostWrites(env) ==>
                  RecordFilesInstalled(config, state, p.files) && MountFilesWritten(env, config, state, files, p.files))
  {
    if Simulate(env, files, StatePlan(config, state)).outcome.Ok? && MountFilesApart(config, state.mounts)
       && NoLostWrites(env) {
      StateWritten(env, files, config, state);
    }
  }

  /** Only a `NewState` reply changes the remembered version or the files, and
      the version it leaves is the one the reply carried. */
  lemma {:induction false} PollChangesOnlyOnNewState(config: ClientConfig, env: Env, files: Files, id: StateId,
                                  reply: Outcome<Option<Frame>>)
    ensures var p := PollStep(config, env, files, id, reply);
            (p.stateId != id || p.files != files) ==>
              reply.Ok? && reply.value.Some? && reply.value.value.NewState?
              && p.stateId == reply.value.value.id
  {
  }

  /** `NoChanges` is a successful poll that changes nothing. */
  lemma {:induction false} PollNoChanges(config: ClientConfig, env: Env, files: Files, id: StateId)
    ensures PollStep(config, env, files, id, Ok(Some(NoChanges))) == Polled(Ok(()), id, files)
  {
  }

  /** The client panics exactly on a reply that does not open, on a
      `CheckState` reply and on a missing frame; a panic changes nothing. */
  lemma {:induction false} PollPanics(config: ClientConfig, env: Env, files: Files, id: StateId, reply: Outcome<Option<Frame>>)
    ensures var p := PollStep(config, env, files, id, reply);
            && (p.outcome.Panic? <==>
                  reply.Panic? || reply == Ok(None) || (reply.Ok? && reply.value.Some? && reply.value.value.CheckState?))
            && (p.outcome.Panic? ==> p.stateId == id && p.files == files)
  {
  }

  /** What one turn of the loop of `main` meets: the server as reached (or
      not), and the nonce drawn for the `CheckState`. */
  datatype Round = Round(server: Option<Stream>, nonce: Nonce)

  /** The loop of `main` over a number of turns: errors are logged and the
      loop goes on, a panic ends the process. */
  datatype Session = Session(stateId: StateId, files: Files, aborted: Option<Abort>)

  function Polls(config: ClientConfig, cipher: Cipher, json: Json, env: Env, files: Files, id: StateId,
                 rounds: seq<Round>): Session
    decreases |rounds|
  {
    if rounds == [] then Session(id, files, None)
    else
      var p := PollStep(config, env, files, id, Reply(cipher, json, rounds[0].server));
      if p.outcome.Panic? then Session(p.stateId, p.files, Some(p.outcome.abort))
      else Polls(config, cipher, json, env, p.files, p.stateId, rounds[1..])
  }

  /** The server of a round offers version `v`. */
  predicate Offers(cipher: Cipher, json: Json, round: Round, v: StateId) {
    var reply := Reply(cipher, json, round.server);
    reply.Ok? && reply.value.Some? && reply.value.value.NewState? && reply.value.value.id == v
  }

  /** The version the client ends with is the one it started with or one that
      a server offered it. */
  lemma {:induction false} PollsVersion(config: ClientConfig, cipher: Cipher, json: Json, env: Env,
                                        files: Files, id: StateId, rounds: seq<Round>)
    ensures var v := Polls(config, cipher, json, env, files, id, rounds).stateId;
            v == id || exists i :: 0 <= i < |rounds| && Offers(cipher, json, rounds[i], v)
    decreases |rounds|
  {
    if rounds != [] {
      var reply := Reply(cipher, json, rounds[0].server);
      var p := PollStep(config, env, files, id, reply);
      PollChangesOnlyOnNewState(config, env, files, id, reply);
      if !p.outcome.Panic? {
        PollsVersion(config, cipher, json, env, p.files, p.stateId, rounds[1..]);
        var v := Polls(config, cipher, json, env, files, id, rounds).stateId;
        if v != p.stateId {
          var i :| 0 <= i < |rounds[1..]| && Offers(cipher, json, rounds[1..][i], v);
          assert rounds[i + 1] == rounds[1..][i];
        }
      }
    }
  }

  /** The client of `main`: the remembered version, starting at 0, and what it
      needs to poll. */
  class Client {
    const config: ClientConfig
    const cipher: Cipher
    const json: Json
    const fs: FileSystem
    var stateId: StateId

    constructor (config: ClientConfig, cipher: Cipher, json: Json, fs: FileSystem)
      ensures this.config == config && this.cipher == cipher && this.json == json && this.fs == fs
      ensures stateId == 0
    {
      this.config := config;
      this.cipher := cipher;
      this.json := json;
      this.fs := fs;
      stateId := 0;
    }

    /** `start_client`, with the server reached after the backoff (or not) and
        the nonce drawn for the `CheckState` as parameters; `sent` is what was
        written to the server. */
    method StartClient(server: Option<Stream>, nonce: Nonce) returns (r: Outcome<()>, sent: Bytes)
      modifies this`stateId, fs`files
      ensures Polled(r, stateId, fs.files)
              == PollStep(config, fs.env, old(fs.files), old(stateId), Reply(cipher, json, server))
      ensures sent == CheckStateBytes(cipher, json, server, old(stateId), nonce)
    {
      if server.None? {
        return Err(Io), [];
      }
      var conn := new Connection(cipher, server.value);
      var written := conn.SendFrame(json, CheckState(stateId), nonce);
      sent := conn.outgoing;
      if !written.Ok? {
        return Err(Io), sent;
      }
      var frame := conn.ReadFrame(json);
      if frame.Err? {
        return Err(frame.error), sent;
      } else if frame.Panic? {
        return Panic(frame.abort), sent;
      }
      match frame.value {
        case None =>
          r := Panic(InvalidFrame);
        case Some(reply) =>
          match reply {
            case NewState(v, state) =>
              stateId := v;
              r := WriteState(fs, state, config);
            case NoChanges =>
              r := Ok(());
            case CheckState(_) =>
              r := Panic(InvalidFrame);
          }
      }
    }
  
    /** The loop of `main`, for as many turns as `rounds` has. */
    method Run(rounds: seq<Round>) returns (aborted: Option<Abort>)
      modifies this`stateId, fs`files
      ensures Session(stateId, fs.files, aborted)
              == Polls(config, cipher, json, fs.env, old(fs.files), old(stateId), rounds)
    {
      var i := 0;
      while i < |rounds|
        invariant i <= |rounds|
        invariant Polls(config, cipher, json, fs.env, fs.files, stateId, rounds[i..])
                  == Polls(config, cipher, json, fs.env, old(fs.files), old(stateId), rounds)
      {
        assert rounds[i..][0] == rounds[i] && rounds[i..][1..] == rounds[i + 1..];
        var r, _ := StartClient(rounds[i].server, rounds[i].nonce);
        if r.Panic? {
          return Some(r.abort);
        }
        i := i + 1;
      }
      aborted := None;
    }
  }
}
