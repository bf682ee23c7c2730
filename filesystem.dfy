/** The part of the file system the client touches, as a map from paths to
    files.  Which operations fail is decided by the environment: an operation
    in `faults` fails, and so does one whose path is missing. */
module Filesystem {
  import opened Outcomes

  type Path = string

  /** Permission bits. */
  type Mode = nat

  /** `S_IRUSR`, owner-read-only. */
  const OWNER_READ: Mode := 0x100

  datatype File = File(content: string, mode: Mode)

  type Files = map<Path, File>

  /** The operations `write_state` performs: `remove_file`, `File::create`,
      `fchmod`, a write of a whole rendered file, and `rename`. */
  datatype FsOp =
    | Remove(path: Path)
    | Create(path: Path)
    | Chmod(path: Path, mode: Mode)
    | Write(path: Path, data: string)
    | Rename(path: Path, to: Path)

  /** The environment: the operations that fail, the mode (after the umask) a
      newly created file gets, and the writes that lose their tail.  The client
      writes through a `BufWriter` that is dropped without a flush, and the drop
      ignores the error of its last write: a write in `lostTails` reports
      success but only its first `lostTails[op]` characters reach the file. */
  datatype Env = Env(faults: set<FsOp>, createMode: Mode, lostTails: map<FsOp, nat>)

  /** What a write leaves in the file. */
  function Kept(env: Env, op: FsOp): (kept: string)
    requires op.Write?
    ensures kept <= op.data
    ensures op !in env.lostTails ==> kept == op.data
  {
    if op in env.lostTails && env.lostTails[op] < |op.data| then op.data[..env.lostTails[op]] else op.data
  }

  /** No write loses its tail. */
  predicate NoLostWrites(env: Env) {
    env.lostTails == map[]
  }

  predicate Touches(op: FsOp, p: Path) {
    op.path == p || (op.Rename? && op.to == p)
  }

  /** One operation: its outcome, and the files afterwards (unchanged when it
      fails). */
  function Effect(env: Env, files: Files, op: FsOp): (r: (Outcome<()>, Files))
    ensures !r.0.Ok? ==> r == (Err(Io), files)
  {
    if op in env.faults then (Err(Io), files)
    else
      match op
      case Remove(p) =>
        if p in files then (Ok(()), files - {p}) else (Err(Io), files)
      case Create(p) =>
        // truncates an existing file and keeps its mode
        var f := if p in files then files[p].(content := "") else File("", env.createMode);
        (Ok(()), files[p := f])
      case Chmod(p, m) =>
        if p in files then (Ok(()), files[p := files[p].(mode := m)]) else (Err(Io), files)
      case Write(p, data) =>
        if p in files then (Ok(()), files[p := files[p].(content := files[p].content + Kept(env, op))])
        else (Err(Io), files)
      case Rename(a, b) =>
        if a in files then (Ok(()), (files - {a})[b := files[a]]) else (Err(Io), files)
  }

  /** An operation leaves the paths it does not name as they were. */
  lemma {:induction false} EffectUntouched(env: Env, files: Files, op: FsOp, q: Path)
    requires !Touches(op, q)
    ensures var files' := Effect(env, files, op).1;
            (q in files' <==> q in files) && (q in files ==> files'[q] == files[q])
  {
  }

  /** Running a sequence of operations as `write_state` does: the failure of a
      removal is ignored, any other failure ends the run. */
  datatype Applied = Applied(outcome: Outcome<()>, files: Files)

  function Simulate(env: Env, files: Files, ops: seq<FsOp>): (a: Applied)
    ensures a.outcome == Ok(()) || a.outcome == Err(Io)
    decreases |ops|
  {
    if ops == [] then Applied(Ok(()), files)
    else
      var (r, files') := Effect(env, files, ops[0]);
      if r.Ok? || ops[0].Remove? then Simulate(env, files', ops[1..])
      else Applied(r, files)
  }

  /** Removals alone never end a run. */
  lemma {:induction false} SimulateRemovals(env: Env, files: Files, ops: seq<FsOp>)
    requires forall i :: 0 <= i < |ops| ==> ops[i].Remove?
    ensures Simulate(env, files, ops).outcome == Ok(())
    decreases |ops|
  {
    if ops != [] {
      SimulateRemovals(env, Effect(env, files, ops[0]).1, ops[1..]);
    }
  }

  /** A run that fails stops at an operation that is not a removal and fails,
      after a prefix that ran; the files are those the prefix left. */
  lemma {:induction false} SimulateFailsAt(env: Env, files: Files, ops: seq<FsOp>)
    requires !Simulate(env, files, ops).outcome.Ok?
    ensures exists k :: 0 <= k < |ops| && !ops[k].Remove?
              && var before := Simulate(env, files, ops[..k]);
                 before.outcome.Ok? && !Effect(env, before.files, ops[k]).0.Ok?
                 && Simulate(env, files, ops).files == before.files
    decreases |ops|
  {
    var (r, files') := Effect(env, files, ops[0]);
    if r.Ok? || ops[0].Remove? {
      var rest := ops[1..];
      SimulateFailsAt(env, files', rest);
      var k :| 0 <= k < |rest| && !rest[k].Remove?
               && var before := Simulate(env, files', rest[..k]);
                  before.outcome.Ok? && !Effect(env, before.files, rest[k]).0.Ok?
                  && Simulate(env, files', rest).files == before.files;
      assert ops[..k + 1] == [ops[0]] + rest[..k];
      assert ops[..k + 1][0] == ops[0] && ops[..k + 1][1..] == rest[..k];
      assert ops[k + 1] == rest[k];
    } else {
      assert ops[..0] == [];
    }
  }

  /** Running two sequences one after the other. */
  lemma {:induction false} SimulateAppend(env: Env, files: Files, a: seq<FsOp>, b: seq<FsOp>)
    ensures var first := Simulate(env, files, a);
            var second := Simulate(env, first.files, b);
            Simulate(env, files, a + b) == if first.outcome.Ok? then second else first
    decreases |a|
  {
    if a != [] {
      assert (a + b)[0] == a[0] && (a + b)[1..] == a[1..] + b;
      var (r, files') := Effect(env, files, a[0]);
      if r.Ok? || a[0].Remove? {
        SimulateAppend(env, files', a[1..], b);
      }
    } else {
      assert a + b == b;
    }
  }

  /** Running an operation followed by others: the run gets past the first
      one when it succeeds or is a removal, and then goes on from its files. */
  lemma {:induction false} SimulateCons(env: Env, files: Files, op: FsOp, rest: seq<FsOp>)
    ensures var (r, files') := Effect(env, files, op);
            var a := Simulate(env, files, [op] + rest);
            && (a.outcome.Ok? <==> (r.Ok? || op.Remove?) && Simulate(env, files', rest).outcome.Ok?)
            && (a.outcome.Ok? ==> a.files == Simulate(env, files', rest).files)
  {
    assert ([op] + rest)[0] == op && ([op] + rest)[1..] == rest;
  }

  /** A run of three operations, none of which fails. */
  lemma {:induction false} SimulateThree(env: Env, files: Files, x: FsOp, y: FsOp, z: FsOp)
    requires !x.Remove? && !y.Remove? && !z.Remove?
    requires Simulate(env, files, [x, y, z]).outcome.Ok?
    ensures var (rx, fx) := Effect(env, files, x);
            var (ry, fy) := Effect(env, fx, y);
            var (rz, fz) := Effect(env, fy, z);
            rx.Ok? && ry.Ok? && rz.Ok? && Simulate(env, files, [x, y, z]).files == fz
  {
    assert [x, y, z] == [x] + ([y] + ([z] + []));
    SimulateCons(env, files, x, [y] + ([z] + []));
    var fx := Effect(env, files, x).1;
    SimulateCons(env, fx, y, [z] + []);
    var fy := Effect(env, fx, y).1;
    SimulateCons(env, fy, z, []);
  }

  /** A path that no operation names is left as it was. */
  lemma {:induction false} SimulateUntouched(env: Env, files: Files, ops: seq<FsOp>, p: Path)
    requires forall i :: 0 <= i < |ops| ==> !Touches(ops[i], p)
    ensures var a := Simulate(env, files, ops);
            (p in a.files <==> p in files) && (p in files ==> a.files[p] == files[p])
    decreases |ops|
  {
    if ops != [] {
      var (r, files') := Effect(env, files, ops[0]);
      EffectUntouched(env, files, ops[0], p);
      if r.Ok? || ops[0].Remove? {
        SimulateUntouched(env, files', ops[1..], p);
      }
    }
  }

  /** What has been run so far of a sequence: the first `k` operations all ran
      without a failure that ends the run, and left `files`. */
  ghost predicate Ran(env: Env, start: Files, ops: seq<FsOp>, k: nat, files: Files) {
    k <= |ops| && Simulate(env, start, ops[..k]).outcome.Ok? && Simulate(env, start, ops[..k]).files == files
  }

  /** Running one more operation of the sequence. */
  lemma {:induction false} RanStep(env: Env, start: Files, ops: seq<FsOp>, k: nat, files: Files)
    requires Ran(env, start, ops, k, files) && k < |ops|
    ensures ops[..k + 1] == ops[..k] + [ops[k]]
    ensures var (r, files') := Effect(env, files, ops[k]);
            if r.Ok? || ops[k].Remove? then Ran(env, start, ops, k + 1, files')
            else Simulate(env, start, ops).outcome == r && Simulate(env, start, ops).files == files
  {
    assert ops[..k + 1] == ops[..k] + [ops[k]];
    SimulateAppend(env, start, ops[..k], [ops[k]]);
    var (r, files') := Effect(env, files, ops[k]);
    if !(r.Ok? || ops[k].Remove?) {
      assert ops == ops[..k + 1] + ops[k + 1..];
      SimulateAppend(env, start, ops[..k + 1], ops[k + 1..]);
    }
  }

  /** Running a whole segment of the sequence. */
  lemma {:induction false} RanSegment(env: Env, start: Files, ops: seq<FsOp>, k: nat, seg: seq<FsOp>, files: Files)
    requires Ran(env, start, ops, k, files) && k + |seg| <= |ops| && ops[k..k + |seg|] == seg
    ensures ops[..k + |seg|] == ops[..k] + seg
    ensures var a := Simulate(env, files, seg);
            if a.outcome.Ok? then Ran(env, start, ops, k + |seg|, a.files)
            else Simulate(env, start, ops).outcome == a.outcome && Simulate(env, start, ops).files == a.files
  {
    assert ops[..k + |seg|] == ops[..k] + seg;
    SimulateAppend(env, start, ops[..k], seg);
    if !Simulate(env, files, seg).outcome.Ok? {
      assert ops == ops[..k + |seg|] + ops[k + |seg|..];
      SimulateAppend(env, start, ops[..k + |seg|], ops[k + |seg|..]);
    }
  }

  lemma {:induction false} RanAll(env: Env, start: Files, ops: seq<FsOp>, files: Files)
    requires Ran(env, start, ops, |ops|, files)
    ensures Simulate(env, start, ops).outcome == Ok(()) && Simulate(env, start, ops).files == files
  {
    assert ops[..|ops|] == ops;
  }

  /** Once a run has failed, what follows is not attempted. */
  lemma {:induction false} SimulateStops(env: Env, files: Files, done: seq<FsOp>, rest: seq<FsOp>)
    requires !Simulate(env, files, done).outcome.Ok?
    ensures Simulate(env, files, done + rest) == Simulate(env, files, done)
  {
    SimulateAppend(env, files, done, rest);
  }

  /** The file system. */
  class FileSystem {
    const env: Env
    var files: Files

    constructor (env: Env, files: Files)
      ensures this.env == env && this.files == files
    {
      this.env := env;
      this.files := files;
    }

    method Remove(p: Path) returns (r: Outcome<()>)
      modifies this`files
      ensures (r, files) == Effect(env, old(files), FsOp.Remove(p))
    {
      if FsOp.Remove(p) in env.faults || p !in files {
        return Err(Io);
      }
      files := files - {p};
      r := Ok(());
    }

    method Create(p: Path) returns (r: Outcome<()>)
      modifies this`files
      ensures (r, files) == Effect(env, old(files), FsOp.Create(p))
    {
      if FsOp.Create(p) in env.faults {
        return Err(Io);
      }
      if p in files {
        files := files[p := files[p].(content := "")];
      } else {
        files := files[p := File("", env.createMode)];
      }
      r := Ok(());
    }

    method Chmod(p: Path, m: Mode) returns (r: Outcome<()>)
      modifies this`files
      ensures (r, files) == Effect(env, old(files), FsOp.Chmod(p, m))
    {
      if FsOp.Chmod(p, m) in env.faults || p !in files {
        return Err(Io);
      }
      files := files[p := files[p].(mode := m)];
      r := Ok(());
    }

    method Write(p: Path, data: string) returns (r: Outcome<()>)
      modifies this`files
      ensures (r, files) == Effect(env, old(files), FsOp.Write(p, data))
    {
      if FsOp.Write(p, data) in env.faults || p !in files {
        return Err(Io);
      }
      files := files[p := files[p].(content := files[p].content + Kept(env, FsOp.Write(p, data)))];
      r := Ok(());
    }

    method Rename(a: Path, b: Path) returns (r: Outcome<()>)
      modifies this`files
      ensures (r, files) == Effect(env, old(files), FsOp.Rename(a, b))
    {
      if FsOp.Rename(a, b) in env.faults || a !in files {
        return Err(Io);
      }
      files := (files - {a})[b := files[a]];
      r := Ok(());
    }
  }
}
