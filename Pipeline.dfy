/**
  The fixed order of filesystem calls one write job makes, as data (a plan
  of steps), and the interpreter that runs a plan against the abstract
  filesystem: steps run in order, the first failure of a fatal step aborts
  the job, and an aborted job removes its temporary file and reports the
  error that aborted it.
*/
module Pipeline {
  import opened Base
  import opened FileSystem
  import opened Attributes

  /** One step of a job; the temporary file and the target come from the job, the descriptor from the step that opened it. */
  datatype Step =
    | OpenTmp(mode: Option<nat>)
    | WritePayload(bytes: Bytes)
    | FsyncFd
    | CloseFd
    | ChownTmp(owner: Owner)
    | ChmodTmp(perm: nat)
    | RenameTmp

  /** A planned step; a failure of a `fatal` step aborts the job, a failure of any other is ignored. */
  datatype Planned = Planned(step: Step, fatal: bool)

  /** The callback-driven writer and the synchronous one differ in how they close the descriptor. */
  datatype Variant = Async | Sync

  /** The temporary file a job writes and the path it finally renames it over. */
  datatype Job = Job(tmp: Path, target: Path)

  /** `Buffer`: written as it is; `Text`: encoded first; `Nothing`: `null` or `undefined`, nothing written. */
  datatype Payload = Buffer(bytes: Bytes) | Text(text: string) | Nothing

  /** The bytes a payload puts in the file, if any; text is encoded with `options.encoding || 'utf8'`. */
  function PayloadBytes(encode: (string, string) -> Bytes, data: Payload, o: Options): (r: Option<Bytes>)
    ensures r.None? <==> data.Nothing?
    ensures data.Buffer? ==> r == Some(data.bytes)
    ensures data.Text? ==> r == Some(encode(data.text, Encoding(o)))
  {
    match data
    case Buffer(b) => Some(b)
    case Text(s) => Some(encode(s, Encoding(o)))
    case Nothing => None
  }

  function PayloadSteps(bytes: Option<Bytes>): seq<Planned> {
    if bytes.Some? then [Planned(WritePayload(bytes.value), true)] else []
  }

  /**
    The callback writer flushes and then closes only when fsync is enabled,
    and ignores the result of close; the synchronous writer flushes when
    enabled and always closes, and a failing close aborts it.
  */
  function FlushSteps(v: Variant, o: Options): (r: seq<Planned>)
    ensures Planned(FsyncFd, true) in r <==> FsyncEnabled(o)
    ensures v == Sync ==> r != [] && r[|r| - 1] == Planned(CloseFd, true)
    ensures v == Async ==> (Planned(CloseFd, false) in r <==> FsyncEnabled(o)) && Planned(CloseFd, true) !in r
  {
    match v
    case Async => if FsyncEnabled(o) then [Planned(FsyncFd, true), Planned(CloseFd, false)] else []
    case Sync => (if FsyncEnabled(o) then [Planned(FsyncFd, true)] else []) + [Planned(CloseFd, true)]
  }

  function ChownSteps(o: Options): seq<Planned> {
    if ChownSet(o) then [Planned(ChownTmp(o.chown.value), true)] else []
  }

  function ChmodSteps(o: Options): seq<Planned> {
    if ModeSet(o) then [Planned(ChmodTmp(o.mode.value), true)] else []
  }

  predicate RenameOnlyLast(p: seq<Planned>) {
    forall i :: 0 <= i < |p| - 1 ==> p[i].step != RenameTmp
  }

  /** Open temp, write payload, flush (and close), chown, chmod, rename over the target. */
  function Plan(v: Variant, o: Options, bytes: Option<Bytes>): (p: seq<Planned>)
    ensures |p| >= 2 && p[0] == Planned(OpenTmp(o.mode), true) && p[|p| - 1] == Planned(RenameTmp, true)
  {
    [Planned(OpenTmp(o.mode), true)]
      + (PayloadSteps(bytes) + (FlushSteps(v, o) + (ChownSteps(o) + (ChmodSteps(o) + [Planned(RenameTmp, true)]))))
  }

  /** Where a step sits in the fixed order open, write, fsync, close, chown, chmod, rename. */
  function Rank(s: Step): nat {
    match s
    case OpenTmp(_) => 0
    case WritePayload(_) => 1
    case FsyncFd => 2
    case CloseFd => 3
    case ChownTmp(_) => 4
    case ChmodTmp(_) => 5
    case RenameTmp => 6
  }

  /** Every step comes strictly later in the fixed order than the ones before it. */
  predicate Ascending(p: seq<Planned>) {
    forall i, j :: 0 <= i < j < |p| ==> Rank(p[i].step) < Rank(p[j].step)
  }

  predicate RanksIn(p: seq<Planned>, lo: nat, hi: nat) {
    forall i :: 0 <= i < |p| ==> lo <= Rank(p[i].step) < hi
  }

  lemma Chain(a: seq<Planned>, b: seq<Planned>, lo: nat, mid: nat, hi: nat)
    requires lo <= mid <= hi
    requires Ascending(a) && RanksIn(a, lo, mid)
    requires Ascending(b) && RanksIn(b, mid, hi)
    ensures Ascending(a + b) && RanksIn(a + b, lo, hi)
  {
    forall i, j | 0 <= i < j < |a + b|
      ensures Rank((a + b)[i].step) < Rank((a + b)[j].step)
    {
      if j >= |a| {
        assert (a + b)[j] == b[j - |a|];
        if i >= |a| {
          assert (a + b)[i] == b[i - |a|];
        }
      }
    }
    forall i | 0 <= i < |a + b|
      ensures lo <= Rank((a + b)[i].step) < hi
    {
      if i >= |a| {
        assert (a + b)[i] == b[i - |a|];
      }
    }
  }

  /** A segment of at most one step is ordered, within that step's rank. */
  lemma Short(s: seq<Planned>, r: nat)
    requires |s| <= 1 && (s != [] ==> Rank(s[0].step) == r)
    ensures Ascending(s) && RanksIn(s, r, r + 1)
  {
  }

  /** The flush segment is fsync then close, ranks 2 and 3. */
  lemma FlushOrdered(v: Variant, o: Options)
    ensures Ascending(FlushSteps(v, o)) && RanksIn(FlushSteps(v, o), 2, 4)
  {
    var sync := [Planned(FsyncFd, true)];
    var close := [Planned(CloseFd, v == Sync)];
    if v == Sync || FsyncEnabled(o) {
      Short(close, 3);
      if FsyncEnabled(o) {
        Short(sync, 2);
        Chain(sync, close, 2, 3, 4);
        assert FlushSteps(v, o) == sync + close;
      } else {
        assert FlushSteps(v, o) == [] + close;
      }
    }
  }

  /**
    The steps of every plan follow the fixed order open, write, fsync,
    close, chown, chmod, rename, each at most once.
  */
  lemma {:induction false} PlanIsOrdered(v: Variant, o: Options, bytes: Option<Bytes>)
    ensures Ascending(Plan(v, o, bytes))
  {
    var open := [Planned(OpenTmp(o.mode), true)];
    var rename := [Planned(RenameTmp, true)];
    Short(open, 0);
    Short(PayloadSteps(bytes), 1);
    FlushOrdered(v, o);
    Short(ChownSteps(o), 4);
    Short(ChmodSteps(o), 5);
    Short(rename, 6);
    var t1 := ChmodSteps(o) + rename;
    Chain(ChmodSteps(o), rename, 5, 6, 7);
    var t2 := ChownSteps(o) + t1;
    Chain(ChownSteps(o), t1, 4, 5, 7);
    var t3 := FlushSteps(v, o) + t2;
    Chain(FlushSteps(v, o), t2, 2, 4, 7);
    var t4 := PayloadSteps(bytes) + t3;
    Chain(PayloadSteps(bytes), t3, 1, 2, 7);
    Chain(open, t4, 0, 1, 7);
  }

  /** A plan starts with the open and ends with the rename over the target, which appears nowhere else. */
  lemma PlanShape(v: Variant, o: Options, bytes: Option<Bytes>)
    ensures var p := Plan(v, o, bytes);
      && |p| >= 2 && p[0] == Planned(OpenTmp(o.mode), true) && p[|p| - 1] == Planned(RenameTmp, true)
      && RenameOnlyLast(p)
  {
    var p := Plan(v, o, bytes);
    PlanIsOrdered(v, o, bytes);
    var tail := ChownSteps(o) + (ChmodSteps(o) + [Planned(RenameTmp, true)]);
    assert p == ([Planned(OpenTmp(o.mode), true)] + (PayloadSteps(bytes) + FlushSteps(v, o))) + tail;
    assert p[|p| - 1] == Planned(RenameTmp, true);
    assert forall i :: 0 <= i < |p| - 1 ==> Rank(p[i].step) < Rank(p[|p| - 1].step);
  }

  /** A plan fsyncs exactly when fsync is enabled, and writes exactly when there is a payload, those bytes. */
  lemma PlanContents(v: Variant, o: Options, bytes: Option<Bytes>)
    ensures var p := Plan(v, o, bytes);
      && (FsyncEnabled(o) ==> Planned(FsyncFd, true) in p)
      && (!FsyncEnabled(o) ==> forall i :: 0 <= i < |p| ==> p[i].step != FsyncFd)
      && (bytes.Some? ==> Planned(WritePayload(bytes.value), true) in p)
      && (bytes.None? ==> forall i :: 0 <= i < |p| ==> !p[i].step.WritePayload?)
  {
    var p := Plan(v, o, bytes);
    var tail := ChownSteps(o) + (ChmodSteps(o) + [Planned(RenameTmp, true)]);
    var flush := FlushSteps(v, o);
    var head := [Planned(OpenTmp(o.mode), true)] + PayloadSteps(bytes);
    assert p == head + (flush + tail);
    assert forall x :: x in tail ==> !x.step.FsyncFd? && !x.step.WritePayload?;
    assert forall x :: x in flush ==> !x.step.WritePayload?;
    assert forall x :: x in head ==> !x.step.FsyncFd?;
    assert forall x :: x in p ==> x in head || x in flush || x in tail;
  }

  /**
    How each writer closes: the synchronous plan always closes and a
    failing close aborts it; the callback plan closes only when fsync is
    enabled (right after the flush, by the fixed order) and a failing close
    does not abort it.
  */
  lemma ClosePolicy(v: Variant, o: Options, bytes: Option<Bytes>)
    ensures var p := Plan(v, o, bytes);
      && (v == Sync ==> Planned(CloseFd, true) in p && Planned(CloseFd, false) !in p)
      && (v == Async ==> Planned(CloseFd, true) !in p)
      && (v == Async ==> (Planned(CloseFd, false) in p <==> FsyncEnabled(o)))
  {
    var rename := [Planned(RenameTmp, true)];
    var tail := ChownSteps(o) + (ChmodSteps(o) + rename);
    assert forall b :: Planned(CloseFd, b) !in tail;
    assert forall b :: Planned(CloseFd, b) !in [Planned(OpenTmp(o.mode), true)] + PayloadSteps(bytes);
    assert Plan(v, o, bytes) == ([Planned(OpenTmp(o.mode), true)] + PayloadSteps(bytes)) + (FlushSteps(v, o) + tail);
  }

  predicate NeedsFd(s: Step) {
    s.WritePayload? || s.FsyncFd? || s.CloseFd?
  }

  function CallFor(job: Job, fd: Fd, s: Step): Syscall {
    match s
    case OpenTmp(m) => Open(job.tmp, m)
    case WritePayload(b) => Write(fd, b)
    case FsyncFd => Fsync(fd)
    case CloseFd => Close(fd)
    case ChownTmp(o) => Chown(job.tmp, o)
    case ChmodTmp(m) => Chmod(job.tmp, m)
    case RenameTmp => Rename(job.tmp, job.target)
  }

  /** The descriptor the job holds, if it is still open, is the temporary file's. */
  predicate FdOnTmp(fs: Fs, job: Job, fd: Option<Fd>) {
    fd.Some? && fd.value in fs.fds ==> fs.fds[fd.value] == job.tmp
  }

  datatype Stepped = Stepped(reply: Reply, fs: Fs, fd: Option<Fd>)

  /** Run one step; a step that needs a descriptor when none was opened fails without a call. */
  function Perform(host: Host, fs: Fs, job: Job, fd: Option<Fd>, s: Step): (r: Stepped)
    ensures r.fs.log == fs.log || r.fs.log == fs.log + [CallFor(job, fd.GetOr(0), s)]
    ensures r.reply.Failed? ==> r.fs.files == fs.files && r.fs.fds == fs.fds
    ensures FdOnTmp(fs, job, fd) ==> FdOnTmp(r.fs, job, r.fd)
  {
    if NeedsFd(s) && fd.None? then Stepped(Failed(EBADF), fs, fd)
    else
      var a := Apply(host, fs, CallFor(job, fd.GetOr(0), s));
      Stepped(a.reply, a.fs, if s.OpenTmp? then (if a.reply.Opened? then Some(a.reply.fd) else None) else fd)
  }

  /** While the job's descriptor is on the temporary file, a step changes only the temporary file's entry, and the target's only when it is the rename. */
  lemma PerformFrame(host: Host, fs: Fs, job: Job, fd: Option<Fd>, s: Step)
    requires FdOnTmp(fs, job, fd)
    ensures var r := Perform(host, fs, job, fd, s);
      forall p :: p != job.tmp && (p != job.target || s != RenameTmp) ==> Lookup(r.fs.files, p) == Lookup(fs.files, p)
  {
    if !(NeedsFd(s) && fd.None?) {
      ApplyFrame(host, fs, CallFor(job, fd.GetOr(0), s));
    }
  }

  datatype Run = Run(error: Option<Errno>, fs: Fs, fd: Option<Fd>)

  /** Run the steps in order up to the first failing fatal step. */
  function RunSteps(host: Host, fs: Fs, job: Job, fd: Option<Fd>, plan: seq<Planned>): (r: Run)
    ensures fs.log <= r.fs.log
    ensures FdOnTmp(fs, job, fd) ==> FdOnTmp(r.fs, job, r.fd)
    decreases |plan|
  {
    if plan == [] then Run(None, fs, fd)
    else
      var s := Perform(host, fs, job, fd, plan[0].step);
      if s.reply.Failed? && plan[0].fatal then Run(Some(s.reply.errno), s.fs, s.fd)
      else RunSteps(host, s.fs, job, s.fd, plan[1..])
  }

  /** A run changes no path but the temporary file and the target. */
  lemma {:induction false} RunFrame(host: Host, fs: Fs, job: Job, fd: Option<Fd>, plan: seq<Planned>)
    requires FdOnTmp(fs, job, fd)
    ensures var r := RunSteps(host, fs, job, fd, plan);
      forall p :: p != job.tmp && p != job.target ==> Lookup(r.fs.files, p) == Lookup(fs.files, p)
    decreases |plan|
  {
    if plan != [] {
      var s := Perform(host, fs, job, fd, plan[0].step);
      PerformFrame(host, fs, job, fd, plan[0].step);
      if !(s.reply.Failed? && plan[0].fatal) {
        RunFrame(host, s.fs, job, s.fd, plan[1..]);
      }
    }
  }

  /** How a job ended (`None` is success) and the filesystem it left. */
  datatype Completion = Completion(error: Option<Errno>, fs: Fs)

  /**
    Run a plan from no open descriptor; on failure try to unlink the
    temporary file, whatever that unlink answers, and report the error that
    aborted the plan.
  */
  function Execute(host: Host, fs: Fs, job: Job, plan: seq<Planned>): (c: Completion)
    ensures c.error == RunSteps(host, fs, job, None, plan).error
    ensures c.error.Some? ==> |c.fs.log| > 0 && c.fs.log[|c.fs.log| - 1] == Unlink(job.tmp)
    ensures c.error.None? ==> c.fs == RunSteps(host, fs, job, None, plan).fs
  {
    Settle(host, job, RunSteps(host, fs, job, None, plan))
  }

  /** The end of a run: success keeps its filesystem; a failure is followed by the unlink of the temporary file, whose answer is dropped. */
  function Settle(host: Host, job: Job, r: Run): (c: Completion)
    ensures c.error == r.error
    ensures r.error.None? ==> c.fs == r.fs
    ensures r.error.Some? ==> c.fs.log == r.fs.log + [Unlink(job.tmp)]
    ensures r.error.Some? && host.faults(|r.fs.log|).None? ==> job.tmp !in c.fs.files
  {
    if r.error.None? then Completion(None, r.fs)
    else Completion(r.error, Apply(host, r.fs, Unlink(job.tmp)).fs)
  }

  /** Steps other than the rename never change the target's entry, so a run that stops before a successful rename leaves it as it was. */
  lemma {:induction false} TargetUntouchedUntilRename(host: Host, fs: Fs, job: Job, fd: Option<Fd>, plan: seq<Planned>)
    requires job.tmp != job.target
    requires FdOnTmp(fs, job, fd)
    requires RenameOnlyLast(plan)
    ensures var r := RunSteps(host, fs, job, fd, plan);
      r.error.Some? ==> Lookup(r.fs.files, job.target) == Lookup(fs.files, job.target)
    decreases |plan|
  {
    if plan != [] {
      var s := Perform(host, fs, job, fd, plan[0].step);
      PerformFrame(host, fs, job, fd, plan[0].step);
      if s.reply.Failed? && plan[0].fatal {
      } else if plan[0].step == RenameTmp {
        assert |plan| == 1;
        assert plan[1..] == [];
      } else {
        assert RenameOnlyLast(plan[1..]) by {
          forall i | 0 <= i < |plan[1..]| - 1 ensures plan[1..][i].step != RenameTmp {
            assert plan[1..][i] == plan[i + 1];
          }
        }
        TargetUntouchedUntilRename(host, s.fs, job, s.fd, plan[1..]);
      }
    }
  }

  /**
    Atomicity: when a job fails at any step, every path except its
    temporary file (the target included) has exactly the entry it had
    before: the same content, mode and owner, or still absent.
  */
  lemma FailureLeavesAllButTmp(host: Host, fs: Fs, job: Job, plan: seq<Planned>)
    requires job.tmp != job.target
    requires RenameOnlyLast(plan)
    ensures var c := Execute(host, fs, job, plan);
      c.error.Some? ==> forall p :: p != job.tmp ==> Lookup(c.fs.files, p) == Lookup(fs.files, p)
  {
    TargetUntouchedUntilRename(host, fs, job, None, plan);
    RunFrame(host, fs, job, None, plan);
    var r := RunSteps(host, fs, job, None, plan);
    ApplyFrame(host, r.fs, Unlink(job.tmp));
  }

  /**
    The rollback: when a job fails and its cleanup unlink is not itself
    faulted, the temporary file is gone and every other path has exactly
    its old entry, so the filesystem's files are as before the job, but for
    a temporary file that existed before it.
  */
  lemma FailureCleansUp(host: Host, fs: Fs, job: Job, plan: seq<Planned>)
    requires job.tmp != job.target
    requires RenameOnlyLast(plan)
    ensures var r := RunSteps(host, fs, job, None, plan);
      var c := Execute(host, fs, job, plan);
      c.error.Some? && host.faults(|r.fs.log|).None? ==>
        forall p :: Lookup(c.fs.files, p) == if p == job.tmp then None else Lookup(fs.files, p)
  {
    FailureLeavesAllButTmp(host, fs, job, plan);
  }

  /** A run depends on the fault oracle only at the positions of the calls it makes: faults after its last call do not change it. */
  lemma {:induction false} LaterFaultsDoNotMatter(host: Host, faults: nat -> Option<Errno>, fs: Fs, job: Job, fd: Option<Fd>, plan: seq<Planned>)
    requires forall n: nat :: n < |RunSteps(host, fs, job, fd, plan).fs.log| ==> faults(n) == host.faults(n)
    ensures RunSteps(host.(faults := faults), fs, job, fd, plan) == RunSteps(host, fs, job, fd, plan)
    decreases |plan|
  {
    if plan != [] {
      var s := Perform(host, fs, job, fd, plan[0].step);
      var s' := Perform(host.(faults := faults), fs, job, fd, plan[0].step);
      assert s.fs.log == fs.log || faults(|fs.log|) == host.faults(|fs.log|) by {
        if s.fs.log != fs.log {
          assert |fs.log| < |s.fs.log| <= |RunSteps(host, fs, job, fd, plan).fs.log|;
        }
      }
      assert s' == s;
      if !(s.reply.Failed? && plan[0].fatal) {
        LaterFaultsDoNotMatter(host, faults, s.fs, job, s.fd, plan[1..]);
      }
    }
  }

  /** Whatever the cleanup unlink answers, a failed job reports the same error and leaves the same entries for every path but the temporary file. */
  lemma CleanupErrorIsSwallowed(host: Host, unlinkFault: Option<Errno>, fs: Fs, job: Job, plan: seq<Planned>)
    ensures var i := |RunSteps(host, fs, job, None, plan).fs.log|;
      var host' := host.(faults := (n: nat) => if n == i then unlinkFault else host.faults(n));
      Execute(host', fs, job, plan).error == Execute(host, fs, job, plan).error
  {
    var i := |RunSteps(host, fs, job, None, plan).fs.log|;
    var faults := (n: nat) => if n == i then unlinkFault else host.faults(n);
    LaterFaultsDoNotMatter(host, faults, fs, job, None, plan);
  }

  /**
    The error a failed job reports is the failure of its first failing
    fatal step: when the steps before `p` ran through and the oracle faults
    `p`'s call, the job reports that fault, whatever comes after.
  */
  lemma FaultIsReported(host: Host, fs: Fs, job: Job, pre: seq<Planned>, p: Planned, post: seq<Planned>, e: Errno)
    requires p.fatal
    requires var r := RunSteps(host, fs, job, None, pre);
      && r.error.None?
      && (NeedsFd(p.step) ==> r.fd.Some?)
      && host.faults(|r.fs.log|) == Some(e)
    ensures Execute(host, fs, job, pre + [p] + post).error == Some(e)
  {
    var r := RunSteps(host, fs, job, None, pre);
    assert pre + [p] + post == pre + ([p] + post);
    RunAppend(host, fs, job, None, pre, [p] + post);
    RunCons(host, r.fs, job, r.fd, p, post);
  }

  /** In particular, a job whose open is faulted reports that fault. */
  lemma OpenFaultIsReported(host: Host, fs: Fs, job: Job, v: Variant, o: Options, bytes: Option<Bytes>, e: Errno)
    requires host.faults(|fs.log|) == Some(e)
    ensures Execute(host, fs, job, Plan(v, o, bytes)).error == Some(e)
  {
    var plan := Plan(v, o, bytes);
    assert plan == [] + [plan[0]] + plan[1..];
    FaultIsReported(host, fs, job, [], plan[0], plan[1..], e);
  }

  /** Running a plan that starts with `p`: perform it, stop if it is a failing fatal step, go on otherwise. */
  lemma RunCons(host: Host, fs: Fs, job: Job, fd: Option<Fd>, p: Planned, rest: seq<Planned>)
    ensures RunSteps(host, fs, job, fd, [p] + rest) ==
      var s := Perform(host, fs, job, fd, p.step);
      if s.reply.Failed? && p.fatal then Run(Some(s.reply.errno), s.fs, s.fd)
      else RunSteps(host, s.fs, job, s.fd, rest)
  {
    assert ([p] + rest)[0] == p && ([p] + rest)[1..] == rest;
  }

  /** Running two plans back to back is running the first and, unless it aborted, the second from where it stopped. */
  lemma {:induction false} RunAppend(host: Host, fs: Fs, job: Job, fd: Option<Fd>, a: seq<Planned>, b: seq<Planned>)
    ensures RunSteps(host, fs, job, fd, a + b) ==
      var r := RunSteps(host, fs, job, fd, a);
      if r.error.Some? then r else RunSteps(host, r.fs, job, r.fd, b)
    decreases |a|
  {
    if a == [] {
      assert a + b == b;
    } else {
      assert (a + b)[0] == a[0];
      assert (a + b)[1..] == a[1..] + b;
      var s := Perform(host, fs, job, fd, a[0].step);
      if !(s.reply.Failed? && a[0].fatal) {
        RunAppend(host, s.fs, job, s.fd, a[1..], b);
      }
    }
  }

  /** The temporary file exists and descriptor `d` is open on it. */
  predicate Holding(fs: Fs, job: Job, d: Fd) {
    job.tmp in fs.files && d in fs.fds && fs.fds[d] == job.tmp
  }

  /** A successful open leaves an empty temporary file open on the next descriptor; a new file gets the requested mode under the umask and the process's owner. */
  lemma OpenSegment(host: Host, fs: Fs, job: Job, m: Option<nat>)
    ensures var r := RunSteps(host, fs, job, None, [Planned(OpenTmp(m), true)]);
      r.error.None? ==>
        && r.fd == Some(fs.nextFd) && Holding(r.fs, job, fs.nextFd) && r.fs.files[job.tmp].data == []
        && (job.tmp !in fs.files ==>
              r.fs.files[job.tmp].mode == host.umask(m.GetOr(DefaultOpenMode)) && r.fs.files[job.tmp].owner == host.owner)
  {
    assert [Planned(OpenTmp(m), true)][1..] == [];
  }

  /** After the payload step the temporary file holds exactly the payload bytes, or stays empty when there is none. */
  lemma PayloadSegment(host: Host, fs: Fs, job: Job, d: Fd, bytes: Option<Bytes>)
    requires Holding(fs, job, d) && fs.files[job.tmp].data == []
    ensures var r := RunSteps(host, fs, job, Some(d), PayloadSteps(bytes));
      r.error.None? ==>
        && r.fd == Some(d) && Holding(r.fs, job, d)
        && r.fs.files[job.tmp].data == bytes.GetOr([])
        && r.fs.files[job.tmp].mode == fs.files[job.tmp].mode
        && r.fs.files[job.tmp].owner == fs.files[job.tmp].owner
  {
    if bytes.Some? {
      assert PayloadSteps(bytes)[1..] == [];
    }
  }

  /** After the flush steps the bytes are unchanged, flushed when fsync is enabled; the synchronous writer has closed the descriptor, the callback writer without fsync has not. */
  lemma FlushSegment(host: Host, fs: Fs, job: Job, d: Fd, v: Variant, o: Options)
    requires Holding(fs, job, d)
    ensures var r := RunSteps(host, fs, job, Some(d), FlushSteps(v, o));
      r.error.None? ==>
        && r.fd == Some(d) && job.tmp in r.fs.files
        && r.fs.files[job.tmp].data == fs.files[job.tmp].data
        && r.fs.files[job.tmp].mode == fs.files[job.tmp].mode
        && r.fs.files[job.tmp].owner == fs.files[job.tmp].owner
        && (FsyncEnabled(o) ==> r.fs.files[job.tmp].flushed)
        && (v == Sync ==> d !in r.fs.fds)
        && (v == Async && !FsyncEnabled(o) ==> r.fs.fds == fs.fds)
  {
    var sync := Planned(FsyncFd, true);
    if v == Async {
      if FsyncEnabled(o) {
        var close := Planned(CloseFd, false);
        assert FlushSteps(v, o) == [sync] + [close];
        RunAppend(host, fs, job, Some(d), [sync], [close]);
        assert [sync][1..] == [] && [close][1..] == [];
      }
    } else {
      var close := Planned(CloseFd, true);
      assert [close][1..] == [];
      if FsyncEnabled(o) {
        assert FlushSteps(v, o) == [sync] + [close];
        RunAppend(host, fs, job, Some(d), [sync], [close]);
        assert [sync][1..] == [];
      } else {
        assert FlushSteps(v, o) == [close];
      }
    }
  }

  /** The chown step gives the temporary file the requested owner and changes nothing else. */
  lemma ChownSegment(host: Host, fs: Fs, job: Job, fd: Option<Fd>, o: Options)
    requires job.tmp in fs.files
    ensures var r := RunSteps(host, fs, job, fd, ChownSteps(o));
      r.error.None? ==>
        && r.fd == fd && r.fs.fds == fs.fds && job.tmp in r.fs.files
        && r.fs.files[job.tmp].data == fs.files[job.tmp].data
        && r.fs.files[job.tmp].flushed == fs.files[job.tmp].flushed
        && r.fs.files[job.tmp].mode == fs.files[job.tmp].mode
        && r.fs.files[job.tmp].owner == if ChownSet(o) then o.chown.value else fs.files[job.tmp].owner
  {
    if ChownSet(o) {
      assert ChownSteps(o)[1..] == [];
    }
  }

  /** The chmod step gives the temporary file the requested mode and changes nothing else. */
  lemma ChmodSegment(host: Host, fs: Fs, job: Job, fd: Option<Fd>, o: Options)
    requires job.tmp in fs.files
    ensures var r := RunSteps(host, fs, job, fd, ChmodSteps(o));
      r.error.None? ==>
        && r.fd == fd && r.fs.fds == fs.fds && job.tmp in r.fs.files
        && r.fs.files[job.tmp].data == fs.files[job.tmp].data
        && r.fs.files[job.tmp].flushed == fs.files[job.tmp].flushed
        && r.fs.files[job.tmp].owner == fs.files[job.tmp].owner
        && r.fs.files[job.tmp].mode == if ModeSet(o) then o.mode.value else fs.files[job.tmp].mode
  {
    if ModeSet(o) {
      assert ChmodSteps(o)[1..] == [];
    }
  }

  /** A successful rename moves the temporary file's entry over the target's. */
  lemma RenameSegment(host: Host, fs: Fs, job: Job, fd: Option<Fd>)
    requires job.tmp != job.target
    ensures var r := RunSteps(host, fs, job, fd, [Planned(RenameTmp, true)]);
      r.error.None? ==>
        && job.tmp in fs.files && r.fs.fds == fs.fds
        && r.fs.files == (fs.files - {job.tmp})[job.target := fs.files[job.tmp]]
  {
    assert [Planned(RenameTmp, true)][1..] == [];
  }

  /** After open, write and flush the temporary file holds the payload, flushed when enabled, on the descriptor the open returned. */
  lemma HeadSegment(host: Host, fs: Fs, job: Job, v: Variant, o: Options, bytes: Option<Bytes>)
    ensures var r := RunSteps(host, fs, job, None, [Planned(OpenTmp(o.mode), true)] + (PayloadSteps(bytes) + FlushSteps(v, o)));
      r.error.None? ==>
        && r.fd == Some(fs.nextFd) && job.tmp in r.fs.files
        && r.fs.files[job.tmp].data == bytes.GetOr([])
        && (FsyncEnabled(o) ==> r.fs.files[job.tmp].flushed)
        && (job.tmp !in fs.files ==> r.fs.files[job.tmp].mode == host.umask(o.mode.GetOr(DefaultOpenMode)))
        && (job.tmp !in fs.files ==> r.fs.files[job.tmp].owner == host.owner)
        && (v == Sync ==> fs.nextFd !in r.fs.fds)
        && (v == Async && !FsyncEnabled(o) ==> fs.nextFd in r.fs.fds && r.fs.fds[fs.nextFd] == job.tmp)
  {
    var open := [Planned(OpenTmp(o.mode), true)];
    RunAppend(host, fs, job, None, open, PayloadSteps(bytes) + FlushSteps(v, o));
    var r0 := RunSteps(host, fs, job, None, open);
    if r0.error.None? {
      OpenSegment(host, fs, job, o.mode);
      var d := fs.nextFd;
      RunAppend(host, r0.fs, job, r0.fd, PayloadSteps(bytes), FlushSteps(v, o));
      var r1 := RunSteps(host, r0.fs, job, r0.fd, PayloadSteps(bytes));
      if r1.error.None? {
        PayloadSegment(host, r0.fs, job, d, bytes);
        FlushSegment(host, r1.fs, job, d, v, o);
      }
    }
  }

  /** After chown, chmod and rename the target holds the temporary file's bytes with the requested owner and mode, and the temporary name is gone. */
  lemma TailSegment(host: Host, fs: Fs, job: Job, fd: Option<Fd>, o: Options)
    requires job.tmp != job.target && job.tmp in fs.files
    ensures var r := RunSteps(host, fs, job, fd, ChownSteps(o) + (ChmodSteps(o) + [Planned(RenameTmp, true)]));
      r.error.None? ==>
        && job.tmp !in r.fs.files && job.target in r.fs.files && r.fs.fds == fs.fds
        && r.fs.files[job.target].data == fs.files[job.tmp].data
        && r.fs.files[job.target].flushed == fs.files[job.tmp].flushed
        && r.fs.files[job.target].mode == (if ModeSet(o) then o.mode.value else fs.files[job.tmp].mode)
        && r.fs.files[job.target].owner == (if ChownSet(o) then o.chown.value else fs.files[job.tmp].owner)
  {
    var rename := [Planned(RenameTmp, true)];
    RunAppend(host, fs, job, fd, ChownSteps(o), ChmodSteps(o) + rename);
    var r3 := RunSteps(host, fs, job, fd, ChownSteps(o));
    if r3.error.None? {
      ChownSegment(host, fs, job, fd, o);
      RunAppend(host, r3.fs, job, r3.fd, ChmodSteps(o), rename);
      var r4 := RunSteps(host, r3.fs, job, r3.fd, ChmodSteps(o));
      if r4.error.None? {
        ChmodSegment(host, r3.fs, job, r3.fd, o);
        RenameSegment(host, r4.fs, job, r4.fd);
      }
    }
  }

  /** A successful run of a plan is its head segment followed by its tail segment, both successful. */
  lemma SplitSuccess(host: Host, fs: Fs, job: Job, v: Variant, o: Options, bytes: Option<Bytes>)
    ensures var head := [Planned(OpenTmp(o.mode), true)] + (PayloadSteps(bytes) + FlushSteps(v, o));
      var tail := ChownSteps(o) + (ChmodSteps(o) + [Planned(RenameTmp, true)]);
      var r := RunSteps(host, fs, job, None, head);
      var c := Execute(host, fs, job, Plan(v, o, bytes));
      c.error.None? ==>
        r.error.None? && RunSteps(host, r.fs, job, r.fd, tail).error.None? && c.fs == RunSteps(host, r.fs, job, r.fd, tail).fs
  {
    var head := [Planned(OpenTmp(o.mode), true)] + (PayloadSteps(bytes) + FlushSteps(v, o));
    var tail := ChownSteps(o) + (ChmodSteps(o) + [Planned(RenameTmp, true)]);
    assert Plan(v, o, bytes) == head + tail;
    RunAppend(host, fs, job, None, head, tail);
  }

  /**
    Publication: when a job succeeds the temporary file is gone and the
    target holds exactly the payload bytes (none for an absent payload),
    flushed to storage when fsync is enabled, with the requested mode and
    owner.
  */
  lemma SuccessPublishes(host: Host, fs: Fs, job: Job, v: Variant, o: Options, bytes: Option<Bytes>)
    requires job.tmp != job.target
    ensures var c := Execute(host, fs, job, Plan(v, o, bytes));
      c.error.None? ==>
        && job.tmp !in c.fs.files && job.target in c.fs.files
        && c.fs.files[job.target].data == bytes.GetOr([])
        && (FsyncEnabled(o) ==> c.fs.files[job.target].flushed)
        && (ModeSet(o) ==> c.fs.files[job.target].mode == o.mode.value)
        && (ChownSet(o) ==> c.fs.files[job.target].owner == o.chown.value)
  {
    SplitSuccess(host, fs, job, v, o, bytes);
    var r := RunSteps(host, fs, job, None, [Planned(OpenTmp(o.mode), true)] + (PayloadSteps(bytes) + FlushSteps(v, o)));
    if r.error.None? {
      HeadSegment(host, fs, job, v, o, bytes);
      TailSegment(host, r.fs, job, r.fd, o);
    }
  }

  /**
    When the temporary name was free, a successful job whose mode or owner
    was not given leaves the target with the mode `open` created it with
    (the requested or default mode under the umask) or the process's owner.
  */
  lemma SuccessDefaults(host: Host, fs: Fs, job: Job, v: Variant, o: Options, bytes: Option<Bytes>)
    requires job.tmp != job.target && job.tmp !in fs.files
    ensures var c := Execute(host, fs, job, Plan(v, o, bytes));
      c.error.None? ==>
        && job.target in c.fs.files
        && (!ModeSet(o) ==> c.fs.files[job.target].mode == host.umask(o.mode.GetOr(DefaultOpenMode)))
        && (!ChownSet(o) ==> c.fs.files[job.target].owner == host.owner)
  {
    SplitSuccess(host, fs, job, v, o, bytes);
    var r := RunSteps(host, fs, job, None, [Planned(OpenTmp(o.mode), true)] + (PayloadSteps(bytes) + FlushSteps(v, o)));
    if r.error.None? {
      HeadSegment(host, fs, job, v, o, bytes);
      TailSegment(host, r.fs, job, r.fd, o);
    }
  }

  /**
    The descriptor a successful job opened (the next free one): the
    synchronous writer has closed it, the callback writer without fsync
    still holds it open on the temporary name.
  */
  lemma SuccessDescriptor(host: Host, fs: Fs, job: Job, v: Variant, o: Options, bytes: Option<Bytes>)
    requires job.tmp != job.target
    ensures var c := Execute(host, fs, job, Plan(v, o, bytes));
      c.error.None? ==>
        && (v == Sync ==> fs.nextFd !in c.fs.fds)
        && (v == Async && !FsyncEnabled(o) ==> fs.nextFd in c.fs.fds && c.fs.fds[fs.nextFd] == job.tmp)
  {
    SplitSuccess(host, fs, job, v, o, bytes);
    var r := RunSteps(host, fs, job, None, [Planned(OpenTmp(o.mode), true)] + (PayloadSteps(bytes) + FlushSteps(v, o)));
    if r.error.None? {
      HeadSegment(host, fs, job, v, o, bytes);
      TailSegment(host, r.fs, job, r.fd, o);
    }
  }
}
