/**
  The two entry points: the callback writer, which runs one job at a time
  per path through the queue, and the synchronous writer, which has no
  queue. Both resolve the real path (falling back to the given name), name
  a temporary file after it, decide mode and owner, and run the same step
  order; they differ only in how they close the descriptor.
*/
module WriteFileAtomic {
  import opened Base
  import opened FileSystem
  import opened Attributes
  import opened Pipeline
  import opened TempName
  import opened PathQueue

  /**
    What the model takes from the runtime: symlink resolution (`None` when
    it fails), making a path absolute, encoding text into bytes, and
    whether `process.getuid` exists.
  */
  datatype Platform = Platform(
    realpath: Path -> Option<Path>,
    resolve: Path -> Path,
    encode: (string, string) -> Bytes,
    hasGetuid: bool)

  /** The real path of the target, or the given name when resolution fails (as for a file that does not exist yet). */
  function RealPath(plat: Platform, filename: Path): (r: Path)
    ensures plat.realpath(filename).Some? ==> r == plat.realpath(filename).value
    ensures plat.realpath(filename).None? ==> r == filename
  {
    plat.realpath(filename).GetOr(filename)
  }

  /** Missing options mean `{}`. */
  function OptionsOrDefault(options: Option<Options>): Options {
    options.GetOr(NoOptions)
  }

  datatype Prepared = Prepared(options: Options, fs: Fs)

  /**
    The attribute step: stat the target only when mode or chown is not
    given; the lookup succeeds exactly when the call is not faulted and
    the target exists, and the options are resolved from its outcome. It
    changes no file or descriptor.
  */
  function StatStep(host: Host, fs: Fs, target: Path, o: Options, hasGetuid: bool): (r: Prepared)
    ensures r.fs.files == fs.files && r.fs.fds == fs.fds && r.fs.nextFd == fs.nextFd
    ensures !NeedsStat(o) ==> r == Prepared(o, fs)
    ensures r.options == Resolve(o,
      if NeedsStat(o) && host.faults(|fs.log|).None? && target in fs.files then Some(StatsOf(fs.files[target])) else None,
      hasGetuid)
  {
    if !NeedsStat(o) then Prepared(o, fs)
    else
      var a := Apply(host, fs, Stat(target));
      Prepared(Resolve(o, if a.reply.Statted? then Some(a.reply.stats) else None, hasGetuid), a.fs)
  }

  /** A whole job once its temporary name is fixed: the attribute step, then the plan for the resolved options. */
  function WriteJob(v: Variant, host: Host, plat: Platform, fs: Fs, job: Job, o: Options, data: Payload): (c: Completion)
    ensures c.error.Some? ==> |c.fs.log| > |fs.log| && c.fs.log[|c.fs.log| - 1] == Unlink(job.tmp)
  {
    var p := StatStep(host, fs, job.target, o, plat.hasGetuid);
    Execute(host, p.fs, job, Plan(v, p.options, PayloadBytes(plat.encode, data, p.options)))
  }

  /**
    Atomicity of a whole write: if it fails anywhere, every path except the
    temporary file (the target included) is exactly as before.
  */
  lemma WriteIsAtomic(v: Variant, host: Host, plat: Platform, fs: Fs, job: Job, o: Options, data: Payload)
    requires job.tmp != job.target
    ensures var c := WriteJob(v, host, plat, fs, job, o, data);
      c.error.Some? ==> forall p :: p != job.tmp ==> Lookup(c.fs.files, p) == Lookup(fs.files, p)
  {
    var p := StatStep(host, fs, job.target, o, plat.hasGetuid);
    PlanShape(v, p.options, PayloadBytes(plat.encode, data, p.options));
    FailureLeavesAllButTmp(host, p.fs, job, Plan(v, p.options, PayloadBytes(plat.encode, data, p.options)));
  }

  /**
    The rollback of a whole write: when it fails and its cleanup unlink
    (the last call) is not itself faulted, the temporary file is gone and
    every other path has exactly its old entry.
  */
  lemma WriteCleansUp(v: Variant, host: Host, plat: Platform, fs: Fs, job: Job, o: Options, data: Payload)
    requires job.tmp != job.target
    ensures var c := WriteJob(v, host, plat, fs, job, o, data);
      c.error.Some? && host.faults(|c.fs.log| - 1).None? ==>
        forall p :: Lookup(c.fs.files, p) == if p == job.tmp then None else Lookup(fs.files, p)
  {
    var p := StatStep(host, fs, job.target, o, plat.hasGetuid);
    var bytes := PayloadBytes(plat.encode, data, p.options);
    var plan := Plan(v, p.options, bytes);
    var c := Execute(host, p.fs, job, plan);
    assert WriteJob(v, host, plat, fs, job, o, data) == c;
    if c.error.Some? {
      assert |c.fs.log| - 1 == |RunSteps(host, p.fs, job, None, plan).fs.log|;
      PlanShape(v, p.options, bytes);
      FailureCleansUp(host, p.fs, job, plan);
    }
  }

  /**
    A successful write publishes the payload: the target holds exactly its
    bytes (none for `null`), flushed when fsync is enabled, with an explicit
    mode and owner applied; the temporary file is gone and every other path
    is untouched.
  */
  lemma WritePublishes(v: Variant, host: Host, plat: Platform, fs: Fs, job: Job, o: Options, data: Payload)
    requires job.tmp != job.target
    ensures var c := WriteJob(v, host, plat, fs, job, o, data);
      c.error.None? ==>
        && job.tmp !in c.fs.files && job.target in c.fs.files
        && c.fs.files[job.target].data == PayloadBytes(plat.encode, data, o).GetOr([])
        && (FsyncEnabled(o) ==> c.fs.files[job.target].flushed)
        && (ModeSet(o) ==> c.fs.files[job.target].mode == o.mode.value)
        && (ChownSet(o) ==> c.fs.files[job.target].owner == o.chown.value)
        && (forall p :: p != job.tmp && p != job.target ==> Lookup(c.fs.files, p) == Lookup(fs.files, p))
  {
    var p := StatStep(host, fs, job.target, o, plat.hasGetuid);
    var plan := Plan(v, p.options, PayloadBytes(plat.encode, data, p.options));
    SuccessPublishes(host, p.fs, job, v, p.options, PayloadBytes(plat.encode, data, p.options));
    RunFrame(host, p.fs, job, None, plan);
  }

  /**
    Inheritance: when mode or chown is not given and the lookup of an
    existing target succeeds, a successful write keeps the target's
    (non-zero) mode unless a mode was given, and, where user ids exist, its
    owner unless an owner was given; what was given is applied instead.
  */
  lemma WriteInheritsAttributes(v: Variant, host: Host, plat: Platform, fs: Fs, job: Job, o: Options, data: Payload)
    requires job.tmp != job.target
    requires NeedsStat(o)
    requires job.target in fs.files && host.faults(|fs.log|).None?
    ensures var c := WriteJob(v, host, plat, fs, job, o, data);
      c.error.None? ==>
        && job.target in c.fs.files
        && (!ModeSet(o) && fs.files[job.target].mode != 0 ==> c.fs.files[job.target].mode == fs.files[job.target].mode)
        && (ModeSet(o) ==> c.fs.files[job.target].mode == o.mode.value)
        && (!ChownSet(o) && plat.hasGetuid ==> c.fs.files[job.target].owner == fs.files[job.target].owner)
        && (ChownSet(o) ==> c.fs.files[job.target].owner == o.chown.value)
  {
    var p := StatStep(host, fs, job.target, o, plat.hasGetuid);
    SuccessPublishes(host, p.fs, job, v, p.options, PayloadBytes(plat.encode, data, p.options));
  }

  /**
    Creation: with neither mode nor chown given and neither the target nor
    the temporary name existing, a successful write leaves the target with
    the mode `open` gave it (the requested mode, by default 0o666, under the
    umask) and the process's owner.
  */
  lemma WriteCreatesWithDefaults(v: Variant, host: Host, plat: Platform, fs: Fs, job: Job, o: Options, data: Payload)
    requires job.tmp != job.target
    requires !ModeSet(o) && !ChownSet(o)
    requires job.target !in fs.files && job.tmp !in fs.files
    ensures var c := WriteJob(v, host, plat, fs, job, o, data);
      c.error.None? ==>
        && job.target in c.fs.files
        && c.fs.files[job.target].mode == host.umask(o.mode.GetOr(DefaultOpenMode))
        && c.fs.files[job.target].owner == host.owner
  {
    var p := StatStep(host, fs, job.target, o, plat.hasGetuid);
    assert p.options == o;
    SuccessDefaults(host, p.fs, job, v, p.options, PayloadBytes(plat.encode, data, p.options));
  }

  /**
    How each writer leaves the descriptor it opened (the next free one)
    after a successful write: the synchronous writer has closed it; the
    callback writer with fsync disabled never closes it.
  */
  lemma DescriptorOnSuccess(v: Variant, host: Host, plat: Platform, fs: Fs, job: Job, o: Options, data: Payload)
    requires job.tmp != job.target
    ensures var c := WriteJob(v, host, plat, fs, job, o, data);
      c.error.None? ==>
        && (v == Sync ==> fs.nextFd !in c.fs.fds)
        && (v == Async && !FsyncEnabled(o) ==> fs.nextFd in c.fs.fds)
  {
    var p := StatStep(host, fs, job.target, o, plat.hasGetuid);
    SuccessDescriptor(host, p.fs, job, v, p.options, PayloadBytes(plat.encode, data, p.options));
  }

  /**
    The synchronous writer. Resolve the real path, name the temporary
    file after it, fill in mode and owner from the existing file, then run
    the write steps.
  */
  method WriteFileSync(names: TempNames, host: Host, plat: Platform, fs0: Fs, filename: Path, data: Payload, options: Option<Options>)
    returns (c: Completion)
    requires names.Valid()
    modifies names`invocations, names`used
    ensures names.Valid() && names.invocations == old(names.invocations) + 1
    ensures var target := RealPath(plat, filename);
      var job := Job(TmpName(target, names.hash(names.pid, names.invocations)), target);
      && c == WriteJob(Sync, host, plat, fs0, job, OptionsOrDefault(options), data)
      && (c.error.Some? ==> forall p :: p != job.tmp ==> Lookup(c.fs.files, p) == Lookup(fs0.files, p))
  {
    var opts := if options.Some? then options.value else NoOptions;
    var target := filename;
    match plat.realpath(filename) {
      case Some(resolved) => target := resolved;
      case None =>
    }
    var tmpfile := names.GetTmpname(target);
    var fs;
    opts, fs := ReadAttributes(host, fs0, target, opts, plat.hasGetuid);
    c := SyncWriteSteps(host, plat.encode, fs, tmpfile, target, opts, data);
    WriteIsAtomic(Sync, host, plat, fs0, Job(tmpfile, target), OptionsOrDefault(options), data);
  }

  /**
    The attribute step as the writers run it: when mode or chown is not
    given, stat the target; if that fails, go on with the options as they
    are, otherwise fill in the mode when it is unset (or zero) and, where
    user ids exist, the owner when it is unset.
  */
  method ReadAttributes(host: Host, fs0: Fs, target: Path, o: Options, hasGetuid: bool) returns (opts: Options, fs: Fs)
    ensures Prepared(opts, fs) == StatStep(host, fs0, target, o, hasGetuid)
  {
    opts, fs := o, fs0;
    if !ModeSet(opts) || !ChownSet(opts) {
      var a := Apply(host, fs, Stat(target));
      fs := a.fs;
      if a.reply.Statted? {
        var stats := a.reply.stats;
        if !ModeSet(opts) {
          opts := opts.(mode := Some(stats.mode));
        }
        if !ChownSet(opts) && hasGetuid {
          opts := opts.(chown := Some(Owner(stats.uid, stats.gid)));
        }
      }
    }
  }

  /**
    The callback writer's first link: queue the job under the absolute
    name of the path as given (not its real path, which is not known yet)
    and say whether it starts at once, that is, whether no other job on
    that name is queued or running.
  */
  method SerializeSameFile(queue: FileQueue, plat: Platform, filename: Path, job: JobId) returns (startNow: bool)
    requires queue.Valid()
    modifies queue
    ensures queue.Valid()
    ensures queue.activeFiles == Push(old(queue.activeFiles), plat.resolve(filename), job)
    ensures startNow <==> plat.resolve(filename) !in old(queue.activeFiles)
    ensures queue.pushed == old(queue.pushed) + [Entry(plat.resolve(filename), job)] && queue.finished == old(queue.finished)
    ensures queue.started == if startNow then old(queue.started) + [Entry(plat.resolve(filename), job)] else old(queue.started)
  {
    var absoluteName := plat.resolve(filename);
    startNow := queue.Enqueue(absoluteName, job);
  }

  /**
    The callback writer once its job is at the head of its queue: resolve
    the real path (falling back to the name given), name the temporary file
    after it, read the attributes, run the write steps, and then, however
    the write ended, drop the job from the queue and start the next one.
  */
  method WriteQueued(queue: FileQueue, names: TempNames, host: Host, plat: Platform, fs0: Fs,
                     filename: Path, data: Payload, options: Option<Options>)
    returns (c: Completion, next: Option<JobId>)
    requires queue.Valid() && names.Valid()
    requires plat.resolve(filename) in queue.activeFiles
    modifies queue, names`invocations, names`used
    ensures names.Valid() && names.invocations == old(names.invocations) + 1
    ensures var target := RealPath(plat, filename);
      var job := Job(TmpName(target, names.hash(names.pid, names.invocations)), target);
      && c == WriteJob(Async, host, plat, fs0, job, OptionsOrDefault(options), data)
      && (c.error.Some? ==> forall p :: p != job.tmp ==> Lookup(c.fs.files, p) == Lookup(fs0.files, p))
    ensures var key := plat.resolve(filename);
      && queue.Valid()
      && queue.activeFiles == Shift(old(queue.activeFiles), key)
      && queue.pushed == old(queue.pushed)
      && queue.finished == old(queue.finished) + [Entry(key, old(queue.activeFiles)[key][0])]
      && queue.started == (if next.Some? then old(queue.started) + [Entry(key, next.value)] else old(queue.started))
      && (next.Some? <==> key in queue.activeFiles)
      && (next.Some? ==> next.value == queue.activeFiles[key][0])
  {
    var absoluteName := plat.resolve(filename);
    var opts := if options.Some? then options.value else NoOptions;
    var truename := filename;
    match plat.realpath(filename) {
      case Some(resolved) => truename := resolved;
      case None =>
    }
    var tmpfile := names.GetTmpname(truename);
    var fs;
    opts, fs := ReadAttributes(host, fs0, truename, opts, plat.hasGetuid);
    c := AsyncWriteSteps(host, plat.encode, fs, tmpfile, truename, opts, data);
    WriteIsAtomic(Async, host, plat, fs0, Job(tmpfile, truename), OptionsOrDefault(options), data);
    next := queue.Advance(absoluteName);
  }

  /**
    The synchronous writer's try block: open, write, flush when enabled,
    close; the first call that fails jumps to the cleanup, which unlinks
    the temporary file, ignores how that goes, and rethrows the failure.
  */
  method SyncWriteSteps(host: Host, encode: (string, string) -> Bytes, fs0: Fs, tmpfile: Path, target: Path, opts: Options, data: Payload)
    returns (c: Completion)
    ensures c == Execute(host, fs0, Job(tmpfile, target), Plan(Sync, opts, PayloadBytes(encode, data, opts)))
  {
    ghost var afterClose := ChownSteps(opts) + (ChmodSteps(opts) + [Planned(RenameTmp, true)]);
    var r := OpenAndWrite(host, encode, fs0, tmpfile, target, opts, data, FlushSteps(Sync, opts) + afterClose);
    if r.error.Some? {
      return Completion(r.error, Apply(host, r.fs, Unlink(tmpfile)).fs);
    }
    c := SyncCloseAndPublish(host, r.fs, tmpfile, target, r.fd.value, opts);
  }

  /**
    The rest of the synchronous try block once the payload is written:
    fsync unless `fsync` is `false`, always close (a failing close aborts),
    then chown, chmod and rename.
  */
  method SyncCloseAndPublish(host: Host, fs0: Fs, tmpfile: Path, target: Path, fd: Fd, opts: Options) returns (c: Completion)
    ensures c == Settle(host, Job(tmpfile, target), RunSteps(host, fs0, Job(tmpfile, target), Some(fd),
      FlushSteps(Sync, opts) + (ChownSteps(opts) + (ChmodSteps(opts) + [Planned(RenameTmp, true)]))))
  {
    ghost var job := Job(tmpfile, target);
    ghost var afterClose := ChownSteps(opts) + (ChmodSteps(opts) + [Planned(RenameTmp, true)]);
    ghost var afterFsync := [Planned(CloseFd, true)] + afterClose;
    ghost var whole := RunSteps(host, fs0, job, Some(fd), FlushSteps(Sync, opts) + afterClose);
    var fs := fs0;

    if FsyncEnabled(opts) {
      var a := Apply(host, fs, Fsync(fd));
      assert FlushSteps(Sync, opts) + afterClose == [Planned(FsyncFd, true)] + afterFsync;
      RunCons(host, fs, job, Some(fd), Planned(FsyncFd, true), afterFsync);
      if a.reply.Failed? {
        return Completion(Some(a.reply.errno), Apply(host, a.fs, Unlink(tmpfile)).fs);
      }
      fs := a.fs;
    } else {
      assert FlushSteps(Sync, opts) == [Planned(CloseFd, true)];
    }
    assert whole == RunSteps(host, fs, job, Some(fd), afterFsync);

    var a := Apply(host, fs, Close(fd));
    RunCons(host, fs, job, Some(fd), Planned(CloseFd, true), afterClose);
    if a.reply.Failed? {
      return Completion(Some(a.reply.errno), Apply(host, a.fs, Unlink(tmpfile)).fs);
    }
    c := PublishSteps(host, a.fs, tmpfile, target, fd, opts);
  }


  /**
    The callback writer's chain from the open on: open, write, then, only
    when fsync is enabled, flush and close, where the close's outcome is
    not looked at; a rejected step skips to the cleanup.
  */
  method AsyncWriteSteps(host: Host, encode: (string, string) -> Bytes, fs0: Fs, tmpfile: Path, target: Path, opts: Options, data: Payload)
    returns (c: Completion)
    ensures c == Execute(host, fs0, Job(tmpfile, target), Plan(Async, opts, PayloadBytes(encode, data, opts)))
  {
    ghost var afterClose := ChownSteps(opts) + (ChmodSteps(opts) + [Planned(RenameTmp, true)]);
    var r := OpenAndWrite(host, encode, fs0, tmpfile, target, opts, data, FlushSteps(Async, opts) + afterClose);
    if r.error.Some? {
      return Completion(r.error, Apply(host, r.fs, Unlink(tmpfile)).fs);
    }
    c := AsyncCloseAndPublish(host, r.fs, tmpfile, target, r.fd.value, opts);
  }

  /**
    The callback chain once the payload is written: only when `fsync` is
    not `false`, fsync and then close, where the close's outcome is not
    looked at; then chown, chmod and rename.
  */
  method AsyncCloseAndPublish(host: Host, fs0: Fs, tmpfile: Path, target: Path, fd: Fd, opts: Options) returns (c: Completion)
    ensures c == Settle(host, Job(tmpfile, target), RunSteps(host, fs0, Job(tmpfile, target), Some(fd),
      FlushSteps(Async, opts) + (ChownSteps(opts) + (ChmodSteps(opts) + [Planned(RenameTmp, true)]))))
  {
    ghost var job := Job(tmpfile, target);
    ghost var afterClose := ChownSteps(opts) + (ChmodSteps(opts) + [Planned(RenameTmp, true)]);
    ghost var afterFsync := [Planned(CloseFd, false)] + afterClose;
    var fs := fs0;

    if FsyncEnabled(opts) {
      var a := Apply(host, fs, Fsync(fd));
      assert FlushSteps(Async, opts) + afterClose == [Planned(FsyncFd, true)] + afterFsync;
      RunCons(host, fs, job, Some(fd), Planned(FsyncFd, true), afterFsync);
      if a.reply.Failed? {
        return Completion(Some(a.reply.errno), Apply(host, a.fs, Unlink(tmpfile)).fs);
      }
      fs := a.fs;
      a := Apply(host, fs, Close(fd));
      RunCons(host, fs, job, Some(fd), Planned(CloseFd, false), afterClose);
      fs := a.fs;
    } else {
      assert FlushSteps(Async, opts) + afterClose == afterClose;
    }
    c := PublishSteps(host, fs, tmpfile, target, fd, opts);
  }


  /**
    The steps both writers start with: open the temporary file with the
    requested mode, then write the payload when there is one (a buffer as
    it is, text encoded); a failure stops here.
  */
  method OpenAndWrite(host: Host, encode: (string, string) -> Bytes, fs0: Fs, tmpfile: Path, target: Path, opts: Options, data: Payload,
                      ghost rest: seq<Planned>)
    returns (r: Run)
    ensures r.error.None? ==> r.fd.Some?
    ensures RunSteps(host, fs0, Job(tmpfile, target), None,
        [Planned(OpenTmp(opts.mode), true)] + (PayloadSteps(PayloadBytes(encode, data, opts)) + rest))
      == if r.error.Some? then r else RunSteps(host, r.fs, Job(tmpfile, target), r.fd, rest)
  {
    ghost var job := Job(tmpfile, target);
    ghost var bytes := PayloadBytes(encode, data, opts);
    var a := Apply(host, fs0, Open(tmpfile, opts.mode));
    RunCons(host, fs0, job, None, Planned(OpenTmp(opts.mode), true), PayloadSteps(bytes) + rest);
    if a.reply.Failed? {
      return Run(Some(a.reply.errno), a.fs, None);
    }
    var fd := a.reply.fd;
    if data.Nothing? {
      assert PayloadSteps(bytes) + rest == rest;
      return Run(None, a.fs, Some(fd));
    }
    var b := if data.Buffer? then data.bytes else encode(data.text, Encoding(opts));
    var w := Apply(host, a.fs, Write(fd, b));
    assert PayloadSteps(bytes) == [Planned(WritePayload(b), true)];
    RunCons(host, a.fs, job, Some(fd), Planned(WritePayload(b), true), rest);
    if w.reply.Failed? {
      return Run(Some(w.reply.errno), w.fs, Some(fd));
    }
    r := Run(None, w.fs, Some(fd));
  }

  /**
    The steps both writers end with: chown when an owner is set, then chmod
    and rename; a failure unlinks the temporary file and is reported.
  */
  method PublishSteps(host: Host, fs0: Fs, tmpfile: Path, target: Path, fd: Fd, opts: Options) returns (c: Completion)
    ensures c == Settle(host, Job(tmpfile, target),
      RunSteps(host, fs0, Job(tmpfile, target), Some(fd), ChownSteps(opts) + (ChmodSteps(opts) + [Planned(RenameTmp, true)])))
  {
    ghost var job := Job(tmpfile, target);
    ghost var afterChown := ChmodSteps(opts) + [Planned(RenameTmp, true)];
    var fs := fs0;
    if ChownSet(opts) {
      var a := Apply(host, fs, Chown(tmpfile, opts.chown.value));
      RunCons(host, fs, job, Some(fd), Planned(ChownTmp(opts.chown.value), true), afterChown);
      if a.reply.Failed? {
        return Completion(Some(a.reply.errno), Apply(host, a.fs, Unlink(tmpfile)).fs);
      }
      fs := a.fs;
    } else {
      assert ChownSteps(opts) + afterChown == afterChown;
    }
    c := ChmodAndRename(host, fs, tmpfile, target, fd, opts);
  }

  /** Chmod when a non-zero mode is set, then the rename over the target; a failure unlinks the temporary file and is reported. */
  method ChmodAndRename(host: Host, fs0: Fs, tmpfile: Path, target: Path, fd: Fd, opts: Options) returns (c: Completion)
    ensures c == Settle(host, Job(tmpfile, target),
      RunSteps(host, fs0, Job(tmpfile, target), Some(fd), ChmodSteps(opts) + [Planned(RenameTmp, true)]))
  {
    ghost var job := Job(tmpfile, target);
    ghost var rename := [Planned(RenameTmp, true)];
    var fs := fs0;
    if ModeSet(opts) {
      var a := Apply(host, fs, Chmod(tmpfile, opts.mode.value));
      RunCons(host, fs, job, Some(fd), Planned(ChmodTmp(opts.mode.value), true), rename);
      if a.reply.Failed? {
        return Completion(Some(a.reply.errno), Apply(host, a.fs, Unlink(tmpfile)).fs);
      }
      fs := a.fs;
    } else {
      assert ChmodSteps(opts) + rename == rename;
    }
    var a := Apply(host, fs, Rename(tmpfile, target));
    assert rename == [Planned(RenameTmp, true)] + [];
    RunCons(host, fs, job, Some(fd), Planned(RenameTmp, true), []);
    if a.reply.Failed? {
      return Completion(Some(a.reply.errno), Apply(host, a.fs, Unlink(tmpfile)).fs);
    }
    c := Completion(None, a.fs);
  }
}
