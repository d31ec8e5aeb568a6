/**
  An abstract POSIX-like filesystem: the primitives the writer calls
  (stat, open, write, fsync, close, chown, chmod, rename, unlink) as pure
  functions over a filesystem value. Every call is appended to a log, and
  any call may fail: the host's fault oracle decides, by the call's
  position in the log, whether the call fails and with which error code.
  A call that fails has no effect besides being logged.
*/
module FileSystem {
  import opened Base

  newtype byte = b: int | 0 <= b < 256
  type Bytes = seq<byte>
  type Fd = nat

  datatype Owner = Owner(uid: int, gid: int)

  /** A regular file; `flushed` records whether its bytes have reached stable storage. */
  datatype Inode = Inode(data: Bytes, mode: nat, owner: Owner, flushed: bool)

  /** What a successful stat reports. */
  datatype Stats = Stats(mode: nat, uid: int, gid: int)

  datatype Errno = ENOENT | EACCES | EPERM | EBADF | EINVAL | EIO | ENOSPC | EXDEV | EISDIR

  datatype Syscall =
    | Stat(path: Path)
    | Open(path: Path, requested: Option<nat>)
    | Write(fd: Fd, bytes: Bytes)
    | Fsync(fd: Fd)
    | Close(fd: Fd)
    | Chown(path: Path, owner: Owner)
    | Chmod(path: Path, mode: nat)
    | Rename(from: Path, to: Path)
    | Unlink(path: Path)

  /** Files by name, open descriptors (recorded by the path they were opened on), the next descriptor number, and every call made so far. */
  datatype Fs = Fs(files: map<Path, Inode>, fds: map<Fd, Path>, nextFd: Fd, log: seq<Syscall>)

  /**
    What the model takes from outside: which calls fail, how the process
    umask turns a requested mode into the mode of a new file, and the
    owner a new file gets.
  */
  datatype Host = Host(faults: nat -> Option<Errno>, umask: nat -> nat, owner: Owner)

  datatype Reply = Ok | Opened(fd: Fd) | Statted(stats: Stats) | Failed(errno: Errno)

  datatype Answer = Answer(reply: Reply, fs: Fs)

  /** The mode `open` requests when the caller passes none (0o666). */
  const DefaultOpenMode: nat := 438

  function Lookup(files: map<Path, Inode>, p: Path): Option<Inode> {
    if p in files then Some(files[p]) else None
  }

  /** What stat reports for a file. */
  function StatsOf(f: Inode): Stats {
    Stats(f.mode, f.owner.uid, f.owner.gid)
  }

  /** The paths whose entry a call may change. */
  function Touches(fs: Fs, call: Syscall): set<Path> {
    match call
    case Stat(_) => {}
    case Open(p, _) => {p}
    case Write(fd, _) => if fd in fs.fds then {fs.fds[fd]} else {}
    case Fsync(fd) => if fd in fs.fds then {fs.fds[fd]} else {}
    case Close(_) => {}
    case Chown(p, _) => {p}
    case Chmod(p, _) => {p}
    case Rename(a, b) => {a, b}
    case Unlink(p) => {p}
  }

  /** Writing `bytes` at offset 0 over `prior`: the prefix is replaced, the rest of `prior` stays. */
  function Overwrite(prior: Bytes, bytes: Bytes): (r: Bytes)
    ensures |r| == if |bytes| < |prior| then |prior| else |bytes|
    ensures r[..|bytes|] == bytes
    ensures forall i :: |bytes| <= i < |r| ==> r[i] == prior[i]
    ensures prior == [] ==> r == bytes
  {
    if |bytes| < |prior| then bytes + prior[|bytes|..] else bytes
  }

  /** The effect of a call that the fault oracle lets through. */
  function Effect(host: Host, fs: Fs, call: Syscall): (a: Answer)
    ensures a.fs.log == fs.log
    ensures a.reply.Failed? ==> a.fs == fs
    ensures a.reply.Opened? <==> call.Open?
    ensures a.reply.Statted? <==> call.Stat? && call.path in fs.files
    ensures a.reply.Statted? ==> a.reply.stats == StatsOf(fs.files[call.path])
  {
    match call
    case Stat(p) =>
      if p in fs.files then
        Answer(Statted(StatsOf(fs.files[p])), fs)
      else Answer(Failed(ENOENT), fs)
    case Open(p, m) =>
      var inode :=
        if p in fs.files then fs.files[p].(data := [], flushed := false)
        else Inode([], host.umask(m.GetOr(DefaultOpenMode)), host.owner, false);
      Answer(Opened(fs.nextFd),
             fs.(files := fs.files[p := inode], fds := fs.fds[fs.nextFd := p], nextFd := fs.nextFd + 1))
    case Write(fd, b) =>
      if fd in fs.fds && fs.fds[fd] in fs.files then
        var f := fs.files[fs.fds[fd]];
        Answer(Ok, fs.(files := fs.files[fs.fds[fd] := f.(data := Overwrite(f.data, b), flushed := false)]))
      else Answer(Failed(EBADF), fs)
    case Fsync(fd) =>
      if fd in fs.fds && fs.fds[fd] in fs.files then
        Answer(Ok, fs.(files := fs.files[fs.fds[fd] := fs.files[fs.fds[fd]].(flushed := true)]))
      else Answer(Failed(EBADF), fs)
    case Close(fd) =>
      if fd in fs.fds then Answer(Ok, fs.(fds := fs.fds - {fd}))
      else Answer(Failed(EBADF), fs)
    case Chown(p, o) =>
      if p in fs.files then Answer(Ok, fs.(files := fs.files[p := fs.files[p].(owner := o)]))
      else Answer(Failed(ENOENT), fs)
    case Chmod(p, m) =>
      if p in fs.files then Answer(Ok, fs.(files := fs.files[p := fs.files[p].(mode := m)]))
      else Answer(Failed(ENOENT), fs)
    case Rename(a, b) =>
      if a in fs.files then Answer(Ok, fs.(files := (fs.files - {a})[b := fs.files[a]]))
      else Answer(Failed(ENOENT), fs)
    case Unlink(p) =>
      if p in fs.files then Answer(Ok, fs.(files := fs.files - {p}))
      else Answer(Failed(ENOENT), fs)
  }

  /**
    Make one call: it is logged; it fails with the oracle's error when the
    oracle says so, and otherwise takes its effect.
  */
  function Apply(host: Host, fs: Fs, call: Syscall): (a: Answer)
    ensures a.fs.log == fs.log + [call]
    ensures host.faults(|fs.log|).Some? ==> a.reply == Failed(host.faults(|fs.log|).value)
    ensures a.reply.Failed? ==> a.fs.files == fs.files && a.fs.fds == fs.fds && a.fs.nextFd == fs.nextFd
  {
    var logged := fs.(log := fs.log + [call]);
    match host.faults(|fs.log|)
    case Some(e) => Answer(Failed(e), logged)
    case None => Effect(host, logged, call)
  }

  /** A call changes the entries of the paths it touches and of no other path. */
  lemma ApplyFrame(host: Host, fs: Fs, call: Syscall)
    ensures forall p :: p !in Touches(fs, call) ==> Lookup(Apply(host, fs, call).fs.files, p) == Lookup(fs.files, p)
  {
    if host.faults(|fs.log|).None? {
      EffectFrame(host, fs.(log := fs.log + [call]), call);
    }
  }

  /** The effect of a call changes the entries of the paths it touches and of no other path. */
  lemma EffectFrame(host: Host, fs: Fs, call: Syscall)
    ensures forall p :: p !in Touches(fs, call) ==> Lookup(Effect(host, fs, call).fs.files, p) == Lookup(fs.files, p)
  {
  }
}
