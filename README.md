# write-file-atomic, modelled in Dafny

`write-file-atomic` replaces a file's contents so that a reader sees
either the old file or the new one. It never sees a half-written one. Each
write goes to a temporary file next to the target. The temporary file is
named after the target with a dot and a hash of the process id and a
per-process counter. It is then flushed, closed, given the target's owner
and mode, and renamed over the target. If any step fails, the temporary
file is unlinked and the error is reported.

There are two writers:

- The callback writer runs at most one job per absolute path at a time,
  using a process-wide queue (`activeFiles`).
- The synchronous writer has no queue.

The writers differ in how they close the descriptor. The callback writer
flushes and then closes only when `fsync` is not `false`, and it ignores
the result of the close. The synchronous writer always closes, and a
failing close aborts the write.

The model is made of these modules:

- `FileSystem`: an abstract filesystem as a value. It has files,
  descriptors, the next descriptor number and a log of every call. Any
  call may fail: a fault oracle picks the failing calls by their position
  in the log, and every theorem holds for every oracle.
- `Attributes`: the options and how mode and owner are decided. The
  tests are JavaScript truthiness, so a mode of 0 counts as not given.
  `chown` is only filled in where `process.getuid` exists.
- `Pipeline`: the fixed step order as data (a plan) and the interpreter
  that runs it, with the cleanup on failure. It also holds the theorems
  about atomicity, publication, step order, closing, and how the cleanup
  error is dropped.
- `TempName`: the temporary-name generator, a class with the call
  counter.
- `PathQueue`: the per-path queue, a class over
  `map<Path, seq<JobId>>`. Ghost logs of the jobs pushed, started and
  finished state its ordering guarantees.
- `WriteFileAtomic`: the two entry points as imperative methods that
  follow the source step by step. Each is proved equal to the pure
  definition of a whole job (`WriteJob`), so the theorems about the pure
  definition carry over.

## Model

| member | source | states |
|---|---|---|
| FileSystem.Overwrite | index.js:80-91 | a write at position 0 replaces the prefix and keeps the rest; on an empty (just-truncated) file the result is exactly the bytes written |
| FileSystem.Effect | index.js:159-173 | a call that is let through: only an open answers with a descriptor, and an open that is let through always does; stat succeeds exactly when the path exists and reports its mode and owner; a failing call changes nothing; the effect does not touch the log |
| FileSystem.EffectFrame | index.js:159-173 | a call's effect changes no entry outside the paths it touches |
| FileSystem.Apply | index.js:159-173 | every call is logged; when the fault oracle picks it, it fails with that error and changes no file or descriptor |
| FileSystem.ApplyFrame | index.js:159-173 | a call changes no entry outside the paths it touches |
| Attributes.Encoding | index.js:87 | `options.encoding || 'utf8'`: a non-empty given encoding is used, and `'utf8'` otherwise |
| Attributes.Resolve | index.js:142-157 | with mode and chown both truthy nothing is looked up; a failed stat leaves the options as given; otherwise a falsy mode (absent or 0) is taken from the file, and an absent owner too, but only where `getuid` exists; encoding and fsync are never changed |
| Pipeline.PayloadBytes | index.js:160-164 | a buffer is written as it is, text encoded with the chosen encoding, and `null`/`undefined` writes nothing |
| Pipeline.Plan | index.js:159-171 | the fixed step order of a job: it opens first and renames over the target last; its order, contents and closing are stated by `PlanIsOrdered`, `PlanShape`, `PlanContents` and `ClosePolicy` |
| Pipeline.FlushSteps | index.js:92-98 | the flush segment fsyncs exactly when `fsync !== false`; the synchronous writer always ends it with a close that aborts on failure; the callback writer closes, without aborting, exactly when fsync is enabled |
| Pipeline.PlanShape | index.js:159-171 | a plan starts with the open and ends with the rename over the target, which appears nowhere else |
| Pipeline.PlanContents | index.js:160-167 | a plan fsyncs when `fsync !== false` and never otherwise, and writes the payload's bytes when there is a payload and never otherwise |
| Pipeline.PlanIsOrdered | index.js:74-117 | every plan follows the order open, write, fsync, close, chown, chmod, rename, with each step at most once |
| Pipeline.ClosePolicy | index.js:92-98 | the synchronous plan always closes and a failing close aborts it; the callback plan closes only when fsync is enabled and does not stop when the close fails |
| Pipeline.Perform | index.js:75-117 | one step makes at most one logged call; a failed step changes no file or descriptor; the job's descriptor stays on the temporary file |
| Pipeline.PerformFrame | index.js:99-117 | a step changes only the temporary file's entry, and the target's only when it is the rename |
| Pipeline.RunSteps | index.js:74-118 | running the steps only adds to the log (the old log stays a prefix) and keeps the descriptor on the temporary file |
| Pipeline.RunFrame | index.js:74-118 | a run changes no path other than the temporary file and the target |
| Pipeline.Settle | index.js:120-123 | the end of a job: the run's error is reported as it is; a success keeps the run's filesystem; a failure makes exactly one more call, the unlink of the temporary file, which removes it unless that unlink is itself faulted |
| Pipeline.Execute | index.js:120-123 | a job reports exactly the error its run stopped with (none on success); a failed job's last call is the unlink of the temporary file; a successful job leaves the run's filesystem |
| Pipeline.TargetUntouchedUntilRename | index.js:113-117 | a run that stops with an error leaves the target's entry as it was |
| Pipeline.FailureLeavesAllButTmp | index.js:172-175 | atomicity: after a failed job every path except the temporary file, the target included, has exactly its old entry (content, mode, owner, or absence) |
| Pipeline.FailureCleansUp | index.js:172-175 | the rollback: after a failed job whose cleanup unlink is not faulted, the temporary name is absent and every other path has exactly its old entry |
| Pipeline.LaterFaultsDoNotMatter | index.js:120-123 | a run depends on the fault oracle only at the positions of its own calls: an oracle that agrees there, whatever it answers after the run's last call, gives the same run |
| Pipeline.CleanupErrorIsSwallowed | index.js:173 | whatever the cleanup unlink answers, the failed job reports the same error |
| Pipeline.FaultIsReported | index.js:120-123 | when the steps before a fatal step ran through and that step's call fails, the job reports that call's error, whatever steps follow |
| Pipeline.OpenFaultIsReported | index.js:75-79 | a job whose open fails reports the open's error |
| Pipeline.OpenSegment | index.js:75-79 | a successful open leaves an empty temporary file open on the next descriptor; a new file gets the requested mode (default 0o666) under the umask, and the process's owner |
| Pipeline.PayloadSegment | index.js:80-91 | after the write, the temporary file holds exactly the payload bytes, or stays empty when there is none |
| Pipeline.FlushSegment | index.js:92-98 | the flush keeps the bytes and marks them flushed when fsync is enabled; the synchronous writer has closed the descriptor; the callback writer without fsync has not touched the descriptor table |
| Pipeline.ChownSegment | index.js:99-105 | the chown sets the requested owner and changes nothing else |
| Pipeline.ChmodSegment | index.js:106-112 | the chmod sets the requested mode and changes nothing else |
| Pipeline.RenameSegment | index.js:113-117 | a successful rename moves the temporary file's entry over the target's |
| Pipeline.HeadSegment | index.js:159-168 | after open, write and flush, the temporary file holds exactly the payload bytes, flushed when enabled, with the requested mode (default 0o666) under the umask and the process's owner when it is new; the synchronous writer has closed the descriptor and the callback writer without fsync still holds it |
| Pipeline.TailSegment | index.js:169-171 | after chown, chmod and rename, the target holds the temporary file's bytes with the requested owner and mode (or the temporary file's own), the temporary name is gone and no descriptor changed |
| Pipeline.SuccessPublishes | index.js:159-171 | a successful job removes the temporary file and leaves the target with exactly the payload bytes, flushed when fsync is enabled, with the given mode and owner |
| Pipeline.SuccessDefaults | index.js:159 | when the temporary name was free, a successful job without a given mode or owner leaves the target with the requested or default mode under the umask and the process's owner |
| Pipeline.SuccessDescriptor | index.js:92-98 | after a successful job the synchronous writer has closed the descriptor it opened, and the callback writer without fsync still holds it open on the temporary name |
| TempName.TmpName | index.js:12-18 | the name is the file name, a dot and the digest, so it is longer than the file name and never equal to it |
| TempName.TmpNameInjective | index.js:12-18 | different digests give different names for the same file |
| TempName.TempNames.constructor | index.js:11 | the counter starts at zero and nothing has been handed out |
| TempName.TempNames.GetTmpname | index.js:11-18 | the counter goes up by exactly one per call; no counter value is handed out twice; the name is `filename + '.'` followed by the hash of the process id and the new counter value |
| PathQueue.Push | index.js:44-46 | appends the job to the key's queue, creating the queue when absent; other keys are untouched; a key is present only while its queue is non-empty |
| PathQueue.Shift | index.js:125-128 | drops the head of the key's queue and deletes the key when nothing is left; other keys are untouched; a key is present only while its queue is non-empty |
| PathQueue.PushKeepsConsistent | index.js:42-47 | queueing keeps every key's pushed jobs equal to its finished jobs followed by its queue, and starts the new job exactly when its key had no queue |
| PathQueue.ShiftKeepsConsistent | index.js:124-129 | removing the head records it finished and starts the new head, if any, keeping the same correspondence |
| PathQueue.JobsOfExact | index.js:42-47 | a job is listed for a key exactly when the log holds it under that key |
| PathQueue.ConsistentMeansFifo | index.js:42-129 | jobs of a key start in the order they were queued; exactly one of them is running while the key is present, none otherwise, and the running one is the head of the queue |
| PathQueue.FileQueue.constructor | index.js:9 | the table starts empty |
| PathQueue.FileQueue.Enqueue | index.js:42-47 | queues the job under the key and starts it exactly when the key had no queue, that is, when it is the only entry |
| PathQueue.FileQueue.Advance | index.js:124-129 | removes the finished head, starts the next job when there is one and otherwise deletes the key |
| WriteFileAtomic.StatStep | index.js:54-73 | the target is looked up only when mode or chown is not given; the lookup succeeds exactly when it is not faulted and the target exists; the options are resolved from its outcome; no file or descriptor changes |
| WriteFileAtomic.RealPath | index.js:134-138 | the job targets the real path when it resolves, and the name as given when it does not |
| WriteFileAtomic.WriteJob | index.js:141-175 | a whole job (attribute step, then the plan with cleanup); a failed job's last call is the unlink of its temporary file; its other properties are the lemmas below |
| WriteFileAtomic.WriteCleansUp | index.js:172-175 | the rollback of a whole write: after a failure whose cleanup unlink is not faulted, the temporary name is absent and every other path has exactly its old entry |
| WriteFileAtomic.WriteIsAtomic | index.js:118-123 | a write that fails anywhere leaves every path except the temporary file, the target included, exactly as it was |
| WriteFileAtomic.WritePublishes | index.js:74-119 | a successful write leaves the target with exactly the payload bytes, flushed when fsync is enabled, with the given mode and owner; the temporary file is gone and every other path is untouched |
| WriteFileAtomic.WriteInheritsAttributes | index.js:54-73 | when mode or chown is not given and the target's lookup succeeds, a successful write keeps the target's non-zero mode unless a mode was given and, where user ids exist, its owner unless an owner was given; a given mode or owner is applied instead |
| WriteFileAtomic.WriteCreatesWithDefaults | index.js:74-79 | with neither mode nor chown given, writing a new file leaves it with the requested or default (0o666) mode under the umask and the process's owner |
| WriteFileAtomic.DescriptorOnSuccess | index.js:92-98 | after a successful write the synchronous writer has closed its descriptor, while the callback writer with `fsync: false` leaves it open |
| WriteFileAtomic.ReadAttributes | index.js:141-157 | the imperative stat-and-fill block computes exactly the attribute step |
| WriteFileAtomic.SerializeSameFile | index.js:41-47 | the job is queued under `path.resolve(filename)`, not the real path, and starts at once exactly when nothing else is queued or running under that name; the job is appended to the pushed log, to the started log exactly when it starts, and the finished log is unchanged |
| WriteFileAtomic.WriteQueued | index.js:48-129 | the callback writer's job is exactly the pure job for the real path (falling back to the name given) with the next temporary name, is atomic on failure, and afterwards, however it ended, the queue head is appended to the finished log, the next job is returned and appended to the started log or the key deleted, and the pushed log is unchanged |
| WriteFileAtomic.WriteFileSync | index.js:132-176 | the synchronous writer is exactly the pure job for the real path (falling back to the name given) with the next temporary name, and is atomic on failure |
| WriteFileAtomic.SyncWriteSteps | index.js:159-175 | the synchronous try block with its catch is exactly the synchronous plan run with cleanup |
| WriteFileAtomic.SyncCloseAndPublish | index.js:165-175 | fsync when enabled, an always-fatal close, then chown, chmod and rename, with cleanup, are exactly the rest of the synchronous plan |
| WriteFileAtomic.AsyncWriteSteps | index.js:74-123 | the callback chain from the open to the cleanup is exactly the callback plan run with cleanup |
| WriteFileAtomic.AsyncCloseAndPublish | index.js:92-123 | fsync followed by a close whose outcome is ignored, only when enabled, then chown, chmod and rename, with cleanup, are exactly the rest of the callback plan |
| WriteFileAtomic.OpenAndWrite | index.js:75-91 | opening and writing is exactly the first two segments of the plan |
| WriteFileAtomic.PublishSteps | index.js:99-123 | chown when set, then chmod and rename, with cleanup, are exactly the last segments of the plan |
| WriteFileAtomic.ChmodAndRename | index.js:106-123 | chmod when a truthy mode is set, then the rename, with cleanup, are exactly the plan's last two segments |

## Left out

- The MurmurHash3 digest is not modelled. The generator is given it as a function of the process id and the counter value. Uniqueness of names holds only as far as that function is injective; hash collisions are not modelled.
- `fs.realpath`/`fs.realpathSync` and `path.resolve` are functions given to the model. Only the fallback to the name as given, when realpath fails, is modelled.
- String encoding is a function given to the model. So is the `String(data)` conversion: any non-buffer, non-null value is modelled as text.
- The promise machinery (`options.Promise`, `promisify`) is not modelled. The callback chain becomes a sequence of method calls that run its links in order.
- Moving the callback to the `options` position when `options` is a function is not modelled. The model takes the options as present or absent.
- Concurrency is not modelled. Each queued job runs to completion on one filesystem value, and jobs on different paths are not interleaved. The queue's ordering guarantees are stated over ghost logs of pushed, started and finished jobs.
- WriteFileAtomic.WriteQueued: the queue advances only after the cleanup unlink of a failed job, whereas `fail` returns before `fs.unlink` completes and the next job may start while that unlink is pending; the model's one-job-at-a-time guarantee therefore covers the cleanup, which the source does not promise (the temporary names differ, so the target is unaffected).
- WriteFileAtomic.WriteQueued: does not require that the job it runs is the head of its queue, only that the key is queued; it removes whatever head the queue has, as the source does.
- The callback invocation is not modelled: `callback()` or `callback(err)` becomes the returned completion. A callback that throws, which in the source would reach `fail` and be called a second time, is not modelled.
- Partial writes are not modelled. A successful write writes all its bytes, and the count `fs.write` returns is ignored, as in the source.
- graceful-fs retries on EMFILE are not modelled. A call either succeeds or fails once, as the fault oracle decides.
- Modes are plain numbers, and the umask is a function given to the model. File-type bits that `stat` reports and `chmod` ignores are not modelled.
- Descriptors are recorded by the path they were opened on, not by inode. No step uses a descriptor after the rename.
