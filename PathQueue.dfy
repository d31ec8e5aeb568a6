/**
  The per-path write queue: a map from a path's absolute form to the
  jobs waiting for it, first in, first out. Only the job at the head of a
  path's queue runs; when it finishes (successfully or not) it is removed
  and the next one is started, and a path whose queue empties is removed
  from the map.

  To state the ordering guarantees, the model keeps three ghost logs of
  (path, job) entries: jobs pushed, jobs started and jobs finished.
*/
module PathQueue {
  import opened Base

  type JobId = nat
  type Queues = map<Path, seq<JobId>>

  datatype Entry = Entry(key: Path, job: JobId)

  /** The jobs waiting for `k`: its queue, or none when `k` is absent. */
  function Pending(q: Queues, k: Path): seq<JobId> {
    if k in q then q[k] else []
  }

  /** A key is present only while its queue is non-empty. */
  ghost predicate WellFormed(q: Queues) {
    forall k :: k in q ==> q[k] != []
  }

  /** Append `j` to the queue of `k`, creating it when absent. */
  function Push(q: Queues, k: Path, j: JobId): (r: Queues)
    ensures k in r && Pending(r, k) == Pending(q, k) + [j]
    ensures forall k' :: k' != k ==> Pending(r, k') == Pending(q, k')
    ensures r.Keys == q.Keys + {k}
    ensures WellFormed(q) ==> WellFormed(r)
  {
    q[k := Pending(q, k) + [j]]
  }

  /** Drop the head of `k`'s queue, deleting the key when nothing is left. */
  function Shift(q: Queues, k: Path): (r: Queues)
    requires k in q
    ensures q[k] != [] ==> Pending(r, k) == q[k][1..]
    ensures forall k' :: k' != k ==> Pending(r, k') == Pending(q, k')
    ensures k in r <==> |q[k]| > 1
    ensures r.Keys <= q.Keys
    ensures WellFormed(q) ==> WellFormed(r)
  {
    if |q[k]| > 1 then q[k := q[k][1..]] else q - {k}
  }

  /** The jobs of key `k` in a log, in log order. */
  function JobsOf(log: seq<Entry>, k: Path): seq<JobId>
  {
    if log == [] then []
    else JobsOf(log[..|log| - 1], k) + (if log[|log| - 1].key == k then [log[|log| - 1].job] else [])
  }

  /** Every job listed for `k` was logged under `k`, and every job logged under `k` is listed. */
  lemma {:induction false} JobsOfExact(log: seq<Entry>, k: Path, j: JobId)
    ensures j in JobsOf(log, k) <==> Entry(k, j) in log
    decreases |log|
  {
    if log != [] {
      var init := log[..|log| - 1];
      JobsOfExact(init, k, j);
      assert log == init + [log[|log| - 1]];
    }
  }

  lemma JobsOfSnoc(log: seq<Entry>, e: Entry, k: Path)
    ensures JobsOf(log + [e], k) == JobsOf(log, k) + (if e.key == k then [e.job] else [])
  {
    assert (log + [e])[..|log|] == log;
  }

  /** The running job, as a sequence of at most one: the head of the queue. */
  function Front(s: seq<JobId>): (r: seq<JobId>)
    ensures |r| <= 1 && (s != [] <==> r != []) && (s != [] ==> r[0] == s[0])
  {
    if s == [] then [] else [s[0]]
  }

  /**
    For every key: the jobs pushed are those finished followed by those
    pending, in order; the jobs started are those finished followed by the
    head of the pending queue.
  */
  ghost predicate Consistent(q: Queues, pushed: seq<Entry>, started: seq<Entry>, finished: seq<Entry>) {
    && WellFormed(q)
    && forall k ::
        && JobsOf(pushed, k) == JobsOf(finished, k) + Pending(q, k)
        && JobsOf(started, k) == JobsOf(finished, k) + Front(Pending(q, k))
  }

  /** Enqueuing keeps the queue consistent; the new job starts exactly when its key had no queue. */
  lemma PushKeepsConsistent(q: Queues, pushed: seq<Entry>, started: seq<Entry>, finished: seq<Entry>, k: Path, j: JobId)
    requires Consistent(q, pushed, started, finished)
    ensures Consistent(Push(q, k, j), pushed + [Entry(k, j)],
                       if k in q then started else started + [Entry(k, j)], finished)
  {
    var q' := Push(q, k, j);
    var started' := if k in q then started else started + [Entry(k, j)];
    forall k' | true
      ensures JobsOf(pushed + [Entry(k, j)], k') == JobsOf(finished, k') + Pending(q', k')
      ensures JobsOf(started', k') == JobsOf(finished, k') + Front(Pending(q', k'))
    {
      JobsOfSnoc(pushed, Entry(k, j), k');
      if k !in q {
        JobsOfSnoc(started, Entry(k, j), k');
      }
      if k' == k {
        assert JobsOf(pushed, k) == JobsOf(finished, k) + Pending(q, k);
      }
    }
  }

  /** Advancing keeps the queue consistent: the head is recorded finished and the new head, if any, started. */
  lemma ShiftKeepsConsistent(q: Queues, pushed: seq<Entry>, started: seq<Entry>, finished: seq<Entry>, k: Path)
    requires Consistent(q, pushed, started, finished)
    requires k in q
    ensures Consistent(Shift(q, k), pushed,
                       if |q[k]| > 1 then started + [Entry(k, q[k][1])] else started,
                       finished + [Entry(k, q[k][0])])
  {
    var q' := Shift(q, k);
    var started' := if |q[k]| > 1 then started + [Entry(k, q[k][1])] else started;
    var finished' := finished + [Entry(k, q[k][0])];
    forall k' | true
      ensures JobsOf(pushed, k') == JobsOf(finished', k') + Pending(q', k')
      ensures JobsOf(started', k') == JobsOf(finished', k') + Front(Pending(q', k'))
    {
      JobsOfSnoc(finished, Entry(k, q[k][0]), k');
      if |q[k]| > 1 {
        JobsOfSnoc(started, Entry(k, q[k][1]), k');
      }
      if k' == k {
        var f := JobsOf(finished, k);
        assert JobsOf(pushed, k) == f + q[k];
        assert JobsOf(started, k) == f + [q[k][0]];
        assert JobsOf(finished', k) == f + [q[k][0]];
        assert f + q[k] == (f + [q[k][0]]) + q[k][1..];
      } else {
        assert JobsOf(finished', k') == JobsOf(finished, k');
      }
    }
  }

  /**
    What consistency promises: the jobs of a key start in the order they
    were pushed, and exactly one of them is running (started and not
    finished) while the key is present, none otherwise; the running one is
    the head of the queue.
  */
  lemma {:induction false} ConsistentMeansFifo(q: Queues, pushed: seq<Entry>, started: seq<Entry>, finished: seq<Entry>, k: Path)
    requires Consistent(q, pushed, started, finished)
    ensures JobsOf(started, k) <= JobsOf(pushed, k)
    ensures |JobsOf(started, k)| == |JobsOf(finished, k)| + (if k in q then 1 else 0)
    ensures k in q ==> JobsOf(started, k)[|JobsOf(finished, k)|] == q[k][0]
  {
    var f := JobsOf(finished, k);
    assert JobsOf(pushed, k) == f + Pending(q, k);
    assert JobsOf(started, k) == f + Front(Pending(q, k));
  }

  /** The process-wide queue table (`activeFiles`). */
  class FileQueue {
    var activeFiles: Queues
    ghost var pushed: seq<Entry>
    ghost var started: seq<Entry>
    ghost var finished: seq<Entry>

    ghost predicate Valid()
      reads this
    {
      Consistent(activeFiles, pushed, started, finished)
    }

    constructor ()
      ensures Valid() && activeFiles == map[] && pushed == [] && started == [] && finished == []
    {
      activeFiles := map[];
      pushed, started, finished := [], [], [];
    }

    /**
      Queue `job` under `key` (creating the queue when absent) and start it
      at once when it is now the only entry.
    */
    method Enqueue(key: Path, job: JobId) returns (startNow: bool)
      requires Valid()
      modifies this
      ensures Valid()
      ensures activeFiles == Push(old(activeFiles), key, job)
      ensures startNow <==> key !in old(activeFiles)
      ensures startNow <==> |activeFiles[key]| == 1
      ensures pushed == old(pushed) + [Entry(key, job)] && finished == old(finished)
      ensures started == if startNow then old(started) + [Entry(key, job)] else old(started)
    {
      PushKeepsConsistent(activeFiles, pushed, started, finished, key, job);
      assert key in activeFiles ==> activeFiles[key] != [];
      var queue := if key in activeFiles then activeFiles[key] else [];
      queue := queue + [job];
      startNow := |queue| == 1;
      activeFiles := activeFiles[key := queue];
      pushed := pushed + [Entry(key, job)];
      if startNow {
        started := started + [Entry(key, job)];
      }
    }

    /**
      Remove the job that just finished (the head of `key`'s queue), then
      start the new head, or delete the key when the queue is empty.
    */
    method Advance(key: Path) returns (next: Option<JobId>)
      requires Valid()
      requires key in activeFiles
      modifies this
      ensures Valid()
      ensures activeFiles == Shift(old(activeFiles), key)
      ensures next.Some? <==> key in activeFiles
      ensures next.Some? ==> next.value == activeFiles[key][0] == old(activeFiles)[key][1]
      ensures pushed == old(pushed) && finished == old(finished) + [Entry(key, old(activeFiles)[key][0])]
      ensures started == if next.Some? then old(started) + [Entry(key, next.value)] else old(started)
    {
      ShiftKeepsConsistent(activeFiles, pushed, started, finished, key);
      assert activeFiles[key] != [];
      var queue := activeFiles[key];
      finished := finished + [Entry(key, queue[0])];
      queue := queue[1..];
      if |queue| > 0 {
        activeFiles := activeFiles[key := queue];
        next := Some(queue[0]);
        started := started + [Entry(key, queue[0])];
      } else {
        activeFiles := activeFiles - {key};
        next := None;
      }
    }
  }
}
