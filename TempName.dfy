/**
  Temporary file names: the target's name, a dot, and a hash of the
  process id and a per-process call counter. The hash (MurmurHash3 keyed
  by the module's own file name) is not modelled; the generator is given
  it as a function of the process id and the counter value.
*/
module TempName {
  import opened Base

  /** The name a given digest yields for `filename`. */
  function TmpName(filename: Path, digest: string): (r: Path)
    ensures |r| > |filename|
    ensures r[..|filename| + 1] == filename + "."
    ensures r[|filename| + 1..] == digest
    ensures r != filename
  {
    filename + "." + digest
  }

  /** Different digests give different names for the same file. */
  lemma TmpNameInjective(filename: Path, d1: string, d2: string)
    requires d1 != d2
    ensures TmpName(filename, d1) != TmpName(filename, d2)
  {
    assert TmpName(filename, d1)[|filename| + 1..] == d1;
  }

  /** The process-wide generator: `invocations` counts the calls made so far. */
  class TempNames {
    var invocations: nat
    const pid: nat
    const hash: (nat, nat) -> string
    /** The counter values handed out, in order. */
    ghost var used: seq<nat>

    ghost predicate Valid()
      reads this
    {
      |used| == invocations && forall i :: 0 <= i < |used| ==> used[i] == i + 1
    }

    constructor (pid: nat, hash: (nat, nat) -> string)
      ensures Valid() && invocations == 0 && used == []
      ensures this.pid == pid && this.hash == hash
    {
      this.pid := pid;
      this.hash := hash;
      invocations := 0;
      used := [];
    }

    /** Pre-increment the counter and name the temporary file after the new value; no value is ever handed out twice. */
    method GetTmpname(filename: Path) returns (name: Path)
      requires Valid()
      modifies this`invocations, this`used
      ensures Valid()
      ensures invocations == old(invocations) + 1
      ensures invocations !in old(used) && used == old(used) + [invocations]
      ensures name == TmpName(filename, hash(pid, invocations))
    {
      invocations := invocations + 1;
      used := used + [invocations];
      name := filename + "." + hash(pid, invocations);
    }
  }
}
