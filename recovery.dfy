/**
 * Recovery of a checkpoint: the list of chunk keys `restoreData` requests and
 * the fold that appends the fetched chunks to the result store in key order.
 */
module Recovery {
  import opened Decimal
  import opened ResultStore
  import opened TaskDb
  import opened ChunkWriter

  /** Keys of chunks `0 ..< n` of task `taskId`, ascending */
  function ChunkKeys(taskId: nat, n: nat): (keys: seq<nat>)
    ensures |keys| == n
    ensures forall i :: 0 <= i < n ==> keys[i] == NumAppendNum(taskId, i)
  {
    seq(n, i requires 0 <= i < n => NumAppendNum(taskId, i))
  }

  /**
   * The ascending key list recovery requests for a meta record whose `part` is `part`:
   * indices `0 ..= part`, one more than the number of chunks.
   */
  function RecoveryKeys(taskId: nat, part: nat): (keys: seq<nat>)
  {
    ChunkKeys(taskId, part + 1)
  }

  /** `Array.prototype.reverse` */
  function Reversed<T>(s: seq<T>): (r: seq<T>)
    ensures |r| == |s|
    ensures forall i :: 0 <= i < |s| ==> r[i] == s[|s| - 1 - i]
  {
    if s == [] then [] else Reversed(s[1..]) + [s[0]]
  }

  /**
   * Appending the fetched chunks in key order: a missing key yields `null`, and reading
   * `null.data` throws, so the fold stops there with `fault` set; what was appended stays.
   */
  function Gather(keys: seq<nat>, data: map<nat, TaskData>): (seq<Result>, bool)
  {
    if keys == [] then ([], false)
    else
      var (pushed, fault) := Gather(keys[..|keys| - 1], data);
      var last := keys[|keys| - 1];
      if fault then (pushed, true)
      else if last in data then (pushed + data[last].data, false)
      else (pushed, true)
  }

  /** Once the fold has faulted, later keys change nothing */
  lemma {:induction false} GatherFaultSticks(keys: seq<nat>, data: map<nat, TaskData>, i: nat)
    requires i <= |keys| && Gather(keys[..i], data).1
    ensures Gather(keys, data) == Gather(keys[..i], data)
    decreases |keys| - i
  {
    if i < |keys| {
      assert keys[..i + 1][..i] == keys[..i];
      GatherFaultSticks(keys, data, i + 1);
    } else {
      assert keys[..i] == keys;
    }
  }

  /** Gathering the first `j` chunk keys of stored chunks reproduces the slices the parts describe */
  lemma {:induction false} GatherChunks(data: map<nat, TaskData>, taskId: nat, results: seq<Result>,
                                        part: seq<nat>, j: nat)
    requires ChunksStored(data, taskId, results, part, 0)
    requires j <= |part|
    ensures Gather(ChunkKeys(taskId, j), data) == (Pieces(results, part[..j]), false)
  {
    if j > 0 {
      GatherChunks(data, taskId, results, part, j - 1);
      assert ChunkKeys(taskId, j)[..j - 1] == ChunkKeys(taskId, j - 1);
      assert part[..j][..j - 1] == part[..j - 1];
    } else {
      assert part[..0] == [];
    }
  }

  /**
   * Recovery of a task whose chunks are stored: every chunk is appended in order, and the extra
   * key past the last chunk, when absent, makes the fold fault after the last chunk.
   */
  lemma GatherRecovery(data: map<nat, TaskData>, taskId: nat, results: seq<Result>, part: seq<nat>)
    requires ChunksStored(data, taskId, results, part, 0)
    requires NumAppendNum(taskId, |part|) !in data
    ensures Gather(RecoveryKeys(taskId, |part|), data) == (Pieces(results, part), true)
  {
    var keys := RecoveryKeys(taskId, |part|);
    GatherChunks(data, taskId, results, part, |part|);
    assert keys[..|part|] == ChunkKeys(taskId, |part|);
    assert part[..|part|] == part;
  }

  /**
   * A writer run from no parts, followed by recovery with the chunk count it recorded, restores the
   * slices the parts describe (the whole sequence only when they tile it).
   */
  lemma RecoveryAfterRun(data: map<nat, TaskData>, try: nat, results: seq<Result>, taskId: nat,
                         script: seq<AddOutcome>)
    requires var w := Run(Writer([], try, data), results, taskId, script).0;
      NumAppendNum(taskId, |w.part|) !in w.data
    ensures var w := Run(Writer([], try, data), results, taskId, script).0;
      Gather(RecoveryKeys(taskId, |w.part|), w.data) == (Pieces(results, w.part), true)
  {
    RunStoresChunks(Writer([], try, data), results, taskId, script);
    var w := Run(Writer([], try, data), results, taskId, script).0;
    GatherRecovery(w.data, taskId, results, w.part);
  }

  /**
   * A checkpoint written in one chunk is restored exactly, and the request for the key after it
   * faults.
   */
  lemma RoundTripSingleChunk(data: map<nat, TaskData>, results: seq<Result>, taskId: nat,
                             script: seq<AddOutcome>)
    requires script != [] && script[0] == Accepted
    requires NumAppendNum(taskId, 0) !in data && NumAppendNum(taskId, 1) !in data
    ensures var (w, status) := Run(Writer([], 0, data), results, taskId, script);
      && status == Resolved && |w.part| == 1
      && Gather(RecoveryKeys(taskId, |w.part|), w.data) == (results, true)
  {
    RunFirstAttemptWhole(data, results, taskId, script);
    NumAppendNumInjective(taskId, 0, 1);
    RecoveryAfterRun(data, 0, results, taskId, script);
    PiecesWhole(results);
  }
}
