/**
 * The chunk writer `saveTaskData`, as a function of the writer's state and of
 * the storage engine's answers. The class method `Resume.SaveTaskData` is
 * proved to compute exactly `Run`.
 *
 * As written, `part` records the END index of each chunk (`tryNum`), not its
 * length, while the start of the next chunk is the SUM of `part`.
 */
module ChunkWriter {
  import opened Wrappers
  import opened Text
  import opened Decimal
  import opened ResultStore
  import opened TaskDb

  function Pow2(k: nat): (r: nat)
    ensures r >= 1
  {
    if k == 0 then 1 else 2 * Pow2(k - 1)
  }

  /** Reference definition of the sum of a sequence */
  function Sum(s: seq<nat>): nat
  {
    if s == [] then 0 else s[0] + Sum(s[1..])
  }

  lemma {:induction false} SumAppend(s: seq<nat>, x: nat)
    ensures Sum(s + [x]) == Sum(s) + x
  {
    if s != [] {
      assert (s + [x])[1..] == s[1..] + [x];
      SumAppend(s[1..], x);
    }
  }

  /** `s.reduce((prev, curr) => prev + curr)` with no initial value: a left fold that needs an element */
  function Reduce(s: seq<nat>): nat
    requires |s| > 0
  {
    if |s| == 1 then s[0] else Reduce(s[..|s| - 1]) + s[|s| - 1]
  }

  lemma {:induction false} ReduceIsSum(s: seq<nat>)
    requires |s| > 0
    ensures Reduce(s) == Sum(s)
  {
    if |s| == 1 {
      assert s == [] + [s[0]];
      SumAppend([], s[0]);
    } else {
      ReduceIsSum(s[..|s| - 1]);
      assert s == s[..|s| - 1] + [s[|s| - 1]];
      SumAppend(s[..|s| - 1], s[|s| - 1]);
    }
  }

  /** `getPartTotal`: 0 for no parts (where `reduce` would throw), otherwise the sum of the parts */
  function PartTotal(part: seq<nat>): (r: nat)
    ensures r == Sum(part)
  {
    if |part| == 0 then 0 else ReduceIsSum(part); Reduce(part)
  }

  /** `Array.prototype.slice(from, to)` for non-negative bounds */
  function Slice<T>(s: seq<T>, from: nat, to: nat): (r: seq<T>)
    ensures from >= to ==> r == []
    ensures from < to <= |s| ==> r == s[from..to]
    ensures |r| <= |s|
  {
    var end := if to <= |s| then to else |s|;
    if from < end then s[from..end] else []
  }

  /**
   * `Math.floor(len * Math.pow(0.5, try))`. Scaling by a power of two is exact in
   * floating point, so this is `len` halved `try` times, rounding down each time
   * (`TryNumQuotient` shows it is the quotient of `len` by `2^try`).
   */
  function TryNum(len: nat, try: nat): (r: nat)
    ensures r <= len
    ensures try >= 1 ==> r <= len / 2
  {
    if try == 0 then len else TryNum(len, try - 1) / 2
  }

  /** `TryNum` is the integer quotient: `r * 2^try <= len < (r + 1) * 2^try` */
  lemma {:induction false} TryNumQuotient(len: nat, try: nat)
    ensures TryNum(len, try) * Pow2(try) <= len < (TryNum(len, try) + 1) * Pow2(try)
  {
    if try > 0 {
      TryNumQuotient(len, try - 1);
      HalvingStep(len, TryNum(len, try - 1), Pow2(try - 1));
    }
  }

  /** If `t` is the quotient of `len` by `p`, then `t / 2` is its quotient by `2 * p` */
  lemma HalvingStep(len: nat, t: nat, p: nat)
    requires t * p <= len < (t + 1) * p
    ensures (t / 2) * (2 * p) <= len < (t / 2 + 1) * (2 * p)
  {
    var h := t / 2;
    assert h * (2 * p) == (2 * h) * p;
    assert (h + 1) * (2 * p) == (2 * h + 2) * p;
    MulMonotonic(p, 2 * h, t);
    MulMonotonic(p, t + 1, 2 * h + 2);
  }

  /** What the storage engine answers to one `add` on a free key */
  datatype AddOutcome =
    | Accepted
      /**
       * `message` is `error.target.error.message`, `None` when any link of that chain is missing;
       * `Some("")` is an empty message, which the writer treats as no message at all
       */
    | Refused(message: Option<string>)

  datatype WriteStatus =
    | InProgress          // the writer will attempt another add
    | Resolved            // the promise resolved: the writer believes all results are stored
    | Rejected(message: string)
    | Unsettled           // an error without a non-empty message: the promise neither resolves nor rejects

  /** The fields the writer reads and updates: `part`, `try` and the `taskData` store */
  datatype Writer = Writer(part: seq<nat>, try: nat, data: map<nat, TaskData>)

  /** Message of the store's ConstraintError on `add` of an existing key; it does not say "too large" */
  const KeyExistsMessage := "Key already exists in the object store."

  const TooLargeMarker := "too large"

  /** Key of the chunk the writer attempts next */
  function ChunkKey(taskId: nat, part: seq<nat>): nat
  {
    NumAppendNum(taskId, |part|)
  }

  /** The record the writer attempts to add next */
  function NextChunk(w: Writer, results: seq<Result>, taskId: nat): TaskData
  {
    var key := ChunkKey(taskId, w.part);
    TaskData(key, Slice(results, PartTotal(w.part), TryNum(|results|, w.try)))
  }

  /** One call of `saveTaskData`, up to the point where it recurses or settles */
  function Attempt(w: Writer, results: seq<Result>, taskId: nat, outcome: AddOutcome): (Writer, WriteStatus)
  {
    var tryNum := TryNum(|results|, w.try);
    var chunk := NextChunk(w, results, taskId);
    if chunk.id in w.data then
      (w.(try := 0), Rejected(KeyExistsMessage))
    else
      match outcome
      case Accepted =>
        var part := w.part + [tryNum];
        (Writer(part, 0, w.data[chunk.id := chunk]), if PartTotal(part) == |results| then Resolved else InProgress)
      case Refused(Some(msg)) =>
        if msg == "" then (w, Unsettled)
        else if Includes(msg, TooLargeMarker) then (w.(try := w.try + 1), InProgress)
        else (w.(try := 0), Rejected(msg))
      case Refused(None) =>
        (w, Unsettled)
  }

  /** Whether a refusal carries a message the writer acts on: present and non-empty */
  predicate HasMessage(outcome: AddOutcome)
  {
    outcome.Refused? && outcome.message.Some? && outcome.message.value != ""
  }

  /**
   * The writer run against a script of engine answers, one per `add` on a free key
   * (an `add` on a taken key consumes its entry too). `InProgress` at the end means
   * the script ran out while the writer would still go on.
   */
  function Run(w: Writer, results: seq<Result>, taskId: nat, script: seq<AddOutcome>): (Writer, WriteStatus)
    decreases |script|
  {
    if script == [] then (w, InProgress)
    else
      var (w', status) := Attempt(w, results, taskId, script[0]);
      if status == InProgress then Run(w', results, taskId, script[1..]) else (w', status)
  }

  /**
   * An accepted add stores the slice `[getPartTotal(), tryNum)` under `numAppendNum(taskId, |part|)`,
   * appends `tryNum` (the end index) to `part` and resets `try`; it resolves exactly when the new
   * total equals the number of results.
   */
  lemma AttemptAccepted(w: Writer, results: seq<Result>, taskId: nat)
    requires NumAppendNum(taskId, |w.part|) !in w.data
    ensures var tryNum := TryNum(|results|, w.try);
      var key := NumAppendNum(taskId, |w.part|);
      var chunk := TaskData(key, Slice(results, Sum(w.part), tryNum));
      var (w', status) := Attempt(w, results, taskId, Accepted);
      && w' == Writer(w.part + [tryNum], 0, w.data[key := chunk])
      && (status == Resolved <==> Sum(w.part) + tryNum == |results|)
      && (status != Resolved ==> status == InProgress)
      && (Sum(w.part) >= tryNum ==> chunk.data == [])
  {
    var tryNum := TryNum(|results|, w.try);
    SumAppend(w.part, tryNum);
  }

  /** A size refusal raises `try` by exactly one and leaves `part` and the store alone */
  lemma AttemptTooLarge(w: Writer, results: seq<Result>, taskId: nat, msg: string)
    requires NumAppendNum(taskId, |w.part|) !in w.data
    requires Includes(msg, TooLargeMarker)
    ensures Attempt(w, results, taskId, Refused(Some(msg))) == (Writer(w.part, w.try + 1, w.data), InProgress)
  {
  }

  /**
   * Any other refusal with a non-empty message resets `try` and rejects with that message;
   * an add on a taken key is such a refusal
   */
  lemma AttemptOtherError(w: Writer, results: seq<Result>, taskId: nat, outcome: AddOutcome)
    requires NumAppendNum(taskId, |w.part|) in w.data ||
             (HasMessage(outcome) && !Includes(outcome.message.value, TooLargeMarker))
    ensures Attempt(w, results, taskId, outcome).0 == Writer(w.part, 0, w.data)
    ensures Attempt(w, results, taskId, outcome).1.Rejected?
    ensures NumAppendNum(taskId, |w.part|) !in w.data ==>
      Attempt(w, results, taskId, outcome).1 == Rejected(outcome.message.value)
  {
  }

  /**
   * A refusal without a message, or with an empty one, leaves everything as it was, and the
   * writer never settles
   */
  lemma RunUnsettled(w: Writer, results: seq<Result>, taskId: nat, script: seq<AddOutcome>)
    requires script != [] && script[0].Refused? && !HasMessage(script[0])
    requires NumAppendNum(taskId, |w.part|) !in w.data
    ensures Run(w, results, taskId, script) == (w, Unsettled)
  {
  }

  /** After a rejection nothing else is written, whatever the engine would answer */
  lemma RunRejectedStops(w: Writer, results: seq<Result>, taskId: nat, script: seq<AddOutcome>)
    requires script != [] && Attempt(w, results, taskId, script[0]).1.Rejected?
    ensures Run(w, results, taskId, script) == (Writer(w.part, 0, w.data), Attempt(w, results, taskId, script[0]).1)
  {
  }

  /** A first attempt that succeeds stores the whole result sequence as chunk 0 and resolves */
  lemma RunFirstAttemptWhole(data: map<nat, TaskData>, results: seq<Result>, taskId: nat, script: seq<AddOutcome>)
    requires script != [] && script[0] == Accepted
    requires NumAppendNum(taskId, 0) !in data
    ensures var key := NumAppendNum(taskId, 0);
      Run(Writer([], 0, data), results, taskId, script) ==
        (Writer([|results|], 0, data[key := TaskData(key, results)]), Resolved)
  {
    var key := NumAppendNum(taskId, 0);
    assert TryNum(|results|, 0) == |results|;
    assert Slice(results, 0, |results|) == results;
    AttemptAccepted(Writer([], 0, data), results, taskId);
    assert Attempt(Writer([], 0, data), results, taskId, Accepted).0 ==
      Writer([|results|], 0, data[key := TaskData(key, results)]);
    assert Attempt(Writer([], 0, data), results, taskId, Accepted).1 == Resolved;
  }

  /** Once the parts add up to more than the results, the writer can never resolve */
  lemma {:induction false} RunPastTotalNeverResolves(w: Writer, results: seq<Result>, taskId: nat,
                                                      script: seq<AddOutcome>)
    requires Sum(w.part) > |results|
    ensures Run(w, results, taskId, script).1 != Resolved
    ensures Sum(Run(w, results, taskId, script).0.part) > |results|
    decreases |script|
  {
    if script != [] {
      var (w', status) := Attempt(w, results, taskId, script[0]);
      SumAppend(w.part, TryNum(|results|, w.try));
      assert Sum(w'.part) >= Sum(w.part);
      if status == InProgress {
        RunPastTotalNeverResolves(w', results, taskId, script[1..]);
      }
    }
  }

  /**
   * Back-off breaks the writer: if the first accepted chunk came after a size refusal and is not
   * empty, and the next add is accepted too, the parts overshoot the result count and the writer
   * never resolves, however the engine answers afterwards.
   */
  lemma RunBackOffNeverResolves(data: map<nat, TaskData>, try: nat, results: seq<Result>, taskId: nat,
                                script: seq<AddOutcome>)
    requires try >= 1 && TryNum(|results|, try) >= 1
    requires |script| >= 2 && script[0] == Accepted && script[1] == Accepted
    ensures Run(Writer([], try, data), results, taskId, script).1 != Resolved
  {
    var n := |results|;
    var t := TryNum(n, try);
    var (w1, s1) := Attempt(Writer([], try, data), results, taskId, Accepted);
    if s1 == InProgress {
      assert w1.part == [t] && w1.try == 0;
      assert Sum([t]) == t;
      var (w2, s2) := Attempt(w1, results, taskId, Accepted);
      assert script[1..][0] == Accepted;
      if s2 == InProgress {
        assert w2.part == [t, n];
        assert Sum([t, n]) == t + n;
        RunPastTotalNeverResolves(w2, results, taskId, script[2..]);
        assert script[1..][1..] == script[2..];
      }
    }
  }

  /** The concatenation of the slices the parts describe: chunk `j` is `[Sum(part[..j]), part[j])` */
  function Pieces(results: seq<Result>, part: seq<nat>): seq<Result>
  {
    if part == [] then []
    else
      var init := part[..|part| - 1];
      Pieces(results, init) + Slice(results, Sum(init), part[|part| - 1])
  }

  /** Chunks `from ..< |part|` of task `taskId` are stored with the slices `part` describes */
  ghost predicate ChunksStored(data: map<nat, TaskData>, taskId: nat, results: seq<Result>, part: seq<nat>,
                               from: nat)
  {
    forall j :: from <= j < |part| ==>
      var key := NumAppendNum(taskId, j);
      key in data && data[key] == TaskData(key, Slice(results, Sum(part[..j]), part[j]))
  }

  /**
   * What a run leaves behind: the old parts are a prefix of the new ones, no record is overwritten,
   * and every new chunk `j` is stored under `numAppendNum(taskId, j)` with the slice the parts describe.
   */
  lemma {:induction false} RunStoresChunks(w: Writer, results: seq<Result>, taskId: nat,
                                           script: seq<AddOutcome>)
    ensures var w' := Run(w, results, taskId, script).0;
      && w.part <= w'.part
      && (forall k :: k in w.data ==> k in w'.data && w'.data[k] == w.data[k])
      && ChunksStored(w'.data, taskId, results, w'.part, |w.part|)
    decreases |script|
  {
    if script != [] {
      var (w1, s1) := Attempt(w, results, taskId, script[0]);
      AttemptStores(w, results, taskId, script[0]);
      if s1 == InProgress {
        RunStoresChunks(w1, results, taskId, script[1..]);
        var w' := Run(w1, results, taskId, script[1..]).0;
        forall j | |w.part| <= j < |w'.part|
          ensures var key := NumAppendNum(taskId, j);
            key in w'.data && w'.data[key] == TaskData(key, Slice(results, Sum(w'.part[..j]), w'.part[j]))
        {
          if j < |w1.part| {
            assert w'.part[..j] == w1.part[..j] && w'.part[j] == w1.part[j];
          }
        }
      }
    }
  }

  /** One attempt: either nothing new is stored, or exactly the chunk for the new last part */
  lemma AttemptStores(w: Writer, results: seq<Result>, taskId: nat, outcome: AddOutcome)
    ensures var w1 := Attempt(w, results, taskId, outcome).0;
      && w.part <= w1.part
      && (forall k :: k in w.data ==> k in w1.data && w1.data[k] == w.data[k])
      && ChunksStored(w1.data, taskId, results, w1.part, |w.part|)
  {
    if NumAppendNum(taskId, |w.part|) !in w.data && outcome == Accepted {
      AcceptedStores(w, results, taskId);
    } else {
      AttemptKeeps(w, results, taskId, outcome);
    }
  }

  lemma AcceptedStores(w: Writer, results: seq<Result>, taskId: nat)
    requires NumAppendNum(taskId, |w.part|) !in w.data
    ensures var w1 := Attempt(w, results, taskId, Accepted).0;
      && w.part <= w1.part
      && (forall k :: k in w.data ==> k in w1.data && w1.data[k] == w.data[k])
      && ChunksStored(w1.data, taskId, results, w1.part, |w.part|)
  {
    AttemptAccepted(w, results, taskId);
    var tryNum := TryNum(|results|, w.try);
    var key := NumAppendNum(taskId, |w.part|);
    var part := w.part + [tryNum];
    var data := w.data[key := TaskData(key, Slice(results, Sum(w.part), tryNum))];
    assert part[..|w.part|] == w.part;
    assert ChunksStored(data, taskId, results, part, |w.part|) by {
      forall j | |w.part| <= j < |part|
        ensures NumAppendNum(taskId, j) in data
        ensures data[NumAppendNum(taskId, j)] == TaskData(NumAppendNum(taskId, j), Slice(results, Sum(part[..j]), part[j]))
      {
        assert j == |w.part|;
      }
    }
  }

  /** Any attempt but an accepted add on a free key leaves `part` and the store as they were */
  lemma AttemptKeeps(w: Writer, results: seq<Result>, taskId: nat, outcome: AddOutcome)
    requires NumAppendNum(taskId, |w.part|) in w.data || outcome != Accepted
    ensures Attempt(w, results, taskId, outcome).0.part == w.part
    ensures Attempt(w, results, taskId, outcome).0.data == w.data
  {
  }

  /** A single part equal to the result count describes the whole sequence */
  lemma PiecesWhole(results: seq<Result>)
    ensures Pieces(results, [|results|]) == results
  {
    assert [|results|][..0] == [];
  }

  /**
   * The writer can resolve without storing every result: four results, a size refusal before each
   * accepted add, and the checkpoint covers only the first two.
   */
  lemma RunResolvesShort(results: seq<Result>, taskId: nat)
    requires |results| == 4
    ensures var tooLarge := Refused(Some(TooLargeMarker));
      var (w, status) := Run(Writer([], 0, map[]), results, taskId, [tooLarge, Accepted, tooLarge, Accepted]);
      && status == Resolved
      && w.part == [2, 2]
      && Pieces(results, w.part) == results[..2]
  {
    var tooLarge := Refused(Some(TooLargeMarker));
    assert Includes(TooLargeMarker, TooLargeMarker) by {
      assert TooLargeMarker[..|TooLargeMarker|] == TooLargeMarker;
    }
    NumAppendNumInjective(taskId, 0, 1);
    assert TryNum(4, 0) == 4 && TryNum(4, 1) == 2;
    var script := [tooLarge, Accepted, tooLarge, Accepted];
    var w1 := Writer([], 1, map[]);
    assert Attempt(Writer([], 0, map[]), results, taskId, tooLarge) == (w1, InProgress);
    var k0 := NumAppendNum(taskId, 0);
    var w2 := Writer([2], 0, map[k0 := TaskData(k0, results[0..2])]);
    AttemptAccepted(w1, results, taskId);
    assert Slice(results, 0, 2) == results[0..2];
    assert Attempt(w1, results, taskId, Accepted).0 == w2;
    assert Attempt(w1, results, taskId, Accepted).1 == InProgress;
    var w3 := Writer([2], 1, w2.data);
    assert Attempt(w2, results, taskId, tooLarge) == (w3, InProgress);
    var k1 := NumAppendNum(taskId, 1);
    var w4 := Writer([2, 2], 0, w2.data[k1 := TaskData(k1, [])]);
    assert k1 !in w3.data;
    AttemptAccepted(w3, results, taskId);
    assert Sum([2]) == 2;
    assert [2] + [2] == [2, 2];
    assert Slice(results, 2, 2) == [];
    assert Attempt(w3, results, taskId, Accepted).0 == w4;
    assert Attempt(w3, results, taskId, Accepted).1 == Resolved;
    assert Run(w3, results, taskId, [Accepted]) == (w4, Resolved);
    assert script[1..] == [Accepted, tooLarge, Accepted] && script[2..] == [tooLarge, Accepted];
    assert [Accepted, tooLarge, Accepted][1..] == [tooLarge, Accepted];
    assert [tooLarge, Accepted][1..] == [Accepted];
    assert Run(w2, results, taskId, [tooLarge, Accepted]) == (w4, Resolved);
    assert Run(w1, results, taskId, [Accepted, tooLarge, Accepted]) == (w4, Resolved);
    assert Run(Writer([], 0, map[]), results, taskId, script) == (w4, Resolved);
    assert [2, 2][..1] == [2];
    assert Pieces(results, [2]) == results[0..2] by { assert [2][..0] == []; }
  }
}
