/**
 * The checkpoint/resume engine: a `Resume` object holding the recovery flag,
 * the current task id, the chunk bookkeeping (`part`, `try`) and the three
 * object stores, with the writer, the recovery procedure, the four lifecycle
 * handlers and the expiry sweep as methods.
 */
module Resume {
  import opened Wrappers
  import opened Text
  import opened Decimal
  import opened ResultStore
  import opened TaskDb
  import opened ChunkWriter
  import opened Recovery

  /** Retention window of a checkpoint: 30 days in milliseconds */
  const ExpiryTime := 2592000000

  /** `href.split('#')[0]`: the page address without its fragment */
  function GetURL(href: string): (url: string)
    ensures url <= href
    ensures '#' !in url
    ensures |url| < |href| ==> href[|url|] == '#'
  {
    match IndexOf(href, "#")
    case Some(k) =>
      assert forall j :: 0 <= j < k ==> href[j] != '#' by {
        forall j | 0 <= j < k ensures href[j] != '#' {
          assert !OccursAt(href, "#", j);
          assert href[j..j + 1] == [href[j]];
        }
      }
      assert href[k..k + 1] == "#";
      href[..k]
    case None =>
      assert forall j :: 0 <= j < |href| ==> href[j] != '#' by {
        forall j | 0 <= j < |href| ensures href[j] != '#' {
          assert !OccursAt(href, "#", j);
          assert href[j..j + 1] == [href[j]];
        }
      }
      href
  }

  /** The sweep's test: strictly older than the retention window */
  predicate Expired(id: nat, now: int)
  {
    now - id > ExpiryTime
  }

  /** Ids the sweep deletes from `taskMeta` and `taskStates` */
  function ExpiredIds(metas: map<nat, TaskMeta>, now: int): set<nat>
  {
    set k | k in metas && Expired(metas[k].id, now) :: metas[k].id
  }

  /** The records a sweep at `now` keeps */
  function Retained(metas: map<nat, TaskMeta>, now: int): (r: map<nat, TaskMeta>)
    ensures forall k :: k in r <==> k in metas && !Expired(metas[k].id, now)
    ensures forall k :: k in r ==> r[k] == metas[k]
  {
    map k | k in metas && !Expired(metas[k].id, now) :: metas[k]
  }

  /** The sweep deletes exactly the records strictly older than 30 days, by their key */
  lemma ExpiredIdsExact(metas: map<nat, TaskMeta>, now: int)
    requires MetaKeyed(metas)
    ensures forall k :: k in ExpiredIds(metas, now) <==> k in metas && now - k > 2592000000
  {
  }

  /** A finite non-empty set of keys has a least element, where a cursor starts */
  lemma MinimumExists(s: set<nat>)
    requires s != {}
    ensures exists k :: k in s && forall j :: j in s ==> k <= j
  {
    var x :| x in s;
    if s != {x} {
      MinimumExists(s - {x});
      var m :| m in s - {x} && forall j :: j in s - {x} ==> m <= j;
      var least := if x < m then x else m;
      forall j | j in s ensures least <= j {
        if j != x {
          assert j in s - {x};
        }
      }
    } else {
      assert forall j :: j in s ==> x <= j;
    }
  }

  /** The key a cursor over `s` visits first: the least one */
  method LeastKey(s: set<nat>) returns (k: nat)
    requires s != {}
    ensures k in s && forall j :: j in s ==> k <= j
  {
    MinimumExists(s);
    k :| k in s && forall j :: j in s ==> k <= j;
  }

  /** Deleting any set of keys keeps the stores keyed by id and the url index unique */
  lemma RemovalKeepsKeying<S>(metas: map<nat, TaskMeta>, states: map<nat, TaskStates<S>>, ids: set<nat>)
    requires MetaKeyed(metas) && UrlIndexUnique(metas) && StatesKeyed(states)
    ensures MetaKeyed(metas - ids) && UrlIndexUnique(metas - ids) && StatesKeyed(states - ids)
  {
  }

  /** Deleting the expired keys leaves exactly the records within the retention window */
  lemma SweepDone(metas: map<nat, TaskMeta>, deleted: set<nat>, now: int)
    requires MetaKeyed(metas)
    requires forall k :: k in deleted <==> k in metas && Expired(k, now)
    ensures deleted == ExpiredIds(metas, now)
    ensures metas - deleted == Retained(metas, now)
  {
    ExpiredIdsExact(metas, now);
  }

  /** `taskMeta` once the record for `url`, if any, is deleted */
  function MetaCleared(metas: map<nat, TaskMeta>, url: string): map<nat, TaskMeta>
    requires UrlIndexUnique(metas)
  {
    match MetaByUrl(metas, url)
    case Some(m) => Delete(metas, m.id)
    case None => metas
  }

  /** `taskStates` once the record paired with the meta for `url`, if any, is deleted */
  function StatesCleared<S>(metas: map<nat, TaskMeta>, states: map<nat, TaskStates<S>>, url: string)
    : map<nat, TaskStates<S>>
    requires UrlIndexUnique(metas)
  {
    match MetaByUrl(metas, url)
    case Some(m) => Delete(states, m.id)
    case None => states
  }

  /**
   * A new checkpoint supersedes the old one: after deleting the record for `url` and adding
   * `{id: now, url, part}`, the url index is still unique and finds the new record, unless the
   * key `now` was taken, in which case it finds none.
   */
  lemma SupersedeMeta(metas: map<nat, TaskMeta>, url: string, now: nat, part: nat)
    requires UrlIndexUnique(metas) && MetaKeyed(metas)
    ensures var cleared := MetaCleared(metas, url);
      var after := AddMeta(cleared, TaskMeta(now, url, part)).GetOr(cleared);
      && UrlIndexUnique(after) && MetaKeyed(after)
      && (now !in cleared ==> MetaByUrl(after, url) == Some(TaskMeta(now, url, part)))
      && (now in cleared ==> MetaByUrl(after, url) == None)
  {
    var cleared := MetaCleared(metas, url);
    match MetaByUrl(metas, url) {
      case Some(m) => DeleteFoundMeta(metas, url, m.id);
      case None =>
    }
    assert !HasUrl(cleared, url);
  }

  class Resume<S> {
    /** Whether this page load resumes a checkpoint */
    var flag: bool
    /** `taskId!: number`: `None` until a task is created or restored */
    var taskId: Option<nat>
    /** End index recorded for each stored chunk */
    var part: seq<nat>
    /** Consecutive size refusals of the current chunk */
    var try: nat
    var taskMeta: map<nat, TaskMeta>
    var taskData: map<nat, TaskData>
    var taskStates: map<nat, TaskStates<S>>

    /** The stores key records by their ids, and the url index of `taskMeta` is unique */
    ghost predicate Valid()
      reads this
    {
      MetaKeyed(taskMeta) && UrlIndexUnique(taskMeta) && StatesKeyed(taskStates)
    }

    /** The fields the chunk writer works on */
    function WriterState(): Writer
      reads this
    {
      Writer(part, try, taskData)
    }

    /** The object's initial fields, over the stores as the opened database holds them */
    constructor (metas: map<nat, TaskMeta>, data: map<nat, TaskData>, states: map<nat, TaskStates<S>>)
      requires MetaKeyed(metas) && UrlIndexUnique(metas) && StatesKeyed(states)
      ensures Valid()
      ensures !flag && taskId == None && part == [] && try == 0
      ensures taskMeta == metas && taskData == data && taskStates == states
    {
      flag, taskId, part, try := false, None, [], 0;
      taskMeta, taskData, taskStates := metas, data, states;
    }

    /**
     * `saveTaskData`, with the engine's answers to its `add` calls given by `script`;
     * it computes exactly `Run` and touches nothing but `part`, `try` and `taskData`.
     */
    method SaveTaskData(store: Store, script: seq<AddOutcome>) returns (status: WriteStatus)
      requires taskId.Some?
      modifies this`part, this`try, this`taskData
      ensures (WriterState(), status) == Run(old(WriterState()), store.result, taskId.value, script)
    {
      var id := taskId.value;
      var results := store.result;
      var i := 0;
      status := InProgress;
      while i < |script| && status == InProgress
        invariant 0 <= i <= |script|
        invariant status == InProgress ==>
          Run(old(WriterState()), results, id, script) == Run(WriterState(), results, id, script[i..])
        invariant status != InProgress ==> Run(old(WriterState()), results, id, script) == (WriterState(), status)
      {
        status := AddChunk(store, id, script[i]);
        assert script[i..][0] == script[i] && script[i..][1..] == script[i + 1..];
        i := i + 1;
      }
    }

    /** One `add` of `saveTaskData` and what the writer does with the engine's answer */
    method AddChunk(store: Store, id: nat, outcome: AddOutcome) returns (status: WriteStatus)
      modifies this`part, this`try, this`taskData
      ensures (WriterState(), status) == Attempt(old(WriterState()), store.result, id, outcome)
    {
      var tryNum := TryNum(|store.result|, try);
      var chunk := TaskData(NumAppendNum(id, |part|), Slice(store.result, PartTotal(part), tryNum));
      status := InProgress;
      if chunk.id in taskData {
        try := 0;
        status := Rejected(KeyExistsMessage);
      } else {
        match outcome {
          case Accepted =>
            taskData := taskData[chunk.id := chunk];
            part := part + [tryNum];
            try := 0;
            if PartTotal(part) == |store.result| {
              status := Resolved;
            }
          case Refused(Some(msg)) =>
            if msg == "" {
              status := Unsettled;
            } else if Includes(msg, TooLargeMarker) {
              try := try + 1;
            } else {
              try := 0;
              status := Rejected(msg);
            }
          case Refused(None) =>
            status := Unsettled;
        }
      }
    }

    /**
     * `restoreData`: finds the checkpoint for the page, adopts its id, requests the chunk keys
     * `0 ..= meta.part` in ascending order, appends the fetched chunks to the result store and
     * returns the saved download states; without a checkpoint it only clears `flag`.
     */
    method RestoreData(href: string, store: Store) returns (keys: seq<nat>, restored: Option<S>, fault: bool)
      requires Valid()
      modifies this`taskId, this`flag, store`result
      ensures var found := MetaByUrl(taskMeta, GetURL(href));
        && (found.None? ==>
              && !flag && taskId == old(taskId) && store.result == old(store.result)
              && keys == [] && restored == None && !fault)
        && (found.Some? ==>
              && flag && taskId == Some(found.value.id)
              && keys == RecoveryKeys(found.value.id, found.value.part)
              && |keys| == found.value.part + 1
              && store.result == old(store.result) + Gather(keys, taskData).0
              && fault == Gather(keys, taskData).1
              && restored == (if found.value.id in taskStates then Some(taskStates[found.value.id].states) else None))
    {
      keys, restored, fault := [], None, false;
      var found := MetaByUrl(taskMeta, GetURL(href));
      if found.None? {
        flag := false;
        return;
      }
      var meta := found.value;
      taskId := Some(meta.id);

      keys := DataIdList(meta.id, meta.part);
      fault := PushChunks(keys, store);
      if meta.id in taskStates {
        restored := Some(taskStates[meta.id].states);
      }
      flag := true;
    }

    /** The chunk keys of a checkpoint, built from `part` down to 0 and then reversed */
    method DataIdList(id: nat, part: nat) returns (keys: seq<nat>)
      ensures keys == RecoveryKeys(id, part)
      ensures |keys| == part + 1 && keys[part] == NumAppendNum(id, part)
    {
      var dataIdList: seq<nat> := [];
      var p: int := part;
      while p >= 0
        invariant -1 <= p <= part
        invariant |dataIdList| == part - p
        invariant forall j :: 0 <= j < |dataIdList| ==> dataIdList[j] == NumAppendNum(id, part - j)
      {
        dataIdList := dataIdList + [NumAppendNum(id, p)];
        p := p - 1;
      }
      keys := Reversed(dataIdList);
    }

    /**
     * Appends the chunks stored under `keys` to the result store in key order, stopping at the
     * first missing key (where `data.data` of a `null` record throws).
     */
    method PushChunks(keys: seq<nat>, store: Store) returns (fault: bool)
      modifies store`result
      ensures store.result == old(store.result) + Gather(keys, taskData).0
      ensures fault == Gather(keys, taskData).1
    {
      fault := false;
      var i := 0;
      ghost var pushed: seq<Result> := [];
      while i < |keys| && !fault
        invariant 0 <= i <= |keys|
        invariant (pushed, fault) == Gather(keys[..i], taskData)
        invariant store.result == old(store.result) + pushed
      {
        assert keys[..i + 1][..i] == keys[..i];
        if keys[i] in taskData {
          store.result := store.result + taskData[keys[i]].data;
          pushed := pushed + taskData[keys[i]].data;
        } else {
          fault := true;
        }
        i := i + 1;
      }
      if fault {
        GatherFaultSticks(keys, taskData, i);
      } else {
        assert keys[..i] == keys;
      }
    }

    /**
     * The `crawlFinish` handler. One fired by recovery itself is ignored; `None` is returned then.
     * Otherwise it deletes the meta and states of the page's old checkpoint, takes `now` as the
     * task id, runs the writer and, only if the writer resolves, adds the meta
     * `{id, url, part: |part|}` and the states record under that id.
     */
    method CrawlFinish(byResume: bool, href: string, now: nat, states: S, store: Store,
                       script: seq<AddOutcome>) returns (status: Option<WriteStatus>)
      requires Valid()
      modifies this
      ensures Valid()
      ensures byResume ==>
        && status == None && flag == old(flag) && taskId == old(taskId) && WriterState() == old(WriterState())
        && taskMeta == old(taskMeta) && taskStates == old(taskStates)
      ensures !byResume ==>
        var url := GetURL(href);
        var metas := MetaCleared(old(taskMeta), url);
        var statesLeft := StatesCleared(old(taskMeta), old(taskStates), url);
        && status.Some? && flag == old(flag) && taskId == Some(now)
        && (WriterState(), status.value) == Run(old(WriterState()), store.result, now, script)
        && taskMeta == (if status.value == Resolved then AddMeta(metas, TaskMeta(now, url, |part|)).GetOr(metas)
                        else metas)
        && taskStates == (if status.value == Resolved then Add(statesLeft, now, TaskStates(now, states)).GetOr(statesLeft)
                          else statesLeft)
    {
      if byResume {
        return None;
      }
      var url := GetURL(href);
      ForgetPage(url);
      taskId := Some(now);
      var s := SaveTaskData(store, script);
      status := Some(s);
      if s == Resolved {
        Checkpoint(url, now, states);
      }
    }

    /** The first step of `crawlFinish`: the meta found for `url` and its states record are deleted */
    method ForgetPage(url: string)
      requires Valid()
      modifies this`taskMeta, this`taskStates
      ensures Valid()
      ensures taskMeta == MetaCleared(old(taskMeta), url)
      ensures taskStates == StatesCleared(old(taskMeta), old(taskStates), url)
    {
      var found := MetaByUrl(taskMeta, url);
      if found.Some? {
        taskMeta := Delete(taskMeta, found.value.id);
        taskStates := Delete(taskStates, found.value.id);
      }
      SupersedeMeta(old(taskMeta), url, 0, 0);
    }

    /** The last step of `crawlFinish`: the meta `{id, url, part: |part|}` and the states record are added */
    method Checkpoint(url: string, id: nat, states: S)
      requires Valid()
      modifies this`taskMeta, this`taskStates
      ensures Valid()
      ensures taskMeta == AddMeta(old(taskMeta), TaskMeta(id, url, |part|)).GetOr(old(taskMeta))
      ensures taskStates == Add(old(taskStates), id, TaskStates(id, states)).GetOr(old(taskStates))
    {
      var added := AddMeta(taskMeta, TaskMeta(id, url, |part|));
      if added.Some? {
        taskMeta := added.value;
      }
      var addedStates := Add(taskStates, id, TaskStates(id, states));
      if addedStates.Some? {
        taskStates := addedStates.value;
      }
    }

    /** The `downloadSuccess` handler: upserts the states record of the current task */
    method DownloadSuccess(states: S)
      requires Valid()
      modifies this`taskStates
      ensures Valid()
      ensures taskId.Some? ==> taskStates == Put(old(taskStates), taskId.value, TaskStates(taskId.value, states))
      ensures taskId.None? ==> taskStates == old(taskStates)
    {
      if taskId.Some? {
        taskStates := Put(taskStates, taskId.value, TaskStates(taskId.value, states));
      }
    }

    /** The `downloadComplete` handler: deletes the meta and states of the current task, never its chunks */
    method DownloadComplete()
      requires Valid()
      modifies this`taskMeta, this`taskStates, this`flag
      ensures Valid() && !flag
      ensures taskId.Some? ==>
        taskMeta == Delete(old(taskMeta), taskId.value) && taskStates == Delete(old(taskStates), taskId.value)
      ensures taskId.None? ==> taskMeta == old(taskMeta) && taskStates == old(taskStates)
    {
      if taskId.Some? {
        taskMeta := Delete(taskMeta, taskId.value);
        taskStates := Delete(taskStates, taskId.value);
      }
      flag := false;
    }

    /** The `crawlStart` handler: leaves recovery mode and forgets the chunk sizes (`try` stays) */
    method CrawlStart()
      modifies this`flag, this`part
      ensures !flag && part == []
    {
      flag := false;
      part := [];
    }

    /**
     * `clearExired`: walks `taskMeta` in ascending key order and deletes the meta and states
     * of every record strictly older than 30 days; chunks are left in place.
     */
    method ClearExpired(now: int)
      requires Valid()
      modifies this`taskMeta, this`taskStates
      ensures Valid()
      ensures taskMeta == Retained(old(taskMeta), now)
      ensures taskStates == old(taskStates) - ExpiredIds(old(taskMeta), now)
    {
      ghost var snapshot := taskMeta;
      ghost var deleted: set<nat> := {};
      var unvisited := taskMeta.Keys;
      while unvisited != {}
        invariant unvisited <= snapshot.Keys
        invariant forall k :: k in deleted <==> k in snapshot && k !in unvisited && Expired(k, now)
        invariant taskMeta == snapshot - deleted
        invariant taskStates == old(taskStates) - deleted
        decreases unvisited
      {
        var k := LeastKey(unvisited);
        var record := taskMeta[k];
        assert record.id == k;
        if now - record.id > ExpiryTime {
          taskMeta := Delete(taskMeta, record.id);
          taskStates := Delete(taskStates, record.id);
          deleted := deleted + {k};
          assert taskMeta == snapshot - deleted;
          assert taskStates == old(taskStates) - deleted;
        }
        unvisited := unvisited - {k};
      }
      assert unvisited == {};
      RemovalKeepsKeying(snapshot, old(taskStates), deleted);
      SweepDone(snapshot, deleted, now);
      assert taskMeta == Retained(snapshot, now);
      assert taskStates == old(taskStates) - ExpiredIds(snapshot, now);
    }
  }
}
