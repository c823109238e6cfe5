/** The batch ingestion pipeline of the barrage (chat message) crawler
    (class BarragePipelineWriteJson), run one call at a time. Producers hand
    batches to Process, which sorts each batch in place and appends it to
    the shared FIFO queue; WriteDataToFileAndFlushCache drains the queue
    item by item into an abstract file sink and into the result list, then
    syncs the sink once. The in-flight producer counter and the merge lock
    are plain fields. */
module BarragePipeline {
  import opened Wrappers

  /** One ingested item; `sortKey` is the key its natural ordering
      (compareTo) compares. */
  datatype Barrage = Barrage(sortKey: int, content: string)

  predicate SortedByKey(s: seq<Barrage>)
  {
    forall i, j :: 0 <= i < j < |s| ==> s[i].sortKey <= s[j].sortKey
  }

  /** The items of `s` whose key is `key`, in their order in `s`. */
  function KeyRun(s: seq<Barrage>, key: int): (r: seq<Barrage>)
    decreases |s|
  {
    if s == [] then []
    else (if s[0].sortKey == key then [s[0]] else []) + KeyRun(s[1..], key)
  }

  /** `t` keeps the relative order of the items of `s` that share a key. */
  ghost predicate SameKeyRuns(s: seq<Barrage>, t: seq<Barrage>)
  {
    forall key :: KeyRun(t, key) == KeyRun(s, key)
  }

  lemma {:induction false} KeyRunAppend(a: seq<Barrage>, b: seq<Barrage>, key: int)
    ensures KeyRun(a + b, key) == KeyRun(a, key) + KeyRun(b, key)
    decreases |a|
  {
    if a != [] {
      assert (a + b)[0] == a[0];
      assert (a + b)[1..] == a[1..] + b;
      KeyRunAppend(a[1..], b, key);
    } else {
      assert a + b == b;
    }
  }

  lemma SameKeyRunsTrans(s: seq<Barrage>, t: seq<Barrage>, u: seq<Barrage>)
    requires SameKeyRuns(s, t) && SameKeyRuns(t, u)
    ensures SameKeyRuns(s, u)
  {
  }

  /** Exchanging two neighbours with different keys keeps every key run. */
  lemma SwapKeepsKeyRuns(s: seq<Barrage>, i: nat)
    requires i + 1 < |s| && s[i].sortKey != s[i + 1].sortKey
    ensures SameKeyRuns(s, s[i := s[i + 1]][i + 1 := s[i]])
  {
    var t := s[i := s[i + 1]][i + 1 := s[i]];
    forall key
      ensures KeyRun(t, key) == KeyRun(s, key)
    {
      assert s == s[..i] + ([s[i], s[i + 1]] + s[i + 2..]);
      assert t == s[..i] + ([s[i + 1], s[i]] + s[i + 2..]);
      KeyRunAppend(s[..i], [s[i], s[i + 1]] + s[i + 2..], key);
      KeyRunAppend(s[..i], [s[i + 1], s[i]] + s[i + 2..], key);
      KeyRunAppend([s[i], s[i + 1]], s[i + 2..], key);
      KeyRunAppend([s[i + 1], s[i]], s[i + 2..], key);
      assert [s[i], s[i + 1]][1..] == [s[i + 1]];
      assert [s[i + 1], s[i]][1..] == [s[i]];
    }
  }

  /** Collections.sort on the caller's list: sorts `a` in place, stably. */
  method SortByKey(a: array<Barrage>)
    modifies a
    ensures SortedByKey(a[..])
    ensures multiset(a[..]) == old(multiset(a[..]))
    ensures SameKeyRuns(old(a[..]), a[..])
  {
    var i := 0;
    while i < a.Length
      invariant 0 <= i <= a.Length
      invariant forall k, l :: 0 <= k < l < i ==> a[k].sortKey <= a[l].sortKey
      invariant multiset(a[..]) == old(multiset(a[..]))
      invariant SameKeyRuns(old(a[..]), a[..])
    {
      InsertLast(a, i);
      i := i + 1;
    }
  }

  /** One insertion-sort round: moves a[i] left into the sorted a[..i],
      past strictly greater keys only. */
  method InsertLast(a: array<Barrage>, i: int)
    requires 0 <= i < a.Length
    requires forall k, l :: 0 <= k < l < i ==> a[k].sortKey <= a[l].sortKey
    modifies a
    ensures forall k, l :: 0 <= k < l <= i ==> a[k].sortKey <= a[l].sortKey
    ensures multiset(a[..]) == old(multiset(a[..]))
    ensures SameKeyRuns(old(a[..]), a[..])
  {
    var j := i;
    while 0 < j && a[j].sortKey < a[j - 1].sortKey
      invariant 0 <= j <= i
      invariant multiset(a[..]) == old(multiset(a[..]))
      invariant SameKeyRuns(old(a[..]), a[..])
      invariant forall k, l :: 0 <= k < l <= i && k != j && l != j ==> a[k].sortKey <= a[l].sortKey
      invariant forall l :: j < l <= i ==> a[j].sortKey <= a[l].sortKey
    {
      ghost var before := a[..];
      SinkOnce(a, i, j);
      SameKeyRunsTrans(old(a[..]), before, a[..]);
      j := j - 1;
    }
  }

  /** One step of the round: a[j] is strictly below its left neighbour and
      changes place with it; the order facts move from j to j - 1. */
  method SinkOnce(a: array<Barrage>, i: int, j: int)
    requires 0 < j <= i < a.Length && a[j].sortKey < a[j - 1].sortKey
    requires forall k, l :: 0 <= k < l <= i && k != j && l != j ==> a[k].sortKey <= a[l].sortKey
    requires forall l :: j < l <= i ==> a[j].sortKey <= a[l].sortKey
    modifies a
    ensures forall k, l :: 0 <= k < l <= i && k != j - 1 && l != j - 1 ==> a[k].sortKey <= a[l].sortKey
    ensures forall l :: j - 1 < l <= i ==> a[j - 1].sortKey <= a[l].sortKey
    ensures multiset(a[..]) == old(multiset(a[..]))
    ensures SameKeyRuns(old(a[..]), a[..])
  {
    SwapKeepsKeyRuns(a[..], j - 1);
    Swap(a, j - 1, j);
  }

  /** Exchanges the neighbours a[i] and a[i + 1]. */
  method Swap(a: array<Barrage>, i: int, j: int)
    requires 0 <= i && j == i + 1 && j < a.Length
    modifies a
    ensures a[i] == old(a[j]) && a[j] == old(a[i])
    ensures forall k :: 0 <= k < a.Length && k != i && k != j ==> a[k] == old(a[k])
    ensures a[..] == old(a[..])[i := old(a[j])][j := old(a[i])]
    ensures multiset(a[..]) == old(multiset(a[..]))
  {
    a[i], a[j] := a[j], a[i];
  }

  /** One append made to the file sink: the item and the partition keys. */
  datatype Record = Record(item: Barrage, keys: seq<string>)

  /** The records that appending every item of `items` under `keys` leaves. */
  function RecordsOf(items: seq<Barrage>, keys: seq<string>): (rs: seq<Record>)
    ensures |rs| == |items|
    ensures forall i :: 0 <= i < |items| ==> rs[i] == Record(items[i], keys)
  {
    seq(|items|, i requires 0 <= i < |items| => Record(items[i], keys))
  }

  lemma RecordsOfSnoc(items: seq<Barrage>, n: nat, keys: seq<string>)
    requires n < |items|
    ensures RecordsOf(items[..n + 1], keys) == RecordsOf(items[..n], keys) + [Record(items[n], keys)]
  {
    assert items[..n + 1] == items[..n] + [items[n]];
  }

  /** The index of the first item the sink rejects, or |items| if none is. */
  function FirstRejected(items: seq<Barrage>, accepts: Barrage -> bool): (k: nat)
    ensures k <= |items|
    ensures forall i :: 0 <= i < k ==> accepts(items[i])
    ensures k < |items| ==> !accepts(items[k])
    decreases |items|
  {
    if items == [] || !accepts(items[0]) then 0
    else 1 + FirstRejected(items[1..], accepts)
  }

  /** The abstract FileCache: an append log and a count of force-syncs.
      `accepts` says which items append takes; append of any other item
      fails (an IO or serialization failure). Buffering and the physical
      writes are not part of this model. */
  class FileCache {
    const accepts: Barrage -> bool
    var records: seq<Record>
    var syncCount: nat

    constructor (accepts: Barrage -> bool)
      ensures this.accepts == accepts && records == [] && syncCount == 0
    {
      this.accepts := accepts;
      records, syncCount := [], 0;
    }

    method Append(item: Barrage, keys: seq<string>) returns (ok: bool)
      modifies this`records
      ensures ok == accepts(item)
      ensures records == if ok then old(records) + [Record(item, keys)] else old(records)
    {
      ok := accepts(item);
      if ok {
        records := records + [Record(item, keys)];
      }
    }

    method ForceSync()
      modifies this`syncCount
      ensures syncCount == old(syncCount) + 1
    {
      syncCount := syncCount + 1;
    }
  }

  /** The sink's log holds exactly the items of `res`, in the same order. */
  predicate Logged(records: seq<Record>, res: seq<Barrage>)
  {
    |records| == |res| && forall i :: 0 <= i < |res| ==> records[i].item == res[i]
  }

  /** Nothing is lost or duplicated: every item ever enqueued is written,
      lost to a failed append, or still queued, exactly once. */
  ghost predicate Conserved(enqueued: seq<Barrage>, res: seq<Barrage>, lost: seq<Barrage>, cache: seq<Barrage>)
  {
    multiset(enqueued) == multiset(res) + multiset(lost) + multiset(cache)
  }

  lemma LoggedSnoc(records: seq<Record>, res: seq<Barrage>, b: Barrage, keys: seq<string>)
    requires Logged(records, res)
    ensures Logged(records + [Record(b, keys)], res + [b])
  {
  }

  /** Polling the head of the queue into res, or into the lost items, keeps
      the conservation of items. */
  lemma ConservedPoll(enqueued: seq<Barrage>, res: seq<Barrage>, lost: seq<Barrage>, cache: seq<Barrage>)
    requires cache != [] && Conserved(enqueued, res, lost, cache)
    ensures Conserved(enqueued, res + [cache[0]], lost, cache[1..])
    ensures Conserved(enqueued, res, lost + [cache[0]], cache[1..])
  {
    assert cache == [cache[0]] + cache[1..];
  }

  /** The drain loop's condition: a producer is mid-merge, or items wait. */
  predicate DrainContinues(alreadyCount: int, cacheSize: int)
  {
    alreadyCount != 0 || cacheSize != 0
  }

  /** How process ends: normally, or with the exception that unlock()
      raises when the lock is not held. */
  datatype ProcessResult = Completed | IllegalMonitorState

  /** How the drain ends: the cumulative count, or the RuntimeException that
      wraps the failure of append on `item`. */
  datatype DrainResult = Flushed(successCount: int) | AppendFailed(item: Barrage)

  class BarragePipelineWriteJson {
    const filecache: FileCache
    var cache: seq<Barrage>          // the shared ConcurrentLinkedQueue
    var res: seq<Barrage>            // every item written, in drain order
    var successCount: int
    var alreadyCount: int            // producers inside process
    var locked: bool                 // whether the merge lock is held
    ghost var enqueued: seq<Barrage> // every item process has put in the queue
    ghost var lost: seq<Barrage>     // items taken from the queue whose append failed

    /** What holds between any two calls, also after the defective null-batch path. */
    ghost predicate Consistent()
      reads this, filecache
    {
      && successCount == |res|
      && Logged(filecache.records, res)
      && Conserved(enqueued, res, lost, cache)
    }

    /** Consistent, with no producer in flight and the lock free. */
    ghost predicate Valid()
      reads this, filecache
    {
      Consistent() && alreadyCount == 0 && !locked
    }

    /** The sink is created by the pipeline. It is taken never to read or
        poll the queue, and building it is taken never to fail. */
    constructor (accepts: Barrage -> bool)
      ensures Valid() && fresh(filecache)
      ensures filecache.accepts == accepts && filecache.records == [] && filecache.syncCount == 0
      ensures cache == [] && res == [] && successCount == 0 && enqueued == [] && lost == []
    {
      filecache := new FileCache(accepts);
      cache, res, successCount, alreadyCount, locked := [], [], 0, 0, false;
      enqueued, lost := [], [];
    }

    /** process with the null batch made a no-op: the counter and the lock
        are touched only when a batch is present. */
    method Process(barrageList: array?<Barrage>)
      requires Valid()
      modifies this, barrageList
      ensures Valid()
      ensures barrageList == null ==> cache == old(cache) && enqueued == old(enqueued)
      ensures barrageList != null ==>
        && SortedByKey(barrageList[..])
        && multiset(barrageList[..]) == old(multiset(barrageList[..]))
        && SameKeyRuns(old(barrageList[..]), barrageList[..])
        && cache == old(cache) + barrageList[..]
        && enqueued == old(enqueued) + barrageList[..]
      ensures res == old(res) && successCount == old(successCount) && lost == old(lost)
      ensures alreadyCount == old(alreadyCount)
    {
      if barrageList != null {
        alreadyCount := alreadyCount + 1;
        locked := true;
        SortByKey(barrageList);
        cache := cache + barrageList[..];
        enqueued := enqueued + barrageList[..];
        alreadyCount := alreadyCount - 1;
        locked := false;
      }
    }

    /** process as the source has it: the finally block decrements the
        counter and unlocks also when the batch is null, and unlock() of a
        lock that is not held raises IllegalMonitorStateException. */
    method ProcessAsWritten(barrageList: array?<Barrage>) returns (r: ProcessResult)
      requires Valid()
      modifies this, barrageList
      ensures Consistent() && !locked
      ensures barrageList == null ==>
        r == IllegalMonitorState && alreadyCount == old(alreadyCount) - 1
        && cache == old(cache) && enqueued == old(enqueued)
      ensures barrageList != null ==>
        && r == Completed && alreadyCount == old(alreadyCount)
        && SortedByKey(barrageList[..])
        && multiset(barrageList[..]) == old(multiset(barrageList[..]))
        && SameKeyRuns(old(barrageList[..]), barrageList[..])
        && cache == old(cache) + barrageList[..]
        && enqueued == old(enqueued) + barrageList[..]
      ensures res == old(res) && successCount == old(successCount) && lost == old(lost)
    {
      if barrageList != null {
        alreadyCount := alreadyCount + 1;
        locked := true;
        SortByKey(barrageList);
        cache := cache + barrageList[..];
        enqueued := enqueued + barrageList[..];
      }
      alreadyCount := alreadyCount - 1;
      if locked {
        locked := false;
        r := Completed;
      } else {
        r := IllegalMonitorState;
      }
    }

    /** getCacheSize. */
    function CacheSize(): (n: int)
      reads this
      ensures n == |cache|
    {
      |cache|
    }

    /** getResult: the items written so far, as many as successCount says. */
    function GetResult(): (r: seq<Barrage>)
      reads this, filecache
      requires Consistent()
      ensures r == res && |r| == successCount
      ensures forall i :: 0 <= i < |r| ==> filecache.records[i].item == r[i]
    {
      res
    }

    /** One iteration of the drain loop: poll; on an empty queue nothing happens. */
    method PollOnce(keys: seq<string>) returns (failed: Option<Barrage>)
      requires Consistent()
      modifies this, filecache
      ensures Consistent()
      ensures alreadyCount == old(alreadyCount) && locked == old(locked) && enqueued == old(enqueued)
      ensures filecache.syncCount == old(filecache.syncCount)
      ensures old(cache) == [] ==>
        && failed == None && cache == [] && res == old(res) && successCount == old(successCount)
        && filecache.records == old(filecache.records) && lost == old(lost)
      ensures old(cache) != [] && filecache.accepts(old(cache)[0]) ==>
        && failed == None && cache == old(cache)[1..]
        && res == old(res) + [old(cache)[0]] && successCount == old(successCount) + 1
        && filecache.records == old(filecache.records) + [Record(old(cache)[0], keys)]
        && lost == old(lost)
      ensures old(cache) != [] && !filecache.accepts(old(cache)[0]) ==>
        && failed == Some(old(cache)[0]) && cache == old(cache)[1..]
        && res == old(res) && successCount == old(successCount)
        && filecache.records == old(filecache.records)
        && lost == old(lost) + [old(cache)[0]]
    {
      failed := None;
      if cache != [] {
        ConservedPoll(enqueued, res, lost, cache);
        LoggedSnoc(filecache.records, res, cache[0], keys);
        failed := WriteHead(keys);
      }
    }

    /** The polled item goes to the sink; if append succeeds it is added to
        res and counted, otherwise it is lost. */
    method WriteHead(keys: seq<string>) returns (failed: Option<Barrage>)
      requires cache != []
      modifies this, filecache
      ensures alreadyCount == old(alreadyCount) && locked == old(locked) && enqueued == old(enqueued)
      ensures filecache.syncCount == old(filecache.syncCount)
      ensures cache == old(cache)[1..]
      ensures filecache.accepts(old(cache)[0]) ==>
        && failed == None
        && res == old(res) + [old(cache)[0]] && successCount == old(successCount) + 1
        && filecache.records == old(filecache.records) + [Record(old(cache)[0], keys)]
        && lost == old(lost)
      ensures !filecache.accepts(old(cache)[0]) ==>
        && failed == Some(old(cache)[0])
        && res == old(res) && successCount == old(successCount)
        && filecache.records == old(filecache.records)
        && lost == old(lost) + [old(cache)[0]]
    {
      var barrage := cache[0];
      var ok := filecache.Append(barrage, keys);
      if ok {
        cache, res, successCount := cache[1..], res + [barrage], successCount + 1;
        failed := None;
      } else {
        cache, lost := cache[1..], lost + [barrage];
        failed := Some(barrage);
      }
    }

    /** writeDataToFileAndFlushCache(keys): drains the whole queue, in FIFO
        order, into the sink and res, then syncs the sink once and returns
        the cumulative count. An append failure ends the drain at once:
        the item has left the queue but is neither in res nor in the sink,
        and no sync happens. */
    method WriteDataToFileAndFlushCache(keys: seq<string>) returns (result: DrainResult)
      requires Valid()
      modifies this, filecache
      ensures Valid()
      ensures enqueued == old(enqueued)
      ensures var k := FirstRejected(old(cache), filecache.accepts);
        && res == old(res) + old(cache)[..k]
        && filecache.records == old(filecache.records) + RecordsOf(old(cache)[..k], keys)
        && successCount == old(successCount) + k
        && (k == |old(cache)| ==>
              && result == Flushed(successCount) && cache == []
              && filecache.syncCount == old(filecache.syncCount) + 1 && lost == old(lost))
        && (k < |old(cache)| ==>
              && result == AppendFailed(old(cache)[k]) && cache == old(cache)[k + 1..]
              && filecache.syncCount == old(filecache.syncCount) && lost == old(lost) + [old(cache)[k]])
    {
      ghost var queue := cache;
      ghost var k := FirstRejected(queue, filecache.accepts);
      ghost var polled := 0;
      while DrainContinues(alreadyCount, |cache|)
        invariant Valid()
        invariant enqueued == old(enqueued) && lost == old(lost)
        invariant 0 <= polled <= k
        invariant cache == queue[polled..]
        invariant res == old(res) + queue[..polled]
        invariant filecache.records == old(filecache.records) + RecordsOf(queue[..polled], keys)
        invariant successCount == old(successCount) + polled
        invariant filecache.syncCount == old(filecache.syncCount)
        decreases |cache|
      {
        var failed := PollOnce(keys);
        if failed.Some? {
          assert polled == k;
          return AppendFailed(failed.value);
        }
        RecordsOfSnoc(queue, polled, keys);
        assert queue[..polled + 1] == queue[..polled] + [queue[polled]];
        polled := polled + 1;
      }
      assert polled == |queue|;
      filecache.ForceSync();
      return Flushed(successCount);
    }
  }

  /** The defect of the null-batch path: from a fresh pipeline, process(null)
      leaves the counter at -1 with an empty queue; a drain iteration then
      changes nothing and the drain condition still holds, so the drain
      loop never ends. */
  method NullBatchStallsDrain(keys: seq<string>) returns (alreadyCount: int, continues: bool)
    ensures alreadyCount == -1
    ensures continues
  {
    var pipeline := new BarragePipelineWriteJson(b => true);
    var r := pipeline.ProcessAsWritten(null);
    assert r == IllegalMonitorState;
    var failed := pipeline.PollOnce(keys);
    alreadyCount := pipeline.alreadyCount;
    continues := failed == None && pipeline.cache == [] && DrainContinues(pipeline.alreadyCount, |pipeline.cache|);
  }
}
