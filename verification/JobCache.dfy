/**
 The job cache: a map of jobs and a queue of ids in insertion order, bounded to
 `maxSize`. It is compared with the plain list of everything inserted.
 */
module JobCache {
  import opened Orders
  import opened Text

  /** What the pool keeps of a mining job; `target` is missing when the hex does not parse. */
  datatype MiningJob = MiningJob(
    jobId: string, templateId: nat, templateEpoch: nat, ntime: string, target: Option<nat>,
    cleanJobs: bool, height: int, coinbaseValue: nat)

  datatype CacheState = CacheState(cache: map<string, MiningJob>, order: seq<string>)

  function Keep(order: seq<string>, maxSize: nat): (kept: seq<string>) {
    if |order| <= maxSize then order else order[|order| - maxSize..]
  }

  function Evict(order: seq<string>, maxSize: nat): (gone: seq<string>) {
    if |order| <= maxSize then [] else order[..|order| - maxSize]
  }

  function Inserted(s: CacheState, job: MiningJob, maxSize: nat): CacheState {
    var order := s.order + [job.jobId];
    CacheState((s.cache - Elements(Evict(order, maxSize)))[job.jobId := job], Keep(order, maxSize))
  }

  function Latest(s: CacheState): Option<MiningJob> {
    if s.order == [] then None
    else
      var id := s.order[|s.order| - 1];
      if id in s.cache then Some(s.cache[id]) else None
  }

  class Cache {
    const maxSize: nat
    var cache: map<string, MiningJob>
    var order: seq<string>

    ghost function View(): CacheState
      reads this
    {
      CacheState(cache, order)
    }

    constructor (maxSize: nat)
      ensures View() == CacheState(map[], []) && this.maxSize == maxSize
    {
      this.maxSize := maxSize;
      cache := map[];
      order := [];
    }

    method Insert(job: MiningJob)
      modifies this
      ensures View() == Inserted(old(View()), job, maxSize)
    {
      order := order + [job.jobId];
      ghost var all := order;
      ghost var n := 0;
      while |order| > maxSize
        invariant 0 <= n <= |all| && order == all[n..]
        invariant n > 0 ==> n + maxSize <= |all|
        invariant cache == old(cache) - Elements(all[..n])
      {
        var oldest := order[0];
        assert all[..n + 1] == all[..n] + [oldest];
        order := order[1..];
        cache := cache - {oldest};
        n := n + 1;
      }
      assert order == Keep(all, maxSize);
      assert all[..n] == Evict(all, maxSize);
      cache := cache[job.jobId := job];
    }

    method Get(jobId: string) returns (job: Option<MiningJob>)
      ensures job == if jobId in cache then Some(cache[jobId]) else None
    {
      if jobId in cache {
        job := Some(cache[jobId]);
      } else {
        job := None;
      }
    }

    method GetLatest() returns (job: Option<MiningJob>)
      ensures job == Latest(View())
    {
      if |order| > 0 {
        job := Get(order[|order| - 1]);
      } else {
        job := None;
      }
    }

    method Len() returns (n: nat)
      ensures n == |order|
    {
      n := |order|;
    }
  }

  // ----- every sequence of inserts -----

  function Replay(jobs: seq<MiningJob>, maxSize: nat): CacheState {
    if jobs == [] then CacheState(map[], [])
    else Inserted(Replay(jobs[..|jobs| - 1], maxSize), jobs[|jobs| - 1], maxSize)
  }

  function Ids(jobs: seq<MiningJob>): (ids: seq<string>)
    ensures |ids| == |jobs| && forall i | 0 <= i < |jobs| :: ids[i] == jobs[i].jobId
  {
    seq(|jobs|, i requires 0 <= i < |jobs| => jobs[i].jobId)
  }

  /** The last `maxSize` jobs inserted. */
  function Recent(jobs: seq<MiningJob>, maxSize: nat): (recent: seq<MiningJob>) {
    if |jobs| <= maxSize then jobs else jobs[|jobs| - maxSize..]
  }

  lemma KeepRecent(before: seq<MiningJob>, job: MiningJob, maxSize: nat)
    requires maxSize >= 1
    ensures Keep(Ids(Recent(before, maxSize)) + [job.jobId], maxSize) == Ids(Recent(before + [job], maxSize))
  {
    var order := Ids(Recent(before, maxSize)) + [job.jobId];
    var recent := Recent(before + [job], maxSize);
    var kept := Keep(order, maxSize);
    assert |kept| == |recent|;
    forall i | 0 <= i < |kept|
      ensures kept[i] == recent[i].jobId
    {
      assert kept[i] == order[|order| - |kept| + i];
      assert recent[i] == (before + [job])[|before| + 1 - |recent| + i];
    }
  }

  /** The queue is exactly the ids of the last `maxSize` jobs. */
  lemma {:induction false} QueueIsRecent(jobs: seq<MiningJob>, maxSize: nat)
    requires maxSize >= 1
    ensures Replay(jobs, maxSize).order == Ids(Recent(jobs, maxSize))
  {
    if jobs != [] {
      var n := |jobs| - 1;
      QueueIsRecent(jobs[..n], maxSize);
      KeepRecent(jobs[..n], jobs[n], maxSize);
      assert jobs == jobs[..n] + [jobs[n]];
    }
  }

  /** The latest job is the last one inserted. */
  lemma LatestIsLastInserted(jobs: seq<MiningJob>, maxSize: nat)
    requires maxSize >= 1 && jobs != []
    ensures Latest(Replay(jobs, maxSize)) == Some(jobs[|jobs| - 1])
  {
    QueueIsRecent(jobs, maxSize);
  }

  /**
   `p` is the insertion that `id` is cached from: the last one, and not undone by an earlier
   one leaving the queue.
   */
  ghost predicate CachedFrom(jobs: seq<MiningJob>, maxSize: nat, id: string, p: int) {
    && 0 <= p < |jobs| && |jobs| - maxSize <= p && jobs[p].jobId == id
    && (forall q | p < q < |jobs| :: jobs[q].jobId != id)
    && (forall q | 0 <= q < |jobs| - maxSize && p - maxSize < q :: jobs[q].jobId != id)
  }

  /** Exactly what is cached, for any inserts, repeated ids included. */
  lemma {:induction false} CachedIff(jobs: seq<MiningJob>, maxSize: nat, id: string)
    requires maxSize >= 1
    ensures id in Replay(jobs, maxSize).cache <==> exists p :: CachedFrom(jobs, maxSize, id, p)
    ensures forall p | CachedFrom(jobs, maxSize, id, p) ::
      id in Replay(jobs, maxSize).cache && Replay(jobs, maxSize).cache[id] == jobs[p]
  {
    if jobs != [] {
      var n := |jobs| - 1;
      var before := jobs[..n];
      var job := jobs[n];
      CachedIff(before, maxSize, id);
      QueueIsRecent(before, maxSize);
      var s := Replay(before, maxSize);
      var gone := Evict(s.order + [job.jobId], maxSize);
      OneLeaves(before, job, maxSize);
      if id == job.jobId {
        assert CachedFrom(jobs, maxSize, id, n);
      } else {
        assert id in Replay(jobs, maxSize).cache <==> id in s.cache && id !in gone;
        forall p
          ensures CachedFrom(jobs, maxSize, id, p) <==> CachedFrom(before, maxSize, id, p) && id !in gone
        {
          CachedFromStep(jobs, maxSize, id, p);
        }
      }
    }
  }

  /** At most one id leaves the queue per insert: that of the job `maxSize` places back. */
  lemma OneLeaves(before: seq<MiningJob>, job: MiningJob, maxSize: nat)
    requires maxSize >= 1
    ensures
      var gone := Evict(Replay(before, maxSize).order + [job.jobId], maxSize);
      gone == if |before| < maxSize then [] else [before[|before| - maxSize].jobId]
  {
    QueueIsRecent(before, maxSize);
    var order := Replay(before, maxSize).order;
    if |before| >= maxSize {
      assert Recent(before, maxSize)[0] == before[|before| - maxSize];
      assert |order| == maxSize;
    }
  }

  lemma CachedFromStep(jobs: seq<MiningJob>, maxSize: nat, id: string, p: int)
    requires maxSize >= 1 && jobs != [] && id != jobs[|jobs| - 1].jobId
    ensures
      var before := jobs[..|jobs| - 1];
      CachedFrom(jobs, maxSize, id, p) <==>
        CachedFrom(before, maxSize, id, p)
        && (|before| >= maxSize ==> before[|before| - maxSize].jobId != id)
  {
    var before := jobs[..|jobs| - 1];
    assert forall q | 0 <= q < |before| :: before[q] == jobs[q];
  }

  /** What the inserts determine about the cache, without replaying them. */
  ghost predicate Describes(s: CacheState, jobs: seq<MiningJob>, maxSize: nat) {
    && s.order == Ids(Recent(jobs, maxSize))
    && (forall id :: id in s.cache <==> exists p :: CachedFrom(jobs, maxSize, id, p))
    && (forall id, p | CachedFrom(jobs, maxSize, id, p) :: id in s.cache && s.cache[id] == jobs[p])
  }

  lemma ReplayIsDescribed(jobs: seq<MiningJob>, maxSize: nat)
    requires maxSize >= 1
    ensures Describes(Replay(jobs, maxSize), jobs, maxSize)
  {
    QueueIsRecent(jobs, maxSize);
    forall id
      ensures id in Replay(jobs, maxSize).cache <==> exists p :: CachedFrom(jobs, maxSize, id, p)
      ensures forall p | CachedFrom(jobs, maxSize, id, p) ::
        id in Replay(jobs, maxSize).cache && Replay(jobs, maxSize).cache[id] == jobs[p]
    {
      CachedIff(jobs, maxSize, id);
    }
  }

  lemma QueueAt(s: CacheState, jobs: seq<MiningJob>, maxSize: nat, p: nat)
    requires Describes(s, jobs, maxSize) && |jobs| - maxSize <= p < |jobs|
    ensures |s.order| == if |jobs| < maxSize then |jobs| else maxSize
    ensures s.order[p - (|jobs| - |s.order|)] == jobs[p].jobId
  {
  }

  lemma CachedAreQueued(s: CacheState, jobs: seq<MiningJob>, maxSize: nat)
    requires Describes(s, jobs, maxSize)
    ensures s.cache.Keys <= Elements(s.order)
  {
    forall id | id in s.cache
      ensures id in Elements(s.order)
    {
      var p :| CachedFrom(jobs, maxSize, id, p);
      QueueAt(s, jobs, maxSize, p);
    }
  }

  /** Cached ids are among the queued ones. */
  lemma CachedIsQueued(jobs: seq<MiningJob>, maxSize: nat)
    requires maxSize >= 1
    ensures Replay(jobs, maxSize).cache.Keys <= Elements(Replay(jobs, maxSize).order)
  {
    ReplayIsDescribed(jobs, maxSize);
    CachedAreQueued(Replay(jobs, maxSize), jobs, maxSize);
  }

  /** No recent job repeats the id of one of the `maxSize - 1` inserts before it. */
  ghost predicate RecentAreDistinct(jobs: seq<MiningJob>, maxSize: nat) {
    forall p, q | 0 <= q < p < |jobs| && |jobs| - maxSize <= p && p - maxSize < q :: jobs[q].jobId != jobs[p].jobId
  }

  lemma DistinctQueue(s: CacheState, jobs: seq<MiningJob>, maxSize: nat)
    requires Describes(s, jobs, maxSize) && RecentAreDistinct(jobs, maxSize)
    ensures |Elements(s.order)| == |s.order|
  {
    forall i, j | 0 <= i < j < |s.order|
      ensures s.order[i] != s.order[j]
    {
      var first := |jobs| - |s.order|;
      assert s.order[i] == jobs[first + i].jobId && s.order[j] == jobs[first + j].jobId;
    }
    DistinctLength(s.order);
  }

  lemma RecentIsCached(s: CacheState, jobs: seq<MiningJob>, maxSize: nat, p: nat)
    requires Describes(s, jobs, maxSize) && RecentAreDistinct(jobs, maxSize) && |jobs| - maxSize <= p < |jobs|
    ensures jobs[p].jobId in s.cache && s.cache[jobs[p].jobId] == jobs[p]
  {
    assert CachedFrom(jobs, maxSize, jobs[p].jobId, p);
  }

  ghost predicate BoundedFifo(s: CacheState, jobs: seq<MiningJob>, maxSize: nat) {
    && s.order == Ids(Recent(jobs, maxSize))
    && s.cache.Keys == Elements(s.order)
    && (forall job | job in Recent(jobs, maxSize) :: job.jobId in s.cache && s.cache[job.jobId] == job)
    && |s.cache| == |s.order|
  }

  lemma AllRecentCached(s: CacheState, jobs: seq<MiningJob>, maxSize: nat)
    requires Describes(s, jobs, maxSize) && RecentAreDistinct(jobs, maxSize)
    ensures forall job | job in Recent(jobs, maxSize) :: job.jobId in s.cache && s.cache[job.jobId] == job
  {
    forall job | job in Recent(jobs, maxSize)
      ensures job.jobId in s.cache && s.cache[job.jobId] == job
    {
      var p := RecentPosition(jobs, maxSize, job);
      RecentIsCached(s, jobs, maxSize, p);
    }
  }

  lemma RecentPosition(jobs: seq<MiningJob>, maxSize: nat, job: MiningJob) returns (p: nat)
    requires job in Recent(jobs, maxSize)
    ensures |jobs| - maxSize <= p < |jobs| && jobs[p] == job
  {
    var recent := Recent(jobs, maxSize);
    var k :| 0 <= k < |recent| && recent[k] == job;
    p := |jobs| - |recent| + k;
  }

  lemma QueuedAreCached(s: CacheState, recent: seq<MiningJob>)
    requires s.order == Ids(recent) && forall job | job in recent :: job.jobId in s.cache
    ensures Elements(s.order) <= s.cache.Keys
  {
    forall id | id in Elements(s.order)
      ensures id in s.cache
    {
      var k :| 0 <= k < |s.order| && s.order[k] == id;
      assert recent[k] in recent;
    }
  }

  lemma DistinctGivesFifo(s: CacheState, jobs: seq<MiningJob>, maxSize: nat)
    requires Describes(s, jobs, maxSize) && RecentAreDistinct(jobs, maxSize)
    ensures BoundedFifo(s, jobs, maxSize)
  {
    CachedAreQueued(s, jobs, maxSize);
    AllRecentCached(s, jobs, maxSize);
    QueuedAreCached(s, Recent(jobs, maxSize));
    DistinctQueue(s, jobs, maxSize);
    assert |s.cache| == |s.cache.Keys|;
  }

  /** With distinct ids the cache is a bounded FIFO: it holds exactly the last `maxSize` jobs. */
  lemma CacheIsBoundedFifo(jobs: seq<MiningJob>, maxSize: nat)
    requires maxSize >= 1 && RecentAreDistinct(jobs, maxSize)
    ensures BoundedFifo(Replay(jobs, maxSize), jobs, maxSize)
  {
    ReplayIsDescribed(jobs, maxSize);
    DistinctGivesFifo(Replay(jobs, maxSize), jobs, maxSize);
  }

  /** `len` counts the cached jobs exactly when no recent job repeats one of the `maxSize - 1` inserts before it. */
  lemma LenAgreesIff(jobs: seq<MiningJob>, maxSize: nat)
    requires maxSize >= 1
    ensures |Replay(jobs, maxSize).cache| == |Replay(jobs, maxSize).order| <==> RecentAreDistinct(jobs, maxSize)
  {
    ReplayIsDescribed(jobs, maxSize);
    if RecentAreDistinct(jobs, maxSize) {
      DistinctGivesFifo(Replay(jobs, maxSize), jobs, maxSize);
    } else {
      var p, q :| 0 <= q < p < |jobs| && |jobs| - maxSize <= p && p - maxSize < q && jobs[q].jobId == jobs[p].jobId;
      RepeatLosesOne(Replay(jobs, maxSize), jobs, maxSize, p, q);
    }
  }

  lemma RepeatLosesOne(s: CacheState, jobs: seq<MiningJob>, maxSize: nat, p: nat, q: nat)
    requires Describes(s, jobs, maxSize)
    requires q < p < |jobs| && |jobs| - maxSize <= p && p - maxSize < q && jobs[q].jobId == jobs[p].jobId
    ensures |s.cache| < |s.order|
  {
    CachedAreQueued(s, jobs, maxSize);
    assert |s.cache| == |s.cache.Keys|;
    if i, j :| 0 <= i < j < |s.order| && s.order[i] == s.order[j] {
      RepeatedLength(s.order, i, j);
      SubsetSize(s.cache.Keys, Elements(s.order));
    } else {
      QueueAt(s, jobs, maxSize, p);
      NotCached(s, jobs, maxSize, p, q);
      SubsetSize(s.cache.Keys, Elements(s.order) - {jobs[p].jobId});
      DistinctLength(s.order);
    }
  }

  lemma NotCached(s: CacheState, jobs: seq<MiningJob>, maxSize: nat, p: nat, q: nat)
    requires Describes(s, jobs, maxSize)
    requires q < p < |jobs| && |jobs| - maxSize <= p && p - maxSize < q && jobs[q].jobId == jobs[p].jobId
    requires forall i, j | 0 <= i < j < |s.order| :: s.order[i] != s.order[j]
    ensures jobs[p].jobId !in s.cache
  {
    var id := jobs[p].jobId;
    var first := |jobs| - |s.order|;
    QueueAt(s, jobs, maxSize, p);
    assert q < first by {
      if q >= first { QueueAt(s, jobs, maxSize, q); }
    }
    forall r: int
      ensures !CachedFrom(jobs, maxSize, id, r)
    {
      if |jobs| - maxSize <= r < |jobs| && 0 <= r && jobs[r].jobId == id {
        QueueAt(s, jobs, maxSize, r);
        assert r == p;
      }
    }
  }
}
