/**
 What holds in every reachable session: difficulties frozen at dispatch, shares
 that win a block surviving the difficulty check, and accepted shares that can
 be accounted for.
 */
module SessionTheorems {
  import opened Text
  import VarDiff
  import opened JobCache
  import JobId
  import opened Session

  datatype Env = Env(config: VarDiff.Config, diff1: real)

  datatype Event =
    | Subscribe
    | Authorize(worker: string, latest: Option<MiningJob>)
    | Broadcast(job: MiningJob)
    | Submitted(sub: Submit, cached: Option<MiningJob>, header: Option<nat>, now: real)

  /** A `mining.notify`, and whether it came from a broadcast or from an authorize. */
  datatype Dispatch = Dispatch(job: MiningJob, pDiff: real, broadcast: bool)

  /** A session together with every job dispatched since the last `clean_jobs`. */
  datatype Track = Track(s: State, log: seq<Dispatch>)

  function EntryOf(d: Dispatch): AssignedJob {
    AssignedJob(d.job.jobId, d.pDiff, d.job.ntime)
  }

  function Step(env: Env, validAddress: string -> bool, t: Track, e: Event): Track
    requires CanRetarget(env.config, t.s)
  {
    match e
    case Subscribe => t.(s := t.s.(subscribed := true))
    case Authorize(worker, latest) =>
      var s' := AuthorizeStep(t.s, worker, validAddress, latest);
      Track(s', if s'.authorized && latest.Some?
                then t.log + [Dispatch(latest.value, t.s.diff.current, false)] else t.log)
    case Broadcast(job) =>
      var s' := BroadcastStep(t.s, job, env.diff1);
      Track(s', (if job.cleanJobs then [] else t.log) + [Dispatch(job, s'.diff.current, true)])
    case Submitted(sub, cached, header, now) =>
      t.(s := SubmitStep(env.config, t.s, sub, cached, header, env.diff1, now))
  }

  /** Every ceiling a job brings is at least the floor. */
  ghost predicate Fits(env: Env, e: Event) {
    e.Broadcast? && NDiff(e.job, env.diff1).Some? ==> env.config.minFloor <= NDiff(e.job, env.diff1).value
  }

  // ----- the invariant -----

  /** The assigned jobs are the newest dispatches, at most 128 of them. */
  ghost predicate QueueMatchesLog(t: Track) {
    && |t.s.jobs| == (if |t.log| < MAX_ASSIGNED_JOBS then |t.log| else MAX_ASSIGNED_JOBS)
    && forall i | 0 <= i < |t.s.jobs| :: t.s.jobs[i] == EntryOf(t.log[|t.log| - |t.s.jobs| + i])
  }

  /** Difficulties are frozen within bounds; a broadcast job never above its own network difficulty. */
  ghost predicate FrozenWithinBounds(env: Env, log: seq<Dispatch>) {
    forall k | 0 <= k < |log| ::
      && env.config.minFloor <= log[k].pDiff
      && (log[k].broadcast && NDiff(log[k].job, env.diff1).Some?
          ==> log[k].pDiff <= NDiff(log[k].job, env.diff1).value)
  }

  ghost predicate Invariant(env: Env, t: Track) {
    && VarDiff.ValidConfig(env.config) && VarDiff.Bounded(env.config, t.s.diff)
    && QueueMatchesLog(t) && FrozenWithinBounds(env, t.log)
  }

  lemma AssignMatchesLog(jobs: seq<AssignedJob>, log: seq<Dispatch>, s: State, d: Dispatch)
    requires QueueMatchesLog(Track(s.(jobs := jobs), log))
    ensures QueueMatchesLog(Track(s.(jobs := Assign(jobs, EntryOf(d))), log + [d]))
  {
  }

  lemma RetargetKeepsBounds(c: VarDiff.Config, d: VarDiff.State, now: real)
    requires VarDiff.ValidConfig(c) && VarDiff.Bounded(c, d)
    ensures VarDiff.Bounded(c, VarDiff.Retargeted(c, VarDiff.ShareRecorded(d, now), now))
  {
  }

  lemma AuthorizeKeepsInvariant(
    env: Env, validAddress: string -> bool, t: Track, worker: string, latest: Option<MiningJob>)
    requires Invariant(env, t)
    ensures Invariant(env, Step(env, validAddress, t, Authorize(worker, latest)))
  {
    var s := Authorized(t.s, worker, validAddress);
    if s.authorized && latest.Some? {
      AssignMatchesLog(t.s.jobs, t.log, s, Dispatch(latest.value, t.s.diff.current, false));
    }
  }

  lemma BroadcastKeepsQueue(env: Env, validAddress: string -> bool, t: Track, job: MiningJob)
    requires Invariant(env, t)
    ensures QueueMatchesLog(Step(env, validAddress, t, Broadcast(job)))
  {
    var s' := BroadcastStep(t.s, job, env.diff1);
    if job.cleanJobs {
      AssignMatchesLog([], [], s', Dispatch(job, s'.diff.current, true));
    } else {
      AssignMatchesLog(t.s.jobs, t.log, s', Dispatch(job, s'.diff.current, true));
    }
  }

  lemma BroadcastKeepsInvariant(env: Env, validAddress: string -> bool, t: Track, job: MiningJob)
    requires Invariant(env, t) && Fits(env, Broadcast(job))
    ensures Invariant(env, Step(env, validAddress, t, Broadcast(job)))
  {
    BroadcastKeepsQueue(env, validAddress, t, job);
  }

  lemma SubmitKeepsInvariant(
    env: Env, validAddress: string -> bool, t: Track, sub: Submit, cached: Option<MiningJob>, header: Option<nat>,
    now: real)
    requires Invariant(env, t)
    ensures Invariant(env, Step(env, validAddress, t, Submitted(sub, cached, header, now)))
  {
    RetargetKeepsBounds(env.config, t.s.diff, now);
  }

  lemma StepKeepsInvariant(env: Env, validAddress: string -> bool, t: Track, e: Event)
    requires Invariant(env, t) && Fits(env, e)
    ensures Invariant(env, Step(env, validAddress, t, e))
  {
    match e
    case Subscribe =>
    case Authorize(worker, latest) => AuthorizeKeepsInvariant(env, validAddress, t, worker, latest);
    case Broadcast(job) => BroadcastKeepsInvariant(env, validAddress, t, job);
    case Submitted(sub, cached, header, now) => SubmitKeepsInvariant(env, validAddress, t, sub, cached, header, now);
  }

  function Start(env: Env, nDiff: real, now: real): Track
    requires env.config.minFloor <= nDiff
  {
    Track(State(false, false, {}, [], VarDiff.Initial(env.config, nDiff, now)), [])
  }

  ghost function Run(env: Env, validAddress: string -> bool, t: Track, events: seq<Event>): (r: Track)
    requires Invariant(env, t) && forall e | e in events :: Fits(env, e)
    ensures Invariant(env, r)
    decreases |events|
  {
    if events == [] then t
    else
      StepKeepsInvariant(env, validAddress, t, events[0]);
      Run(env, validAddress, Step(env, validAddress, t, events[0]), events[1..])
  }

  /** A state some run of a session leads to. */
  ghost predicate Reachable(env: Env, validAddress: string -> bool, t: Track) {
    && VarDiff.ValidConfig(env.config)
    && exists nDiff: real, now: real, events: seq<Event> :: Leads(env, validAddress, nDiff, now, events, t)
  }

  /** The session opened at `nDiff` gets to `t` by these events. */
  ghost predicate Leads(
    env: Env, validAddress: string -> bool, nDiff: real, now: real, events: seq<Event>, t: Track)
    requires VarDiff.ValidConfig(env.config)
  {
    && env.config.minFloor <= nDiff
    && (forall e | e in events :: Fits(env, e))
    && (StartKeepsInvariant(env, nDiff, now);
        t == Run(env, validAddress, Start(env, nDiff, now), events))
  }

  lemma StartKeepsInvariant(env: Env, nDiff: real, now: real)
    requires VarDiff.ValidConfig(env.config) && env.config.minFloor <= nDiff
    ensures Invariant(env, Start(env, nDiff, now))
  {
  }

  lemma ReachableKeepsInvariant(env: Env, validAddress: string -> bool, t: Track)
    requires Reachable(env, validAddress, t)
    ensures Invariant(env, t)
  {
    var nDiff: real, now: real, events: seq<Event> :| Leads(env, validAddress, nDiff, now, events, t);
    StartKeepsInvariant(env, nDiff, now);
  }

  // ----- shares that win a block -----

  lemma HashTimesDifficulty(h: real, p: real, t: real, diff1: real)
    requires 0.0 <= h <= t && t > 0.0 && 0.0 < p <= diff1 / t
    ensures h * p <= diff1
  {
    VarDiff.MultiplyOrder(p, h, t);
    VarDiff.MultiplyOrder(t, p, diff1 / t);
    assert t * (diff1 / t) == diff1;
  }

  lemma TargetTimesDifficulty(p: real, t: real, diff1: real)
    requires t > 0.0 && t * p <= diff1
    ensures p <= diff1 / t
  {
    var q := diff1 / t;
    assert t * q == diff1;
    assert q < p ==> t * q < t * p;
  }

  /**
   No hash that meets the network target fails the difficulty check exactly when
   the frozen difficulty is at most the job's network difficulty.
   */
  lemma WinningHashesPassIff(p: real, target: nat, diff1: real)
    requires p > 0.0 && target > 0
    ensures (forall h: nat | h <= target :: MeetsDifficulty(h, p, diff1)) <==> p <= diff1 / target as real
  {
    if p <= diff1 / target as real {
      forall h: nat | h <= target
        ensures MeetsDifficulty(h, p, diff1)
      {
        HashTimesDifficulty(h as real, p, target as real, diff1);
      }
    }
    if forall h: nat | h <= target :: MeetsDifficulty(h, p, diff1) {
      assert MeetsDifficulty(target, p, diff1);
      TargetTimesDifficulty(p, target as real, diff1);
    }
  }

  /** The submission is well-formed, from an authorized worker, and on a queued job. */
  predicate WellFormed(s: State, sub: Submit) {
    && sub.worker in s.workers && ValidFormat(sub.en2, sub.ntime, sub.nonce)
    && var entry := FindAssigned(s.jobs, sub.jobId);
       entry.Some? && sub.ntime == entry.value.ntime
  }

  /**
   In every reachable session, a well-formed submission on a queued job is accepted and
   recognised as a block for every hash that meets the network target, if and only if the
   difficulty of the entry found for the job is at most the job's network difficulty.
   */
  lemma WinningSharesAcceptedIff(env: Env, validAddress: string -> bool, t: Track, job: MiningJob, sub: Submit)
    requires Reachable(env, validAddress, t) && WellFormed(t.s, sub) && NDiff(job, env.diff1).Some?
    ensures
      (forall hash: nat | hash <= job.target.value ::
         Judge(t.s, sub, Some(job), Some(hash), env.diff1).verdict == Verdict(true, None, true, true, Some(hash)))
      <==> FindAssigned(t.s.jobs, sub.jobId).value.pDiff <= NDiff(job, env.diff1).value
    ensures
      (forall hash: nat | hash <= job.target.value ::
         Judge(t.s, sub, Some(job), Some(hash), env.diff1).verdict.accepted)
      <==> FindAssigned(t.s.jobs, sub.jobId).value.pDiff <= NDiff(job, env.diff1).value
  {
    ReachableKeepsInvariant(env, validAddress, t);
    var entry := FindAssigned(t.s.jobs, sub.jobId).value;
    QueuedDifficulty(env, t, entry);
    WinningHashesPassIff(entry.pDiff, job.target.value, env.diff1);
    forall hash: nat | hash <= job.target.value
      ensures Judge(t.s, sub, Some(job), Some(hash), env.diff1).verdict
        == if MeetsDifficulty(hash, entry.pDiff, env.diff1)
           then Verdict(true, None, true, true, Some(hash)) else Rejected(LowDifficultyShare)
    {
    }
  }

  // ----- the verdict, condition by condition -----

  /** The position of the job a submission is checked against: the oldest queued entry with its id. */
  predicate ChecksAgainst(s: State, sub: Submit, i: nat) {
    i < |s.jobs| && s.jobs[i].jobId == sub.jobId && forall j | 0 <= j < i :: s.jobs[j].jobId != sub.jobId
  }

  lemma {:induction false} FoundIff(jobs: seq<AssignedJob>, jobId: string, i: nat)
    requires i <= |jobs| && forall j | 0 <= j < i :: jobs[j].jobId != jobId
    ensures i < |jobs| && jobs[i].jobId == jobId ==> FindAssigned(jobs, jobId) == Some(jobs[i])
    ensures i == |jobs| ==> FindAssigned(jobs, jobId) == None
  {
    if i > 0 { FoundIff(jobs[1..], jobId, i - 1); }
  }

  /** The hash of the header meets the difficulty the job was queued at. */
  predicate HardEnough(header: Option<nat>, pDiff: real, diff1: real) {
    header.Some? && pDiff > 0.0 && header.value as real * pDiff <= diff1
  }

  /**
   A submission on a queued job that is still cached is accepted if and only if its worker is
   authorized, its format valid, its ntime that of the job, its hash hard enough for the
   difficulty frozen at dispatch, and the network target readable. It is a block if and only
   if its hash is also within that target.
   */
  lemma AcceptedIff(s: State, sub: Submit, job: MiningJob, header: Option<nat>, diff1: real, i: nat)
    requires ChecksAgainst(s, sub, i)
    ensures
      var v := Judge(s, sub, Some(job), header, diff1).verdict;
      && (v.accepted <==>
            && sub.worker in s.workers && ValidFormat(sub.en2, sub.ntime, sub.nonce) && sub.ntime == s.jobs[i].ntime
            && HardEnough(header, s.jobs[i].pDiff, diff1) && job.target.Some?)
      && (v.networkOk <==> v.accepted && header.value <= job.target.value)
      && v.blockHash == (if v.networkOk then header else None)
      && v.lowDiffOk == v.accepted
  {
    FoundIff(s.jobs, sub.jobId, i);
  }

  /** A submission whose job is not queued, or no longer cached, is never accepted. */
  lemma NotQueuedIsRejected(s: State, sub: Submit, cached: Option<MiningJob>, header: Option<nat>, diff1: real)
    requires cached.None? || forall i | 0 <= i < |s.jobs| :: s.jobs[i].jobId != sub.jobId
    ensures
      var v := Judge(s, sub, cached, header, diff1).verdict;
      && !v.accepted && !v.networkOk && v.blockHash == None
      && v.reason == Some(
           if cached.Some? && sub.worker !in s.workers then UnauthorizedWorker
           else if cached.Some? && !ValidFormat(sub.en2, sub.ntime, sub.nonce) then InvalidSubmitShape
           else StaleJob)
  {
    if cached.Some? { FoundIff(s.jobs, sub.jobId, |s.jobs|); }
  }

  /** Why a submission on a queued, cached job is rejected: each reason exactly under its own condition. */
  lemma ReasonIff(s: State, sub: Submit, job: MiningJob, header: Option<nat>, diff1: real, i: nat)
    requires ChecksAgainst(s, sub, i)
    ensures
      var r := Judge(s, sub, Some(job), header, diff1).verdict.reason;
      var known := sub.worker in s.workers;
      var shaped := known && ValidFormat(sub.en2, sub.ntime, sub.nonce);
      var timely := shaped && sub.ntime == s.jobs[i].ntime;
      var hard := HardEnough(header, s.jobs[i].pDiff, diff1);
      && (r == Some(UnauthorizedWorker) <==> !known)
      && (r == Some(InvalidSubmitShape) <==>
            (known && !shaped) || (timely && header.None?) || (timely && hard && job.target.None?))
      && (r == Some(NtimeMismatch) <==> shaped && !timely)
      && (r == Some(LowDifficultyShare) <==> timely && header.Some? && !hard)
      && r != Some(StaleJob)
      && (r == None <==> Judge(s, sub, Some(job), header, diff1).verdict.accepted)
  {
    FoundIff(s.jobs, sub.jobId, i);
  }

  /** What a submission is recorded with: the cached job's template, and the difficulty it was queued at. */
  lemma RecordedWith(s: State, sub: Submit, cached: Option<MiningJob>, header: Option<nat>, diff1: real, i: nat)
    requires ChecksAgainst(s, sub, i) || (i == |s.jobs| && forall j | 0 <= j < i :: s.jobs[j].jobId != sub.jobId)
    ensures
      var r := Judge(s, sub, cached, header, diff1);
      && r.difficulty == (if i < |s.jobs| then s.jobs[i].pDiff else s.diff.current)
      && (cached.Some? ==> r.templateId == cached.value.templateId && r.epoch == cached.value.templateEpoch)
  {
    FoundIff(s.jobs, sub.jobId, i);
  }

  // ----- formats and names -----

  function HexValue(c: char): Option<nat> {
    if '0' <= c <= '9' then Some(c as int - '0' as int)
    else if 'a' <= c <= 'f' then Some(c as int - 'a' as int + 10)
    else if 'A' <= c <= 'F' then Some(c as int - 'A' as int + 10)
    else None
  }

  /** The bytes of a hex string. */
  function Decode(s: string): Option<seq<nat>> {
    if s == "" then Some([])
    else if |s| == 1 then None
    else
      match (HexValue(s[0]), HexValue(s[1]), Decode(s[2..]))
      case (Some(hi), Some(lo), Some(rest)) => Some([16 * hi + lo] + rest)
      case _ => None
  }

  lemma {:induction false} DecodesIff(s: string)
    ensures Decode(s).Some? <==> |s| % 2 == 0 && AllHex(s)
    ensures Decode(s).Some? ==> 2 * |Decode(s).value| == |s| && forall b | b in Decode(s).value :: b < 256
  {
    if |s| >= 2 {
      DecodesIff(s[2..]);
      assert forall i | 2 <= i < |s| :: s[i] == s[2..][i - 2];
    }
  }

  predicate DecodesTo(s: string, least: nat, most: nat) {
    Decode(s).Some? && least <= |Decode(s).value| <= most
  }

  /**
   A submission is well shaped exactly when it decodes to an extranonce of 1 to 8 bytes, 6
   bytes of ntime and 8 of nonce.
   */
  lemma ValidFormatIff(en2: string, ntime: string, nonce: string)
    ensures ValidFormat(en2, ntime, nonce) <==> DecodesTo(en2, 1, 8) && DecodesTo(ntime, 6, 6) && DecodesTo(nonce, 8, 8)
  {
    DecodesIff(en2);
    DecodesIff(ntime);
    DecodesIff(nonce);
  }

  predicate NamesWorker(name: string, address: string, suffix: string) {
    name == address + "." + suffix && '.' !in address && suffix != ""
  }

  /** A worker name is a valid address, alone or with a nonempty suffix after its first dot. */
  lemma WorkerNameIff(name: string, validAddress: string -> bool)
    ensures IsWorkerName(name, validAddress) <==>
      || ('.' !in name && validAddress(name))
      || exists address, suffix :: NamesWorker(name, address, suffix) && validAddress(address)
  {
    var (address, suffix) := SplitFirst(name, '.');
    if suffix.Some? {
      assert suffix.value != "" ==> NamesWorker(name, address, suffix.value);
      assert name[|address|] == '.';
    }
    forall a, x | NamesWorker(name, a, x)
      ensures SplitFirst(name, '.') == (a, Some(x))
    {
      SplitsAtFirst(a, x);
    }
  }

  lemma {:induction false} SplitsAtFirst(a: string, x: string)
    requires '.' !in a
    ensures SplitFirst(a + "." + x, '.') == (a, Some(x))
  {
    if a == "" {
      assert (a + "." + x)[1..] == x;
    } else {
      SplitsAtFirst(a[1..], x);
      assert (a + "." + x)[1..] == a[1..] + "." + x;
      assert [a[0]] + a[1..] == a;
    }
  }

  /** Every queued entry was dispatched at a difficulty no lower than the floor. */
  lemma QueuedDifficulty(env: Env, t: Track, entry: AssignedJob)
    requires Invariant(env, t) && entry in t.s.jobs
    ensures entry.pDiff > 0.0
    ensures exists k :: 0 <= k < |t.log| && entry == EntryOf(t.log[k])
  {
    var i :| 0 <= i < |t.s.jobs| && t.s.jobs[i] == entry;
    assert entry == EntryOf(t.log[|t.log| - |t.s.jobs| + i]);
  }

  // ----- sessions whose broadcasts all clear the queue -----

  predicate Clean(e: Event) {
    e.Broadcast? ==> e.job.cleanJobs
  }

  /** Only the oldest dispatch can be a broadcast, and then nothing in the log is above its network difficulty. */
  ghost predicate CleanInvariant(env: Env, t: Track) {
    && (forall k | 0 < k < |t.log| :: !t.log[k].broadcast)
    && (t.log != [] && t.log[0].broadcast && NDiff(t.log[0].job, env.diff1).Some? ==>
          && t.s.diff.max == NDiff(t.log[0].job, env.diff1).value
          && forall k | 0 <= k < |t.log| :: t.log[k].pDiff <= t.s.diff.max)
  }

  lemma StepKeepsClean(env: Env, validAddress: string -> bool, t: Track, e: Event)
    requires Invariant(env, t) && CleanInvariant(env, t) && Clean(e)
    ensures CleanInvariant(env, Step(env, validAddress, t, e))
  {
  }

  lemma {:induction false} RunKeepsClean(env: Env, validAddress: string -> bool, t: Track, events: seq<Event>)
    requires Invariant(env, t) && CleanInvariant(env, t)
    requires forall e | e in events :: Fits(env, e) && Clean(e)
    ensures CleanInvariant(env, Run(env, validAddress, t, events))
    decreases |events|
  {
    if events != [] {
      assert events[0] in events;
      StepKeepsInvariant(env, validAddress, t, events[0]);
      StepKeepsClean(env, validAddress, t, events[0]);
      RunKeepsClean(env, validAddress, Step(env, validAddress, t, events[0]), events[1..]);
    }
  }

  /** A session reached with broadcasts that all clear the queue, which is what the event consumer sends. */
  ghost predicate CleanlyReachable(env: Env, validAddress: string -> bool, t: Track) {
    && VarDiff.ValidConfig(env.config)
    && exists nDiff: real, now: real, events: seq<Event> ::
         Leads(env, validAddress, nDiff, now, events, t) && forall e | e in events :: Clean(e)
  }

  /**
   In every such session a well-formed submission on a broadcast job that is still queued,
   by whichever dispatch, is accepted and recognised for every hash that meets the network
   target.
   */
  lemma BlockWinningShareSurvives(
    env: Env, validAddress: string -> bool, t: Track, k: nat, sub: Submit, hash: nat)
    requires CleanlyReachable(env, validAddress, t) && k < |t.log| && t.log[k].broadcast
    requires WellFormed(t.s, sub) && sub.jobId == t.log[k].job.jobId
    requires NDiff(t.log[k].job, env.diff1).Some? && hash <= t.log[k].job.target.value
    ensures
      Judge(t.s, sub, Some(t.log[k].job), Some(hash), env.diff1).verdict
      == Verdict(true, None, true, true, Some(hash))
  {
    CleanlyReachableIsClean(env, validAddress, t);
    var entry := FindAssigned(t.s.jobs, sub.jobId).value;
    QueuedDifficulty(env, t, entry);
    WinningSharesAcceptedIff(env, validAddress, t, t.log[k].job, sub);
  }

  lemma CleanlyReachableIsClean(env: Env, validAddress: string -> bool, t: Track)
    requires CleanlyReachable(env, validAddress, t)
    ensures Reachable(env, validAddress, t) && Invariant(env, t) && CleanInvariant(env, t)
  {
    var nDiff: real, now: real, events: seq<Event> :|
      Leads(env, validAddress, nDiff, now, events, t) && forall e | e in events :: Clean(e);
    StartKeepsInvariant(env, nDiff, now);
    RunKeepsClean(env, validAddress, Start(env, nDiff, now), events);
  }

  /**
   A job dispatched on authorize is not covered: the newest cached job may have
   a lower network difficulty than the ceiling the session was opened with.
   Here a hash that wins the block is rejected as a low-difficulty share.
   */
  lemma AuthorizedJobCanRejectBlock(validAddress: string -> bool)
    returns (env: Env, nDiff: real, job: MiningJob, sub: Submit, hash: nat)
    requires forall a :: validAddress(a)
    ensures VarDiff.ValidConfig(env.config) && env.config.minFloor <= nDiff
    ensures job.target.Some? && hash <= job.target.value
    ensures
      var t := Step(env, validAddress, Step(env, validAddress, Start(env, nDiff, 0.0), Subscribe),
                    Authorize(sub.worker, Some(job)));
      Judge(t.s, sub, Some(job), Some(hash), env.diff1).verdict.reason == Some(LowDifficultyShare)
  {
    env := Env(VarDiff.Config(0.001, 0.02, 20.0, 60.0, 0.3), 100.0);
    nDiff, hash := 100.0, 100;
    job := MiningJob("job-7-1", 7, 1, "000000000000", Some(100), true, 1, 0);
    sub := Submit("w", "job-7-1", "00", "000000000000", "0000000000000000");
    var s := Start(env, nDiff, 0.0);
    assert s.s.diff.current == 2.0;
    var t := Step(env, validAddress, Step(env, validAddress, s, Subscribe), Authorize("w", Some(job)));
    NameWithoutDot(validAddress);
    assert t.s.jobs == [AssignedJob("job-7-1", 2.0, "000000000000")];
    TooHardForItsJob(t.s, sub, job, 100, 2.0, 100.0);
  }

  /**
   Nor is a broadcast that does not clear the queue, of a job already dispatched on
   authorize: the older, harder entry is the one found, and a hash that wins the block is
   rejected although the broadcast entry is queued.
   */
  lemma UncleanBroadcastCanRejectBlock(validAddress: string -> bool)
    returns (env: Env, t: Track, sub: Submit, hash: nat)
    requires forall a :: validAddress(a)
    ensures Reachable(env, validAddress, t) && |t.log| == 2 && t.log[1].broadcast && EntryOf(t.log[1]) in t.s.jobs
    ensures WellFormed(t.s, sub) && sub.jobId == t.log[1].job.jobId
    ensures t.log[1].job.target.Some? && hash <= t.log[1].job.target.value
    ensures Judge(t.s, sub, Some(t.log[1].job), Some(hash), env.diff1).verdict.reason == Some(LowDifficultyShare)
  {
    env, hash := RACE_ENV, 100;
    sub := Submit("w", "job-7-1", "00", "000000000000", "0000000000000000");
    t := UncleanRun(validAddress);
    OlderEntryFound(t.s.jobs, "job-7-1");
  }

  const RACE_ENV := Env(VarDiff.Config(0.001, 0.02, 20.0, 60.0, 0.3), 100.0)
  const UNCLEAN_JOB := MiningJob("job-7-1", 7, 1, "000000000000", Some(100), false, 1, 0)

  lemma OlderEntryFound(jobs: seq<AssignedJob>, id: string)
    requires jobs != [] && jobs[0].jobId == id
    ensures FindAssigned(jobs, id) == Some(jobs[0])
  {
  }

  /** The authorize dispatches the job at difficulty 2. */
  lemma DispatchedOnAuthorize(validAddress: string -> bool, t: Track)
    requires IsWorkerName("w", validAddress) && t.s.subscribed && t.s.workers == {} && t.s.jobs == [] && t.log == []
    requires CanRetarget(RACE_ENV.config, t.s) && t.s.diff.current == 2.0
    ensures Step(RACE_ENV, validAddress, t, Authorize("w", Some(UNCLEAN_JOB)))
      == Track(State(true, true, {"w"}, [AssignedJob("job-7-1", 2.0, "000000000000")], t.s.diff),
               [Dispatch(UNCLEAN_JOB, 2.0, false)])
  {
  }

  /** The broadcast of the same job lowers the difficulty to 1 and queues it again. */
  lemma DispatchedAgain(validAddress: string -> bool, t: Track)
    requires CanRetarget(RACE_ENV.config, t.s) && t.s.diff.current == 2.0 && |t.s.jobs| == 1
    ensures
      var t' := Step(RACE_ENV, validAddress, t, Broadcast(UNCLEAN_JOB));
      && t'.s.jobs == t.s.jobs + [AssignedJob("job-7-1", 1.0, "000000000000")]
      && t'.log == t.log + [Dispatch(UNCLEAN_JOB, 1.0, true)] && t'.s.workers == t.s.workers
  {
    assert NDiff(UNCLEAN_JOB, 100.0) == Some(1.0);
  }

  lemma UncleanRun(validAddress: string -> bool) returns (t: Track)
    requires forall a :: validAddress(a)
    ensures Reachable(RACE_ENV, validAddress, t)
    ensures t.s.workers == {"w"}
    ensures t.s.jobs == [AssignedJob("job-7-1", 2.0, "000000000000"), AssignedJob("job-7-1", 1.0, "000000000000")]
    ensures t.log == [Dispatch(UNCLEAN_JOB, 2.0, false), Dispatch(UNCLEAN_JOB, 1.0, true)]
  {
    var s0 := Start(RACE_ENV, 100.0, 0.0);
    StartKeepsInvariant(RACE_ENV, 100.0, 0.0);
    assert s0.s.diff.current == 2.0;
    NameWithoutDot(validAddress);
    assert NDiff(UNCLEAN_JOB, 100.0) == Some(1.0);
    var events := [Subscribe, Authorize("w", Some(UNCLEAN_JOB)), Broadcast(UNCLEAN_JOB)];
    t := ThreeEvents(RACE_ENV, validAddress, s0, events);
    var t1 := Step(RACE_ENV, validAddress, s0, Subscribe);
    DispatchedOnAuthorize(validAddress, t1);
    DispatchedAgain(validAddress, Step(RACE_ENV, validAddress, t1, events[1]));
    assert Leads(RACE_ENV, validAddress, 100.0, 0.0, events, t);
  }

  lemma ThreeEvents(env: Env, validAddress: string -> bool, t: Track, events: seq<Event>) returns (t': Track)
    requires Invariant(env, t) && |events| == 3 && forall e | e in events :: Fits(env, e)
    ensures t' == Run(env, validAddress, t, events)
    ensures
      var t1 := Step(env, validAddress, t, events[0]);
      Invariant(env, t1) &&
      var t2 := Step(env, validAddress, t1, events[1]);
      Invariant(env, t2) && t' == Step(env, validAddress, t2, events[2])
  {
    var t1 := Step(env, validAddress, t, events[0]);
    StepKeepsInvariant(env, validAddress, t, events[0]);
    var t2 := Step(env, validAddress, t1, events[1]);
    StepKeepsInvariant(env, validAddress, t1, events[1]);
    StepKeepsInvariant(env, validAddress, t2, events[2]);
    t' := Step(env, validAddress, t2, events[2]);
    assert events[1..][1..] == events[2..] && events[2..][1..] == [];
    assert Run(env, validAddress, t, events) == Run(env, validAddress, t1, events[1..]);
    assert Run(env, validAddress, t1, events[1..]) == Run(env, validAddress, t2, events[2..]);
    assert Run(env, validAddress, t2, events[2..]) == Run(env, validAddress, t', []);
  }

  /** A hash that misses the frozen difficulty is rejected, whatever the network target. */
  lemma TooHardForItsJob(s: State, sub: Submit, job: MiningJob, hash: nat, pDiff: real, diff1: real)
    requires s.jobs == [AssignedJob(sub.jobId, pDiff, sub.ntime)] && sub.worker in s.workers
    requires ValidFormat(sub.en2, sub.ntime, sub.nonce) && !MeetsDifficulty(hash, pDiff, diff1)
    ensures Judge(s, sub, Some(job), Some(hash), diff1).verdict.reason == Some(LowDifficultyShare)
  {
    assert FindAssigned(s.jobs, sub.jobId) == Some(s.jobs[0]);
  }

  lemma NameWithoutDot(validAddress: string -> bool)
    requires forall a :: validAddress(a)
    ensures IsWorkerName("w", validAddress)
  {
    assert SplitFirst("w"[1..], '.') == ("", None);
    assert ['w'] + "" == "w";
  }

  // ----- accepted shares -----

  /**
   In every reachable session an accepted share names an authorized worker and a
   job dispatched since the last `clean_jobs`, and is credited the difficulty
   frozen at that dispatch, which is the one its hash was checked against.
   */
  lemma AcceptedShareIsAccountable(
    env: Env, validAddress: string -> bool, t: Track, sub: Submit, cached: Option<MiningJob>, header: Option<nat>)
    requires Reachable(env, validAddress, t)
    requires Judge(t.s, sub, cached, header, env.diff1).verdict.accepted
    ensures sub.worker in t.s.workers && cached.Some? && header.Some?
    ensures exists k ::
      && 0 <= k < |t.log| && t.log[k].job.jobId == sub.jobId && t.log[k].job.ntime == sub.ntime
      && Judge(t.s, sub, cached, header, env.diff1).difficulty == t.log[k].pDiff
    ensures MeetsDifficulty(header.value, Judge(t.s, sub, cached, header, env.diff1).difficulty, env.diff1)
  {
    ReachableKeepsInvariant(env, validAddress, t);
    var entry := FindAssigned(t.s.jobs, sub.jobId).value;
    var i :| 0 <= i < |t.s.jobs| && t.s.jobs[i] == entry;
    var k := |t.log| - |t.s.jobs| + i;
    assert t.s.jobs[i] == EntryOf(t.log[k]);
  }

  /** Only authorize requests with a valid name put a worker in the session. */
  lemma {:induction false} WorkersWereAuthorized(
    env: Env, validAddress: string -> bool, t: Track, events: seq<Event>, w: string)
    requires Invariant(env, t) && forall e | e in events :: Fits(env, e)
    requires w in Run(env, validAddress, t, events).s.workers && w !in t.s.workers
    ensures IsWorkerName(w, validAddress)
    ensures exists e :: e in events && e.Authorize? && e.worker == w
    decreases |events|
  {
    if events != [] {
      StepKeepsInvariant(env, validAddress, t, events[0]);
      var t' := Step(env, validAddress, t, events[0]);
      if w in t'.s.workers {
        assert events[0] in events && events[0].Authorize? && events[0].worker == w;
      } else {
        WorkersWereAuthorized(env, validAddress, t', events[1..], w);
        var e :| e in events[1..] && e.Authorize? && e.worker == w;
        assert e in events;
      }
    }
  }

  // ----- keys of submissions -----

  /**
   Evicting the job from the cache never changes the difficulty a submission is recorded
   with, and leaves its template and epoch as they were exactly when the job is still
   assigned or both are zero.
   */
  lemma EvictionKeepsMetadataIff(s: State, sub: Submit, job: MiningJob, header: Option<nat>, diff1: real)
    requires job.jobId == JobId.Print(job.templateId, job.templateEpoch) && sub.jobId == job.jobId
    requires job.templateId < JobId.U64_LIMIT && job.templateEpoch < JobId.U64_LIMIT
    ensures
      var kept, evicted := Judge(s, sub, Some(job), header, diff1), Judge(s, sub, None, header, diff1);
      && kept.difficulty == evicted.difficulty
      && (kept.templateId == evicted.templateId && kept.epoch == evicted.epoch
          <==> FindAssigned(s.jobs, sub.jobId).Some? || (job.templateId == 0 && job.templateEpoch == 0))
  {
    JobId.ParsePrint(job.templateId, job.templateEpoch);
  }

  /** Format-valid strings contain no separator, so their dedupe keys are unique. */
  lemma ValidSubmissionKeyIsUnique(
    w: int, t: nat, e: nat, en2: string, ntime: string, nonce: string,
    w': int, t': nat, e': nat, en2': string, ntime': string, nonce': string)
    requires ValidFormat(en2, ntime, nonce)
    requires JobId.DedupeKey(w, t, e, en2, ntime, nonce) == JobId.DedupeKey(w', t', e', en2', ntime', nonce')
    ensures (w, t, e, en2, ntime, nonce) == (w', t', e', en2', ntime', nonce')
  {
    JobId.KeyInjective(w, t, e, en2, ntime, nonce, w', t', e', en2', ntime', nonce');
  }
}
