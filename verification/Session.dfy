/**
 A stratum session: subscription, authorization, the queue of assigned jobs,
 share validation and the submit step.

 Two things live in code the pool only calls and are inputs here: whether an
 address parses, and the hash of a header. A hash `h` meets difficulty `d` when
 `h * d <= diff1`, and a target `t` has network difficulty `diff1 / t`.
 */
module Session {
  import opened Text
  import VarDiff
  import opened JobCache
  import JobId

  const MAX_ASSIGNED_JOBS: nat := 128

  datatype AssignedJob = AssignedJob(jobId: string, pDiff: real, ntime: string)

  datatype State = State(
    subscribed: bool, authorized: bool, workers: set<string>, jobs: seq<AssignedJob>, diff: VarDiff.State)

  datatype Reason = UnauthorizedWorker | InvalidSubmitShape | StaleJob | NtimeMismatch | LowDifficultyShare

  datatype Verdict = Verdict(
    accepted: bool, reason: Option<Reason>, lowDiffOk: bool, networkOk: bool, blockHash: Option<nat>)

  datatype Submit = Submit(worker: string, jobId: string, en2: string, ntime: string, nonce: string)

  /** What a submission is persisted with. */
  datatype Record = Record(verdict: Verdict, templateId: nat, epoch: nat, difficulty: real)

  datatype Response = Ok | Error(code: nat)

  // ----- names, formats, difficulties -----

  function SplitFirst(s: string, c: char): (r: (string, Option<string>))
    ensures c !in r.0 && s == if r.1.Some? then r.0 + [c] + r.1.value else r.0
  {
    if s == "" then ("", None)
    else if s[0] == c then ("", Some(s[1..]))
    else
      var (a, b) := SplitFirst(s[1..], c);
      ([s[0]] + a, b)
  }

  /** `payout_address[.suffix]`, with a valid address and no empty suffix. */
  predicate IsWorkerName(name: string, validAddress: string -> bool) {
    var (address, suffix) := SplitFirst(name, '.');
    validAddress(address) && suffix != Some("")
  }

  predicate IsHexDigit(c: char) {
    '0' <= c <= '9' || 'a' <= c <= 'f' || 'A' <= c <= 'F'
  }

  predicate AllHex(s: string) {
    forall i | 0 <= i < |s| :: IsHexDigit(s[i])
  }

  predicate ValidFormat(en2: string, ntime: string, nonce: string) {
    && en2 != "" && |en2| % 2 == 0 && |en2| <= 16 && AllHex(en2)
    && |ntime| == 12 && AllHex(ntime)
    && |nonce| == 16 && AllHex(nonce)
  }

  predicate MeetsDifficulty(hash: nat, d: real, diff1: real) {
    d > 0.0 && hash as real * d <= diff1
  }

  /** The network difficulty of a job, when its target is usable. */
  function NDiff(job: MiningJob, diff1: real): Option<real> {
    if job.target.Some? && job.target.value > 0 then Some(diff1 / job.target.value as real) else None
  }

  // ----- validation -----

  /** The first assigned job with an id. */
  function FindAssigned(jobs: seq<AssignedJob>, jobId: string): (found: Option<AssignedJob>)
    ensures found.Some? ==> found.value in jobs && found.value.jobId == jobId
    ensures found.None? <==> forall a | a in jobs :: a.jobId != jobId
  {
    if jobs == [] then None
    else if jobs[0].jobId == jobId then Some(jobs[0])
    else
      assert jobs == [jobs[0]] + jobs[1..];
      FindAssigned(jobs[1..], jobId)
  }

  function Rejected(reason: Reason): Verdict {
    Verdict(false, Some(reason), false, false, None)
  }

  function Validate(s: State, sub: Submit, job: MiningJob, header: Option<nat>, diff1: real): Verdict {
    if sub.worker !in s.workers then Rejected(UnauthorizedWorker)
    else if !ValidFormat(sub.en2, sub.ntime, sub.nonce) then Rejected(InvalidSubmitShape)
    else
      match FindAssigned(s.jobs, sub.jobId)
      case None => Rejected(StaleJob)
      case Some(entry) =>
        if sub.ntime != entry.ntime then Rejected(NtimeMismatch)
        else if header.None? then Rejected(InvalidSubmitShape)
        else if !MeetsDifficulty(header.value, entry.pDiff, diff1) then Rejected(LowDifficultyShare)
        else if job.target.None? then Rejected(InvalidSubmitShape)
        else
          var meetsNetwork := header.value <= job.target.value;
          Verdict(true, None, true, meetsNetwork, if meetsNetwork then Some(header.value) else None)
  }

  /** Validation, template metadata and credited difficulty of a submission. */
  function Judge(s: State, sub: Submit, cached: Option<MiningJob>, header: Option<nat>, diff1: real): Record {
    var entry := FindAssigned(s.jobs, sub.jobId);
    match cached
    case Some(job) =>
      Record(Validate(s, sub, job, header, diff1), job.templateId, job.templateEpoch,
             if entry.Some? then entry.value.pDiff else s.diff.current)
    case None =>
      if entry.Some? then
        var (t, e) := match JobId.Parse(sub.jobId) case Some(p) => p case None => (0, 0);
        Record(Rejected(StaleJob), t, e, entry.value.pDiff)
      else
        Record(Rejected(StaleJob), 0, 0, s.diff.current)
  }

  function ResponseTo(v: Verdict): Response {
    if v.accepted then Ok
    else
      match v.reason
      case Some(UnauthorizedWorker) => Error(24)
      case Some(StaleJob) => Error(22)
      case Some(NtimeMismatch) => Error(21)
      case Some(LowDifficultyShare) => Error(23)
      case _ => Error(20)
  }

  // ----- the steps of a session -----

  function Assign(jobs: seq<AssignedJob>, a: AssignedJob): seq<AssignedJob> {
    (if |jobs| >= MAX_ASSIGNED_JOBS then jobs[1..] else jobs) + [a]
  }

  /** A job is dispatched at the difficulty of the moment. */
  function Dispatched(s: State, job: MiningJob): State {
    s.(jobs := Assign(s.jobs, AssignedJob(job.jobId, s.diff.current, job.ntime)))
  }

  function Authorized(s: State, worker: string, validAddress: string -> bool): State {
    if s.subscribed && IsWorkerName(worker, validAddress)
    then s.(workers := s.workers + {worker}, authorized := true)
    else s
  }

  /** The authorize branch: once the session is authorized the newest cached job is dispatched. */
  function AuthorizeStep(s: State, worker: string, validAddress: string -> bool, latest: Option<MiningJob>): State {
    var s' := Authorized(s, worker, validAddress);
    if s'.authorized && latest.Some? then Dispatched(s', latest.value) else s'
  }

  /** The broadcast branch: new ceiling, clearing if the job asks for it, dispatch. */
  function BroadcastStep(s: State, job: MiningJob, diff1: real): State {
    var lowered := match NDiff(job, diff1)
      case Some(n) => s.(diff := VarDiff.CeilingUpdated(s.diff, n))
      case None => s;
    var cleared := if job.cleanJobs then lowered.(jobs := []) else lowered;
    Dispatched(cleared, job)
  }

  predicate CanRetarget(c: VarDiff.Config, s: State) {
    c.targetSecs > 0.0 && c.retargetSecs > 0.0 && c.minFloor <= s.diff.max
  }

  /** The submit branch: only an accepted share reaches the difficulty controller. */
  function SubmitStep(
    c: VarDiff.Config, s: State, sub: Submit, cached: Option<MiningJob>, header: Option<nat>, diff1: real, now: real)
    : State
    requires CanRetarget(c, s)
  {
    if s.subscribed && Judge(s, sub, cached, header, diff1).verdict.accepted
    then s.(diff := VarDiff.Retargeted(c, VarDiff.ShareRecorded(s.diff, now), now))
    else s
  }

  class Session {
    var subscribed: bool
    var authorized: bool
    var workers: set<string>
    var jobs: seq<AssignedJob>
    const vardiff: VarDiff.Controller

    function View(): State
      reads this, vardiff
    {
      State(subscribed, authorized, workers, jobs, vardiff.View())
    }

    constructor (config: VarDiff.Config, nDiff: real, now: real)
      requires config.minFloor <= nDiff
      ensures View() == State(false, false, {}, [], VarDiff.Initial(config, nDiff, now))
      ensures vardiff.config == config && fresh(vardiff)
    {
      subscribed, authorized, workers, jobs := false, false, {}, [];
      vardiff := new VarDiff.Controller(config, nDiff, now);
    }

    method HandleSubscribe()
      modifies this`subscribed
      ensures View() == old(View()).(subscribed := true)
    {
      subscribed := true;
    }

    method HandleAuthorize(worker: string, validAddress: string -> bool) returns (r: Response)
      modifies this`workers, this`authorized
      ensures View() == Authorized(old(View()), worker, validAddress)
      ensures r == if !subscribed then Error(25) else if IsWorkerName(worker, validAddress) then Ok else Error(24)
    {
      if !subscribed {
        return Error(25);
      }
      if !IsWorkerName(worker, validAddress) {
        return Error(24);
      }
      workers := workers + {worker};
      authorized := true;
      return Ok;
    }

    method RecordAssignedJob(jobId: string, pDiff: real, ntime: string)
      modifies this`jobs
      ensures jobs == Assign(old(jobs), AssignedJob(jobId, pDiff, ntime))
    {
      if |jobs| >= MAX_ASSIGNED_JOBS {
        jobs := jobs[1..];
      }
      jobs := jobs + [AssignedJob(jobId, pDiff, ntime)];
    }

    method OnAuthorize(worker: string, validAddress: string -> bool, latest: Option<MiningJob>) returns (r: Response)
      modifies this`workers, this`authorized, this`jobs
      ensures View() == AuthorizeStep(old(View()), worker, validAddress, latest)
    {
      r := HandleAuthorize(worker, validAddress);
      if authorized && latest.Some? {
        RecordAssignedJob(latest.value.jobId, vardiff.current, latest.value.ntime);
      }
    }

    method OnBroadcast(job: MiningJob, diff1: real)
      modifies this`jobs, vardiff
      ensures View() == BroadcastStep(old(View()), job, diff1)
    {
      var nDiff := NDiff(job, diff1);
      if nDiff.Some? {
        var clamped := vardiff.UpdateMax(nDiff.value);
      }
      if job.cleanJobs {
        jobs := [];
      }
      RecordAssignedJob(job.jobId, vardiff.current, job.ntime);
    }

    method HandleSubmit(sub: Submit, cached: Option<MiningJob>, header: Option<nat>, diff1: real, now: real)
      returns (r: Response, record: Option<Record>, newDiff: Option<real>)
      requires CanRetarget(vardiff.config, View())
      modifies vardiff
      ensures View() == SubmitStep(vardiff.config, old(View()), sub, cached, header, diff1, now)
      ensures !subscribed ==> r == Error(25) && record == None && newDiff == None
      ensures record.None? || !record.value.verdict.accepted ==> View() == old(View()) && newDiff == None
      ensures record.Some? && record.value.verdict.accepted && newDiff.None? ==>
        vardiff.View() == old(vardiff.View()).(shareTimes := old(vardiff.shareTimes) + [now])
      ensures subscribed ==>
        record == Some(Judge(old(View()), sub, cached, header, diff1)) && r == ResponseTo(record.value.verdict)
      ensures r == Ok <==> record.Some? && record.value.verdict.accepted
      ensures record.Some? ==>
        var reason := record.value.verdict.reason;
        && (r == Error(20) <==> reason == Some(InvalidSubmitShape))
        && (r == Error(21) <==> reason == Some(NtimeMismatch))
        && (r == Error(22) <==> reason == Some(StaleJob))
        && (r == Error(23) <==> reason == Some(LowDifficultyShare))
        && (r == Error(24) <==> reason == Some(UnauthorizedWorker))
      ensures newDiff ==
        if record.Some? && record.value.verdict.accepted
        then VarDiff.Decision(vardiff.config, VarDiff.ShareRecorded(old(View()).diff, now), now) else None
    {
      if !subscribed {
        return Error(25), None, None;
      }
      var judged := Judge(View(), sub, cached, header, diff1);
      newDiff := None;
      if judged.verdict.accepted {
        vardiff.RecordShare(now);
        newDiff := vardiff.MaybeRetarget(now);
      }
      return ResponseTo(judged.verdict), Some(judged), newDiff;
    }
  }
}
