/**
 The share ledger: workers, raw shares, their outcomes and the audit events of
 `record_share`, with the uniqueness constraints of the schema. Row ids are
 positions counted from one; rows are never deleted.
 */
module Ledger {
  import opened Text
  import opened JobId

  datatype Worker = Worker(address: string, suffix: Option<string>)

  datatype Share = Share(
    workerId: int, sessionId: string, jobId: string, templateId: nat, epoch: nat, en1: string, en2: string,
    ntime: string, nonce: string, difficulty: real, key: string)

  datatype Outcome = Outcome(
    shareId: int, workerId: int, roundId: int, key: string, accepted: bool, rejectReason: Option<string>,
    lowDiffOk: bool, networkOk: bool, blockHash: Option<string>)

  datatype Event = Event(workerId: int, workerName: string, roundId: int, accepted: bool, jobId: string)

  datatype State = State(workers: seq<Worker>, shares: seq<Share>, outcomes: seq<Outcome>, events: seq<Event>)

  const EMPTY: State := State([], [], [], [])

  /** A submission as `record_share` receives it. */
  datatype Submission = Submission(
    address: string, suffix: Option<string>, sessionId: string, jobId: string, templateId: nat, epoch: nat,
    en1: string, en2: string, ntime: string, nonce: string, difficulty: real, accepted: bool,
    rejectReason: Option<string>, lowDiffOk: bool, networkOk: bool, blockHash: Option<string>)

  // ----- queries -----

  /** The id of the row with a key, as `SELECT id ... WHERE dedupe_key = ?`. */
  function FindShare(shares: seq<Share>, key: string): (id: Option<nat>)
    ensures id.Some? ==> 1 <= id.value <= |shares| && shares[id.value - 1].key == key
    ensures id.None? ==> forall i | 0 <= i < |shares| :: shares[i].key != key
  {
    if shares == [] then None
    else if shares[|shares| - 1].key == key then Some(|shares|)
    else FindShare(shares[..|shares| - 1], key)
  }

  function FindOutcome(outcomes: seq<Outcome>, key: string): (id: Option<nat>)
    ensures id.Some? ==> 1 <= id.value <= |outcomes| && outcomes[id.value - 1].key == key
    ensures id.None? ==> forall i | 0 <= i < |outcomes| :: outcomes[i].key != key
  {
    if outcomes == [] then None
    else if outcomes[|outcomes| - 1].key == key then Some(|outcomes|)
    else FindOutcome(outcomes[..|outcomes| - 1], key)
  }

  function FindWorker(workers: seq<Worker>, w: Worker): (id: Option<nat>)
    ensures id.Some? ==> 1 <= id.value <= |workers| && workers[id.value - 1] == w
    ensures id.None? ==> w !in workers
  {
    if workers == [] then None
    else if workers[|workers| - 1] == w then Some(|workers|)
    else
      var id := FindWorker(workers[..|workers| - 1], w);
      assert workers == workers[..|workers| - 1] + [workers[|workers| - 1]];
      id
  }

  /** An empty suffix is stored as NULL. */
  function StoredSuffix(suffix: Option<string>): Option<string> {
    if suffix.Some? && suffix.value == "" then None else suffix
  }

  /** A unique index never matches a NULL suffix, so such a worker is inserted anew each time. */
  function UpsertWorker(workers: seq<Worker>, address: string, suffix: Option<string>): (r: (seq<Worker>, nat))
    ensures 1 <= r.1 <= |r.0| && workers <= r.0
    ensures r.0[r.1 - 1] == Worker(address, StoredSuffix(suffix))
  {
    var w := Worker(address, StoredSuffix(suffix));
    if w.suffix.Some? && FindWorker(workers, w).Some? then (workers, FindWorker(workers, w).value)
    else (workers + [w], |workers| + 1)
  }

  // ----- the atomic insert -----

  datatype Inserted = Inserted(shares: seq<Share>, outcomes: seq<Outcome>, shareId: nat, outcomeId: nat, isNew: bool)

  /** `INSERT OR IGNORE` of a share and its outcome in one transaction. */
  function InsertAtomic(shares: seq<Share>, outcomes: seq<Outcome>, share: Share, outcome: Outcome): Inserted {
    var existing := FindShare(shares, share.key);
    var (shares', shareId) := if existing.None? then (shares + [share], |shares| + 1) else (shares, existing.value);
    var existingOutcome := FindOutcome(outcomes, outcome.key);
    var (outcomes', outcomeId) :=
      if existingOutcome.None? then (outcomes + [outcome.(shareId := shareId)], |outcomes| + 1)
      else (outcomes, existingOutcome.value);
    Inserted(shares', outcomes', shareId, outcomeId, existing.None? || existingOutcome.None?)
  }

  function KeyOf(workerId: int, sub: Submission): string {
    DedupeKey(workerId, sub.templateId, sub.epoch, sub.en2, sub.ntime, sub.nonce)
  }

  function ShareOf(workerId: int, sub: Submission): Share {
    Share(workerId, sub.sessionId, sub.jobId, sub.templateId, sub.epoch, sub.en1, sub.en2, sub.ntime, sub.nonce,
          sub.difficulty, KeyOf(workerId, sub))
  }

  function OutcomeOf(workerId: int, roundId: int, sub: Submission): Outcome {
    Outcome(0, workerId, roundId, KeyOf(workerId, sub), sub.accepted, sub.rejectReason, sub.lowDiffOk,
            sub.networkOk, sub.blockHash)
  }

  function WorkerName(w: Worker): string {
    if w.suffix.Some? then w.address + "." + w.suffix.value else w.address
  }

  /** The ledger after recording a submission in a round. */
  function Recorded(s: State, sub: Submission, roundId: int): State {
    var (workers, workerId) := UpsertWorker(s.workers, sub.address, sub.suffix);
    var r := InsertAtomic(s.shares, s.outcomes, ShareOf(workerId, sub), OutcomeOf(workerId, roundId, sub));
    var event := Event(workerId, WorkerName(workers[workerId - 1]), roundId, sub.accepted, sub.jobId);
    State(workers, r.shares, r.outcomes, if r.isNew then s.events + [event] else s.events)
  }

  class Book {
    var workers: seq<Worker>
    var shares: seq<Share>
    var outcomes: seq<Outcome>
    var events: seq<Event>

    ghost function View(): State
      reads this
    {
      State(workers, shares, outcomes, events)
    }

    constructor ()
      ensures View() == EMPTY
    {
      workers, shares, outcomes, events := [], [], [], [];
    }

    method Upsert(address: string, suffix: Option<string>) returns (id: nat)
      modifies this`workers
      ensures (workers, id) == UpsertWorker(old(workers), address, suffix)
    {
      var w := Worker(address, StoredSuffix(suffix));
      var existing := FindWorker(workers, w);
      if w.suffix.Some? && existing.Some? {
        id := existing.value;
      } else {
        workers := workers + [w];
        id := |workers|;
      }
    }

    method InsertShareAndOutcome(share: Share, outcome: Outcome) returns (shareId: nat, outcomeId: nat, isNew: bool)
      modifies this`shares, this`outcomes
      ensures Inserted(shares, outcomes, shareId, outcomeId, isNew)
        == InsertAtomic(old(shares), old(outcomes), share, outcome)
      ensures 1 <= shareId <= |shares| && shares[shareId - 1].key == share.key
      ensures 1 <= outcomeId <= |outcomes| && outcomes[outcomeId - 1].key == outcome.key
    {
      var shareIsNew, outcomeIsNew := false, false;
      var existing := FindShare(shares, share.key);
      if existing.None? {
        shares := shares + [share];
        shareId := |shares|;
        shareIsNew := true;
      } else {
        shareId := existing.value;
      }
      var existingOutcome := FindOutcome(outcomes, outcome.key);
      if existingOutcome.None? {
        outcomes := outcomes + [outcome.(shareId := shareId)];
        outcomeId := |outcomes|;
        outcomeIsNew := true;
      } else {
        outcomeId := existingOutcome.value;
      }
      isNew := shareIsNew || outcomeIsNew;
    }

    /** The insert and, for a new row, its event. */
    method InsertWithEvent(share: Share, outcome: Outcome, event: Event) returns (shareId: nat, outcomeId: nat)
      modifies this`shares, this`outcomes, this`events
      ensures
        var r := InsertAtomic(old(shares), old(outcomes), share, outcome);
        && shares == r.shares && outcomes == r.outcomes
        && events == if r.isNew then old(events) + [event] else old(events)
      ensures 1 <= shareId <= |shares| && shares[shareId - 1].key == share.key
      ensures 1 <= outcomeId <= |outcomes| && outcomes[outcomeId - 1].key == outcome.key
    {
      var isNew;
      shareId, outcomeId, isNew := InsertShareAndOutcome(share, outcome);
      if isNew {
        events := events + [event];
      }
    }

    method RecordShare(sub: Submission, roundId: int) returns (shareId: nat, outcomeId: nat, key: string)
      modifies this
      ensures View() == Recorded(old(View()), sub, roundId)
      ensures 1 <= shareId <= |shares| && shares[shareId - 1].key == key
      ensures 1 <= outcomeId <= |outcomes| && outcomes[outcomeId - 1].key == key
    {
      var workerId := Upsert(sub.address, sub.suffix);
      var share, outcome, event := RowsFor(workers, workerId, sub, roundId);
      key := share.key;
      shareId, outcomeId := InsertWithEvent(share, outcome, event);
    }
  }

  /** The rows a submission is recorded with; share and outcome carry the same key. */
  method RowsFor(workers: seq<Worker>, workerId: nat, sub: Submission, roundId: int)
    returns (share: Share, outcome: Outcome, event: Event)
    requires 1 <= workerId <= |workers|
    ensures share == ShareOf(workerId, sub) && outcome == OutcomeOf(workerId, roundId, sub) && outcome.key == share.key
    ensures event == Event(workerId, WorkerName(workers[workerId - 1]), roundId, sub.accepted, sub.jobId)
  {
    share, outcome := ShareOf(workerId, sub), OutcomeOf(workerId, roundId, sub);
    event := Event(workerId, WorkerName(workers[workerId - 1]), roundId, sub.accepted, sub.jobId);
  }

  // ----- the ledger is a map -----

  /** Shares and outcomes correspond one to one by key, and each has one event. */
  ghost predicate OneToOne(s: State) {
    && |s.shares| == |s.outcomes| == |s.events|
    && (forall i | 0 <= i < |s.shares| :: s.outcomes[i].key == s.shares[i].key && s.outcomes[i].shareId == i + 1)
    && (forall i, j | 0 <= i < j < |s.shares| :: s.shares[i].key != s.shares[j].key)
  }

  /** Keys are built from the row's own columns, and its worker exists. */
  ghost predicate KeysMatchRows(s: State) {
    forall i | 0 <= i < |s.shares| ::
      var sh := s.shares[i];
      && 1 <= sh.workerId <= |s.workers|
      && sh.key == DedupeKey(sh.workerId, sh.templateId, sh.epoch, sh.en2, sh.ntime, sh.nonce)
  }

  ghost predicate Invariant(s: State) {
    OneToOne(s) && KeysMatchRows(s)
  }

  ghost function Keys(s: State): set<string> {
    set sh | sh in s.shares :: sh.key
  }

  /** The ledger as a map from dedupe key to share and outcome. */
  ghost function AsMap(s: State): map<string, (Share, Outcome)>
    requires OneToOne(s)
  {
    map k | k in Keys(s) ::
      var i := IndexOf(s, k);
      (s.shares[i], s.outcomes[i])
  }

  ghost function IndexOf(s: State, k: string): (i: nat)
    requires k in Keys(s)
    ensures i < |s.shares| && s.shares[i].key == k
  {
    var sh :| sh in s.shares && sh.key == k;
    var i :| 0 <= i < |s.shares| && s.shares[i] == sh;
    i
  }

  lemma FindIffKey(s: State, k: string)
    requires OneToOne(s)
    ensures FindShare(s.shares, k).Some? <==> k in Keys(s)
    ensures FindOutcome(s.outcomes, k).Some? <==> k in Keys(s)
    ensures k in Keys(s) ==> FindShare(s.shares, k) == FindOutcome(s.outcomes, k) == Some(IndexOf(s, k) + 1)
  {
    if k in Keys(s) {
      var i := IndexOf(s, k);
      assert s.outcomes[i].key == k;
    } else {
      assert forall i | 0 <= i < |s.shares| :: s.shares[i] in s.shares;
    }
  }

  /** The worker id a submission is recorded under. */
  function WorkerIdOf(s: State, sub: Submission): nat {
    UpsertWorker(s.workers, sub.address, sub.suffix).1
  }

  /** A submission whose key is present changes no share, outcome or event. */
  lemma DuplicateChangesNothing(s: State, sub: Submission, roundId: int)
    requires OneToOne(s) && KeyOf(WorkerIdOf(s, sub), sub) in Keys(s)
    ensures
      var s' := Recorded(s, sub, roundId);
      s'.shares == s.shares && s'.outcomes == s.outcomes && s'.events == s.events
  {
    FindIffKey(s, KeyOf(WorkerIdOf(s, sub), sub));
  }

  /** A submission with a new key adds exactly one share, one outcome linked to it and one event. */
  lemma FreshAddsOne(s: State, sub: Submission, roundId: int)
    requires OneToOne(s) && KeyOf(WorkerIdOf(s, sub), sub) !in Keys(s)
    ensures
      var s', w := Recorded(s, sub, roundId), WorkerIdOf(s, sub);
      && s'.shares == s.shares + [ShareOf(w, sub)]
      && s'.outcomes == s.outcomes + [OutcomeOf(w, roundId, sub).(shareId := |s.shares| + 1)]
      && |s'.events| == |s.events| + 1 && s'.events[..|s.events|] == s.events
  {
    FindIffKey(s, KeyOf(WorkerIdOf(s, sub), sub));
  }

  /** The columns of the share row of a submission. */
  predicate HoldsShare(sh: Share, workerId: int, sub: Submission) {
    && sh.workerId == workerId && sh.sessionId == sub.sessionId && sh.jobId == sub.jobId
    && sh.templateId == sub.templateId && sh.epoch == sub.epoch && sh.en1 == sub.en1 && sh.en2 == sub.en2
    && sh.ntime == sub.ntime && sh.nonce == sub.nonce && sh.difficulty == sub.difficulty
  }

  /** The columns of its outcome row. */
  predicate HoldsOutcome(out: Outcome, shareId: int, workerId: int, roundId: int, sub: Submission) {
    && out.shareId == shareId && out.workerId == workerId && out.roundId == roundId
    && out.accepted == sub.accepted && out.rejectReason == sub.rejectReason
    && out.lowDiffOk == sub.lowDiffOk && out.networkOk == sub.networkOk && out.blockHash == sub.blockHash
  }

  /** Which column of the new rows holds which field of the submission, its round and its worker. */
  lemma FreshColumns(s: State, sub: Submission, roundId: int)
    requires OneToOne(s) && KeyOf(WorkerIdOf(s, sub), sub) !in Keys(s)
    ensures
      var s', w, n := Recorded(s, sub, roundId), WorkerIdOf(s, sub), |s.shares|;
      && |s'.shares| == |s'.outcomes| == |s'.events| == n + 1
      && HoldsShare(s'.shares[n], w, sub) && HoldsOutcome(s'.outcomes[n], n + 1, w, roundId, sub)
      && s'.shares[n].key == s'.outcomes[n].key
      && s'.events[n].workerId == w && s'.events[n].roundId == roundId
      && s'.events[n].accepted == sub.accepted && s'.events[n].jobId == sub.jobId
      && s'.events[n].workerName
         == (if sub.suffix.None? || sub.suffix.value == "" then sub.address
             else sub.address + "." + sub.suffix.value)
  {
    FreshAddsOne(s, sub, roundId);
  }

  /** The worker row a submission is recorded under: its address, and its suffix unless that is empty. */
  lemma WorkerColumns(s: State, sub: Submission, roundId: int)
    ensures
      var workers, w := Recorded(s, sub, roundId).workers, WorkerIdOf(s, sub);
      && 1 <= w <= |workers| && workers[w - 1].address == sub.address
      && workers[w - 1].suffix == (if sub.suffix == Some("") then None else sub.suffix)
      && s.workers <= workers
      && (|workers| == |s.workers| <==>
            sub.suffix.Some? && sub.suffix.value != "" && Worker(sub.address, sub.suffix) in s.workers)
  {
  }

  /** `s'` is `s` with one more share and its outcome. */
  ghost predicate Appends(s: State, s': State, sh: Share, out: Outcome) {
    && s'.shares == s.shares + [sh] && s'.outcomes == s.outcomes + [out]
    && |s'.events| == |s.events| + 1 && s.workers <= s'.workers
    && out.key == sh.key && out.shareId == |s.shares| + 1
  }

  lemma AppendKeepsInvariant(s: State, s': State, sh: Share, out: Outcome)
    requires Invariant(s) && Appends(s, s', sh, out) && sh.key !in Keys(s)
    requires 1 <= sh.workerId <= |s'.workers|
    requires sh.key == DedupeKey(sh.workerId, sh.templateId, sh.epoch, sh.en2, sh.ntime, sh.nonce)
    ensures Invariant(s')
  {
    assert forall i | 0 <= i < |s.shares| :: s.shares[i] in s.shares && s'.shares[i] == s.shares[i];
  }

  lemma AppendKeys(s: State, s': State, sh: Share)
    requires s'.shares == s.shares + [sh]
    ensures Keys(s') == Keys(s) + {sh.key}
  {
    assert forall x | x in s.shares :: x in s'.shares;
    assert sh in s'.shares;
  }

  lemma AppendRefinesMap(s: State, s': State, sh: Share, out: Outcome)
    requires OneToOne(s) && OneToOne(s') && Appends(s, s', sh, out) && sh.key !in Keys(s)
    ensures AsMap(s') == AsMap(s)[sh.key := (sh, out)]
  {
    AppendKeys(s, s', sh);
    forall x | x in Keys(s')
      ensures IndexOf(s', x) == if x == sh.key then |s.shares| else IndexOf(s, x)
    {
      var i := if x == sh.key then |s.shares| else IndexOf(s, x);
      assert s'.shares[i].key == x == s'.shares[IndexOf(s', x)].key;
    }
  }

  lemma SameRowsSameMap(s: State, s': State)
    requires OneToOne(s) && OneToOne(s') && s.shares == s'.shares && s.outcomes == s'.outcomes
    ensures AsMap(s) == AsMap(s')
  {
    forall x | x in Keys(s)
      ensures IndexOf(s, x) == IndexOf(s', x)
    {
      assert s.shares[IndexOf(s, x)].key == s.shares[IndexOf(s', x)].key;
    }
  }

  /** The outcome as stored, linked to the share just inserted. */
  function LinkedOutcome(s: State, sub: Submission, roundId: int): Outcome {
    OutcomeOf(WorkerIdOf(s, sub), roundId, sub).(shareId := |s.shares| + 1)
  }

  lemma FreshAppends(s: State, sub: Submission, roundId: int)
    requires OneToOne(s) && KeyOf(WorkerIdOf(s, sub), sub) !in Keys(s)
    ensures Appends(s, Recorded(s, sub, roundId), ShareOf(WorkerIdOf(s, sub), sub), LinkedOutcome(s, sub, roundId))
  {
    FreshAddsOne(s, sub, roundId);
  }

  lemma RecordingKeepsInvariant(s: State, sub: Submission, roundId: int)
    requires Invariant(s)
    ensures Invariant(Recorded(s, sub, roundId))
  {
    var w := WorkerIdOf(s, sub);
    if KeyOf(w, sub) in Keys(s) {
      DuplicateChangesNothing(s, sub, roundId);
    } else {
      FreshAppends(s, sub, roundId);
      AppendKeepsInvariant(s, Recorded(s, sub, roundId), ShareOf(w, sub), LinkedOutcome(s, sub, roundId));
    }
  }

  /** Recording refines inserting into a map unless the key is present. */
  lemma RecordingRefinesMap(s: State, sub: Submission, roundId: int)
    requires Invariant(s)
    ensures OneToOne(Recorded(s, sub, roundId))
    ensures
      var w := WorkerIdOf(s, sub);
      var k := KeyOf(w, sub);
      AsMap(Recorded(s, sub, roundId))
      == if k in AsMap(s) then AsMap(s) else AsMap(s)[k := (ShareOf(w, sub), LinkedOutcome(s, sub, roundId))]
  {
    RecordingKeepsInvariant(s, sub, roundId);
    var s', w := Recorded(s, sub, roundId), WorkerIdOf(s, sub);
    if KeyOf(w, sub) in Keys(s) {
      DuplicateChangesNothing(s, sub, roundId);
      SameRowsSameMap(s, s');
    } else {
      FreshAppends(s, sub, roundId);
      AppendRefinesMap(s, s', ShareOf(w, sub), LinkedOutcome(s, sub, roundId));
    }
  }

  // ----- every run -----

  function Run(s: State, subs: seq<(Submission, int)>): State
    decreases |subs|
  {
    if subs == [] then s else Run(Recorded(s, subs[0].0, subs[0].1), subs[1..])
  }

  /** Over every run shares and outcomes stay one to one, and recorded rows never change. */
  lemma {:induction false} RunKeepsLedger(s: State, subs: seq<(Submission, int)>)
    requires Invariant(s)
    ensures Invariant(Run(s, subs))
    ensures s.shares <= Run(s, subs).shares && s.outcomes <= Run(s, subs).outcomes
    ensures s.events <= Run(s, subs).events
    decreases |subs|
  {
    if subs != [] {
      RecordingKeepsInvariant(s, subs[0].0, subs[0].1);
      RowsGrow(s, subs[0].0, subs[0].1);
      RunKeepsLedger(Recorded(s, subs[0].0, subs[0].1), subs[1..]);
    }
  }

  lemma RowsGrow(s: State, sub: Submission, roundId: int)
    requires OneToOne(s)
    ensures
      var s' := Recorded(s, sub, roundId);
      s.shares <= s'.shares && s.outcomes <= s'.outcomes && s.events <= s'.events
  {
    if KeyOf(WorkerIdOf(s, sub), sub) in Keys(s) {
      DuplicateChangesNothing(s, sub, roundId);
    } else {
      FreshAddsOne(s, sub, roundId);
    }
  }

  // ----- resubmission -----

  lemma {:induction false} FindWorkerStable(workers: seq<Worker>, w: Worker)
    ensures FindWorker(workers + [w], w) == Some(|workers| + 1)
  {
  }

  /** A named worker keeps its id. */
  lemma NamedWorkerKeepsId(s: State, sub: Submission, roundId: int)
    requires StoredSuffix(sub.suffix).Some?
    ensures WorkerIdOf(Recorded(s, sub, roundId), sub) == WorkerIdOf(s, sub)
    ensures Recorded(Recorded(s, sub, roundId), sub, roundId).workers == Recorded(s, sub, roundId).workers
  {
    var w := Worker(sub.address, StoredSuffix(sub.suffix));
    if FindWorker(s.workers, w).None? { FindWorkerStable(s.workers, w); }
  }

  /** A worker without a suffix is a new row every time, so its key is new as well. */
  lemma UnnamedWorkerIsNew(s: State, sub: Submission)
    requires Invariant(s) && StoredSuffix(sub.suffix).None?
    ensures WorkerIdOf(s, sub) == |s.workers| + 1
    ensures KeyOf(WorkerIdOf(s, sub), sub) !in Keys(s)
  {
    var w := WorkerIdOf(s, sub);
    if KeyOf(w, sub) in Keys(s) {
      var i := IndexOf(s, KeyOf(w, sub));
      var sh := s.shares[i];
      KeyFixesNumbers(sh.workerId, sh.templateId, sh.epoch, sh.en2, sh.ntime, sh.nonce,
                      w, sub.templateId, sub.epoch, sub.en2, sub.ntime, sub.nonce);
      assert false;
    }
  }

  /**
   Sending the same submission twice leaves the ledger as it was after the
   first time exactly when the worker has a suffix; without one it is credited
   again.
   */
  lemma ResubmissionIgnoredIff(s: State, sub: Submission, roundId: int)
    requires Invariant(s)
    ensures
      var once := Recorded(s, sub, roundId);
      var twice := Recorded(once, sub, roundId);
      && (twice == once <==> StoredSuffix(sub.suffix).Some?)
      && (StoredSuffix(sub.suffix).None? ==> |twice.shares| == |once.shares| + 1)
  {
    var once := Recorded(s, sub, roundId);
    RecordingKeepsInvariant(s, sub, roundId);
    if StoredSuffix(sub.suffix).Some? {
      NamedWorkerKeepsId(s, sub, roundId);
      KeyIsRecorded(s, sub, roundId);
      DuplicateChangesNothing(once, sub, roundId);
    } else {
      UnnamedWorkerIsNew(once, sub);
      FreshAddsOne(once, sub, roundId);
    }
  }

  lemma KeyIsRecorded(s: State, sub: Submission, roundId: int)
    requires Invariant(s)
    ensures KeyOf(WorkerIdOf(s, sub), sub) in Keys(Recorded(s, sub, roundId))
  {
    var s', w := Recorded(s, sub, roundId), WorkerIdOf(s, sub);
    if KeyOf(w, sub) in Keys(s) {
      DuplicateChangesNothing(s, sub, roundId);
    } else {
      FreshAddsOne(s, sub, roundId);
      AppendKeys(s, s', ShareOf(w, sub));
    }
  }
}
