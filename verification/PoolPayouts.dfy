/**
 At most one payout batch per block and one submission per batch, over every
 interleaving of the pool's actors.
 */
module PoolPayouts {
  import opened Text
  import opened PayoutPlan
  import opened Tables
  import opened Pool
  import opened PoolGrowth
  import opened PoolRounds

  // ----- one batch per block -----

  lemma StillOwned(blocks: seq<FoundBlock>, blocks': seq<FoundBlock>, batch: Batch, batch': Batch)
    requires Owned(blocks, batch) && BlocksKept(blocks, blocks') && SameBatch(batch, batch')
    ensures Owned(blocks', batch')
  {
    var i: nat :| OwnedBy(blocks, batch, i);
    assert SameBlock(blocks[i], blocks'[i]);
    assert OwnedBy(blocks', batch', i);
  }

  lemma KeysUntouched(blocks: seq<FoundBlock>, batches: seq<Batch>, blocks': seq<FoundBlock>, batches': seq<Batch>)
    requires KeyInvariant(blocks, batches)
    requires BlocksKept(blocks, blocks') && DistinctHashes(blocks')
    requires BatchesKept(batches, batches') && |batches'| == |batches|
    ensures KeyInvariant(blocks', batches')
  {
    forall j | 0 <= j < |batches'|
      ensures Owned(blocks', batches'[j]) && HashOf(batches'[j]) == HashOf(batches[j])
    {
      assert SameBatch(batches[j], batches'[j]);
      StillOwned(blocks, blocks', batches[j], batches'[j]);
    }
  }

  lemma HashesUntouched(blocks: seq<FoundBlock>, blocks': seq<FoundBlock>)
    requires DistinctHashes(blocks) && BlocksKept(blocks, blocks') && |blocks'| == |blocks|
    ensures DistinctHashes(blocks')
  {
    assert forall i | 0 <= i < |blocks| :: SameBlock(blocks[i], blocks'[i]);
  }

  lemma CreatingKeepsKeys(blocks: seq<FoundBlock>, batches: seq<Batch>, batch: Batch)
    requires KeyInvariant(blocks, batches)
    requires Owned(blocks, batch) && forall j | 0 <= j < |batches| :: HashOf(batches[j]) != HashOf(batch)
    ensures KeyInvariant(blocks, batches + [batch])
  {
  }

  lemma NewBatchOwned(cfg: Config, blocks: seq<FoundBlock>, b: nat, inputs: Inputs)
    requires DistinctHashes(blocks) && b < |blocks|
    ensures OwnedBy(blocks, NewBatch(cfg, blocks[b], inputs), b)
  {
    RetryKeyHash(blocks[b].hash, |NewBatch(cfg, blocks[b], inputs).payouts|);
  }

  lemma PayingOutKeepsKeys(cfg: Config, s: State, b: nat, inputs: Inputs, found: bool)
    requires KeyInvariant(s.blocks, s.batches)
    ensures KeyInvariant(s.blocks, PaidOut(cfg, s, b, inputs, found))
  {
    if found && b < |s.blocks| {
      var hash := s.blocks[b].hash;
      if !LikeGuard(s.batches, hash) {
        var batch := NewBatch(cfg, s.blocks[b], inputs);
        NewBatchOwned(cfg, s.blocks, b, inputs);
        GuardIff(s.blocks, s.batches, hash);
        CreatingKeepsKeys(s.blocks, s.batches, batch);
      }
    }
  }

  lemma RecordingKeepsHashes(blocks: seq<FoundBlock>, roundId: nat, find: Find)
    requires DistinctHashes(blocks) && IsHash(find.hash)
    ensures DistinctHashes(Recorded(blocks, roundId, find.hash, find.height, find.coinbaseValue))
  {
  }

  lemma FinderKeepsKeys(s: State, session: nat)
    requires BaseInvariant(s) && KeyInvariant(s.blocks, s.batches) && session in s.finders
    ensures KeyInvariant(FinderNext(s, session).blocks, FinderNext(s, session).batches)
  {
    var f := s.finders[session];
    if f.Resolved? {
      var s' := FinderNext(s, session);
      FinderGrows(s, session);
      RecordingKeepsHashes(s.blocks, f.round, f.find);
      KeysUntouched(s.blocks, s.batches, s'.blocks, s'.batches);
    }
  }

  lemma SameRowsKeepKeys(s: State, s': State)
    requires KeyInvariant(s.blocks, s.batches) && Grows(s, s')
    requires |s'.blocks| == |s.blocks| && |s'.batches| == |s.batches|
    ensures KeyInvariant(s'.blocks, s'.batches)
  {
    HashesUntouched(s.blocks, s'.blocks);
    KeysUntouched(s.blocks, s.batches, s'.blocks, s'.batches);
  }

  lemma MinerKeepsKeys(s: State, e: MinerEvent)
    requires BaseInvariant(s) && KeyInvariant(s.blocks, s.batches)
    ensures KeyInvariant(MinerNext(s, e).blocks, MinerNext(s, e).batches)
  {
    if e.FinderStep? && e.session in s.finders { FinderKeepsKeys(s, e.session); }
  }

  lemma PayoutKeepsKeys(cfg: Config, s: State, e: PayoutStep)
    requires KeyInvariant(s.blocks, s.batches)
    ensures KeyInvariant(PayoutNext(cfg, s, e).blocks, PayoutNext(cfg, s, e).batches)
  {
    PayoutGrows(cfg, s, e);
    if !e.CreateStep? {
      SameRowsKeepKeys(s, PayoutNext(cfg, s, e));
    } else if s.handler.Creating? {
      PayingOutKeepsKeys(cfg, s, s.handler.block, e.inputs, e.found);
    }
  }

  lemma OperatorKeepsKeys(cfg: Config, s: State, e: OperatorEvent)
    requires KeyInvariant(s.blocks, s.batches)
    ensures KeyInvariant(OperatorNext(cfg, s, e).blocks, OperatorNext(cfg, s, e).batches)
  {
    OperatorGrows(cfg, s, e);
    if e.AdminCreate? {
      PayingOutKeepsKeys(cfg, s, e.block, e.inputs, e.found);
    } else {
      SameRowsKeepKeys(s, OperatorNext(cfg, s, e));
    }
  }

  lemma StepKeepsKeys(cfg: Config, s: State, e: Event)
    requires BaseInvariant(s) && KeyInvariant(s.blocks, s.batches)
    ensures KeyInvariant(Step(cfg, s, e).blocks, Step(cfg, s, e).batches)
  {
    match e
    case Miner(m) => MinerKeepsKeys(s, m);
    case Chain(c) =>
      ChainGrows(cfg, s, c);
      SameRowsKeepKeys(s, ChainNext(cfg, s, c));
    case Boot(b) =>
      BootGrows(cfg, s, b);
      SameRowsKeepKeys(s, BootNext(cfg, s, b));
    case Payout(p) => PayoutKeepsKeys(cfg, s, p);
    case Operator(o) => OperatorKeepsKeys(cfg, s, o);
  }

  // ----- one submission per batch -----

  predicate Moves(from: BatchStatus, to: BatchStatus) {
    from == to || (from == Pending && to == Submitted) || (from == Submitted && to == Confirmed)
  }

  /** Batches only move forward, one status at a time. */
  ghost predicate Advances(batches: seq<Batch>, batches': seq<Batch>) {
    |batches| <= |batches'| && forall i | 0 <= i < |batches| :: Moves(batches[i].status, batches'[i].status)
  }

  ghost predicate AllPending(batches: seq<Batch>, todo: seq<nat>) {
    && (forall x | x in todo :: x < |batches| && batches[x].status == Pending)
    && forall i, j | 0 <= i < j < |todo| :: todo[i] != todo[j]
  }

  ghost predicate AllSent(batches: seq<Batch>, todo: seq<nat>) {
    forall x | x in todo :: x < |batches| && batches[x].status != Pending
  }

  ghost predicate ConfirmerSent(batches: seq<Batch>, c: Confirmer) {
    && AllSent(batches, c.todo)
    && (c.LookingUp? ==> c.batch < |batches| && batches[c.batch].status == Confirmed)
  }

  /** In one of the three sections of a rebuild. */
  predicate Rebuilding(handler: Handler) {
    handler.Reloading? || handler.LookingUpBlock? || handler.Replanning?
  }

  ghost predicate HandlerSent(batches: seq<Batch>, handler: Handler) {
    && (handler.Scanning? ==> ConfirmerSent(batches, handler.confirmer))
    && (handler.Processing? || Rebuilding(handler) ==> AllPending(batches, handler.todo))
    && (handler.Marking? ==> AllPending(batches, [handler.batch] + handler.todo))
  }

  predicate BeingMarked(handler: Handler, b: nat) {
    handler.Marking? && handler.batch == b
  }

  /** The batches the signer submitted are, once each, those past pending and the one being marked. */
  ghost predicate Ledgered(batches: seq<Batch>, signed: seq<nat>, handler: Handler) {
    && (forall i, j | 0 <= i < j < |signed| :: signed[i] != signed[j])
    && (forall x | x in signed :: x < |batches|)
    && (forall b: nat | b < |batches| :: b in signed <==> batches[b].status != Pending || BeingMarked(handler, b))
    && (forall b | 0 <= b < |batches| && batches[b].status != Pending :: batches[b].txid.Some?)
  }

  ghost predicate StartupSent(batches: seq<Batch>, startup: Startup) {
    startup.Settling? ==> ConfirmerSent(batches, startup.confirmer)
  }

  ghost predicate SubmitInvariant(s: State) {
    && Ledgered(s.batches, s.signed, s.handler)
    && HandlerSent(s.batches, s.handler)
    && StartupSent(s.batches, s.startup)
  }

  lemma StillSent(batches: seq<Batch>, batches': seq<Batch>, c: Confirmer)
    requires Advances(batches, batches') && ConfirmerSent(batches, c)
    ensures ConfirmerSent(batches', c)
  {
  }

  /** Confirming a batch that was sent. */
  lemma ConfirmingKeeps(s: State, b: nat)
    requires SubmitInvariant(s) && b < |s.batches| && s.batches[b].status != Pending
    ensures
      var batches' := WithBatchStatus(s.batches, b, Confirmed);
      Advances(s.batches, batches') && SubmitInvariant(s.(batches := batches'))
  {
    var batches' := WithBatchStatus(s.batches, b, Confirmed);
    assert Advances(s.batches, batches');
    if s.handler.Scanning? { StillSent(s.batches, batches', s.handler.confirmer); }
    if s.startup.Settling? { StillSent(s.batches, batches', s.startup.confirmer); }
  }

  lemma ConfirmerKeeps(s: State, c: Confirmer, hit: bool)
    requires SubmitInvariant(s) && ConfirmerSent(s.batches, c)
    ensures
      var batches' := ConfirmedTables(s, c, hit).1;
      var next := ConfirmerNext(s, c, hit);
      && Advances(s.batches, batches') && SubmitInvariant(s.(batches := batches'))
      && (next.Some? ==> ConfirmerSent(batches', next.value))
  {
    if c.Confirming? && c.todo != [] {
      assert c.todo[0] in c.todo;
      assert forall x | x in c.todo[1..] :: x in c.todo;
      if hit {
        ConfirmingKeeps(s, c.todo[0]);
      }
    }
  }

  lemma AppendingKeeps(s: State, batch: Batch, handler: Handler)
    requires SubmitInvariant(s) && batch.status == Pending
    requires handler == s.handler || (handler.ListingPending? && !s.handler.Marking?)
    ensures SubmitInvariant(s.(batches := s.batches + [batch], handler := handler))
    ensures Advances(s.batches, s.batches + [batch])
  {
    var batches' := s.batches + [batch];
    assert s.handler.Marking? ==> s.handler.batch in [s.handler.batch] + s.handler.todo;
    assert Advances(s.batches, batches');
    if s.handler.Scanning? { StillSent(s.batches, batches', s.handler.confirmer); }
    if s.startup.Settling? { StillSent(s.batches, batches', s.startup.confirmer); }
  }

  lemma PayingOutKeeps(cfg: Config, s: State, b: nat, inputs: Inputs, found: bool, handler: Handler)
    requires SubmitInvariant(s)
    requires handler == s.handler || (handler.ListingPending? && !s.handler.Marking?)
    ensures
      var batches' := PaidOut(cfg, s, b, inputs, found);
      SubmitInvariant(s.(batches := batches', handler := handler)) && Advances(s.batches, batches')
  {
    if found && b < |s.blocks| {
      AppendingKeeps(s, NewBatch(cfg, s.blocks[b], inputs), handler);
    }
  }

  /** Replacing payout rows touches no status. */
  lemma ReplacingKeeps(s: State, id: nat, payouts: seq<PayoutOutput>)
    requires SubmitInvariant(s)
    ensures
      var batches' := WithPayouts(s.batches, id, payouts);
      SubmitInvariant(s.(batches := batches')) && Advances(s.batches, batches')
  {
    var batches' := WithPayouts(s.batches, id, payouts);
    assert forall i | 0 <= i < |s.batches| ::
        batches'[i].status == s.batches[i].status && batches'[i].txid == s.batches[i].txid;
  }

  lemma SigningKeeps(s: State, txid: string)
    requires SubmitInvariant(s) && AtBatch(s)
    ensures SubmitInvariant(
      s.(signed := s.signed + [s.handler.todo[0]], handler := Marking(s.handler.todo[0], txid, s.handler.todo[1..])))
  {
    var b := s.handler.todo[0];
    assert b in s.handler.todo;
    assert [b] + s.handler.todo[1..] == s.handler.todo;
  }

  lemma MarkingKeeps(s: State)
    requires SubmitInvariant(s) && s.handler.Marking?
    ensures SubmitInvariant(HandlerNext(s)) && Advances(s.batches, HandlerNext(s).batches)
  {
    var todo := [s.handler.batch] + s.handler.todo;
    assert todo[0] in todo;
    assert forall x | x in s.handler.todo :: x in todo;
    assert forall i | 0 <= i < |s.handler.todo| :: s.handler.todo[i] == todo[i + 1];
    var batches' := HandlerNext(s).batches;
    assert Advances(s.batches, batches');
    if s.startup.Settling? { StillSent(s.batches, batches', s.startup.confirmer); }
  }

  lemma SkippedPending(batches: seq<Batch>, todo: seq<nat>)
    requires AllPending(batches, todo)
    ensures AllPending(batches, Skipped(todo).todo)
  {
    if todo != [] { assert forall x | x in todo[1..] :: x in todo; }
  }

  lemma ReplanningKeeps(cfg: Config, s: State, inputs: Inputs, found: bool)
    requires SubmitInvariant(s) && s.handler.Replanning?
    ensures
      var s' := Replanned(cfg, s, inputs, found);
      SubmitInvariant(s') && Advances(s.batches, s'.batches)
  {
    var todo := s.handler.todo;
    SkippedPending(s.batches, todo);
    if todo != [] && s.handler.block < |s.blocks| {
      ReplacingKeeps(s, todo[0], OutputsOf(cfg, s.blocks[s.handler.block], inputs));
    }
  }

  /** The handler's sections that write no table. */
  lemma RestingKeeps(s: State)
    requires SubmitInvariant(s) && !s.handler.Scanning? && !s.handler.Marking?
    ensures SubmitInvariant(HandlerNext(s)) && Advances(s.batches, HandlerNext(s).batches)
  {
    if Rebuilding(s.handler) { SkippedPending(s.batches, s.handler.todo); }
  }

  lemma HandlerKeeps(s: State)
    requires SubmitInvariant(s)
    ensures SubmitInvariant(HandlerNext(s)) && Advances(s.batches, HandlerNext(s).batches)
  {
    match s.handler
    case Scanning(c) => ConfirmerKeeps(s, c, true);
    case Marking(b, txid, todo) => MarkingKeeps(s);
    case _ => RestingKeeps(s);
  }

  lemma PayoutKeeps(cfg: Config, s: State, e: PayoutStep)
    requires SubmitInvariant(s)
    ensures SubmitInvariant(PayoutNext(cfg, s, e)) && Advances(s.batches, PayoutNext(cfg, s, e).batches)
  {
    match e
    case HandlerStep => HandlerKeeps(s);
    case CreateStep(inputs, found) =>
      if s.handler.Creating? { PayingOutKeeps(cfg, s, s.handler.block, inputs, found, ListingPending); }
    case SkipBatch =>
      if AtBatch(s) { SkippedPending(s.batches, s.handler.todo); }
    case FindRowsMissing =>
    case Replan(inputs, found) =>
      if s.handler.Replanning? { ReplanningKeeps(cfg, s, inputs, found); }
    case Sign(txid) =>
      if AtBatch(s) { SigningKeeps(s, txid); }
  }

  lemma BootKeeps(cfg: Config, s: State, e: StartupEvent)
    requires SubmitInvariant(s)
    ensures SubmitInvariant(BootNext(cfg, s, e)) && Advances(s.batches, BootNext(cfg, s, e).batches)
  {
    if e.StartupStep? && s.startup.Settling? { ConfirmerKeeps(s, s.startup.confirmer, e.answer); }
  }

  lemma OperatorKeeps(cfg: Config, s: State, e: OperatorEvent)
    requires SubmitInvariant(s)
    ensures SubmitInvariant(OperatorNext(cfg, s, e)) && Advances(s.batches, OperatorNext(cfg, s, e).batches)
  {
    match e
    case AdminCheck(hash) =>
    case AdminCreate(block, inputs, found) => PayingOutKeeps(cfg, s, block, inputs, found, s.handler);
    case DeletePayouts(batch) => ReplacingKeeps(s, batch, []);
  }

  lemma StepKeepsSubmissions(cfg: Config, s: State, e: Event)
    requires SubmitInvariant(s)
    ensures SubmitInvariant(Step(cfg, s, e)) && Advances(s.batches, Step(cfg, s, e).batches)
  {
    match e
    case Miner(m) =>
    case Chain(c) =>
    case Boot(b) => BootKeeps(cfg, s, b);
    case Payout(p) => PayoutKeeps(cfg, s, p);
    case Operator(o) => OperatorKeeps(cfg, s, o);
  }

  // ----- payouts and block status -----

  lemma PlanIgnoresStatus(cfg: Config, block: FoundBlock, block': FoundBlock, inputs: Inputs)
    requires SameBlock(block, block')
    ensures NewBatch(cfg, block', inputs) == NewBatch(cfg, block, inputs)
    ensures OutputsOf(cfg, block', inputs) == OutputsOf(cfg, block, inputs)
  {
  }

  lemma PaidOutIgnoresStatus(cfg: Config, s: State, s': State, b: nat, inputs: Inputs, found: bool)
    requires s' == s.(blocks := s'.blocks) && BlocksKept(s.blocks, s'.blocks) && |s'.blocks| == |s.blocks|
    ensures PaidOut(cfg, s', b, inputs, found) == PaidOut(cfg, s, b, inputs, found)
  {
    if b < |s.blocks| { PlanIgnoresStatus(cfg, s.blocks[b], s'.blocks[b], inputs); }
  }

  lemma RebuildIgnoresStatus(cfg: Config, s: State, s': State, inputs: Inputs, found: bool)
    requires s' == s.(blocks := s'.blocks) && BlocksKept(s.blocks, s'.blocks) && |s'.blocks| == |s.blocks|
    requires s.handler.Replanning?
    ensures Replanned(cfg, s', inputs, found).batches == Replanned(cfg, s, inputs, found).batches
    ensures Replanned(cfg, s', inputs, found).handler == Replanned(cfg, s, inputs, found).handler
  {
    var k := s.handler.block;
    if k < |s.blocks| { PlanIgnoresStatus(cfg, s.blocks[k], s'.blocks[k], inputs); }
  }

  lemma HandlerIgnoresStatus(s: State, s': State)
    requires s' == s.(blocks := s'.blocks) && BlocksKept(s.blocks, s'.blocks) && |s'.blocks| == |s.blocks|
    ensures HandlerNext(s').batches == HandlerNext(s).batches && HandlerNext(s').handler == HandlerNext(s).handler
    ensures HandlerNext(s').signed == HandlerNext(s).signed
  {
    assert forall i | 0 <= i < |s.blocks| :: SameBlock(s.blocks[i], s'.blocks[i]);
    if s.handler.Waiting? && s.queue != [] && s.queue[0].BlockMatured? {
      FindKept(s.blocks, s'.blocks, s.queue[0].hash);
    }
    if s.handler.Scanning? && s.handler.confirmer.LookingUp? && s.handler.confirmer.batch < |s.batches| {
      LatestKept(s.blocks, s'.blocks, s.batches[s.handler.confirmer.batch].roundId);
    }
    if s.handler.LookingUpBlock? && s.handler.todo != [] && s.handler.todo[0] < |s.batches| {
      LatestKept(s.blocks, s'.blocks, s.batches[s.handler.todo[0]].roundId);
    }
  }

  /** What the handler creates, rebuilds, signs and confirms does not depend on the status of any block. */
  lemma PayoutsIgnoreStatus(cfg: Config, s: State, s': State, e: PayoutStep)
    requires s' == s.(blocks := s'.blocks) && BlocksKept(s.blocks, s'.blocks) && |s'.blocks| == |s.blocks|
    ensures PayoutNext(cfg, s', e).batches == PayoutNext(cfg, s, e).batches
    ensures PayoutNext(cfg, s', e).handler == PayoutNext(cfg, s, e).handler
    ensures PayoutNext(cfg, s', e).signed == PayoutNext(cfg, s, e).signed
  {
    match e
    case HandlerStep => HandlerIgnoresStatus(s, s');
    case CreateStep(inputs, found) =>
      if s.handler.Creating? { PaidOutIgnoresStatus(cfg, s, s', s.handler.block, inputs, found); }
    case Replan(inputs, found) =>
      if s.handler.Replanning? { RebuildIgnoresStatus(cfg, s, s', inputs, found); }
    case _ =>
  }

  /** The new batch is for an orphaned block. */
  ghost predicate PaysOrphan(s: State, batches': seq<Batch>) {
    |batches'| == |s.batches| + 1 &&
    exists b: nat :: OwnedBy(s.blocks, batches'[|s.batches|], b) && s.blocks[b].status == Orphaned
  }

  lemma AppendedPaysOrphanIff(s: State, batch: Batch, b: nat)
    requires DistinctHashes(s.blocks) && OwnedBy(s.blocks, batch, b)
    ensures PaysOrphan(s, s.batches + [batch]) <==> s.blocks[b].status == Orphaned
  {
    assert (s.batches + [batch])[|s.batches|] == batch;
  }

  /** A payout is created for an orphaned block exactly when the block is orphaned by then and has no batch yet. */
  lemma PaysOrphanIff(cfg: Config, s: State, b: nat, inputs: Inputs, found: bool)
    requires KeyInvariant(s.blocks, s.batches) && b < |s.blocks|
    ensures PaysOrphan(s, PaidOut(cfg, s, b, inputs, found)) <==>
      && found && s.blocks[b].status == Orphaned
      && forall j | 0 <= j < |s.batches| :: HashOf(s.batches[j]) != s.blocks[b].hash
  {
    GuardIff(s.blocks, s.batches, s.blocks[b].hash);
    NewBatchOwned(cfg, s.blocks, b, inputs);
    AppendedPaysOrphanIff(s, NewBatch(cfg, s.blocks[b], inputs), b);
  }
}
