/**
 Depth safety: unless a manual trigger hits a shallow block, only a block that had the
 required confirmations under a tip some check used is ever queued or paid out, or, when
 it is alone in its round, matured.
 */
module PoolDepth {
  import opened Text
  import opened PayoutPlan
  import opened Tables
  import opened Pool
  import opened PoolGrowth
  import opened PoolRounds
  import opened PoolPayouts

  /** Block `i` had the required depth under some tip already seen. */
  ghost predicate WasDeep(cfg: Config, s: State, i: nat) {
    i < |s.blocks| && exists tip :: tip in s.tips && Deep(s.blocks[i].height, tip, cfg.confirmations)
  }

  ghost predicate AllDeep(cfg: Config, s: State, ids: seq<nat>) {
    forall i | i in ids :: WasDeep(cfg, s, i)
  }

  ghost predicate MaturedDeep(cfg: Config, s: State) {
    forall i: nat | Alone(s.blocks, i) && s.blocks[i].status == Matured :: WasDeep(cfg, s, i)
  }

  ghost predicate DeepIfAlone(cfg: Config, s: State, i: nat) {
    i < |s.blocks| && (Alone(s.blocks, i) ==> WasDeep(cfg, s, i))
  }

  ghost predicate DeepOwner(cfg: Config, s: State, batch: Batch) {
    exists i :: OwnedBy(s.blocks, batch, i) && WasDeep(cfg, s, i)
  }

  ghost predicate BatchesDeep(cfg: Config, s: State) {
    forall j | 0 <= j < |s.batches| :: DeepOwner(cfg, s, s.batches[j])
  }

  ghost predicate DeepHash(cfg: Config, s: State, hash: string) {
    exists i: nat :: i < |s.blocks| && s.blocks[i].hash == hash && WasDeep(cfg, s, i)
  }

  ghost predicate QueueDeep(cfg: Config, s: State, queue: seq<PayoutEvent>) {
    forall e | e in queue && e.BlockMatured? :: DeepHash(cfg, s, e.hash)
  }

  ghost predicate HandlerDeep(cfg: Config, s: State, handler: Handler) {
    handler.Guarding? || handler.Creating? ==> WasDeep(cfg, s, handler.block)
  }

  ghost predicate ConsumerDeep(cfg: Config, s: State, c: Consumer) {
    && (c.Reconnected? ==> c.block < |s.blocks|)
    && (c.Restoring? ==> c.block < |s.blocks|)
    && ((c.Restoring? && c.pending) || c.Rematuring? ==> DeepIfAlone(cfg, s, c.block))
    && (c.Maturing? ==> AllDeep(cfg, s, c.todo) && AllDeep(cfg, s, c.done))
  }

  ghost predicate StartupDeep(cfg: Config, s: State, startup: Startup) {
    startup.CatchingUp? ==> AllDeep(cfg, s, startup.todo) && AllDeep(cfg, s, startup.done)
  }

  ghost predicate DepthInvariant(cfg: Config, s: State) {
    && MaturedDeep(cfg, s)
    && BatchesDeep(cfg, s)
    && QueueDeep(cfg, s, s.queue)
    && HandlerDeep(cfg, s, s.handler)
    && ConsumerDeep(cfg, s, s.consumer)
    && StartupDeep(cfg, s, s.startup)
  }

  // ----- depth once had is had for good -----

  lemma DeepLasts(cfg: Config, s: State, s': State, i: nat)
    requires BlocksKept(s.blocks, s'.blocks) && s.tips <= s'.tips && WasDeep(cfg, s, i)
    ensures WasDeep(cfg, s', i)
  {
    assert SameBlock(s.blocks[i], s'.blocks[i]);
    var tip :| tip in s.tips && Deep(s.blocks[i].height, tip, cfg.confirmations);
    assert tip in s'.tips && Deep(s'.blocks[i].height, tip, cfg.confirmations);
  }

  lemma DeepIfAloneLasts(cfg: Config, s: State, s': State, i: nat)
    requires BlocksKept(s.blocks, s'.blocks) && s.tips <= s'.tips && DeepIfAlone(cfg, s, i)
    ensures DeepIfAlone(cfg, s', i)
  {
    if Alone(s'.blocks, i) {
      AloneBefore(s.blocks, s'.blocks, i);
      DeepLasts(cfg, s, s', i);
    }
  }

  lemma AllDeepLasts(cfg: Config, s: State, s': State, ids: seq<nat>)
    requires BlocksKept(s.blocks, s'.blocks) && s.tips <= s'.tips && AllDeep(cfg, s, ids)
    ensures AllDeep(cfg, s', ids)
  {
    forall i | i in ids
      ensures WasDeep(cfg, s', i)
    {
      DeepLasts(cfg, s, s', i);
    }
  }

  lemma OwnerLasts(cfg: Config, s: State, s': State, batch: Batch, batch': Batch)
    requires Grows(s, s') && DeepOwner(cfg, s, batch) && SameBatch(batch, batch')
    ensures DeepOwner(cfg, s', batch')
  {
    var i: nat :| OwnedBy(s.blocks, batch, i) && WasDeep(cfg, s, i);
    assert SameBlock(s.blocks[i], s'.blocks[i]);
    DeepLasts(cfg, s, s', i);
    assert OwnedBy(s'.blocks, batch', i);
  }

  lemma QueueLasts(cfg: Config, s: State, s': State, queue: seq<PayoutEvent>)
    requires Grows(s, s') && QueueDeep(cfg, s, queue)
    ensures QueueDeep(cfg, s', queue)
  {
    forall e | e in queue && e.BlockMatured?
      ensures DeepHash(cfg, s', e.hash)
    {
      var i: nat :| i < |s.blocks| && s.blocks[i].hash == e.hash && WasDeep(cfg, s, i);
      assert SameBlock(s.blocks[i], s'.blocks[i]);
      DeepLasts(cfg, s, s', i);
    }
  }

  lemma LocalsLast(cfg: Config, s: State, s': State)
    requires Grows(s, s') && DepthInvariant(cfg, s)
    ensures HandlerDeep(cfg, s', s.handler) && ConsumerDeep(cfg, s', s.consumer) && StartupDeep(cfg, s', s.startup)
  {
    if s.handler.Guarding? || s.handler.Creating? { DeepLasts(cfg, s, s', s.handler.block); }
    var c := s.consumer;
    if (c.Restoring? && c.pending) || c.Rematuring? { DeepIfAloneLasts(cfg, s, s', c.block); }
    if c.Maturing? {
      AllDeepLasts(cfg, s, s', c.todo);
      AllDeepLasts(cfg, s, s', c.done);
    }
    if s.startup.CatchingUp? {
      AllDeepLasts(cfg, s, s', s.startup.todo);
      AllDeepLasts(cfg, s, s', s.startup.done);
    }
  }

  lemma SameBatchesDeep(cfg: Config, s: State, s': State)
    requires Grows(s, s') && |s'.batches| == |s.batches| && BatchesDeep(cfg, s)
    ensures BatchesDeep(cfg, s')
  {
    forall j | 0 <= j < |s'.batches|
      ensures DeepOwner(cfg, s', s'.batches[j])
    {
      OwnerLasts(cfg, s, s', s.batches[j], s'.batches[j]);
    }
  }

  /** Every newly matured block is one whose depth is known. */
  ghost predicate MaturesDeep(cfg: Config, s: State, s': State) {
    forall i: nat | i < |s'.blocks| && s'.blocks[i].status == Matured ::
      i < |s.blocks| && (s.blocks[i].status == Matured || DeepIfAlone(cfg, s, i))
  }

  lemma MaturedLasts(cfg: Config, s: State, s': State)
    requires Grows(s, s') && MaturedDeep(cfg, s) && MaturesDeep(cfg, s, s')
    ensures MaturedDeep(cfg, s')
  {
    forall i: nat | Alone(s'.blocks, i) && s'.blocks[i].status == Matured
      ensures WasDeep(cfg, s', i)
    {
      AloneBefore(s.blocks, s'.blocks, i);
      assert WasDeep(cfg, s, i);
      DeepLasts(cfg, s, s', i);
    }
  }

  // ----- the steps -----

  lemma DueAreDeep(cfg: Config, s: State, tip: int)
    requires tip in s.tips
    ensures AllDeep(cfg, s, DueIds(s.blocks, tip, cfg.confirmations))
  {
  }

  lemma EventsAreDeep(cfg: Config, s: State, ids: seq<nat>)
    requires AllDeep(cfg, s, ids)
    ensures QueueDeep(cfg, s, MaturedEvents(s.blocks, ids))
  {
    var events := MaturedEvents(s.blocks, ids);
    forall e | e in events
      ensures DeepHash(cfg, s, e.hash)
    {
      var i :| i in ids && i < |s.blocks| && e.hash == s.blocks[i].hash;
      assert WasDeep(cfg, s, i);
    }
  }

  /** A pending batch found through the round of a block alone in it is that block's own. */
  lemma PendingMeansDeep(cfg: Config, s: State, b: nat)
    requires BatchesDeep(cfg, s)
    requires b < |s.blocks| && RoundHas(s.batches, s.blocks[b].roundId, Pending)
    ensures DeepIfAlone(cfg, s, b)
  {
    if Alone(s.blocks, b) {
      var j :| 0 <= j < |s.batches| && s.batches[j].roundId == s.blocks[b].roundId && s.batches[j].status == Pending;
      assert DeepOwner(cfg, s, s.batches[j]);
      var i: nat :| OwnedBy(s.blocks, s.batches[j], i) && WasDeep(cfg, s, i);
      assert i == b;
    }
  }

  /** The read of a block's round finds a batch of a status exactly when some block of the round owns one. */
  lemma RoundHasIff(blocks: seq<FoundBlock>, batches: seq<Batch>, b: nat, status: BatchStatus)
    requires KeyInvariant(blocks, batches) && b < |blocks|
    ensures RoundHas(batches, blocks[b].roundId, status) <==>
      exists i: nat, j: nat :: i < |blocks| && j < |batches| && blocks[i].roundId == blocks[b].roundId
        && OwnedBy(blocks, batches[j], i) && batches[j].status == status
  {
    if RoundHas(batches, blocks[b].roundId, status) {
      var j :| 0 <= j < |batches| && batches[j].roundId == blocks[b].roundId && batches[j].status == status;
      assert Owned(blocks, batches[j]);
      var i: nat :| OwnedBy(blocks, batches[j], i);
    }
  }

  lemma MinerKeepsDepth(cfg: Config, s: State, e: MinerEvent)
    requires DepthInvariant(cfg, s)
    ensures DepthInvariant(cfg, MinerNext(s, e))
  {
    var s' := MinerNext(s, e);
    MinerGrows(s, e);
    assert MaturesDeep(cfg, s, s');
    MaturedLasts(cfg, s, s');
    SameBatchesDeep(cfg, s, s');
    QueueLasts(cfg, s, s', s.queue);
    LocalsLast(cfg, s, s');
    assert s'.queue == s.queue && s'.handler == s.handler && s'.consumer == s.consumer && s'.startup == s.startup;
  }

  lemma ConsumerLocals(cfg: Config, s: State)
    requires DepthInvariant(cfg, s)
    ensures ConsumerDeep(cfg, ConsumerNext(cfg, s), ConsumerNext(cfg, s).consumer)
  {
    var s' := ConsumerNext(cfg, s);
    ConsumerGrows(cfg, s);
    LocalsLast(cfg, s, s');
    match s.consumer
    case Reconnected(b, txids) =>
      if RoundHas(s.batches, RoundOf(s.blocks, b), Pending) { PendingMeansDeep(cfg, s, b); }
    case Checking(txids) => DueAreDeep(cfg, s', s.tip);
    case Maturing(todo, done, txids) =>
      if todo != [] {
        assert todo[0] in todo;
        assert forall i | i in todo[1..] :: i in todo;
      }
    case _ =>
  }

  lemma ConsumerMaturesDeep(cfg: Config, s: State)
    requires DepthInvariant(cfg, s)
    ensures MaturesDeep(cfg, s, ConsumerNext(cfg, s))
  {
    if s.consumer.Maturing? && s.consumer.todo != [] { assert s.consumer.todo[0] in s.consumer.todo; }
  }

  lemma ConsumerQueuesDeep(cfg: Config, s: State)
    requires DepthInvariant(cfg, s)
    ensures QueueDeep(cfg, ConsumerNext(cfg, s), ConsumerNext(cfg, s).queue)
  {
    var s' := ConsumerNext(cfg, s);
    ConsumerGrows(cfg, s);
    QueueLasts(cfg, s, s', s.queue);
    if s.consumer.Maturing? && s.consumer.todo == [] {
      AllDeepLasts(cfg, s, s', s.consumer.done);
      EventsAreDeep(cfg, s', s.consumer.done);
    }
  }

  lemma ConsumerKeepsDepth(cfg: Config, s: State)
    requires DepthInvariant(cfg, s)
    ensures DepthInvariant(cfg, ConsumerNext(cfg, s))
  {
    var s' := ConsumerNext(cfg, s);
    ConsumerGrows(cfg, s);
    ConsumerLocals(cfg, s);
    ConsumerMaturesDeep(cfg, s);
    ConsumerQueuesDeep(cfg, s);
    MaturedLasts(cfg, s, s');
    SameBatchesDeep(cfg, s, s');
    LocalsLast(cfg, s, s');
  }

  lemma ChainKeepsDepth(cfg: Config, s: State, e: ChainEvent)
    requires DepthInvariant(cfg, s)
    ensures DepthInvariant(cfg, ChainNext(cfg, s, e))
  {
    if e.ConsumerStep? {
      ConsumerKeepsDepth(cfg, s);
    } else {
      LocalChange(cfg, s, ChainNext(cfg, s, e));
    }
  }

  /** A step that only rearranges locals, to ones whose depth is known. */
  lemma LocalChange(cfg: Config, s: State, s': State)
    requires DepthInvariant(cfg, s)
    requires s'.blocks == s.blocks && s'.batches == s.batches && s.tips <= s'.tips
    requires s.signed <= s'.signed && |s.rounds| <= |s'.rounds|
    requires s'.queue == s.queue || s'.queue == [] || (s.queue != [] && s'.queue == s.queue[1..])
    requires s'.handler == s.handler || HandlerDeep(cfg, s', s'.handler)
    requires s'.consumer == s.consumer || ConsumerDeep(cfg, s', s'.consumer)
    requires s'.startup == s.startup || StartupDeep(cfg, s', s'.startup)
    ensures DepthInvariant(cfg, s')
  {
    LocalsLast(cfg, s, s');
    MaturedLasts(cfg, s, s');
    SameBatchesDeep(cfg, s, s');
    QueueLasts(cfg, s, s', s.queue);
  }

  lemma StartupKeepsDepth(cfg: Config, s: State, answer: bool)
    requires DepthInvariant(cfg, s)
    ensures DepthInvariant(cfg, StartupNext(s, answer))
  {
    var s' := StartupNext(s, answer);
    StartupGrows(s, answer);
    LocalsLast(cfg, s, s');
    if s.startup.CatchingUp? && s.startup.todo != [] {
      var todo := s.startup.todo;
      assert todo[0] in todo;
      assert forall i | i in todo[1..] :: i in todo;
    }
    assert MaturesDeep(cfg, s, s');
    MaturedLasts(cfg, s, s');
    SameBatchesDeep(cfg, s, s');
    QueueLasts(cfg, s, s', s.queue);
    if s.startup.CatchingUp? && s.startup.todo == [] { EventsAreDeep(cfg, s', s.startup.done); }
  }

  lemma BootKeepsDepth(cfg: Config, s: State, e: StartupEvent)
    requires DepthInvariant(cfg, s)
    ensures DepthInvariant(cfg, BootNext(cfg, s, e))
  {
    if e.StartupStep? {
      StartupKeepsDepth(cfg, s, e.answer);
    } else {
      var s' := BootNext(cfg, s, e);
      if e.CheckAtStartup? && s.startup.Started? { DueAreDeep(cfg, s', e.nodeTip); }
      LocalChange(cfg, s, s');
    }
  }

  lemma ReceivedIsDeep(cfg: Config, s: State, hash: string)
    requires DistinctHashes(s.blocks) && DeepHash(cfg, s, hash)
    ensures FindBlock(s.blocks, hash).Some? && WasDeep(cfg, s, FindBlock(s.blocks, hash).value)
  {
    var i: nat :| i < |s.blocks| && s.blocks[i].hash == hash && WasDeep(cfg, s, i);
    assert FindBlock(s.blocks, hash) == Some(i);
  }

  lemma ReceivingKeepsDepth(cfg: Config, s: State)
    requires DistinctHashes(s.blocks) && DepthInvariant(cfg, s) && s.handler.Waiting?
    ensures DepthInvariant(cfg, Received(s))
  {
    if s.queue != [] && s.queue[0].BlockMatured? {
      ReceivedIsDeep(cfg, s, s.queue[0].hash);
      assert WasDeep(cfg, Received(s), FindBlock(s.blocks, s.queue[0].hash).value);
    }
    LocalChange(cfg, s, Received(s));
  }

  lemma ScanningKeepsDepth(cfg: Config, s: State)
    requires DepthInvariant(cfg, s) && (s.handler.Scanning? || s.handler.Marking?)
    ensures DepthInvariant(cfg, HandlerNext(s))
  {
    var s' := HandlerNext(s);
    HandlerGrows(s);
    LocalsLast(cfg, s, s');
    assert MaturesDeep(cfg, s, s');
    MaturedLasts(cfg, s, s');
    SameBatchesDeep(cfg, s, s');
    QueueLasts(cfg, s, s', s.queue);
  }

  lemma HandlerKeepsDepth(cfg: Config, s: State)
    requires DistinctHashes(s.blocks) && DepthInvariant(cfg, s)
    ensures DepthInvariant(cfg, HandlerNext(s))
  {
    match s.handler
    case Waiting => ReceivingKeepsDepth(cfg, s);
    case Scanning(_) => ScanningKeepsDepth(cfg, s);
    case Marking(_, _, _) => ScanningKeepsDepth(cfg, s);
    case _ => LocalChange(cfg, s, HandlerNext(s));
  }

  /** A batch created for a deep block. */
  lemma CreatingKeepsDepth(cfg: Config, s: State, b: nat, inputs: Inputs, found: bool, s': State)
    requires DistinctHashes(s.blocks) && DepthInvariant(cfg, s) && WasDeep(cfg, s, b)
    requires s' == s.(batches := PaidOut(cfg, s, b, inputs, found), handler := s'.handler, admins := s'.admins)
    requires s'.handler == s.handler || s'.handler.ListingPending?
    ensures DepthInvariant(cfg, s')
  {
    PaidOutKeeps(cfg, s, b, inputs, found);
    LocalsLast(cfg, s, s');
    MaturedLasts(cfg, s, s');
    QueueLasts(cfg, s, s', s.queue);
    forall j | 0 <= j < |s'.batches|
      ensures DeepOwner(cfg, s', s'.batches[j])
    {
      if j < |s.batches| {
        OwnerLasts(cfg, s, s', s.batches[j], s'.batches[j]);
      } else {
        NewBatchOwned(cfg, s.blocks, b, inputs);
        assert s'.batches[j] == NewBatch(cfg, s.blocks[b], inputs);
        DeepLasts(cfg, s, s', b);
      }
    }
  }

  /** Rows replaced in a batch leave its owner alone. */
  lemma ReplacingKeepsDepth(cfg: Config, s: State, id: nat, payouts: seq<PayoutOutput>)
    requires DepthInvariant(cfg, s)
    ensures DepthInvariant(cfg, s.(batches := WithPayouts(s.batches, id, payouts)))
  {
    var s' := s.(batches := WithPayouts(s.batches, id, payouts));
    assert Grows(s, s');
    LocalsLast(cfg, s, s');
    MaturedLasts(cfg, s, s');
    SameBatchesDeep(cfg, s, s');
    QueueLasts(cfg, s, s', s.queue);
  }

  lemma ReplanningKeepsDepth(cfg: Config, s: State, inputs: Inputs, found: bool)
    requires DepthInvariant(cfg, s) && s.handler.Replanning?
    ensures DepthInvariant(cfg, Replanned(cfg, s, inputs, found))
  {
    var s' := Replanned(cfg, s, inputs, found);
    ReplanKeeps(cfg, s, inputs, found);
    LocalsLast(cfg, s, s');
    MaturedLasts(cfg, s, s');
    SameBatchesDeep(cfg, s, s');
    QueueLasts(cfg, s, s', s.queue);
  }

  lemma PayoutKeepsDepth(cfg: Config, s: State, e: PayoutStep)
    requires DistinctHashes(s.blocks) && DepthInvariant(cfg, s)
    ensures DepthInvariant(cfg, PayoutNext(cfg, s, e))
  {
    match e
    case HandlerStep => HandlerKeepsDepth(cfg, s);
    case CreateStep(inputs, found) =>
      if s.handler.Creating? { CreatingKeepsDepth(cfg, s, s.handler.block, inputs, found, PayoutNext(cfg, s, e)); }
    case Replan(inputs, found) =>
      if s.handler.Replanning? { ReplanningKeepsDepth(cfg, s, inputs, found); }
    case _ => LocalChange(cfg, s, PayoutNext(cfg, s, e));
  }

  /** A manual trigger, if the event is one, targets a block that was deep. */
  ghost predicate TriggersDeep(cfg: Config, s: State, e: Event) {
    e.Operator? && e.operator.AdminCreate? ==> WasDeep(cfg, s, e.operator.block)
  }

  lemma OperatorKeepsDepth(cfg: Config, s: State, e: OperatorEvent)
    requires DistinctHashes(s.blocks) && DepthInvariant(cfg, s) && TriggersDeep(cfg, s, Operator(e))
    ensures DepthInvariant(cfg, OperatorNext(cfg, s, e))
  {
    match e
    case AdminCheck(hash) => LocalChange(cfg, s, OperatorNext(cfg, s, e));
    case AdminCreate(block, inputs, found) =>
      if block in s.admins { CreatingKeepsDepth(cfg, s, block, inputs, found, OperatorNext(cfg, s, e)); }
    case DeletePayouts(batch) => ReplacingKeepsDepth(cfg, s, batch, []);
  }

  lemma StepKeepsDepth(cfg: Config, s: State, e: Event)
    requires KeyInvariant(s.blocks, s.batches) && DepthInvariant(cfg, s)
    requires TriggersDeep(cfg, s, e)
    ensures DepthInvariant(cfg, Step(cfg, s, e))
  {
    match e
    case Miner(m) => MinerKeepsDepth(cfg, s, m);
    case Chain(c) => ChainKeepsDepth(cfg, s, c);
    case Boot(b) => BootKeepsDepth(cfg, s, b);
    case Payout(p) => PayoutKeepsDepth(cfg, s, p);
    case Operator(o) => OperatorKeepsDepth(cfg, s, o);
  }

  /** The block a batch was created for was deep. */
  lemma BatchOwnerWasDeep(cfg: Config, s: State, j: nat, b: nat)
    requires DistinctHashes(s.blocks) && BatchesDeep(cfg, s)
    requires j < |s.batches| && OwnedBy(s.blocks, s.batches[j], b)
    ensures WasDeep(cfg, s, b)
  {
    assert DeepOwner(cfg, s, s.batches[j]);
    var i: nat :| OwnedBy(s.blocks, s.batches[j], i) && WasDeep(cfg, s, i);
    assert i == b;
  }

  lemma TriggeredBatch(cfg: Config, s: State, b: nat, inputs: Inputs)
    requires DistinctHashes(s.blocks)
    requires b in s.admins && b < |s.blocks| && !LikeGuard(s.batches, s.blocks[b].hash)
    ensures
      var s' := OperatorNext(cfg, s, AdminCreate(b, inputs, true));
      && s'.blocks == s.blocks && s'.tips == s.tips && |s'.batches| == |s.batches| + 1
      && OwnedBy(s'.blocks, s'.batches[|s.batches|], b)
  {
    NewBatchOwned(cfg, s.blocks, b, inputs);
  }

  /** A manual trigger takes a known block exactly when it is neither orphaned nor paid, whatever its depth. */
  lemma TriggerTakesIff(cfg: Config, s: State, b: nat)
    requires DistinctHashes(s.blocks) && b < |s.blocks| && b !in s.admins
    ensures b in OperatorNext(cfg, s, AdminCheck(s.blocks[b].hash)).admins
      <==> s.blocks[b].status == Immature || s.blocks[b].status == Matured
  {
    assert FindBlock(s.blocks, s.blocks[b].hash) == Some(b);
  }

  /** A manual trigger that creates a batch keeps depth safety exactly when the block was deep. */
  lemma TriggerIsSafeIff(cfg: Config, s: State, b: nat, inputs: Inputs)
    requires KeyInvariant(s.blocks, s.batches) && DepthInvariant(cfg, s)
    requires b in s.admins && b < |s.blocks| && !LikeGuard(s.batches, s.blocks[b].hash)
    ensures DepthInvariant(cfg, OperatorNext(cfg, s, AdminCreate(b, inputs, true))) <==> WasDeep(cfg, s, b)
  {
    var s' := OperatorNext(cfg, s, AdminCreate(b, inputs, true));
    TriggeredBatch(cfg, s, b, inputs);
    if WasDeep(cfg, s, b) {
      OperatorKeepsDepth(cfg, s, AdminCreate(b, inputs, true));
    }
    if DepthInvariant(cfg, s') {
      BatchOwnerWasDeep(cfg, s', |s.batches|, b);
    }
  }
}
