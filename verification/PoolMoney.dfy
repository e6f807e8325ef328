/** Conservation of every coinbase over whole runs, through creation, deletion and rebuild of payout rows. */
module PoolMoney {
  import opened PayoutPlan
  import opened PlanTheorems
  import opened Tables
  import opened Pool
  import opened PoolGrowth
  import opened PoolRounds
  import opened PoolPayouts

  /** Minerfund, pool fee, amounts and dust make up the coinbase. */
  predicate Balances(coinbase: nat, fee: int, payouts: seq<PayoutOutput>) {
    coinbase == Minerfund(coinbase) + fee + AmountTotal(payouts) + DustTotal(payouts)
  }

  /**
   The batch has the reward and fee of block `i`, and its rows, if there are any and the block
   is alone in its round, account for the whole coinbase.
   */
  ghost predicate AccountsFor(cfg: Config, blocks: seq<FoundBlock>, batch: Batch, i: nat) {
    && OwnedBy(blocks, batch, i)
    && batch.gross == RewardFromCoinbase(blocks[i].coinbaseValue)
    && batch.fee == FeeFor(cfg, blocks[i])
    && (Alone(blocks, i) && batch.payouts != [] ==> Balances(blocks[i].coinbaseValue, batch.fee, batch.payouts))
  }

  ghost predicate Accounted(cfg: Config, blocks: seq<FoundBlock>, batch: Batch) {
    exists i :: AccountsFor(cfg, blocks, batch, i)
  }

  ghost predicate CoinbasesFit(blocks: seq<FoundBlock>) {
    forall i | 0 <= i < |blocks| :: blocks[i].coinbaseValue <= I64_MAX
  }

  /** A rebuild about to write plans with a block of the batch's round. */
  predicate PlansInRound(s: State) {
    s.handler.Replanning? ==>
      && s.handler.todo != [] && s.handler.todo[0] < |s.batches| && s.handler.block < |s.blocks|
      && s.blocks[s.handler.block].roundId == s.batches[s.handler.todo[0]].roundId
  }

  ghost predicate MoneyInvariant(cfg: Config, s: State) {
    && CoinbasesFit(s.blocks)
    && PlansInRound(s)
    && forall j | 0 <= j < |s.batches| :: Accounted(cfg, s.blocks, s.batches[j])
  }

  lemma PlannedNet(inputs: Inputs, gross: int, net: int, minPayout: int, outputs: seq<PayoutOutput>)
    requires outputs == PlanOutputs(inputs.shares, inputs.dust, gross, net, minPayout) && outputs != []
    ensures AmountTotal(outputs) + DustTotal(outputs) == net
  {
    OutputsExistIff(inputs.shares, inputs.dust, gross, net, minPayout);
    PlanConserves(inputs.shares, inputs.dust, gross, net, minPayout);
  }

  lemma PlannedTotal(cfg: Config, block: FoundBlock, inputs: Inputs, gross: int, net: int)
    requires gross == RewardFromCoinbase(block.coinbaseValue) && net == gross - FeeFor(cfg, block)
    requires OutputsOf(cfg, block, inputs) != []
    ensures AmountTotal(OutputsOf(cfg, block, inputs)) + DustTotal(OutputsOf(cfg, block, inputs)) == net
  {
    PlannedNet(inputs, gross, net, cfg.minPayout, OutputsOf(cfg, block, inputs));
  }

  lemma NetBalances(coinbase: nat, fee: int, outputs: seq<PayoutOutput>)
    requires coinbase <= I64_MAX && AmountTotal(outputs) + DustTotal(outputs) == RewardFromCoinbase(coinbase) - fee
    ensures Balances(coinbase, fee, outputs)
  {
    RewardSplitsCoinbase(coinbase);
  }

  lemma PlannedBalances(cfg: Config, block: FoundBlock, inputs: Inputs)
    requires block.coinbaseValue <= I64_MAX && OutputsOf(cfg, block, inputs) != []
    ensures Balances(block.coinbaseValue, FeeFor(cfg, block), OutputsOf(cfg, block, inputs))
  {
    var gross := RewardFromCoinbase(block.coinbaseValue);
    PlannedTotal(cfg, block, inputs, gross, gross - FeeFor(cfg, block));
    NetBalances(block.coinbaseValue, FeeFor(cfg, block), OutputsOf(cfg, block, inputs));
  }

  /** Rows rebuilt under another configuration balance the stored fee exactly when the two fees agree. */
  lemma RebuildBalancesIff(cfg: Config, cfg': Config, block: FoundBlock, inputs: Inputs)
    requires block.coinbaseValue <= I64_MAX && OutputsOf(cfg', block, inputs) != []
    ensures Balances(block.coinbaseValue, FeeFor(cfg, block), OutputsOf(cfg', block, inputs))
      <==> FeeFor(cfg, block) == FeeFor(cfg', block)
  {
    PlannedBalances(cfg', block, inputs);
  }

  /** Rows planned from block `k` balance block `i` exactly when the two have the same reward net of fee. */
  lemma RebuildFromOtherIff(cfg: Config, i: FoundBlock, k: FoundBlock, inputs: Inputs)
    requires i.coinbaseValue <= I64_MAX && k.coinbaseValue <= I64_MAX && OutputsOf(cfg, k, inputs) != []
    ensures Balances(i.coinbaseValue, FeeFor(cfg, i), OutputsOf(cfg, k, inputs))
      <==> RewardFromCoinbase(i.coinbaseValue) - FeeFor(cfg, i) == RewardFromCoinbase(k.coinbaseValue) - FeeFor(cfg, k)
  {
    PlannedBalances(cfg, k, inputs);
    RewardSplitsCoinbase(i.coinbaseValue);
    RewardSplitsCoinbase(k.coinbaseValue);
  }

  lemma NewBatchAccounted(cfg: Config, blocks: seq<FoundBlock>, b: nat, inputs: Inputs)
    requires DistinctHashes(blocks) && CoinbasesFit(blocks) && b < |blocks|
    ensures Accounted(cfg, blocks, NewBatch(cfg, blocks[b], inputs))
  {
    NewBatchOwned(cfg, blocks, b, inputs);
    if OutputsOf(cfg, blocks[b], inputs) != [] { PlannedBalances(cfg, blocks[b], inputs); }
    assert AccountsFor(cfg, blocks, NewBatch(cfg, blocks[b], inputs), b);
  }

  /** Accounts do not depend on statuses and transaction ids. */
  lemma AccountLasts(cfg: Config, blocks: seq<FoundBlock>, blocks': seq<FoundBlock>, batch: Batch, batch': Batch)
    requires Accounted(cfg, blocks, batch) && BlocksKept(blocks, blocks')
    requires SameBatch(batch, batch') && (batch'.payouts == batch.payouts || batch'.payouts == [])
    ensures Accounted(cfg, blocks', batch')
  {
    var i: nat :| AccountsFor(cfg, blocks, batch, i);
    assert SameBlock(blocks[i], blocks'[i]);
    if Alone(blocks', i) { AloneBefore(blocks, blocks', i); }
    assert AccountsFor(cfg, blocks', batch', i);
  }

  ghost predicate PayoutsKept(batches: seq<Batch>, batches': seq<Batch>) {
    |batches'| == |batches| &&
    forall j | 0 <= j < |batches| :: batches'[j].payouts == batches[j].payouts || batches'[j].payouts == []
  }

  lemma MoneyUntouched(cfg: Config, s: State, s': State)
    requires MoneyInvariant(cfg, s) && Grows(s, s') && PayoutsKept(s.batches, s'.batches)
    requires CoinbasesFit(s'.blocks) && PlansInRound(s')
    ensures MoneyInvariant(cfg, s')
  {
    forall j | 0 <= j < |s'.batches|
      ensures Accounted(cfg, s'.blocks, s'.batches[j])
    {
      AccountLasts(cfg, s.blocks, s'.blocks, s.batches[j], s'.batches[j]);
    }
  }

  lemma SameBlocksFit(s: State, s': State)
    requires CoinbasesFit(s.blocks) && BlocksKept(s.blocks, s'.blocks) && |s'.blocks| == |s.blocks|
    ensures CoinbasesFit(s'.blocks)
  {
    assert forall i | 0 <= i < |s.blocks| :: SameBlock(s.blocks[i], s'.blocks[i]);
  }

  lemma PayingOutKeepsMoney(cfg: Config, s: State, b: nat, inputs: Inputs, found: bool, s': State)
    requires KeyInvariant(s.blocks, s.batches) && MoneyInvariant(cfg, s)
    requires s'.blocks == s.blocks && s'.batches == PaidOut(cfg, s, b, inputs, found)
    requires s'.handler == s.handler || !s'.handler.Replanning?
    ensures MoneyInvariant(cfg, s')
  {
    if found && b < |s.blocks| && !LikeGuard(s.batches, s.blocks[b].hash) {
      NewBatchAccounted(cfg, s.blocks, b, inputs);
      AppendedKeepsMoney(cfg, s, s', NewBatch(cfg, s.blocks[b], inputs));
    }
  }

  lemma AppendedKeepsMoney(cfg: Config, s: State, s': State, batch: Batch)
    requires MoneyInvariant(cfg, s) && Accounted(cfg, s.blocks, batch)
    requires s'.blocks == s.blocks && s'.batches == s.batches + [batch]
    requires s'.handler == s.handler || !s'.handler.Replanning?
    ensures MoneyInvariant(cfg, s')
  {
  }

  /** Rows planned from a block of the round, put in place of a batch's rows, leave it accounted. */
  lemma ReplacedAccounts(cfg: Config, blocks: seq<FoundBlock>, batch: Batch, k: nat, payouts: seq<PayoutOutput>)
    requires Accounted(cfg, blocks, batch) && k < |blocks| && blocks[k].roundId == batch.roundId
    requires Balances(blocks[k].coinbaseValue, FeeFor(cfg, blocks[k]), payouts)
    ensures Accounted(cfg, blocks, batch.(payouts := payouts))
  {
    var i: nat :| AccountsFor(cfg, blocks, batch, i);
    assert Alone(blocks, i) ==> i == k;
    assert AccountsFor(cfg, blocks, batch.(payouts := payouts), i);
  }

  lemma ReplacingKeepsMoney(cfg: Config, s: State, s': State, id: nat, payouts: seq<PayoutOutput>)
    requires MoneyInvariant(cfg, s) && id < |s.batches|
    requires Accounted(cfg, s.blocks, s.batches[id].(payouts := payouts))
    requires s'.blocks == s.blocks && s'.batches == WithPayouts(s.batches, id, payouts) && !s'.handler.Replanning?
    ensures MoneyInvariant(cfg, s')
  {
  }

  lemma ReplanningKeepsMoney(cfg: Config, s: State, inputs: Inputs, found: bool)
    requires MoneyInvariant(cfg, s) && s.handler.Replanning?
    ensures MoneyInvariant(cfg, Replanned(cfg, s, inputs, found))
  {
    var id, k := s.handler.todo[0], s.handler.block;
    if found && CanPlan(cfg, s.blocks[k], inputs) {
      PlannedBalances(cfg, s.blocks[k], inputs);
      var outputs := OutputsOf(cfg, s.blocks[k], inputs);
      ReplacedAccounts(cfg, s.blocks, s.batches[id], k, outputs);
      ReplacingKeepsMoney(cfg, s, Replanned(cfg, s, inputs, found), id, outputs);
    }
  }

  lemma MinerKeepsMoney(cfg: Config, s: State, e: MinerEvent)
    requires MoneyInvariant(cfg, s)
    ensures MoneyInvariant(cfg, MinerNext(s, e))
  {
    MinerGrows(s, e);
    MoneyUntouched(cfg, s, MinerNext(s, e));
  }

  lemma HandlerPlansInRound(s: State)
    requires PlansInRound(s)
    ensures PlansInRound(HandlerNext(s))
  {
  }

  lemma HandlerKeepsRows(s: State)
    ensures PayoutsKept(s.batches, HandlerNext(s).batches)
    ensures |HandlerNext(s).blocks| == |s.blocks|
  {
  }

  lemma HandlerKeepsMoney(cfg: Config, s: State)
    requires MoneyInvariant(cfg, s)
    ensures MoneyInvariant(cfg, HandlerNext(s))
  {
    HandlerGrows(s);
    HandlerKeepsRows(s);
    HandlerPlansInRound(s);
    SameBlocksFit(s, HandlerNext(s));
    MoneyUntouched(cfg, s, HandlerNext(s));
  }

  lemma PayoutKeepsMoney(cfg: Config, s: State, e: PayoutStep)
    requires KeyInvariant(s.blocks, s.batches) && MoneyInvariant(cfg, s)
    ensures MoneyInvariant(cfg, PayoutNext(cfg, s, e))
  {
    match e
    case HandlerStep => HandlerKeepsMoney(cfg, s);
    case CreateStep(inputs, found) =>
      if s.handler.Creating? {
        PayingOutKeepsMoney(cfg, s, s.handler.block, inputs, found, PayoutNext(cfg, s, e));
      }
    case Replan(inputs, found) =>
      if s.handler.Replanning? { ReplanningKeepsMoney(cfg, s, inputs, found); }
    case _ =>
  }

  lemma BootKeepsRows(cfg: Config, s: State, e: StartupEvent)
    requires PlansInRound(s)
    ensures PayoutsKept(s.batches, BootNext(cfg, s, e).batches) && PlansInRound(BootNext(cfg, s, e))
  {
    var s' := BootNext(cfg, s, e);
    BootGrows(cfg, s, e);
    assert s'.handler == s.handler || s'.handler.Waiting?;
  }

  lemma BootKeepsMoney(cfg: Config, s: State, e: StartupEvent)
    requires MoneyInvariant(cfg, s)
    ensures MoneyInvariant(cfg, BootNext(cfg, s, e))
  {
    BootGrows(cfg, s, e);
    BootKeepsRows(cfg, s, e);
    SameBlocksFit(s, BootNext(cfg, s, e));
    MoneyUntouched(cfg, s, BootNext(cfg, s, e));
  }

  lemma ChainKeepsMoney(cfg: Config, s: State, e: ChainEvent)
    requires MoneyInvariant(cfg, s)
    ensures MoneyInvariant(cfg, ChainNext(cfg, s, e))
  {
    ChainGrows(cfg, s, e);
    SameBlocksFit(s, ChainNext(cfg, s, e));
    MoneyUntouched(cfg, s, ChainNext(cfg, s, e));
  }

  lemma OperatorKeepsMoney(cfg: Config, s: State, e: OperatorEvent)
    requires KeyInvariant(s.blocks, s.batches) && MoneyInvariant(cfg, s)
    ensures MoneyInvariant(cfg, OperatorNext(cfg, s, e))
  {
    var s' := OperatorNext(cfg, s, e);
    OperatorGrows(cfg, s, e);
    if e.AdminCreate? {
      if e.block in s.admins { PayingOutKeepsMoney(cfg, s, e.block, e.inputs, e.found, s'); }
    } else {
      SameBlocksFit(s, s');
      MoneyUntouched(cfg, s, s');
    }
  }

  lemma StepKeepsMoney(cfg: Config, s: State, e: Event)
    requires KeyInvariant(s.blocks, s.batches) && MoneyInvariant(cfg, s)
    ensures MoneyInvariant(cfg, Step(cfg, s, e))
  {
    match e
    case Miner(m) => MinerKeepsMoney(cfg, s, m);
    case Chain(c) => ChainKeepsMoney(cfg, s, c);
    case Boot(b) => BootKeepsMoney(cfg, s, b);
    case Payout(p) => PayoutKeepsMoney(cfg, s, p);
    case Operator(o) => OperatorKeepsMoney(cfg, s, o);
  }
}
