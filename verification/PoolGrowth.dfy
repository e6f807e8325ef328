/** What no step of the pool ever changes in its tables. */
module PoolGrowth {
  import opened PayoutPlan
  import opened Tables
  import opened Pool

  predicate SameBlock(b: FoundBlock, b': FoundBlock) {
    b' == b.(status := b'.status)
  }

  ghost predicate BlocksKept(blocks: seq<FoundBlock>, blocks': seq<FoundBlock>) {
    |blocks| <= |blocks'| && forall i | 0 <= i < |blocks| :: SameBlock(blocks[i], blocks'[i])
  }

  predicate SameBatch(b: Batch, b': Batch) {
    b' == b.(status := b'.status, txid := b'.txid, payouts := b'.payouts)
  }

  ghost predicate BatchesKept(batches: seq<Batch>, batches': seq<Batch>) {
    |batches| <= |batches'| && forall i | 0 <= i < |batches| :: SameBatch(batches[i], batches'[i])
  }

  /** Rows of the two tables keep their identity, blocks only get appended, and no history is lost. */
  ghost predicate Grows(s: State, s': State) {
    && BlocksKept(s.blocks, s'.blocks)
    && BatchesKept(s.batches, s'.batches)
    && s.tips <= s'.tips
    && s.signed <= s'.signed
    && |s.rounds| <= |s'.rounds|
  }

  lemma ConsumerGrows(cfg: Config, s: State)
    ensures Grows(s, ConsumerNext(cfg, s))
  {
  }

  lemma StartupGrows(s: State, answer: bool)
    ensures Grows(s, StartupNext(s, answer))
  {
  }

  lemma HandlerGrows(s: State)
    ensures Grows(s, HandlerNext(s))
  {
  }

  lemma FinderGrows(s: State, session: nat)
    requires session in s.finders
    ensures Grows(s, FinderNext(s, session))
    ensures |FinderNext(s, session).batches| == |s.batches|
  {
  }

  lemma PaidOutKeeps(cfg: Config, s: State, block: nat, inputs: Inputs, found: bool)
    ensures BatchesKept(s.batches, PaidOut(cfg, s, block, inputs, found))
  {
    if found && block < |s.blocks| {
      CreatedKeeps(cfg, s.batches, s.blocks[block], inputs);
    }
  }

  lemma CreatedKeeps(cfg: Config, batches: seq<Batch>, block: FoundBlock, inputs: Inputs)
    ensures BatchesKept(batches, Created(cfg, batches, block, inputs))
  {
    AppendKeeps(batches, NewBatch(cfg, block, inputs));
  }

  lemma AppendKeeps(batches: seq<Batch>, batch: Batch)
    ensures BatchesKept(batches, batches + [batch])
  {
  }

  lemma RowsKeep(batches: seq<Batch>, id: nat, payouts: seq<PayoutOutput>)
    ensures BatchesKept(batches, WithPayouts(batches, id, payouts))
  {
  }

  lemma ReplanKeeps(cfg: Config, s: State, inputs: Inputs, found: bool)
    requires s.handler.Replanning?
    ensures
      var s' := Replanned(cfg, s, inputs, found);
      && s' == s.(batches := s'.batches, handler := s'.handler)
      && BatchesKept(s.batches, s'.batches) && |s'.batches| == |s.batches|
  {
    if s.handler.todo != [] && s.handler.block < |s.blocks| {
      RowsKeep(s.batches, s.handler.todo[0], OutputsOf(cfg, s.blocks[s.handler.block], inputs));
    }
  }

  lemma MinerGrows(s: State, e: MinerEvent)
    ensures Grows(s, MinerNext(s, e))
    ensures |MinerNext(s, e).batches| == |s.batches|
  {
    if e.FinderStep? && e.session in s.finders { FinderGrows(s, e.session); }
  }

  lemma ChainGrows(cfg: Config, s: State, e: ChainEvent)
    ensures Grows(s, ChainNext(cfg, s, e))
    ensures |ChainNext(cfg, s, e).blocks| == |s.blocks| && |ChainNext(cfg, s, e).batches| == |s.batches|
  {
    ConsumerGrows(cfg, s);
  }

  lemma BootGrows(cfg: Config, s: State, e: StartupEvent)
    ensures Grows(s, BootNext(cfg, s, e))
    ensures |BootNext(cfg, s, e).blocks| == |s.blocks| && |BootNext(cfg, s, e).batches| == |s.batches|
  {
    if e.StartupStep? { StartupGrows(s, e.answer); }
  }

  lemma PayoutGrows(cfg: Config, s: State, e: PayoutStep)
    ensures Grows(s, PayoutNext(cfg, s, e))
    ensures |PayoutNext(cfg, s, e).blocks| == |s.blocks|
    ensures !e.CreateStep? ==> |PayoutNext(cfg, s, e).batches| == |s.batches|
  {
    match e
    case HandlerStep => HandlerGrows(s);
    case CreateStep(inputs, found) =>
      if s.handler.Creating? { PaidOutKeeps(cfg, s, s.handler.block, inputs, found); }
    case Replan(inputs, found) =>
      if s.handler.Replanning? { ReplanKeeps(cfg, s, inputs, found); }
    case _ =>
  }

  lemma OperatorGrows(cfg: Config, s: State, e: OperatorEvent)
    ensures Grows(s, OperatorNext(cfg, s, e))
    ensures |OperatorNext(cfg, s, e).blocks| == |s.blocks|
    ensures !e.AdminCreate? ==> |OperatorNext(cfg, s, e).batches| == |s.batches|
  {
    if e.AdminCreate? { PaidOutKeeps(cfg, s, e.block, e.inputs, e.found); }
  }

  lemma StepGrows(cfg: Config, s: State, e: Event)
    ensures Grows(s, Step(cfg, s, e))
  {
    match e
    case Miner(m) => MinerGrows(s, m);
    case Chain(c) => ChainGrows(cfg, s, c);
    case Boot(b) => BootGrows(cfg, s, b);
    case Payout(p) => PayoutGrows(cfg, s, p);
    case Operator(o) => OperatorGrows(cfg, s, o);
  }

  lemma GrowsTwice(s: State, s': State, s'': State)
    requires Grows(s, s') && Grows(s', s'')
    ensures Grows(s, s'')
  {
    forall i | 0 <= i < |s.blocks|
      ensures SameBlock(s.blocks[i], s''.blocks[i])
    {
      assert SameBlock(s.blocks[i], s'.blocks[i]) && SameBlock(s'.blocks[i], s''.blocks[i]);
    }
    forall i | 0 <= i < |s.batches|
      ensures SameBatch(s.batches[i], s''.batches[i])
    {
      assert SameBatch(s.batches[i], s'.batches[i]) && SameBatch(s'.batches[i], s''.batches[i]);
    }
  }

  lemma {:induction false} RunGrows(cfg: Config, s: State, events: seq<Event>)
    ensures Grows(s, Run(cfg, s, events))
    decreases |events|
  {
    if events != [] {
      var s1 := Step(cfg, s, events[0]);
      StepGrows(cfg, s, events[0]);
      RunGrows(cfg, s1, events[1..]);
      GrowsTwice(s, s1, Run(cfg, s1, events[1..]));
    }
  }
}
