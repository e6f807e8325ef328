/**
 A block alone in its round is marked paid only when its own batch is confirmed with a
 transaction id.
 */
module PoolPaid {
  import opened Text
  import opened Tables
  import opened Pool
  import opened PoolGrowth
  import opened PoolRounds
  import opened PoolPayouts

  ghost predicate PaysFor(s: State, j: nat, i: nat) {
    j < |s.batches| && OwnedBy(s.blocks, s.batches[j], i) && s.batches[j].status == Confirmed && s.batches[j].txid.Some?
  }

  ghost predicate PaidBy(s: State, i: nat) {
    exists j :: PaysFor(s, j, i)
  }

  predicate Marks(c: Confirmer, i: nat) {
    c.MarkingPaid? && c.block == i
  }

  /** Block `i` is paid, or some actor is about to mark it so. */
  predicate TreatedAsPaid(s: State, i: nat) {
    || (i < |s.blocks| && s.blocks[i].status == Paid)
    || (s.handler.Scanning? && Marks(s.handler.confirmer, i))
    || (s.startup.Settling? && Marks(s.startup.confirmer, i))
  }

  /** If block `i` is alone in its round it has been paid for. */
  ghost predicate PaidIfAlone(s: State, i: nat) {
    i < |s.blocks| && (Alone(s.blocks, i) ==> PaidBy(s, i))
  }

  ghost predicate PaidInvariant(s: State) {
    forall i: nat | TreatedAsPaid(s, i) :: PaidIfAlone(s, i)
  }

  /** Whatever the next state treats as paid was paid for already. */
  ghost predicate PaidBefore(s: State, s': State) {
    forall i: nat | TreatedAsPaid(s', i) :: PaidIfAlone(s, i)
  }

  lemma PaidLasts(s: State, s': State, i: nat)
    requires Grows(s, s') && Advances(s.batches, s'.batches) && SubmitInvariant(s')
    requires PaidBy(s, i)
    ensures PaidBy(s', i)
  {
    var j: nat :| PaysFor(s, j, i);
    assert SameBatch(s.batches[j], s'.batches[j]) && SameBlock(s.blocks[i], s'.blocks[i]);
    assert Moves(s.batches[j].status, s'.batches[j].status);
    assert PaysFor(s', j, i);
  }

  /** The lookup through the round of a batch finds its own block exactly when no later block is in that round. */
  lemma LookupFindsOwnerIff(blocks: seq<FoundBlock>, batch: Batch, i: nat)
    requires OwnedBy(blocks, batch, i)
    ensures LatestInRound(blocks, batch.roundId) == Some(i)
      <==> forall j | i < j < |blocks| :: blocks[j].roundId != blocks[i].roundId
  {
  }

  /** A block alone in the round of a batch is the batch's own. */
  lemma LookupFindsOwner(s: State, b: nat, k: nat)
    requires KeyInvariant(s.blocks, s.batches) && Alone(s.blocks, k)
    requires b < |s.batches| && s.blocks[k].roundId == s.batches[b].roundId
    ensures OwnedBy(s.blocks, s.batches[b], k)
  {
    assert Owned(s.blocks, s.batches[b]);
    var i: nat :| OwnedBy(s.blocks, s.batches[b], i);
    assert i == k;
  }

  lemma ConfirmerMarks(s: State, c: Confirmer, hit: bool)
    requires KeyInvariant(s.blocks, s.batches) && SubmitInvariant(s)
    requires ConfirmerSent(s.batches, c)
    ensures
      var next := ConfirmerNext(s, c, hit);
      next.Some? && next.value.MarkingPaid? ==> PaidIfAlone(s, next.value.block)
  {
    if c.LookingUp? {
      var k := LatestInRound(s.blocks, s.batches[c.batch].roundId);
      if k.Some? && Alone(s.blocks, k.value) {
        LookupFindsOwner(s, c.batch, k.value);
        assert PaysFor(s, c.batch, k.value);
      }
    }
  }

  lemma MinerPays(s: State, e: MinerEvent)
    requires PaidInvariant(s)
    ensures PaidBefore(s, MinerNext(s, e))
  {
    var s' := MinerNext(s, e);
    forall i: nat | TreatedAsPaid(s', i)
      ensures PaidIfAlone(s, i)
    {
      assert TreatedAsPaid(s, i);
    }
  }

  lemma ChainPays(cfg: Config, s: State, e: ChainEvent)
    requires PaidInvariant(s)
    ensures PaidBefore(s, ChainNext(cfg, s, e))
  {
    var s' := ChainNext(cfg, s, e);
    forall i: nat | TreatedAsPaid(s', i)
      ensures PaidIfAlone(s, i)
    {
      assert TreatedAsPaid(s, i);
    }
  }

  lemma StartupPays(s: State, answer: bool)
    requires PaidInvariant(s)
    requires KeyInvariant(s.blocks, s.batches) && SubmitInvariant(s)
    ensures PaidBefore(s, StartupNext(s, answer))
  {
    var s' := StartupNext(s, answer);
    if s.startup.Settling? { ConfirmerMarks(s, s.startup.confirmer, answer); }
    forall i: nat | TreatedAsPaid(s', i)
      ensures PaidIfAlone(s, i)
    {
      assert TreatedAsPaid(s, i) || (s'.startup.Settling? && Marks(s'.startup.confirmer, i));
    }
  }

  lemma BootPays(cfg: Config, s: State, e: StartupEvent)
    requires PaidInvariant(s)
    requires KeyInvariant(s.blocks, s.batches) && SubmitInvariant(s)
    ensures PaidBefore(s, BootNext(cfg, s, e))
  {
    if e.StartupStep? {
      StartupPays(s, e.answer);
    } else {
      var s' := BootNext(cfg, s, e);
      assert s'.blocks == s.blocks;
      assert forall i: nat | TreatedAsPaid(s', i) :: TreatedAsPaid(s, i);
    }
  }

  lemma HandlerPays(s: State)
    requires PaidInvariant(s)
    requires KeyInvariant(s.blocks, s.batches) && SubmitInvariant(s)
    ensures PaidBefore(s, HandlerNext(s))
  {
    var s' := HandlerNext(s);
    if s.handler.Scanning? { ConfirmerMarks(s, s.handler.confirmer, true); }
    forall i: nat | TreatedAsPaid(s', i)
      ensures PaidIfAlone(s, i)
    {
      assert TreatedAsPaid(s, i) || (s'.handler.Scanning? && Marks(s'.handler.confirmer, i));
    }
  }

  lemma PayoutPays(cfg: Config, s: State, e: PayoutStep)
    requires PaidInvariant(s)
    requires KeyInvariant(s.blocks, s.batches) && SubmitInvariant(s)
    ensures PaidBefore(s, PayoutNext(cfg, s, e))
  {
    if e.HandlerStep? {
      HandlerPays(s);
    } else {
      var s' := PayoutNext(cfg, s, e);
      assert s'.blocks == s.blocks && s'.startup == s.startup;
      assert forall i: nat | TreatedAsPaid(s', i) :: TreatedAsPaid(s, i);
    }
  }

  lemma OperatorPays(cfg: Config, s: State, e: OperatorEvent)
    requires PaidInvariant(s)
    ensures PaidBefore(s, OperatorNext(cfg, s, e))
  {
    var s' := OperatorNext(cfg, s, e);
    forall i: nat | TreatedAsPaid(s', i)
      ensures PaidIfAlone(s, i)
    {
      assert TreatedAsPaid(s, i);
    }
  }

  lemma StepPays(cfg: Config, s: State, e: Event)
    requires PaidInvariant(s)
    requires KeyInvariant(s.blocks, s.batches) && SubmitInvariant(s)
    ensures PaidBefore(s, Step(cfg, s, e))
  {
    match e
    case Miner(m) => MinerPays(s, m);
    case Chain(c) => ChainPays(cfg, s, c);
    case Boot(b) => BootPays(cfg, s, b);
    case Payout(p) => PayoutPays(cfg, s, p);
    case Operator(o) => OperatorPays(cfg, s, o);
  }

  lemma StepKeepsPaid(cfg: Config, s: State, e: Event)
    requires PaidInvariant(s)
    requires KeyInvariant(s.blocks, s.batches) && SubmitInvariant(s)
    ensures PaidInvariant(Step(cfg, s, e))
  {
    StepPays(cfg, s, e);
    StepGrows(cfg, s, e);
    StepKeepsSubmissions(cfg, s, e);
    PaidCarriesOver(s, Step(cfg, s, e));
  }

  lemma PaidCarriesOver(s: State, s': State)
    requires PaidBefore(s, s') && Grows(s, s') && Advances(s.batches, s'.batches) && SubmitInvariant(s')
    ensures PaidInvariant(s')
  {
    forall i: nat | TreatedAsPaid(s', i)
      ensures PaidIfAlone(s', i)
    {
      if Alone(s'.blocks, i) {
        AloneBefore(s.blocks, s'.blocks, i);
        PaidLasts(s, s', i);
      }
    }
  }
}
