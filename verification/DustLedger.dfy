/**
 Dust balances over creations, deletions and rebuilds of payout rows. A rebuild credits
 the dust of its rows although the rows it replaces were credited before.
 */
module DustLedger {
  import opened PayoutPlan
  import opened Tables
  import opened Snapshots

  /** `removed` is history: every payout row ever deleted or replaced. */
  datatype Books = Books(
    blocks: seq<FoundBlock>, batches: seq<Batch>, dust: seq<(string, int)>, removed: seq<PayoutOutput>)

  /** `Other` is anything that leaves payout rows and balances alone. */
  datatype Op =
    | Create(block: FoundBlock, found: bool, shares: seq<ShareEntry>)
    | Rebuild(id: nat, found: bool, shares: seq<ShareEntry>)
    | Delete(id: nat)
    | Other(blocks: seq<FoundBlock>, batches: seq<Batch>)

  predicate SameRows(batches: seq<Batch>, batches': seq<Batch>) {
    |batches'| == |batches| && forall i | 0 <= i < |batches| :: batches'[i].payouts == batches[i].payouts
  }

  /** Rows of one batch replaced, the old ones kept in history. */
  function Replaced(s: Books, id: nat, payouts: seq<PayoutOutput>): Books
    requires id < |s.batches|
  {
    s.(batches := WithPayouts(s.batches, id, payouts), removed := s.removed + s.batches[id].payouts)
  }

  ghost function Step(cfg: Config, s: Books, op: Op): Books {
    match op
    case Create(block, found, shares) =>
      if found && !LikeGuard(s.batches, block.hash) then
        var batch := NewBatch(cfg, block, Inputs(shares, s.dust));
        s.(batches := s.batches + [batch], dust := Credited(s.dust, batch.payouts))
      else s
    case Rebuild(id, found, shares) =>
      var inputs := Inputs(shares, s.dust);
      if found && CanRebuild(cfg, s.blocks, s.batches, id, inputs) then
        var outputs := OutputsOf(cfg, s.blocks[LatestInRound(s.blocks, s.batches[id].roundId).value], inputs);
        Replaced(s, id, outputs).(dust := Credited(s.dust, outputs))
      else s
    case Delete(id) => if id < |s.batches| then Replaced(s, id, []) else s
    case Other(blocks, batches) => if SameRows(s.batches, batches) then s.(blocks := blocks, batches := batches) else s
  }

  ghost function Run(cfg: Config, s: Books, ops: seq<Op>): Books
    decreases |ops|
  {
    if ops == [] then s else Run(cfg, Step(cfg, s, ops[0]), ops[1..])
  }

  /** Dust carried to an address by the rows the batches hold now. */
  function CarriedBy(batches: seq<Batch>, a: string): int {
    if batches == [] then 0 else CarriedBy(batches[..|batches| - 1], a) + CarriedTo(batches[|batches| - 1].payouts, a)
  }

  lemma {:induction false} CarriedConcat(x: seq<PayoutOutput>, y: seq<PayoutOutput>, a: string)
    ensures CarriedTo(x + y, a) == CarriedTo(x, a) + CarriedTo(y, a)
  {
    if y == [] {
      assert x + y == x;
    } else {
      var n := |y| - 1;
      assert (x + y)[..|x + y| - 1] == x + y[..n];
      CarriedConcat(x, y[..n], a);
    }
  }

  lemma {:induction false} CarriedReplaced(batches: seq<Batch>, id: nat, payouts: seq<PayoutOutput>, a: string)
    requires id < |batches|
    ensures CarriedBy(WithPayouts(batches, id, payouts), a)
      == CarriedBy(batches, a) - CarriedTo(batches[id].payouts, a) + CarriedTo(payouts, a)
  {
    var n := |batches| - 1;
    var batches' := WithPayouts(batches, id, payouts);
    if id == n {
      assert batches'[..n] == batches[..n];
    } else {
      CarriedReplaced(batches[..n], id, payouts, a);
      assert batches'[..n] == WithPayouts(batches[..n], id, payouts);
    }
  }

  lemma {:induction false} CarriedSameRows(batches: seq<Batch>, batches': seq<Batch>, a: string)
    requires SameRows(batches, batches')
    ensures CarriedBy(batches', a) == CarriedBy(batches, a)
  {
    if batches != [] {
      var n := |batches| - 1;
      CarriedSameRows(batches[..n], batches'[..n], a);
    }
  }

  /** Every balance is the dust of the rows held now plus that of every row ever removed. */
  ghost predicate AddsUp(s: Books) {
    UniqueRows(s.dust) && forall a :: DustOf(s.dust, a) == CarriedBy(s.batches, a) + CarriedTo(s.removed, a)
  }

  lemma AppendingAddsUp(s: Books, batch: Batch)
    requires AddsUp(s)
    ensures AddsUp(s.(batches := s.batches + [batch], dust := Credited(s.dust, batch.payouts)))
  {
    var batches' := s.batches + [batch];
    assert batches'[..|s.batches|] == s.batches;
    CreditedBalances(s.dust, batch.payouts, "");
    forall a
      ensures DustOf(Credited(s.dust, batch.payouts), a) == CarriedBy(batches', a) + CarriedTo(s.removed, a)
    {
      CreditedBalances(s.dust, batch.payouts, a);
    }
  }

  lemma ReplacingAddsUp(s: Books, id: nat, payouts: seq<PayoutOutput>)
    requires AddsUp(s) && id < |s.batches|
    ensures AddsUp(Replaced(s, id, payouts).(dust := Credited(s.dust, payouts)))
  {
    var s' := Replaced(s, id, payouts);
    CreditedBalances(s.dust, payouts, "");
    forall a
      ensures DustOf(Credited(s.dust, payouts), a) == CarriedBy(s'.batches, a) + CarriedTo(s'.removed, a)
    {
      CreditedBalances(s.dust, payouts, a);
      CarriedReplaced(s.batches, id, payouts, a);
      CarriedConcat(s.removed, s.batches[id].payouts, a);
    }
  }

  lemma StepAddsUp(cfg: Config, s: Books, op: Op)
    requires AddsUp(s)
    ensures AddsUp(Step(cfg, s, op))
  {
    match op
    case Create(block, found, shares) => AppendingAddsUp(s, NewBatch(cfg, block, Inputs(shares, s.dust)));
    case Rebuild(id, found, shares) =>
      var inputs := Inputs(shares, s.dust);
      if CanRebuild(cfg, s.blocks, s.batches, id, inputs) {
        ReplacingAddsUp(s, id, OutputsOf(cfg, s.blocks[LatestInRound(s.blocks, s.batches[id].roundId).value], inputs));
      }
    case Delete(id) =>
      if id < |s.batches| {
        ReplacingAddsUp(s, id, []);
      }
    case Other(blocks, batches) =>
      if SameRows(s.batches, batches) {
        forall a ensures CarriedBy(batches, a) == CarriedBy(s.batches, a) { CarriedSameRows(s.batches, batches, a); }
      }
  }

  const EMPTY := Books([], [], [], [])

  lemma {:induction false} RunAddsUp(cfg: Config, s: Books, ops: seq<Op>)
    requires AddsUp(s)
    ensures AddsUp(Run(cfg, s, ops))
    decreases |ops|
  {
    if ops != [] {
      StepAddsUp(cfg, s, ops[0]);
      RunAddsUp(cfg, Step(cfg, s, ops[0]), ops[1..]);
    }
  }

  /**
   After any creations, deletions and rebuilds, an address's balance is the dust of its
   current rows plus the dust of its removed rows; so it equals what the current rows carry
   exactly when no removed row carried dust to it.
   */
  lemma BalancesAddUp(cfg: Config, ops: seq<Op>, a: string)
    ensures
      var s := Run(cfg, EMPTY, ops);
      && DustOf(s.dust, a) == CarriedBy(s.batches, a) + CarriedTo(s.removed, a)
      && (DustOf(s.dust, a) == CarriedBy(s.batches, a) <==> CarriedTo(s.removed, a) == 0)
  {
    RunAddsUp(cfg, EMPTY, ops);
  }

  lemma RebuildCredits(cfg: Config, s: Books, id: nat, shares: seq<ShareEntry>)
    requires CanRebuild(cfg, s.blocks, s.batches, id, Inputs(shares, s.dust))
    ensures
      var s' := Step(cfg, s, Rebuild(id, true, shares));
      |s'.batches| == |s.batches| && s'.dust == Credited(s.dust, s'.batches[id].payouts)
  {
  }

  /** Deleting the rows of a batch and rebuilding them credits the rebuilt dust on top of the balance. */
  lemma RebuildCreditsAgain(cfg: Config, s: Books, id: nat, shares: seq<ShareEntry>, a: string)
    requires UniqueRows(s.dust) && id < |s.batches|
    requires CanRebuild(cfg, s.blocks, WithPayouts(s.batches, id, []), id, Inputs(shares, s.dust))
    ensures
      var s' := Step(cfg, Replaced(s, id, []), Rebuild(id, true, shares));
      |s'.batches| == |s.batches| && DustOf(s'.dust, a) == DustOf(s.dust, a) + CarriedTo(s'.batches[id].payouts, a)
  {
    var s1 := Replaced(s, id, []);
    var s' := Step(cfg, s1, Rebuild(id, true, shares));
    RebuildCredits(cfg, s1, id, shares);
    CreditedBalances(s.dust, s'.batches[id].payouts, a);
  }
}
