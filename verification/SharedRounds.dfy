/**
 What goes wrong when two found blocks share a round: a block is paid without a batch of
 its own, a shallow block is matured, and a rebuild takes the other block's coinbase. None
 of the runs uses a manual trigger.
 */
module SharedRounds {
  import opened Text
  import opened Apportionment
  import opened PayoutPlan
  import opened PlanTheorems
  import opened Tables
  import opened Pool
  import opened PoolPayouts
  import opened PoolPaid
  import opened PoolDepth
  import opened PoolMoney
  import opened PoolTheorems
  import opened PoolRaces

  predicate IsTrigger(e: Event) {
    e.Operator? && e.operator.AdminCreate?
  }

  /** Reached by a run without manual triggers. */
  ghost predicate Untriggered(cfg: Config, s: State) {
    exists events :: s == Run(cfg, START, events) && forall e | e in events :: !IsTrigger(e)
  }

  lemma Onward(cfg: Config, s: State, e: Event)
    requires Untriggered(cfg, s) && !IsTrigger(e)
    ensures Untriggered(cfg, Step(cfg, s, e))
  {
    var events :| s == Run(cfg, START, events) && forall e | e in events :: !IsTrigger(e);
    RunThenStep(cfg, START, events, e);
    assert Step(cfg, s, e) == Run(cfg, START, events + [e]);
  }

  /** Such a run triggers only deep blocks, so it is one that depth safety speaks of. */
  lemma {:induction false} NoTriggers(cfg: Config, s: State, events: seq<Event>)
    requires forall e | e in events :: !IsTrigger(e)
    ensures TriggersOnlyDeep(cfg, s, events)
    decreases |events|
  {
    if events != [] {
      assert !IsTrigger(events[0]);
      assert forall e | e in events[1..] :: e in events;
      NoTriggers(cfg, Step(cfg, s, events[0]), events[1..]);
    }
  }

  // ----- two blocks in round 0, the first paid out -----

  const LATER := FoundBlock(0, SECOND, 6, Immature, 300)
  const RIPE := FOUND.(status := Matured)

  const SHARED := BOTH_CLAIM.(blocks := [FOUND, LATER], finders := map[0 := Inserted(1, 0), 1 := Inserted(2, 0)])

  lemma SharedIsReached(cfg: Config)
    ensures Untriggered(cfg, SHARED)
  {
    OverlapInserts(cfg);
    var s4 := Run(cfg, START, OVERLAP[..4]);
    assert Untriggered(cfg, s4);
    RecordingLater(cfg, s4);
    Onward(cfg, s4, Miner(FinderStep(1)));
  }

  lemma RecordingLater(cfg: Config, s: State)
    requires s == BOTH_CLAIM.(blocks := [FOUND], finders := map[0 := Inserted(1, 0), 1 := Resolved(2, FIND_TWO, 0)])
    ensures Step(cfg, s, Miner(FinderStep(1))) == SHARED
  {
    assert HASH[0] != SECOND[0];
  }

  /** The tip under which the first block just has its confirmations and the second has not. */
  function EdgeTip(cfg: Config): int {
    4 + cfg.confirmations
  }

  lemma FirstIsDue(cfg: Config)
    ensures DueIds([FOUND, LATER], EdgeTip(cfg), cfg.confirmations) == [0]
  {
    var blocks := [FOUND, LATER];
    var keep := seq(|blocks|, i requires 0 <= i < |blocks| => Due(blocks[i], EdgeTip(cfg), cfg.confirmations));
    assert keep == [true, false];
    assert keep[..1] == [true];
    OneSelected(keep[..1]);
  }

  lemma CheckingBoth(cfg: Config)
    requires cfg.confirmations >= 1
    ensures Untriggered(cfg, SHARED.(
      tip := EdgeTip(cfg), tips := {EdgeTip(cfg)}, consumer := Maturing([0], [], ["t"])))
  {
    SharedIsReached(cfg);
    var s1 := SHARED.(tip := EdgeTip(cfg), consumer := Checking(["t"]));
    assert Step(cfg, SHARED, Chain(Connect("", EdgeTip(cfg), ["t"]))) == s1;
    Onward(cfg, SHARED, Chain(Connect("", EdgeTip(cfg), ["t"])));
    FirstIsDue(cfg);
    assert Step(cfg, s1, Chain(ConsumerStep)) == s1.(tips := {EdgeTip(cfg)}, consumer := Maturing([0], [], ["t"]));
    Onward(cfg, s1, Chain(ConsumerStep));
  }

  lemma MaturingFirst(cfg: Config, s: State)
    requires s.consumer == Maturing([0], [], ["t"]) && s.blocks == [FOUND, LATER]
    ensures Step(cfg, s, Chain(ConsumerStep))
      == s.(blocks := [RIPE, LATER], consumer := Maturing([], [0], ["t"]))
  {
    assert s.consumer.todo[1..] == [] && s.consumer.done + [s.consumer.todo[0]] == [0];
  }

  lemma SendingFirst(cfg: Config, s: State)
    requires s.consumer == Maturing([], [0], ["t"]) && s.blocks == [RIPE, LATER] && s.queue == []
    ensures Step(cfg, s, Chain(ConsumerStep))
      == s.(queue := [BlockMatured(HASH), BlockConnected(["t"])], consumer := Listening)
  {
    var ids: seq<nat> := [0];
    assert ids[1..] == [];
    assert MaturedEvents([RIPE, LATER], ids) == [BlockMatured(HASH)];
  }

  /** The first block is mature and its event queued. */
  function RipeState(cfg: Config): State {
    SHARED.(blocks := [RIPE, LATER], tip := EdgeTip(cfg), tips := {EdgeTip(cfg)},
            queue := [BlockMatured(HASH), BlockConnected(["t"])])
  }

  lemma RipeIsReached(cfg: Config)
    requires cfg.confirmations >= 1
    ensures Untriggered(cfg, RipeState(cfg))
  {
    CheckingBoth(cfg);
    var s1 := SHARED.(tip := EdgeTip(cfg), tips := {EdgeTip(cfg)}, consumer := Maturing([0], [], ["t"]));
    MaturingFirst(cfg, s1);
    Onward(cfg, s1, Chain(ConsumerStep));
    var s2 := s1.(blocks := [RIPE, LATER], consumer := Maturing([], [0], ["t"]));
    SendingFirst(cfg, s2);
    Onward(cfg, s2, Chain(ConsumerStep));
  }

  /** The handler at the pending batch of the first block. */
  ghost function PendingState(cfg: Config): State {
    RipeState(cfg).(
      batches := [FirstBatch(cfg)], queue := [BlockConnected(["t"])], handler := Processing([0]))
  }

  lemma CreatingFirst(cfg: Config)
    requires cfg.confirmations >= 1
    ensures Untriggered(cfg, RipeState(cfg).(queue := [BlockConnected(["t"])], handler := Creating(0)))
  {
    RipeIsReached(cfg);
    var s0 := RipeState(cfg);
    assert HASH[0] != SECOND[0];
    var s1 := s0.(queue := [BlockConnected(["t"])], handler := Guarding(0));
    assert FindBlock([RIPE, LATER], HASH) == Some(0);
    assert Step(cfg, s0, Payout(HandlerStep)) == s1;
    Onward(cfg, s0, Payout(HandlerStep));
    assert Step(cfg, s1, Payout(HandlerStep)) == s1.(handler := Creating(0));
    Onward(cfg, s1, Payout(HandlerStep));
  }

  lemma StatusKeepsBatch(cfg: Config, block: FoundBlock, status: BlockStatus, inputs: Inputs)
    ensures NewBatch(cfg, block.(status := status), inputs) == NewBatch(cfg, block, inputs)
  {
  }

  lemma FirstCreated(cfg: Config, block: FoundBlock, inputs: Inputs)
    ensures Created(cfg, [], block, inputs) == [NewBatch(cfg, block, inputs)]
  {
  }

  lemma CreatingBatch(cfg: Config, s: State, inputs: Inputs, batches: seq<Batch>)
    requires s.handler == Creating(0) && s.blocks != []
    requires batches == Created(cfg, s.batches, s.blocks[0], inputs)
    ensures Step(cfg, s, Payout(CreateStep(inputs, true))) == s.(batches := batches, handler := ListingPending)
  {
  }

  lemma ListingBatch(cfg: Config, s: State, batch: Batch)
    requires s.handler == ListingPending && s.batches == [batch] && batch.status == Pending
    ensures Step(cfg, s, Payout(HandlerStep)) == s.(handler := Processing([0]))
  {
    OnePending(batch);
  }

  lemma PendingIsReached(cfg: Config)
    requires cfg.confirmations >= 1
    ensures Untriggered(cfg, PendingState(cfg))
  {
    CreatingFirst(cfg);
    var s0 := RipeState(cfg).(queue := [BlockConnected(["t"])], handler := Creating(0));
    var s1 := s0.(batches := [FirstBatch(cfg)], handler := ListingPending);
    StatusKeepsBatch(cfg, FOUND, Matured, NOTHING);
    FirstCreated(cfg, RIPE, NOTHING);
    CreatingBatch(cfg, s0, NOTHING, [FirstBatch(cfg)]);
    Onward(cfg, s0, Payout(CreateStep(NOTHING, true)));
    ListingBatch(cfg, s1, FirstBatch(cfg));
    Onward(cfg, s1, Payout(HandlerStep));
  }

  // ----- a shallow block matured through the other's batch -----

  lemma DisconnectingLater(cfg: Config, s: State)
    requires s.consumer.Listening? && s.blocks == [RIPE, LATER]
    ensures Step(cfg, s, Chain(Disconnect(SECOND))) == s.(consumer := Orphaning(1))
  {
    assert HASH[0] != SECOND[0];
    assert FindBlock(s.blocks, SECOND) == Some(1);
  }

  /** The second block is orphaned. */
  lemma LaterIsOrphaned(cfg: Config)
    requires cfg.confirmations >= 1
    ensures Untriggered(cfg, PendingState(cfg).(
      rounds := [ORPHAN_CLOSED], blocks := [RIPE, LATER.(status := Orphaned)]))
  {
    PendingIsReached(cfg);
    var s0 := PendingState(cfg);
    DisconnectingLater(cfg, s0);
    var s1 := s0.(consumer := Orphaning(1));
    Onward(cfg, s0, Chain(Disconnect(SECOND)));
    var s2 := s1.(blocks := [RIPE, LATER.(status := Orphaned)], consumer := ClosingRound(1));
    assert Step(cfg, s1, Chain(ConsumerStep)) == s2;
    Onward(cfg, s1, Chain(ConsumerStep));
    var s3 := s2.(rounds := [ORPHAN_CLOSED], consumer := Listening);
    assert Step(cfg, s2, Chain(ConsumerStep)) == s3;
    Onward(cfg, s2, Chain(ConsumerStep));
  }

  /** Its reconnect reads the pending batch of the first. */
  lemma LaterReadsPending(cfg: Config)
    requires cfg.confirmations >= 1
    ensures Untriggered(cfg, PendingState(cfg).(
      rounds := [ORPHAN_CLOSED], blocks := [RIPE, LATER.(status := Orphaned)], consumer := Restoring(1, true, [])))
  {
    LaterIsOrphaned(cfg);
    var s0 := PendingState(cfg).(rounds := [ORPHAN_CLOSED], blocks := [RIPE, LATER.(status := Orphaned)]);
    ReconnectingLater(cfg, s0);
    Onward(cfg, s0, Chain(Connect(SECOND, 0, [])));
    var s1 := s0.(consumer := Reconnected(1, []));
    ReadingOther(cfg, s1);
    Onward(cfg, s1, Chain(ConsumerStep));
  }

  lemma ReconnectingLater(cfg: Config, s: State)
    requires s.consumer.Listening? && s.tip >= 0 && s.blocks == [RIPE, LATER.(status := Orphaned)]
    ensures Step(cfg, s, Chain(Connect(SECOND, 0, []))) == s.(consumer := Reconnected(1, []))
  {
    assert HASH[0] != SECOND[0];
    assert FindBlock(s.blocks, SECOND) == Some(1);
  }

  lemma ReadingOther(cfg: Config, s: State)
    requires s.consumer == Reconnected(1, []) && s.blocks == [RIPE, LATER.(status := Orphaned)]
    requires s.batches == [FirstBatch(cfg)]
    ensures Step(cfg, s, Chain(ConsumerStep)) == s.(consumer := Restoring(1, true, []))
  {
    assert s.batches[0].roundId == 0 && s.batches[0].status == Pending;
    assert RoundHas(s.batches, 0, Pending) && !RoundHas(s.batches, 0, Submitted);
  }

  /** Without any trigger, a block that shares its round can be matured although it never was deep. */
  lemma SharedRoundMaturesShallow(cfg: Config) returns (s: State)
    requires cfg.confirmations >= 1
    ensures Untriggered(cfg, s) && |s.blocks| == 2 && s.blocks[1].status == Matured && !WasDeep(cfg, s, 1)
  {
    LaterReadsPending(cfg);
    var s0 := PendingState(cfg).(
      rounds := [ORPHAN_CLOSED], blocks := [RIPE, LATER.(status := Orphaned)], consumer := Restoring(1, true, []));
    var s1 := s0.(blocks := [RIPE, LATER], consumer := Rematuring(1, []));
    assert Step(cfg, s0, Chain(ConsumerStep)) == s1;
    Onward(cfg, s0, Chain(ConsumerStep));
    s := s1.(blocks := [RIPE, LATER.(status := Matured)], consumer := Checking([]));
    assert Step(cfg, s1, Chain(ConsumerStep)) == s;
    Onward(cfg, s1, Chain(ConsumerStep));
  }

  // ----- a block paid through the other's batch -----

  lemma OneSettled(batch: Batch)
    requires Settled(batch, ["t"])
    ensures SettledIds([batch], ["t"]) == [0]
  {
    var batches := [batch];
    OneSelected(seq(|batches|, i requires 0 <= i < |batches| => Settled(batches[i], ["t"])));
  }

  /** The batch of the first block is submitted and its transaction reported. */
  lemma ReportIsReached(cfg: Config)
    requires cfg.confirmations >= 1
    ensures Untriggered(cfg, PendingState(cfg).(
      batches := [SentBatch(cfg)], signed := [0], queue := [], handler := ListingSubmitted(["t"])))
  {
    PendingIsReached(cfg);
    var s0 := PendingState(cfg);
    SigningOne(cfg, s0);
    Onward(cfg, s0, Payout(Sign("t")));
    var s1 := s0.(signed := [0], handler := Marking(0, "t", []));
    MarkingOne(cfg, s1);
    Onward(cfg, s1, Payout(HandlerStep));
    var s2 := s1.(batches := [SentBatch(cfg)], handler := Processing([]));
    assert Step(cfg, s2, Payout(HandlerStep)) == s2.(handler := Waiting);
    Onward(cfg, s2, Payout(HandlerStep));
    var s3 := s2.(handler := Waiting);
    assert Step(cfg, s3, Payout(HandlerStep)) == s3.(queue := [], handler := ListingSubmitted(["t"]));
    Onward(cfg, s3, Payout(HandlerStep));
  }

  ghost function DoneBatch(cfg: Config): Batch {
    SentBatch(cfg).(status := Confirmed)
  }

  lemma ConfirmingOne(cfg: Config, s: State)
    requires s.batches == [SentBatch(cfg)] && s.handler == Scanning(Confirming([0]))
    ensures Step(cfg, s, Payout(HandlerStep)) == s.(batches := [DoneBatch(cfg)], handler := Scanning(LookingUp(0, [])))
  {
    var todo: seq<nat> := [0];
    assert todo[1..] == [];
  }

  /** The lookup through the round finds the second block. */
  lemma LookupFindsLater(cfg: Config)
    requires cfg.confirmations >= 1
    ensures Untriggered(cfg, PendingState(cfg).(
      batches := [DoneBatch(cfg)], signed := [0], queue := [], handler := Scanning(MarkingPaid(1, []))))
  {
    ReportIsReached(cfg);
    var s0 := PendingState(cfg).(
      batches := [SentBatch(cfg)], signed := [0], queue := [], handler := ListingSubmitted(["t"]));
    OneSettled(SentBatch(cfg));
    var s1 := s0.(handler := Scanning(Confirming([0])));
    assert Step(cfg, s0, Payout(HandlerStep)) == s1;
    Onward(cfg, s0, Payout(HandlerStep));
    ConfirmingOne(cfg, s1);
    Onward(cfg, s1, Payout(HandlerStep));
    var s2 := s1.(batches := [DoneBatch(cfg)], handler := Scanning(LookingUp(0, [])));
    assert LatestInRound(s2.blocks, 0) == Some(1);
    assert Step(cfg, s2, Payout(HandlerStep)) == s2.(handler := Scanning(MarkingPaid(1, [])));
    Onward(cfg, s2, Payout(HandlerStep));
  }

  /** A block that shares its round can be marked paid without a batch of its own. */
  lemma SharedRoundPaysOther(cfg: Config) returns (s: State)
    requires cfg.confirmations >= 1
    ensures Untriggered(cfg, s) && |s.blocks| == 2 && s.blocks[1].status == Paid && !PaidBy(s, 1)
  {
    LookupFindsLater(cfg);
    var s0 := PendingState(cfg).(
      batches := [DoneBatch(cfg)], signed := [0], queue := [], handler := Scanning(MarkingPaid(1, [])));
    s := s0.(blocks := [RIPE, LATER.(status := Paid)], handler := Scanning(Confirming([])));
    assert Step(cfg, s0, Payout(HandlerStep)) == s;
    Onward(cfg, s0, Payout(HandlerStep));
    NewBatchOwned(cfg, [FOUND], 0, NOTHING);
    assert HashOf(s.batches[0]) == HASH && HASH[0] != SECOND[0];
  }

  // ----- a rebuild that takes the other's coinbase -----

  const NO_FEE := Config(1, 0, 0)
  const ONE_SHARE := Inputs([ShareEntry(1, 1, 1, "a", 1.0, 0)], [])

  lemma OneShareWeighs()
    ensures Total(Weights(ONE_SHARE.shares, [], 150)) == 1.0
  {
    var shares := ONE_SHARE.shares;
    var w := Weights(shares, [], 150);
    OneShare(shares[0]);
    assert w["a"] == 1.0;
    OneKey("a");
    var ks := ["a"];
    assert ks[..0] == [] && ks[0] == "a";
    assert SumReal(ks, w) == SumReal(ks[..0], w) + w["a"];
  }

  lemma OneShare(share: ShareEntry)
    ensures Addresses([share]) == {share.address} && WorkOf([share], share.address) == share.difficulty
  {
    var shares := [share];
    assert shares[0] in shares;
    assert shares[..0] == [];
  }

  lemma OneKey(k: string)
    ensures InKeyOrder({k}) == [k]
  {
    var ks := InKeyOrder({k});
    InKeyOrderMembers({k});
    assert |ks| == 1 && ks[0] in ks;
  }

  lemma PlansIff(cfg: Config, block: FoundBlock, inputs: Inputs, gross: int, net: int)
    requires gross == RewardFromCoinbase(block.coinbaseValue) && net == gross - FeeFor(cfg, block)
    ensures OutputsOf(cfg, block, inputs) != [] <==> Pays?(inputs.shares, inputs.dust, gross, net)
  {
    OutputsExistIff(inputs.shares, inputs.dust, gross, net, cfg.minPayout);
  }

  /** There are such configurations and windows. */
  lemma LaterCanBePlanned()
    ensures CanPlan(NO_FEE, LATER, ONE_SHARE) && 50 - FeeFor(NO_FEE, FOUND) != 150 - FeeFor(NO_FEE, LATER)
  {
    OneShareWeighs();
    assert RewardFromCoinbase(300) == 150 && PoolFee(150, 0) == 0;
    PlansIff(NO_FEE, LATER, ONE_SHARE, 150, 150);
  }

  /** The rows of the batch are deleted, and the handler finds them missing. */
  lemma MissingIsReached(cfg: Config)
    requires cfg.confirmations >= 1
    ensures Untriggered(cfg, PendingState(cfg).(
      batches := [FirstBatch(cfg).(payouts := [])], handler := Reloading([0])))
  {
    PendingIsReached(cfg);
    var s0 := PendingState(cfg);
    var s1 := s0.(batches := [FirstBatch(cfg).(payouts := [])]);
    assert Step(cfg, s0, Operator(DeletePayouts(0))) == s1;
    Onward(cfg, s0, Operator(DeletePayouts(0)));
    assert Step(cfg, s1, Payout(FindRowsMissing)) == s1.(handler := Reloading([0]));
    Onward(cfg, s1, Payout(FindRowsMissing));
  }

  lemma ReloadingOne(cfg: Config, s: State)
    requires s.handler == Reloading([0]) && |s.batches| == 1 && s.batches[0].status == Pending
    ensures Step(cfg, s, Payout(HandlerStep)) == s.(handler := LookingUpBlock([0]))
  {
  }

  lemma LookingUpOne(cfg: Config, s: State, k: nat)
    requires s.handler == LookingUpBlock([0]) && |s.batches| == 1
    requires LatestInRound(s.blocks, s.batches[0].roundId) == Some(k)
    ensures Step(cfg, s, Payout(HandlerStep)) == s.(handler := Replanning(k, [0]))
  {
  }

  /** The rebuild has looked up the second block. */
  ghost function ReplanState(cfg: Config): State {
    PendingState(cfg).(batches := [FirstBatch(cfg).(payouts := [])], handler := Replanning(1, [0]))
  }

  lemma ReplanIsReached(cfg: Config)
    requires cfg.confirmations >= 1
    ensures Untriggered(cfg, ReplanState(cfg))
  {
    MissingIsReached(cfg);
    var s0 := PendingState(cfg).(batches := [FirstBatch(cfg).(payouts := [])], handler := Reloading([0]));
    ReloadingOne(cfg, s0);
    Onward(cfg, s0, Payout(HandlerStep));
    var s1 := s0.(handler := LookingUpBlock([0]));
    assert LatestInRound(s1.blocks, 0) == Some(1);
    LookingUpOne(cfg, s1, 1);
    Onward(cfg, s1, Payout(HandlerStep));
  }

  lemma ReplanWrites(cfg: Config, s: State, inputs: Inputs)
    requires s.handler.Replanning? && s.handler.todo == [0] && |s.batches| == 1
    requires s.handler.block < |s.blocks| && CanPlan(cfg, s.blocks[s.handler.block], inputs)
    ensures
      var s' := Replanned(cfg, s, inputs, true);
      && s'.blocks == s.blocks && |s'.batches| == 1
      && s'.batches[0] == s.batches[0].(payouts := OutputsOf(cfg, s.blocks[s.handler.block], inputs))
  {
  }

  ghost function RebuiltState(cfg: Config, inputs: Inputs): State {
    Replanned(cfg, ReplanState(cfg), inputs, true)
  }

  lemma RebuiltIsReached(cfg: Config, inputs: Inputs)
    requires cfg.confirmations >= 1
    ensures Untriggered(cfg, RebuiltState(cfg, inputs))
  {
    ReplanIsReached(cfg);
    Onward(cfg, ReplanState(cfg), Payout(Replan(inputs, true)));
  }

  lemma RebuiltBatch(cfg: Config, inputs: Inputs)
    requires CanPlan(cfg, LATER, inputs)
    ensures
      var s := RebuiltState(cfg, inputs);
      && s.blocks == [RIPE, LATER] && |s.batches| == 1
      && s.batches[0] == FirstBatch(cfg).(payouts := OutputsOf(cfg, LATER, inputs))
  {
    ReplanWrites(cfg, ReplanState(cfg), inputs);
  }

  lemma FirstStillOwns(cfg: Config, batch: Batch)
    requires batch == FirstBatch(cfg).(payouts := batch.payouts)
    ensures OwnedBy([RIPE, LATER], batch, 0) && batch.fee == FeeFor(cfg, FOUND)
  {
    NewBatchOwned(cfg, [FOUND], 0, NOTHING);
  }

  lemma OtherRowsDoNotBalance(cfg: Config, inputs: Inputs)
    requires CanPlan(cfg, LATER, inputs) && 50 - FeeFor(cfg, FOUND) != 150 - FeeFor(cfg, LATER)
    ensures !Balances(100, FeeFor(cfg, FOUND), OutputsOf(cfg, LATER, inputs))
  {
    RebuildFromOtherIff(cfg, FOUND, LATER, inputs);
  }

  /**
   A rebuild of a batch whose block shares its round can write rows that do not balance the
   block's coinbase: it does, whenever the other block can be planned and the two have
   different rewards net of fee.
   */
  lemma SharedRoundRebuildsOther(cfg: Config, inputs: Inputs) returns (s: State)
    requires cfg.confirmations >= 1 && CanPlan(cfg, LATER, inputs)
    requires 50 - FeeFor(cfg, FOUND) != 150 - FeeFor(cfg, LATER)
    ensures Untriggered(cfg, s) && |s.batches| == 1 && OwnedBy(s.blocks, s.batches[0], 0)
    ensures s.batches[0].payouts != []
    ensures !Balances(s.blocks[0].coinbaseValue, s.batches[0].fee, s.batches[0].payouts)
  {
    s := RebuiltState(cfg, inputs);
    RebuiltIsReached(cfg, inputs);
    RebuiltBatch(cfg, inputs);
    FirstStillOwns(cfg, s.batches[0]);
    OtherRowsDoNotBalance(cfg, inputs);
  }
}
