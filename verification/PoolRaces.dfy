/** Runs that show which lifecycle properties need their hypotheses. */
module PoolRaces {
  import opened Text
  import opened Tables
  import opened Pool
  import opened PoolDepth
  import opened PoolPayouts
  import opened PoolTheorems
  import opened Reconnects
  import Rounds

  lemma {:induction false} RunThenStep(cfg: Config, s: State, events: seq<Event>, e: Event)
    ensures Run(cfg, s, events + [e]) == Step(cfg, Run(cfg, s, events), e)
    decreases |events|
  {
    if events == [] {
      assert [] + [e] == [e];
      assert Run(cfg, Step(cfg, s, e), []) == Step(cfg, s, e);
    } else {
      assert (events + [e])[0] == events[0] && (events + [e])[1..] == events[1..] + [e];
      RunThenStep(cfg, Step(cfg, s, events[0]), events[1..], e);
    }
  }

  lemma StepIsReachable(cfg: Config, s: State, e: Event)
    requires Reachable(cfg, s)
    ensures Reachable(cfg, Step(cfg, s, e))
  {
    var events :| s == Run(cfg, START, events);
    RunThenStep(cfg, START, events, e);
    assert Step(cfg, s, e) == Run(cfg, START, events + [e]);
  }

  function Repeated(c: char, n: nat): (h: string)
    ensures |h| == n && forall i | 0 <= i < n :: h[i] == c
  {
    if n == 0 then "" else Repeated(c, n - 1) + [c]
  }

  const HASH := Repeated('0', 64)
  const FOUND := FoundBlock(0, HASH, 5, Immature, 100)
  const OPEN := Rounds.Round(1, None, Rounds.Open)
  const CLOSED := Rounds.Round(1, Some(1), Rounds.Found)

  /** The first block is found on template 1 and its round closed. */
  const FIRST := START.(rounds := [CLOSED], blocks := [FOUND], lastFound := 1)

  lemma FirstIsReachable(cfg: Config)
    ensures Reachable(cfg, FIRST)
  {
    FirstIsReached(cfg);
  }

  // ----- a manual trigger on a shallow block -----

  const NOTHING := Inputs([], [])
  const ORPHAN_CLOSED := Rounds.Round(1, Some(0), Rounds.OrphanedRound)

  ghost function FirstBatch(cfg: Config): Batch {
    NewBatch(cfg, FOUND, NOTHING)
  }

  /** The manual trigger accepts the immature block. */
  lemma TriggerIsReachable(cfg: Config)
    ensures Reachable(cfg, FIRST.(batches := [FirstBatch(cfg)]))
  {
    FirstIsReachable(cfg);
    var s1 := FIRST.(admins := {0});
    assert Step(cfg, FIRST, Operator(AdminCheck(HASH))) == s1;
    StepIsReachable(cfg, FIRST, Operator(AdminCheck(HASH)));
    var e := Operator(AdminCreate(0, NOTHING, true));
    assert Step(cfg, s1, e) == FIRST.(batches := [FirstBatch(cfg)]);
    StepIsReachable(cfg, s1, e);
  }

  /** A disconnect of the one block, up to the reconnect's read of the batches. */
  lemma ReorgIsReachable(cfg: Config, s: State)
    requires Reachable(cfg, s) && s.consumer.Listening?
    requires |s.blocks| == 1 && s.blocks[0] == FOUND.(status := s.blocks[0].status)
    requires s.rounds == [CLOSED] && s.tip >= 0 && s.batches == [FirstBatch(cfg)]
    ensures Reachable(cfg, s.(
      rounds := [ORPHAN_CLOSED], blocks := [FOUND.(status := Orphaned)],
      tip := if s.tip < 5 then 5 else s.tip, consumer := Restoring(0, true, [])))
  {
    var s1 := s.(consumer := Orphaning(0));
    assert Step(cfg, s, Chain(Disconnect(HASH))) == s1;
    StepIsReachable(cfg, s, Chain(Disconnect(HASH)));
    var s2 := s1.(blocks := [FOUND.(status := Orphaned)], consumer := ClosingRound(0));
    assert Step(cfg, s1, Chain(ConsumerStep)) == s2;
    StepIsReachable(cfg, s1, Chain(ConsumerStep));
    var s3 := s2.(rounds := [ORPHAN_CLOSED], consumer := Listening);
    assert Step(cfg, s2, Chain(ConsumerStep)) == s3;
    StepIsReachable(cfg, s2, Chain(ConsumerStep));
    var s4 := s3.(tip := if s.tip < 5 then 5 else s.tip, consumer := Reconnected(0, []));
    assert Step(cfg, s3, Chain(Connect(HASH, 5, []))) == s4;
    StepIsReachable(cfg, s3, Chain(Connect(HASH, 5, [])));
    ReadingBatches(cfg, s4);
    StepIsReachable(cfg, s4, Chain(ConsumerStep));
  }

  lemma ReadingBatches(cfg: Config, s: State)
    requires s.consumer == Reconnected(0, []) && s.blocks == [FOUND.(status := Orphaned)]
    requires s.batches == [FirstBatch(cfg)]
    ensures Step(cfg, s, Chain(ConsumerStep)) == s.(consumer := Restoring(0, true, []))
  {
    assert s.batches[0].roundId == 0 && s.batches[0].status == Pending;
    assert RoundHas(s.batches, 0, Pending) && !RoundHas(s.batches, 0, Submitted);
  }

  /** Under every configuration a triggered payout and a reorg can mature a block no check ever saw deep. */
  lemma TriggerCanMatureShallowBlock(cfg: Config) returns (s: State)
    ensures Reachable(cfg, s) && |s.blocks| == 1 && s.blocks[0].status == Matured
    ensures !WasDeep(cfg, s, 0)
  {
    TriggerIsReachable(cfg);
    var s0 := FIRST.(batches := [FirstBatch(cfg)]);
    ReorgIsReachable(cfg, s0);
    var s1 := s0.(
      rounds := [ORPHAN_CLOSED], blocks := [FOUND.(status := Orphaned)], tip := 5, consumer := Restoring(0, true, []));
    var s2 := s1.(blocks := [FOUND], consumer := Rematuring(0, []));
    assert Step(cfg, s1, Chain(ConsumerStep)) == s2;
    StepIsReachable(cfg, s1, Chain(ConsumerStep));
    s := s2.(blocks := [FOUND.(status := Matured)], consumer := Checking([]));
    assert Step(cfg, s2, Chain(ConsumerStep)) == s;
    StepIsReachable(cfg, s2, Chain(ConsumerStep));
  }

  // ----- a reconnect that races with a submission -----

  lemma OneSelected(keep: seq<bool>)
    requires keep == [true]
    ensures Selected(keep) == [0]
  {
    assert Selected(keep[..0]) == [];
  }

  lemma OneDue(block: FoundBlock, tip: int, confirmations: int)
    requires Due(block, tip, confirmations)
    ensures DueIds([block], tip, confirmations) == [0]
  {
    var blocks := [block];
    OneSelected(seq(|blocks|, i requires 0 <= i < |blocks| => Due(blocks[i], tip, confirmations)));
  }

  lemma OnePending(batch: Batch)
    requires batch.status == Pending
    ensures BatchIds([batch], Pending) == [0]
  {
    var batches := [batch];
    OneSelected(seq(|batches|, i requires 0 <= i < |batches| => batches[i].status == Pending));
  }

  /** The first block is recorded and nothing else has happened, except at startup. */
  predicate IsFirst(s: State) {
    s == FIRST.(startup := s.startup, tips := s.tips)
  }

  /** The check under tip `h` lists the block. */
  lemma CheckIsReachable(cfg: Config, s: State, h: int)
    requires Reachable(cfg, s) && IsFirst(s) && h >= 5 && Deep(5, h, cfg.confirmations)
    ensures Reachable(cfg, s.(tip := h, tips := s.tips + {h}, consumer := Maturing([0], [], [])))
  {
    var s1 := s.(tip := h, consumer := Checking([]));
    assert Step(cfg, s, Chain(Connect("", h, []))) == s1;
    StepIsReachable(cfg, s, Chain(Connect("", h, [])));
    OneDue(FOUND, h, cfg.confirmations);
    assert Step(cfg, s1, Chain(ConsumerStep)) == s1.(tips := s.tips + {h}, consumer := Maturing([0], [], []));
    StepIsReachable(cfg, s1, Chain(ConsumerStep));
  }

  lemma OneEvent(block: FoundBlock)
    ensures MaturedEvents([block], [0]) == [BlockMatured(block.hash)]
  {
    var ids: seq<nat> := [0];
    assert ids[1..] == [];
  }

  lemma MaturingOne(cfg: Config, s: State)
    requires s.consumer == Maturing([0], [], []) && s.blocks == [FOUND]
    ensures Step(cfg, s, Chain(ConsumerStep))
      == s.(blocks := [FOUND.(status := Matured)], consumer := Maturing([], [0], []))
  {
    assert s.consumer.todo[1..] == [] && s.consumer.done + [s.consumer.todo[0]] == [0];
  }

  lemma SendingOne(cfg: Config, s: State)
    requires s.consumer == Maturing([], [0], []) && s.blocks == [FOUND.(status := Matured)] && s.queue == []
    ensures Step(cfg, s, Chain(ConsumerStep))
      == s.(queue := [BlockMatured(HASH), BlockConnected([])], consumer := Listening)
  {
    OneEvent(FOUND.(status := Matured));
  }

  /** The block matured under tip `h` and both events queued. */
  function MaturedState(s: State, h: int): State {
    s.(blocks := [FOUND.(status := Matured)], tip := h, tips := s.tips + {h},
       queue := [BlockMatured(HASH), BlockConnected([])])
  }

  lemma MaturityIsReachable(cfg: Config, s: State, h: int)
    requires Reachable(cfg, s) && IsFirst(s) && h >= 5 && Deep(5, h, cfg.confirmations)
    ensures Reachable(cfg, MaturedState(s, h))
  {
    CheckIsReachable(cfg, s, h);
    var s1 := s.(tip := h, tips := s.tips + {h}, consumer := Maturing([0], [], []));
    MaturingOne(cfg, s1);
    StepIsReachable(cfg, s1, Chain(ConsumerStep));
    var s2 := s1.(blocks := [FOUND.(status := Matured)], consumer := Maturing([], [0], []));
    SendingOne(cfg, s2);
    StepIsReachable(cfg, s2, Chain(ConsumerStep));
  }

  /** The batch submitted with transaction "t". */
  ghost function SentBatch(cfg: Config): Batch {
    FirstBatch(cfg).(status := Submitted, txid := Some("t"))
  }

  /** The handler receives the maturation event and finds no batch. */
  lemma CreatingIsReachable(cfg: Config, s: State)
    requires Reachable(cfg, s) && s.handler.Waiting? && s.batches == []
    requires |s.blocks| == 1 && s.blocks[0] == FOUND.(status := s.blocks[0].status)
    requires s.queue == [BlockMatured(HASH), BlockConnected([])]
    ensures Reachable(cfg, s.(queue := [BlockConnected([])], handler := Creating(0)))
  {
    var s1 := s.(queue := [BlockConnected([])], handler := Guarding(0));
    assert Step(cfg, s, Payout(HandlerStep)) == s1;
    StepIsReachable(cfg, s, Payout(HandlerStep));
    assert Step(cfg, s1, Payout(HandlerStep)) == s1.(handler := Creating(0));
    StepIsReachable(cfg, s1, Payout(HandlerStep));
  }

  /** The handler creates the batch and lists it for processing. */
  lemma ProcessingIsReachable(cfg: Config, s: State)
    requires Reachable(cfg, s) && s.handler == Creating(0) && s.batches == []
    requires |s.blocks| == 1 && s.blocks[0] == FOUND.(status := s.blocks[0].status)
    ensures Reachable(cfg, s.(batches := [FirstBatch(cfg)], handler := Processing([0])))
  {
    var s1 := s.(batches := [FirstBatch(cfg)], handler := ListingPending);
    assert NewBatch(cfg, s.blocks[0], NOTHING) == FirstBatch(cfg);
    assert Step(cfg, s, Payout(CreateStep(NOTHING, true))) == s1;
    StepIsReachable(cfg, s, Payout(CreateStep(NOTHING, true)));
    OnePending(FirstBatch(cfg));
    assert Step(cfg, s1, Payout(HandlerStep)) == s1.(handler := Processing([0]));
    StepIsReachable(cfg, s1, Payout(HandlerStep));
  }

  lemma SigningOne(cfg: Config, s: State)
    requires s.handler == Processing([0]) && s.signed == []
    ensures Step(cfg, s, Payout(Sign("t"))) == s.(signed := [0], handler := Marking(0, "t", []))
  {
    assert s.handler.todo[1..] == [] && s.signed + [s.handler.todo[0]] == [0];
  }

  lemma MarkingOne(cfg: Config, s: State)
    requires s.batches == [FirstBatch(cfg)] && s.handler == Marking(0, "t", [])
    ensures Step(cfg, s, Payout(HandlerStep)) == s.(batches := [SentBatch(cfg)], handler := Processing([]))
  {
  }

  /** Signing and marking the one listed batch. */
  lemma SubmissionIsReachable(cfg: Config, s: State)
    requires Reachable(cfg, s) && s.batches == [FirstBatch(cfg)] && s.handler == Processing([0]) && s.signed == []
    ensures Reachable(cfg, s.(batches := [SentBatch(cfg)], signed := [0], handler := Processing([])))
  {
    SigningOne(cfg, s);
    StepIsReachable(cfg, s, Payout(Sign("t")));
    var s1 := s.(signed := [0], handler := Marking(0, "t", []));
    MarkingOne(cfg, s1);
    StepIsReachable(cfg, s1, Payout(HandlerStep));
  }

  /** A tip under which a block at height 5 is deep enough. */
  function DeepTip(cfg: Config): (h: int)
    ensures h >= 5 && Deep(5, h, cfg.confirmations)
  {
    if cfg.confirmations > 0 then 5 + cfg.confirmations else 5
  }

  /** The handler at the pending batch of the block. */
  ghost function ListedState(cfg: Config, s: State): State {
    s.(batches := [FirstBatch(cfg)], queue := [BlockConnected([])], handler := Processing([0]))
  }

  lemma ListedIsReachable(cfg: Config, s: State)
    requires Reachable(cfg, s) && s.handler.Waiting? && s.batches == []
    requires |s.blocks| == 1 && s.blocks[0] == FOUND.(status := s.blocks[0].status)
    requires s.queue == [BlockMatured(HASH), BlockConnected([])]
    ensures Reachable(cfg, ListedState(cfg, s))
  {
    CreatingIsReachable(cfg, s);
    ProcessingIsReachable(cfg, s.(queue := [BlockConnected([])], handler := Creating(0)));
  }

  /** The block is orphaned, its reconnect has read a pending batch, and the handler is at that batch. */
  ghost function RaceState(cfg: Config): State {
    ListedState(cfg, MaturedState(FIRST, DeepTip(cfg))).(
      rounds := [ORPHAN_CLOSED], blocks := [FOUND.(status := Orphaned)], consumer := Restoring(0, true, []))
  }

  lemma RaceIsReachable(cfg: Config)
    ensures Reachable(cfg, RaceState(cfg))
  {
    FirstIsReachable(cfg);
    MaturityIsReachable(cfg, FIRST, DeepTip(cfg));
    ListedIsReachable(cfg, MaturedState(FIRST, DeepTip(cfg)));
    ReorgIsReachable(cfg, ListedState(cfg, MaturedState(FIRST, DeepTip(cfg))));
  }

  /**
   Under every configuration, a connect event that read the batch while it was pending can
   un-orphan the block after the handler has recorded the submission.
   */
  lemma ReconnectRacesWithSubmission(cfg: Config) returns (s: State)
    ensures Reachable(cfg, s) && |s.blocks| == |s.batches| == 1
    ensures OwnedBy(s.blocks, s.batches[0], 0) && s.batches[0].status == Submitted
    ensures s.blocks[0].status == Orphaned
    ensures var s' := Step(cfg, s, Chain(ConsumerStep)); |s'.blocks| == 1 && s'.blocks[0].status == Immature
  {
    RaceIsReachable(cfg);
    SubmissionIsReachable(cfg, RaceState(cfg));
    s := RaceState(cfg).(batches := [SentBatch(cfg)], signed := [0], handler := Processing([]));
    NewBatchOwned(cfg, [FOUND], 0, NOTHING);
  }

  // ----- finds that share a round -----

  const SECOND := Repeated('1', 64)
  const FIND_ONE := Find(HASH, 5, 100)
  const FIND_TWO := Find(SECOND, 6, 300)

  predicate IsFind(e: Event) {
    e.Miner? && e.miner.FindBlockOn?
  }

  predicate IncreasingTemplates(events: seq<Event>) {
    forall i, j | 0 <= i < j < |events| && IsFind(events[i]) && IsFind(events[j]) ::
      events[i].miner.t < events[j].miner.t
  }

  /** Every find of the run starts when no other is in progress. */
  ghost predicate OneAtATime(cfg: Config, s: State, events: seq<Event>)
    decreases |events|
  {
    events == [] ||
    ((IsFind(events[0]) ==> s.finders == map[]) && OneAtATime(cfg, Step(cfg, s, events[0]), events[1..]))
  }

  lemma {:induction false} OneMoreFind(cfg: Config, s: State, events: seq<Event>, e: Event)
    requires OneAtATime(cfg, s, events) && (IsFind(e) ==> Run(cfg, s, events).finders == map[])
    ensures OneAtATime(cfg, s, events + [e])
    decreases |events|
  {
    if events == [] {
      assert [] + [e] == [e];
    } else {
      assert (events + [e])[0] == events[0] && (events + [e])[1..] == events[1..] + [e];
      OneMoreFind(cfg, Step(cfg, s, events[0]), events[1..], e);
    }
  }

  ghost predicate ShareRound(s: State) {
    |s.blocks| == 2 && s.blocks[0].roundId == s.blocks[1].roundId
  }

  /** The second find is about to record its block in the round of the first. */
  lemma SecondRecords(cfg: Config, s: State, t: nat)
    requires s.blocks == [FOUND] && 1 in s.finders && s.finders[1] == Resolved(t, FIND_TWO, 0)
    ensures ShareRound(Step(cfg, s, Miner(FinderStep(1))))
  {
    assert HASH[0] != SECOND[0];
  }

  lemma OnlyRoundMatches(r: Rounds.Round, t: nat)
    requires Rounds.Covers(r, t)
    ensures Rounds.Match([r], t) == Some(0)
  {
  }

  /** The first session has opened round 0 for its block. */
  const CLAIMED := START.(rounds := [OPEN], finders := map[0 := Resolved(1, FIND_ONE, 0)], lastFound := 1)

  lemma ClaimedIsReached(cfg: Config)
    ensures
      var events := [Miner(FindBlockOn(0, 1, FIND_ONE)), Miner(FinderStep(0))];
      Run(cfg, START, events) == CLAIMED && OneAtATime(cfg, START, events)
  {
    var e1, e2 := Miner(FindBlockOn(0, 1, FIND_ONE)), Miner(FinderStep(0));
    var s1 := START.(finders := map[0 := Unmatched(1, FIND_ONE)], lastFound := 1);
    assert Step(cfg, START, e1) == s1;
    assert Step(cfg, s1, e2) == CLAIMED;
    RunThenStep(cfg, START, [], e1);
    RunThenStep(cfg, START, [e1], e2);
    OneMoreFind(cfg, START, [], e1);
    OneMoreFind(cfg, START, [e1], e2);
    assert [] + [e1] == [e1] && [e1] + [e2] == [e1, e2];
  }

  const BOTH_CLAIM := CLAIMED.(
    finders := map[0 := Resolved(1, FIND_ONE, 0), 1 := Resolved(2, FIND_TWO, 0)], lastFound := 2)

  lemma ClaimedTwice(cfg: Config)
    ensures Step(cfg, CLAIMED, Miner(FindBlockOn(1, 2, FIND_TWO))) == BOTH_CLAIM
  {
    OnlyRoundMatches(OPEN, 2);
  }

  lemma FirstInserted(cfg: Config)
    ensures Step(cfg, BOTH_CLAIM, Miner(FinderStep(0)))
      == BOTH_CLAIM.(blocks := [FOUND], finders := map[0 := Inserted(1, 0), 1 := Resolved(2, FIND_TWO, 0)])
  {
  }

  /**
   Increasing templates are not enough: the second find resolves before the first has
   closed its round.
   */
  lemma OverlappingFindsShareRound(cfg: Config) returns (events: seq<Event>)
    ensures IncreasingTemplates(events) && ShareRound(Run(cfg, START, events))
  {
    OverlapIncreases();
    OverlapShares(cfg);
    events := OVERLAP;
  }

  lemma OverlapIncreases()
    ensures IncreasingTemplates(OVERLAP)
  {
  }

  lemma OverlapInserts(cfg: Config)
    ensures Run(cfg, START, OVERLAP[..4])
      == BOTH_CLAIM.(blocks := [FOUND], finders := map[0 := Inserted(1, 0), 1 := Resolved(2, FIND_TWO, 0)])
  {
    BothClaimIsReached(cfg);
    FirstInserted(cfg);
    RunThenStep(cfg, START, OVERLAP[..3], Miner(FinderStep(0)));
    assert OVERLAP[..4] == OVERLAP[..3] + [Miner(FinderStep(0))];
  }

  lemma OverlapShares(cfg: Config)
    ensures ShareRound(Run(cfg, START, OVERLAP))
  {
    OverlapInserts(cfg);
    SecondRecords(cfg, Run(cfg, START, OVERLAP[..4]), 2);
    RunThenStep(cfg, START, OVERLAP[..4], Miner(FinderStep(1)));
    assert OVERLAP == OVERLAP[..4] + [Miner(FinderStep(1))];
  }

  const OVERLAP: seq<Event> := [
    Miner(FindBlockOn(0, 1, FIND_ONE)), Miner(FinderStep(0)), Miner(FindBlockOn(1, 2, FIND_TWO)),
    Miner(FinderStep(0)), Miner(FinderStep(1))]

  lemma BothClaimIsReached(cfg: Config)
    ensures Run(cfg, START, OVERLAP[..3]) == BOTH_CLAIM
  {
    ClaimedIsReached(cfg);
    var two := [Miner(FindBlockOn(0, 1, FIND_ONE)), Miner(FinderStep(0))];
    ClaimedTwice(cfg);
    RunThenStep(cfg, START, two, Miner(FindBlockOn(1, 2, FIND_TWO)));
    assert OVERLAP[..3] == two + [Miner(FindBlockOn(1, 2, FIND_TWO))];
  }

  lemma FirstIsReached(cfg: Config)
    ensures
      var two := [Miner(FindBlockOn(0, 1, FIND_ONE)), Miner(FinderStep(0))];
      var four := two + [Miner(FinderStep(0))] + [Miner(FinderStep(0))];
      Run(cfg, START, four) == FIRST && OneAtATime(cfg, START, four)
  {
    ClaimedIsReached(cfg);
    var two := [Miner(FindBlockOn(0, 1, FIND_ONE)), Miner(FinderStep(0))];
    var e := Miner(FinderStep(0));
    var s3 := CLAIMED.(blocks := [FOUND], finders := map[0 := Inserted(1, 0)]);
    assert Step(cfg, CLAIMED, e) == s3;
    RunThenStep(cfg, START, two, e);
    assert Step(cfg, s3, e) == FIRST;
    RunThenStep(cfg, START, two + [e], e);
    OneMoreFind(cfg, START, two, e);
    OneMoreFind(cfg, START, two + [e], e);
  }

  /** Finds one at a time are not enough either: the second is on the template of the first. */
  lemma SameTemplateSharesRound(cfg: Config) returns (events: seq<Event>)
    ensures OneAtATime(cfg, START, events) && ShareRound(Run(cfg, START, events))
  {
    FirstIsReached(cfg);
    var two := [Miner(FindBlockOn(0, 1, FIND_ONE)), Miner(FinderStep(0))];
    var four := two + [Miner(FinderStep(0))] + [Miner(FinderStep(0))];
    var e5, e6 := Miner(FindBlockOn(1, 1, FIND_TWO)), Miner(FinderStep(1));
    OnlyRoundMatches(CLOSED, 1);
    var s5 := FIRST.(finders := map[1 := Resolved(1, FIND_TWO, 0)]);
    assert Step(cfg, FIRST, e5) == s5;
    RunThenStep(cfg, START, four, e5);
    OneMoreFind(cfg, START, four, e5);
    SecondRecords(cfg, s5, 1);
    RunThenStep(cfg, START, four + [e5], e6);
    OneMoreFind(cfg, START, four + [e5], e6);
    events := four + [e5] + [e6];
  }

  const REOPENED := START.(rounds := [OPEN], blocks := [FOUND], lastFound := 1)

  /** A restart between recording a block and closing its round leaves the round open. */
  lemma ReopenedIsReached(cfg: Config)
    ensures
      var four := [Miner(FindBlockOn(0, 1, FIND_ONE)), Miner(FinderStep(0))] + [Miner(FinderStep(0))] + [Boot(Restart)];
      Run(cfg, START, four) == REOPENED && OneAtATime(cfg, START, four)
  {
    ClaimedIsReached(cfg);
    var two := [Miner(FindBlockOn(0, 1, FIND_ONE)), Miner(FinderStep(0))];
    var e := Miner(FinderStep(0));
    var s3 := CLAIMED.(blocks := [FOUND], finders := map[0 := Inserted(1, 0)]);
    assert Step(cfg, CLAIMED, e) == s3;
    RunThenStep(cfg, START, two, e);
    assert Step(cfg, s3, Boot(Restart)) == REOPENED;
    RunThenStep(cfg, START, two + [e], Boot(Restart));
    OneMoreFind(cfg, START, two, e);
    OneMoreFind(cfg, START, two + [e], Boot(Restart));
  }

  const RESTARTED: seq<Event> := [
    Miner(FindBlockOn(0, 1, FIND_ONE)), Miner(FinderStep(0)), Miner(FinderStep(0)), Boot(Restart),
    Miner(FindBlockOn(1, 2, FIND_TWO)), Miner(FinderStep(1))]

  /** Nor are both: a restart between recording a block and closing its round lets the next find share it. */
  lemma RestartSharesRound(cfg: Config) returns (events: seq<Event>)
    ensures IncreasingTemplates(events) && OneAtATime(cfg, START, events) && ShareRound(Run(cfg, START, events))
  {
    RestartedIncreases();
    RestartedShares(cfg);
    events := RESTARTED;
  }

  lemma RestartedIncreases()
    ensures IncreasingTemplates(RESTARTED)
  {
  }

  lemma RestartedFinds(cfg: Config)
    ensures Run(cfg, START, RESTARTED[..5]) == REOPENED.(finders := map[1 := Resolved(2, FIND_TWO, 0)], lastFound := 2)
    ensures OneAtATime(cfg, START, RESTARTED[..5])
  {
    ReopenedIsReached(cfg);
    var e5 := Miner(FindBlockOn(1, 2, FIND_TWO));
    assert RESTARTED[..4]
      == [Miner(FindBlockOn(0, 1, FIND_ONE)), Miner(FinderStep(0))] + [Miner(FinderStep(0))] + [Boot(Restart)];
    OnlyRoundMatches(OPEN, 2);
    RunThenStep(cfg, START, RESTARTED[..4], e5);
    OneMoreFind(cfg, START, RESTARTED[..4], e5);
    assert RESTARTED[..5] == RESTARTED[..4] + [e5];
  }

  lemma RestartedShares(cfg: Config)
    ensures OneAtATime(cfg, START, RESTARTED) && ShareRound(Run(cfg, START, RESTARTED))
  {
    RestartedFinds(cfg);
    var e6 := Miner(FinderStep(1));
    SecondRecords(cfg, Run(cfg, START, RESTARTED[..5]), 2);
    RunThenStep(cfg, START, RESTARTED[..5], e6);
    OneMoreFind(cfg, START, RESTARTED[..5], e6);
    assert RESTARTED == RESTARTED[..5] + [e6];
  }

  // ----- a payout for an orphaned block -----

  /** The disconnect of the one block, before anything was paid out. */
  lemma OrphaningIsReachable(cfg: Config, s: State)
    requires Reachable(cfg, s) && s.consumer.Listening? && s.rounds == [CLOSED]
    requires |s.blocks| == 1 && s.blocks[0] == FOUND.(status := s.blocks[0].status)
    ensures Reachable(cfg, s.(rounds := [ORPHAN_CLOSED], blocks := [FOUND.(status := Orphaned)]))
  {
    var s1 := s.(consumer := Orphaning(0));
    assert Step(cfg, s, Chain(Disconnect(HASH))) == s1;
    StepIsReachable(cfg, s, Chain(Disconnect(HASH)));
    var s2 := s1.(blocks := [FOUND.(status := Orphaned)], consumer := ClosingRound(0));
    assert Step(cfg, s1, Chain(ConsumerStep)) == s2;
    StepIsReachable(cfg, s1, Chain(ConsumerStep));
    var s3 := s2.(rounds := [ORPHAN_CLOSED], consumer := Listening);
    assert Step(cfg, s2, Chain(ConsumerStep)) == s3;
    StepIsReachable(cfg, s2, Chain(ConsumerStep));
  }

  /**
   Under every configuration a block orphaned while its maturation event is queued still
   gets a batch, and the batch is submitted.
   */
  lemma OrphanedBlockCanBePaidOut(cfg: Config) returns (s: State)
    ensures Reachable(cfg, s) && |s.blocks| == |s.batches| == 1
    ensures OwnedBy(s.blocks, s.batches[0], 0) && s.batches[0].status == Submitted
    ensures s.blocks[0].status == Orphaned && s.consumer.Listening?
  {
    FirstIsReachable(cfg);
    var s0 := MaturedState(FIRST, DeepTip(cfg));
    MaturityIsReachable(cfg, FIRST, DeepTip(cfg));
    OrphaningIsReachable(cfg, s0);
    var s1 := s0.(rounds := [ORPHAN_CLOSED], blocks := [FOUND.(status := Orphaned)]);
    ListedIsReachable(cfg, s1);
    SubmissionIsReachable(cfg, ListedState(cfg, s1));
    s := ListedState(cfg, s1).(batches := [SentBatch(cfg)], signed := [0], handler := Processing([]));
    NewBatchOwned(cfg, [FOUND], 0, NOTHING);
  }

  // ----- a startup check that overlaps a connect event -----

  /** The startup check has listed the block and not come to it yet. */
  const LISTED := FIRST.(startup := CatchingUp([0], []))

  lemma StartupListsBlock(cfg: Config)
    ensures Reachable(cfg, LISTED.(tips := {DeepTip(cfg)}))
  {
    FirstIsReachable(cfg);
    OneDue(FOUND, DeepTip(cfg), cfg.confirmations);
    var s := LISTED.(tips := {DeepTip(cfg)});
    assert Step(cfg, FIRST, Boot(CheckAtStartup(DeepTip(cfg)))) == s;
    StepIsReachable(cfg, FIRST, Boot(CheckAtStartup(DeepTip(cfg))));
  }

  /** Meanwhile the block matures, is paid out and orphaned. */
  ghost function PaidOutState(cfg: Config): State {
    ListedState(cfg, MaturedState(LISTED.(tips := {DeepTip(cfg)}), DeepTip(cfg))).(
      rounds := [ORPHAN_CLOSED], blocks := [FOUND.(status := Orphaned)],
      batches := [SentBatch(cfg)], signed := [0], handler := Processing([]))
  }

  lemma PaidOutIsReachable(cfg: Config)
    ensures Reachable(cfg, PaidOutState(cfg))
  {
    StartupListsBlock(cfg);
    var s0 := LISTED.(tips := {DeepTip(cfg)});
    MaturityIsReachable(cfg, s0, DeepTip(cfg));
    var s1 := MaturedState(s0, DeepTip(cfg));
    ListedIsReachable(cfg, s1);
    SubmissionIsReachable(cfg, ListedState(cfg, s1));
    OrphaningIsReachable(
      cfg, ListedState(cfg, s1).(batches := [SentBatch(cfg)], signed := [0], handler := Processing([])));
  }

  /**
   Under every configuration the startup check can mature an orphaned block whose payout was
   submitted, while the connect event that reconnects the block is being handled.
   */
  lemma StartupCheckMaturesSubmitted(cfg: Config) returns (s: State)
    ensures Reachable(cfg, s) && Reading(s, 0) && Listed(s, 0) && |s.batches| == 1
    ensures OwnedBy(s.blocks, s.batches[0], 0) && s.batches[0].status == Submitted
    ensures
      var s' := StartupNext(s, true);
      |s'.blocks| == 1 && s'.blocks[0].status == Matured && s'.batches == s.batches
  {
    PaidOutIsReachable(cfg);
    var s0 := PaidOutState(cfg);
    s := s0.(consumer := Reconnected(0, []));
    assert Step(cfg, s0, Chain(Connect(HASH, 5, []))) == s;
    StepIsReachable(cfg, s0, Chain(Connect(HASH, 5, [])));
    NewBatchOwned(cfg, [FOUND], 0, NOTHING);
  }
}
