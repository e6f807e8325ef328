/**
 Reorganisations: what a disconnect followed by a reconnect does to a block, in
 the consumer running undisturbed and over whole runs.
 */
module Reorg {
  import opened Text
  import opened Tables
  import opened Pool
  import opened PoolGrowth
  import opened PoolRounds
  import opened PoolDepth
  import opened PoolTheorems

  // ----- what the two events do to the block table -----

  function MaturedAt(blocks: seq<FoundBlock>, ids: seq<nat>): (r: seq<FoundBlock>)
    ensures |r| == |blocks|
  {
    seq(|blocks|, i requires 0 <= i < |blocks| => if i in ids then blocks[i].(status := Matured) else blocks[i])
  }

  /** The maturity check, block by block. */
  function Checked(blocks: seq<FoundBlock>, tip: int, confirmations: int): (r: seq<FoundBlock>)
    ensures |r| == |blocks|
  {
    seq(|blocks|, i requires 0 <= i < |blocks| =>
      if Due(blocks[i], tip, confirmations) then blocks[i].(status := Matured) else blocks[i])
  }

  /** What a connect event restores: nothing if the block is not orphaned or its payout was submitted. */
  function Restored(blocks: seq<FoundBlock>, batches: seq<Batch>, hash: string): (r: seq<FoundBlock>)
    ensures |r| == |blocks|
  {
    var b := FindBlock(blocks, hash);
    if b.None? || blocks[b.value].status != Orphaned then blocks
    else
      var roundId := blocks[b.value].roundId;
      if RoundHas(batches, roundId, Submitted) then blocks
      else WithStatus(blocks, b.value, if RoundHas(batches, roundId, Pending) then Matured else Immature)
  }

  function Higher(tip: int, height: int): int {
    if height > tip then height else tip
  }

  function AfterConnect(blocks: seq<FoundBlock>, batches: seq<Batch>, hash: string, tip: int, confirmations: int)
    : (r: seq<FoundBlock>)
    ensures |r| == |blocks|
  {
    Checked(Restored(blocks, batches, hash), tip, confirmations)
  }

  /** Disconnect then reconnect: the exact status the block ends with, and no other block notices. */
  lemma RoundTripIff(blocks: seq<FoundBlock>, batches: seq<Batch>, i: nat, tip: int, confirmations: int)
    requires DistinctHashes(blocks) && i < |blocks|
    ensures
      var hash, roundId := blocks[i].hash, blocks[i].roundId;
      var after := AfterConnect(MarkedOrphaned(blocks, hash), batches, hash, tip, confirmations);
      var submitted, pending := RoundHas(batches, roundId, Submitted), RoundHas(batches, roundId, Pending);
      && (after[i].status == Orphaned <==> submitted)
      && (after[i].status == Matured <==> !submitted && (pending || tip - blocks[i].height + 1 >= confirmations))
      && (after[i].status == Immature <==> !submitted && !pending && tip - blocks[i].height + 1 < confirmations)
      && forall j | 0 <= j < |blocks| && j != i :: after[j] == Checked(blocks, tip, confirmations)[j]
  {
    assert FindBlock(blocks, blocks[i].hash) == Some(i);
    var orphaned := MarkedOrphaned(blocks, blocks[i].hash);
    assert orphaned[i].hash == blocks[i].hash;
    assert forall j | 0 <= j < |blocks| :: orphaned[j].hash == blocks[j].hash;
    assert FindBlock(orphaned, blocks[i].hash) == Some(i);
  }

  // ----- the consumer running undisturbed -----

  function Phase(c: Consumer): nat {
    match c
    case Listening => 0
    case Orphaning(_) => 2
    case ClosingRound(_) => 1
    case Reconnected(_, _) => 5
    case Restoring(_, _, _) => 4
    case Rematuring(_, _) => 3
    case Checking(_) => 2
    case Maturing(_, _, _) => 1
  }

  function Remaining(c: Consumer): nat {
    if c.Maturing? then |c.todo| else 0
  }

  /** Consumer steps until it listens again. */
  function Drain(cfg: Config, s: State): State
    decreases Phase(s.consumer), Remaining(s.consumer)
  {
    if s.consumer.Listening? then s else Drain(cfg, ConsumerNext(cfg, s))
  }

  lemma {:induction false} SameEvents(blocks: seq<FoundBlock>, blocks': seq<FoundBlock>, ids: seq<nat>)
    requires BlocksKept(blocks, blocks') && |blocks'| == |blocks|
    ensures MaturedEvents(blocks, ids) == MaturedEvents(blocks', ids)
  {
    if ids != [] {
      SameEvents(blocks, blocks', ids[1..]);
      if ids[0] < |blocks| { assert SameBlock(blocks[ids[0]], blocks'[ids[0]]); }
    }
  }

  lemma MaturedOneByOne(blocks: seq<FoundBlock>, todo: seq<nat>)
    requires todo != []
    ensures MaturedAt(WithStatus(blocks, todo[0], Matured), todo[1..]) == MaturedAt(blocks, todo)
  {
    assert forall i :: i in todo <==> i == todo[0] || i in todo[1..];
  }

  lemma {:induction false} DrainMaturing(cfg: Config, s: State, todo: seq<nat>, done: seq<nat>, txids: seq<string>)
    requires s.consumer == Maturing(todo, done, txids)
    ensures Drain(cfg, s) == s.(
      blocks := MaturedAt(s.blocks, todo),
      queue := s.queue + MaturedEvents(s.blocks, done + todo) + [BlockConnected(txids)],
      consumer := Listening)
    decreases |todo|
  {
    var next := ConsumerNext(cfg, s);
    if todo == [] {
      assert done + todo == done;
      assert MaturedAt(s.blocks, []) == s.blocks;
      assert Drain(cfg, next) == next;
    } else {
      DrainMaturing(cfg, next, todo[1..], done + [todo[0]], txids);
      assert done + todo == done + [todo[0]] + todo[1..];
      SameEvents(s.blocks, next.blocks, done + todo);
      MaturedOneByOne(s.blocks, todo);
    }
  }

  lemma DueAreChecked(blocks: seq<FoundBlock>, tip: int, confirmations: int)
    ensures MaturedAt(blocks, DueIds(blocks, tip, confirmations)) == Checked(blocks, tip, confirmations)
  {
  }

  lemma DrainChecking(cfg: Config, s: State)
    requires s.consumer.Checking?
    ensures
      var s' := Drain(cfg, s);
      var due := DueIds(s.blocks, s.tip, cfg.confirmations);
      && s'.blocks == Checked(s.blocks, s.tip, cfg.confirmations)
      && s'.queue == s.queue + MaturedEvents(s.blocks, due) + [BlockConnected(s.consumer.txids)]
      && s' == s.(blocks := s'.blocks, queue := s'.queue, consumer := Listening, tips := s.tips + {s.tip})
  {
    var due := DueIds(s.blocks, s.tip, cfg.confirmations);
    DrainMaturing(cfg, ConsumerNext(cfg, s), due, [], s.consumer.txids);
    assert [] + due == due;
    DueAreChecked(s.blocks, s.tip, cfg.confirmations);
  }

  lemma DrainDisconnect(cfg: Config, s: State, hash: string)
    requires s.consumer.Listening?
    ensures
      var s' := Drain(cfg, Disconnected(s, hash));
      && s'.blocks == MarkedOrphaned(s.blocks, hash)
      && s' == s.(blocks := s'.blocks, rounds := s'.rounds)
  {
    var b := FindBlock(s.blocks, hash);
    if b.Some? {
      var s1 := Disconnected(s, hash);
      var s2 := ConsumerNext(cfg, s1);
      var s3 := ConsumerNext(cfg, s2);
      assert Drain(cfg, s1) == Drain(cfg, s2) == Drain(cfg, s3) == s3;
    }
  }

  /** The consumer, undisturbed, restores the block and then runs the maturity check. */
  lemma DrainConnect(cfg: Config, s: State, hash: string, height: int, txids: seq<string>)
    requires s.consumer.Listening?
    ensures
      var s' := Drain(cfg, Connected(s, hash, height, txids));
      var tip := Higher(s.tip, height);
      var restored := Restored(s.blocks, s.batches, hash);
      var due := DueIds(restored, tip, cfg.confirmations);
      && s'.blocks == AfterConnect(s.blocks, s.batches, hash, tip, cfg.confirmations)
      && s'.queue == s.queue + MaturedEvents(restored, due) + [BlockConnected(txids)]
      && s' == s.(blocks := s'.blocks, queue := s'.queue, tip := tip, tips := s.tips + {tip})
  {
    var s1 := Connected(s, hash, height, txids);
    if s1.consumer.Checking? {
      DrainChecking(cfg, s1);
    } else {
      DrainReconnected(cfg, s1);
      DrainChecking(cfg, s1.(blocks := Restored(s.blocks, s.batches, hash), consumer := Checking(txids)));
    }
  }

  lemma DrainReconnected(cfg: Config, s: State)
    requires s.consumer.Reconnected? && s.consumer.block < |s.blocks|
    requires s.blocks[s.consumer.block].status == Orphaned
    requires FindBlock(s.blocks, s.blocks[s.consumer.block].hash) == Some(s.consumer.block)
    ensures
      var restored := Restored(s.blocks, s.batches, s.blocks[s.consumer.block].hash);
      Drain(cfg, s) == Drain(cfg, s.(blocks := restored, consumer := Checking(s.consumer.txids)))
  {
    var b := s.consumer.block;
    var s2 := ConsumerNext(cfg, s);
    if !s2.consumer.Checking? {
      var s3 := ConsumerNext(cfg, s2);
      assert Drain(cfg, s) == Drain(cfg, s2) == Drain(cfg, s3);
      if s3.consumer.Rematuring? {
        var s4 := ConsumerNext(cfg, s3);
        assert Drain(cfg, s3) == Drain(cfg, s4);
        assert s4.blocks == WithStatus(s.blocks, b, Matured);
      }
    }
  }

  // ----- over whole runs -----

  /** No restart and no startup check. */
  predicate Steady(e: Event) {
    !(e.Boot? && (e.boot.Restart? || e.boot.CheckAtStartup?))
  }

  ghost predicate TipsBelow(s: State) {
    forall t | t in s.tips :: t <= s.tip
  }

  lemma StepKeepsTips(cfg: Config, s: State, e: Event)
    requires TipsBelow(s) && Steady(e)
    ensures TipsBelow(Step(cfg, s, e))
  {
  }

  lemma {:induction false} SteadyRun(cfg: Config, s: State, events: seq<Event>)
    requires TipsBelow(s) && forall e | e in events :: Steady(e)
    ensures TipsBelow(Run(cfg, s, events))
    decreases |events|
  {
    if events != [] {
      assert Steady(events[0]);
      StepKeepsTips(cfg, s, events[0]);
      assert forall e | e in events[1..] :: e in events;
      SteadyRun(cfg, Step(cfg, s, events[0]), events[1..]);
    }
  }

  /** Over a steady run, a block that was ever deep is deep under the current tip. */
  lemma DeepUnderTip(cfg: Config, s: State, b: nat)
    requires TipsBelow(s) && WasDeep(cfg, s, b)
    ensures Deep(s.blocks[b].height, s.tip, cfg.confirmations)
  {
    var tip :| tip in s.tips && Deep(s.blocks[b].height, tip, cfg.confirmations);
  }

  lemma DeepBlockReturns(cfg: Config, s: State, i: nat, height: int, txids: seq<string>)
    requires DistinctHashes(s.blocks) && TipsBelow(s) && WasDeep(cfg, s, i) && s.consumer.Listening?
    ensures
      var s1 := Drain(cfg, Disconnected(s, s.blocks[i].hash));
      var s2 := Drain(cfg, Connected(s1, s.blocks[i].hash, height, txids));
      && |s2.blocks| == |s.blocks|
      && s2.blocks[i].status == if RoundHas(s.batches, s.blocks[i].roundId, Submitted) then Orphaned else Matured
  {
    var hash, tip := s.blocks[i].hash, Higher(s.tip, height);
    DrainDisconnect(cfg, s, hash);
    DrainConnect(cfg, Drain(cfg, Disconnected(s, hash)), hash, height, txids);
    RoundTripIff(s.blocks, s.batches, i, tip, cfg.confirmations);
    DeepUnderTip(cfg, s, i);
    assert Deep(s.blocks[i].height, tip, cfg.confirmations);
  }

  /**
   After any run without restart or startup check whose triggers hit only deep blocks, a
   matured block alone in its round is matured again after a disconnect and a reconnect,
   unless its payout was submitted: then it stays orphaned.
   */
  lemma MaturedSurvivesReorg(cfg: Config, events: seq<Event>, i: nat, height: int, txids: seq<string>)
    requires TriggersOnlyDeep(cfg, START, events) && forall e | e in events :: Steady(e)
    requires
      var s := Run(cfg, START, events);
      s.consumer.Listening? && Alone(s.blocks, i) && s.blocks[i].status == Matured
    ensures
      var s := Run(cfg, START, events);
      var s1 := Drain(cfg, Disconnected(s, s.blocks[i].hash));
      var s2 := Drain(cfg, Connected(s1, s.blocks[i].hash, height, txids));
      && |s2.blocks| == |s.blocks|
      && s2.blocks[i].status == if RoundHas(s.batches, s.blocks[i].roundId, Submitted) then Orphaned else Matured
  {
    SteadyRun(cfg, START, events);
    DepthSafety(cfg, events);
    RunKeepsCore(cfg, START, events);
    DeepBlockReturns(cfg, Run(cfg, START, events), i, height, txids);
  }
}
