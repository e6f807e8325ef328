/**
 A connect event that reconnects an orphaned block, with every other actor running
 between its sections. Of the startup work, the reconciliation of blocks is over before
 the consumer starts; the settling of payouts and the maturity check may overlap.
 */
module Reconnects {
  import opened Tables
  import opened Pool
  import opened PoolGrowth
  import opened PoolRounds
  import opened PoolPayouts
  import opened PoolPaid
  import opened PoolDepth
  import opened PoolTheorems
  import opened Reorg

  /** The event can happen while the consumer handles a connect event. */
  predicate Overlaps(s: State, e: Event) {
    e.Boot? ==>
      || e.boot.CheckAtStartup? || e.boot.ReconcilePayouts?
      || (e.boot.StartupStep? && (s.startup.CatchingUp? || s.startup.Settling?))
  }

  /** The consumer is handling one event throughout; the last state may be the one in which it listens again. */
  ghost predicate InOneConnect(cfg: Config, s: State, events: seq<Event>)
    decreases |events|
  {
    events == [] ||
    (!s.consumer.Listening? && Overlaps(s, events[0]) && InOneConnect(cfg, Step(cfg, s, events[0]), events[1..]))
  }

  /** The consumer is about to read the batches of the orphaned block `b`. */
  predicate Reading(s: State, b: nat) {
    s.consumer.Reconnected? && s.consumer.block == b && b < |s.blocks| && s.blocks[b].status == Orphaned
  }

  /** The read and whatever happens until the consumer listens again, or a part of it. */
  ghost predicate Window(cfg: Config, s: State, events: seq<Event>, b: nat) {
    Reading(s, b) && events != [] && events[0] == Chain(ConsumerStep) && InOneConnect(cfg, s, events)
  }

  /** The consumer's next section un-orphans the block. */
  predicate UnOrphans(cfg: Config, s: State, b: nat) {
    var s' := ConsumerNext(cfg, s);
    && b < |s.blocks| && s.blocks[b].status == Orphaned
    && b < |s'.blocks| && (s'.blocks[b].status == Immature || s'.blocks[b].status == Matured)
  }

  /** The startup check listed the block as immature and has not come to it yet. */
  predicate Listed(s: State, b: nat) {
    s.startup.CatchingUp? && b in s.startup.todo
  }

  // ----- what the other actors can do to the block -----

  /** Block `b` is at most paid, or matured by a startup check that listed it; consumer and tip are left alone. */
  predicate Leaves(s: State, s': State, b: nat) {
    && b < |s.blocks| <= |s'.blocks| && SameBlock(s.blocks[b], s'.blocks[b])
    && (|| s'.blocks[b].status == s.blocks[b].status
        || s'.blocks[b].status == Paid
        || (s'.blocks[b].status == Matured && Listed(s, b)))
    && (Listed(s', b) ==> Listed(s, b) || s.blocks[b].status == Immature)
    && s'.consumer == s.consumer && s'.tip == s.tip
  }

  lemma MinerLeaves(s: State, e: MinerEvent, b: nat)
    requires b < |s.blocks|
    ensures Leaves(s, MinerNext(s, e), b)
  {
  }

  lemma PayoutLeaves(cfg: Config, s: State, e: PayoutStep, b: nat)
    requires b < |s.blocks|
    ensures Leaves(s, PayoutNext(cfg, s, e), b)
  {
  }

  lemma StartupLeaves(s: State, answer: bool, b: nat)
    requires b < |s.blocks| && (s.startup.CatchingUp? || s.startup.Settling?)
    ensures Leaves(s, StartupNext(s, answer), b)
  {
    if s.startup.CatchingUp? && s.startup.todo != [] {
      var todo := s.startup.todo;
      assert todo[0] in todo;
      assert forall x | x in todo[1..] :: x in todo;
    }
  }

  lemma BootLeaves(cfg: Config, s: State, e: StartupEvent, b: nat)
    requires b < |s.blocks| && Overlaps(s, Boot(e))
    ensures Leaves(s, BootNext(cfg, s, e), b)
  {
    if e.StartupStep? { StartupLeaves(s, e.answer, b); }
  }

  lemma OthersLeave(cfg: Config, s: State, e: Event, b: nat)
    requires b < |s.blocks| && !s.consumer.Listening? && Overlaps(s, e) && e != Chain(ConsumerStep)
    ensures Leaves(s, Step(cfg, s, e), b)
  {
    match e
    case Miner(m) => MinerLeaves(s, m, b);
    case Chain(c) =>
    case Boot(x) => BootLeaves(cfg, s, x, b);
    case Payout(p) => PayoutLeaves(cfg, s, p, b);
    case Operator(o) =>
  }

  // ----- the two outcomes of the read -----

  /** The read found a submission: the consumer will not touch the block again. */
  predicate LeavesAlone(s: State, b: nat, listed: bool) {
    && b < |s.blocks|
    && (|| s.blocks[b].status == Orphaned || s.blocks[b].status == Paid
        || (s.blocks[b].status == Matured && listed))
    && (Listed(s, b) ==> listed)
    && (s.consumer.Checking? || s.consumer.Listening? || (s.consumer.Maturing? && b !in s.consumer.todo))
  }

  /** The read found none: the consumer restores the block and lets it mature if it is deep. */
  predicate Restores(cfg: Config, s: State, b: nat) {
    b < |s.blocks| &&
    var status := s.blocks[b].status;
    var deep := Deep(s.blocks[b].height, s.tip, cfg.confirmations);
    match s.consumer
    case Restoring(x, _, _) => x == b
    case Rematuring(x, _) => x == b && status != Orphaned
    case Checking(_) => status != Orphaned
    case Maturing(todo, _, _) => status != Orphaned && (status == Immature && deep ==> b in todo)
    case Listening => status != Orphaned && (status == Immature ==> !deep)
    case _ => false
  }

  lemma ConsumerLeavesAlone(cfg: Config, s: State, b: nat, listed: bool)
    requires LeavesAlone(s, b, listed)
    ensures LeavesAlone(ConsumerNext(cfg, s), b, listed)
  {
    if s.consumer.Maturing? && s.consumer.todo != [] {
      var todo := s.consumer.todo;
      assert todo[0] in todo;
      assert forall x | x in todo[1..] :: x in todo;
    }
  }

  lemma StepLeavesAlone(cfg: Config, s: State, e: Event, b: nat, listed: bool)
    requires LeavesAlone(s, b, listed) && !s.consumer.Listening? && Overlaps(s, e)
    ensures LeavesAlone(Step(cfg, s, e), b, listed)
  {
    if e == Chain(ConsumerStep) {
      ConsumerLeavesAlone(cfg, s, b, listed);
    } else {
      OthersLeave(cfg, s, e, b);
    }
  }

  lemma ConsumerRestores(cfg: Config, s: State, b: nat)
    requires Restores(cfg, s, b)
    ensures Restores(cfg, ConsumerNext(cfg, s), b)
  {
    if s.consumer.Maturing? && s.consumer.todo != [] {
      var todo := s.consumer.todo;
      assert todo == [todo[0]] + todo[1..];
    }
  }

  lemma StepRestores(cfg: Config, s: State, e: Event, b: nat)
    requires Restores(cfg, s, b) && !s.consumer.Listening? && Overlaps(s, e)
    ensures Restores(cfg, Step(cfg, s, e), b)
  {
    if e == Chain(ConsumerStep) {
      ConsumerRestores(cfg, s, b);
    } else {
      OthersLeave(cfg, s, e, b);
    }
  }

  lemma {:induction false} RunLeavesAlone(cfg: Config, s: State, events: seq<Event>, b: nat, listed: bool)
    requires LeavesAlone(s, b, listed) && InOneConnect(cfg, s, events)
    ensures LeavesAlone(Run(cfg, s, events), b, listed)
    decreases |events|
  {
    if events != [] {
      StepLeavesAlone(cfg, s, events[0], b, listed);
      RunLeavesAlone(cfg, Step(cfg, s, events[0]), events[1..], b, listed);
    }
  }

  lemma {:induction false} RunRestores(cfg: Config, s: State, events: seq<Event>, b: nat)
    requires Restores(cfg, s, b) && InOneConnect(cfg, s, events)
    ensures Restores(cfg, Run(cfg, s, events), b)
    decreases |events|
  {
    if events != [] {
      StepRestores(cfg, s, events[0], b);
      RunRestores(cfg, Step(cfg, s, events[0]), events[1..], b);
    }
  }

  /** The read decides: whatever is interleaved after it, the block is left alone or restored. */
  lemma ReadDecides(cfg: Config, s: State, events: seq<Event>, b: nat)
    requires Window(cfg, s, events, b)
    ensures
      var t := Run(cfg, s, events);
      if RoundHas(s.batches, s.blocks[b].roundId, Submitted)
      then LeavesAlone(t, b, Listed(s, b)) else Restores(cfg, t, b)
  {
    var s1 := Step(cfg, s, events[0]);
    if RoundHas(s.batches, s.blocks[b].roundId, Submitted) {
      RunLeavesAlone(cfg, s1, events[1..], b, Listed(s, b));
    } else {
      RunRestores(cfg, s1, events[1..], b);
    }
  }

  /**
   A batch submitted before the read keeps the consumer from un-orphaning the block through
   any interleaving until it listens again. The block stays orphaned unless the handler marks
   it paid, or a startup check that had listed it before the read matures it.
   */
  lemma SubmittedStaysOrphaned(cfg: Config, s: State, events: seq<Event>, b: nat)
    requires Window(cfg, s, events, b) && RoundHas(s.batches, s.blocks[b].roundId, Submitted)
    ensures
      var t := Run(cfg, s, events);
      && b < |t.blocks| && !UnOrphans(cfg, t, b)
      && (|| t.blocks[b].status == Orphaned || t.blocks[b].status == Paid
          || (t.blocks[b].status == Matured && Listed(s, b)))
  {
    ReadDecides(cfg, s, events, b);
    ConsumerLeavesAlone(cfg, Run(cfg, s, events), b, Listed(s, b));
  }

  /** Exactly when the startup check's next section matures the orphaned block. */
  lemma StartupMaturesIff(s: State, answer: bool, b: nat)
    requires b < |s.blocks| && s.blocks[b].status == Orphaned && (s.startup.CatchingUp? || s.startup.Settling?)
    ensures
      var s' := StartupNext(s, answer);
      |s'.blocks| == |s.blocks| && (s'.blocks[b].status == Matured <==> Listed(s, b) && s.startup.todo[0] == b)
  {
  }

  /** As long as the submitted batch is not confirmed, a block alone in its round and not listed is exactly orphaned. */
  lemma UnconfirmedStaysOrphaned(cfg: Config, s: State, events: seq<Event>, b: nat, j: nat)
    requires Reachable(cfg, s) && Window(cfg, s, events, b) && !Listed(s, b)
    requires j < |s.batches| && OwnedBy(s.blocks, s.batches[j], b) && s.batches[j].status == Submitted
    ensures
      var t := Run(cfg, s, events);
      && b < |t.blocks| && j < |t.batches|
      && (Alone(t.blocks, b) && t.batches[j].status == Submitted ==> t.blocks[b].status == Orphaned)
  {
    var t := Run(cfg, s, events);
    ReachableKeepsInvariant(cfg, s);
    RunKeepsInvariant(cfg, s, events);
    RunGrows(cfg, s, events);
    SubmittedStaysOrphaned(cfg, s, events, b);
    assert SameBatch(s.batches[j], t.batches[j]) && SameBlock(s.blocks[b], t.blocks[b]);
    if Alone(t.blocks, b) && t.blocks[b].status == Paid {
      assert TreatedAsPaid(t, b);
      var k: nat :| PaysFor(t, k, b);
      assert HashOf(t.batches[k]) == HashOf(t.batches[j]);
      assert k == j;
    }
  }

  // ----- the order of the read and the submission -----

  predicate Sent(s: State, j: nat) {
    j < |s.batches| && s.batches[j].status != Pending
  }

  /** The handler's section that records the submission of batch `j`. */
  predicate MarksBatch(s: State, e: Event, j: nat) {
    e == Payout(HandlerStep) && s.handler.Marking? && s.handler.batch == j
  }

  ghost predicate MarkedIn(cfg: Config, s: State, events: seq<Event>, j: nat)
    decreases |events|
  {
    events != [] && (MarksBatch(s, events[0], j) || MarkedIn(cfg, Step(cfg, s, events[0]), events[1..], j))
  }

  lemma HandlerMarks(cfg: Config, s: State, e: PayoutStep, j: nat)
    requires SubmitInvariant(s) && SubmitInvariant(PayoutNext(cfg, s, e))
    ensures Sent(PayoutNext(cfg, s, e), j) ==> Sent(s, j) || MarksBatch(s, Payout(e), j)
  {
    var s' := PayoutNext(cfg, s, e);
    if Sent(s', j) {
      assert j in s'.signed;
      assert e.Sign? || s'.signed == s.signed;
    }
  }

  lemma OthersMarkNothing(cfg: Config, s: State, e: Event, j: nat)
    requires SubmitInvariant(s) && SubmitInvariant(Step(cfg, s, e)) && !e.Payout?
    ensures Sent(Step(cfg, s, e), j) ==> Sent(s, j)
  {
    var s' := Step(cfg, s, e);
    if Sent(s', j) {
      assert s'.signed == s.signed && j in s.signed;
    }
  }

  lemma StepMarks(cfg: Config, s: State, e: Event, j: nat)
    requires CoreInvariant(s)
    ensures Sent(Step(cfg, s, e), j) <==> Sent(s, j) || MarksBatch(s, e, j)
    ensures MarksBatch(s, e, j) ==> !Sent(s, j)
  {
    StepKeepsCore(cfg, s, e);
    StepKeepsSubmissions(cfg, s, e);
    if e.Payout? {
      HandlerMarks(cfg, s, e.payout, j);
    } else {
      OthersMarkNothing(cfg, s, e, j);
    }
    if MarksBatch(s, e, j) {
      assert s.handler.batch in [s.handler.batch] + s.handler.todo;
    }
  }

  /** Over any run, a batch is past pending exactly when it was before or the run marks it; never both. */
  lemma {:induction false} SentIffMarked(cfg: Config, s: State, events: seq<Event>, j: nat)
    requires CoreInvariant(s)
    ensures Sent(Run(cfg, s, events), j) <==> Sent(s, j) || MarkedIn(cfg, s, events, j)
    ensures Sent(s, j) ==> !MarkedIn(cfg, s, events, j)
    decreases |events|
  {
    if events != [] {
      StepMarks(cfg, s, events[0], j);
      StepKeepsCore(cfg, s, events[0]);
      SentIffMarked(cfg, Step(cfg, s, events[0]), events[1..], j);
    }
  }

  lemma {:induction false} ConfirmedLasts(cfg: Config, s: State, events: seq<Event>, j: nat)
    requires CoreInvariant(s) && j < |s.batches| && s.batches[j].status == Confirmed
    ensures
      var t := Run(cfg, s, events);
      j < |t.batches| && t.batches[j].status == Confirmed
    decreases |events|
  {
    if events != [] {
      StepKeepsCore(cfg, s, events[0]);
      StepKeepsSubmissions(cfg, s, events[0]);
      assert Moves(s.batches[j].status, Step(cfg, s, events[0]).batches[j].status);
      ConfirmedLasts(cfg, Step(cfg, s, events[0]), events[1..], j);
    }
  }

  /** The round of a block alone in it holds a submitted batch exactly when the block's own batch is. */
  lemma RoundHasOwnBatch(s: State, t: State, b: nat, j: nat)
    requires CoreInvariant(s) && Alone(s.blocks, b) && CoreInvariant(t) && Grows(s, t)
    requires j < |t.batches| && OwnedBy(t.blocks, t.batches[j], b)
    ensures RoundHas(s.batches, s.blocks[b].roundId, Submitted) <==> j < |s.batches| && s.batches[j].status == Submitted
  {
    assert SameBlock(s.blocks[b], t.blocks[b]);
    if j < |s.batches| { assert SameBatch(s.batches[j], t.batches[j]); }
    if RoundHas(s.batches, s.blocks[b].roundId, Submitted) {
      var k :| 0 <= k < |s.batches| && s.batches[k].roundId == s.blocks[b].roundId && s.batches[k].status == Submitted;
      assert Owned(s.blocks, s.batches[k]);
      var i: nat :| OwnedBy(s.blocks, s.batches[k], i);
      assert i == b;
      assert SameBatch(s.batches[k], t.batches[k]);
      assert HashOf(t.batches[k]) == HashOf(t.batches[j]);
      assert k == j;
    }
  }

  /**
   The exact race. After the read of a block `b` alone in its round and any interleaving, let
   the block still be orphaned with its own batch submitted. The consumer's next section
   un-orphans it if and only if the batch was not submitted at the read, that is, if and only
   if the handler recorded the submission after the read.
   */
  lemma UnOrphansSubmittedIff(cfg: Config, s: State, events: seq<Event>, b: nat, j: nat)
    requires Reachable(cfg, s) && Window(cfg, s, events, b) && Alone(s.blocks, b)
    requires
      var t := Run(cfg, s, events);
      && b < |t.blocks| && t.blocks[b].status == Orphaned
      && j < |t.batches| && OwnedBy(t.blocks, t.batches[j], b) && t.batches[j].status == Submitted
    ensures
      var t := Run(cfg, s, events);
      && (UnOrphans(cfg, t, b) <==> MarkedIn(cfg, s, events, j))
      && (UnOrphans(cfg, t, b) <==> !(j < |s.batches| && s.batches[j].status == Submitted))
  {
    var t := Run(cfg, s, events);
    ReachableKeepsCore(cfg, s);
    RunKeepsCore(cfg, s, events);
    RunGrows(cfg, s, events);
    RoundHasOwnBatch(s, t, b, j);
    SentIffMarked(cfg, s, events, j);
    if j < |s.batches| && s.batches[j].status == Confirmed { ConfirmedLasts(cfg, s, events, j); }
    ReadDecides(cfg, s, events, b);
    if RoundHas(s.batches, s.blocks[b].roundId, Submitted) {
      SubmittedStaysOrphaned(cfg, s, events, b);
    }
  }

  // ----- reorganisations under interleaving -----

  /**
   When the consumer listens again: with a submission at the read the block is orphaned or
   paid, or matured by a startup check that had listed it; without one it is not orphaned,
   and immature only if it is not deep enough.
   */
  lemma InterleavedReconnect(cfg: Config, s: State, events: seq<Event>, b: nat)
    requires Window(cfg, s, events, b) && Run(cfg, s, events).consumer.Listening?
    ensures
      var t := Run(cfg, s, events);
      && b < |t.blocks|
      && if RoundHas(s.batches, s.blocks[b].roundId, Submitted) then
           || t.blocks[b].status == Orphaned || t.blocks[b].status == Paid
           || (t.blocks[b].status == Matured && Listed(s, b))
         else
           && t.blocks[b].status != Orphaned
           && (t.blocks[b].status == Immature ==> !Deep(t.blocks[b].height, t.tip, cfg.confirmations))
  {
    ReadDecides(cfg, s, events, b);
  }

  lemma {:induction false} WindowKeepsTip(cfg: Config, s: State, events: seq<Event>)
    requires InOneConnect(cfg, s, events)
    ensures Run(cfg, s, events).tip == s.tip
    decreases |events|
  {
    if events != [] {
      WindowKeepsTip(cfg, Step(cfg, s, events[0]), events[1..]);
    }
  }

  lemma DeepBlockReconnects(cfg: Config, s: State, events: seq<Event>, b: nat)
    requires TipsBelow(s) && WasDeep(cfg, s, b)
    requires Window(cfg, s, events, b) && Run(cfg, s, events).consumer.Listening?
    ensures
      var t := Run(cfg, s, events);
      && b < |t.blocks|
      && if RoundHas(s.batches, s.blocks[b].roundId, Submitted) then
           || t.blocks[b].status == Orphaned || t.blocks[b].status == Paid
           || (t.blocks[b].status == Matured && Listed(s, b))
         else t.blocks[b].status == Matured || t.blocks[b].status == Paid
  {
    InterleavedReconnect(cfg, s, events, b);
    WindowKeepsTip(cfg, s, events);
    RunGrows(cfg, s, events);
    assert SameBlock(s.blocks[b], Run(cfg, s, events).blocks[b]);
    DeepUnderTip(cfg, s, b);
  }

  /**
   After any run without restart or startup check, a block that was deep and is orphaned ends
   its reconnect matured or paid, under every interleaving, unless its payout was submitted
   at the read: then it ends orphaned or paid.
   */
  lemma DeepBlockSurvivesReorg(cfg: Config, before: seq<Event>, events: seq<Event>, b: nat)
    requires forall e | e in before :: Steady(e)
    requires
      var s := Run(cfg, START, before);
      Window(cfg, s, events, b) && WasDeep(cfg, s, b) && Run(cfg, s, events).consumer.Listening?
    ensures
      var s := Run(cfg, START, before);
      var t := Run(cfg, s, events);
      && b < |t.blocks|
      && if RoundHas(s.batches, s.blocks[b].roundId, Submitted)
         then t.blocks[b].status == Orphaned || t.blocks[b].status == Paid
         else t.blocks[b].status == Matured || t.blocks[b].status == Paid
  {
    SteadyRun(cfg, START, before);
    NeverListed(cfg, START, before);
    DeepBlockReconnects(cfg, Run(cfg, START, before), events, b);
  }

  lemma {:induction false} NeverListed(cfg: Config, s: State, events: seq<Event>)
    requires !s.startup.CatchingUp? && forall e | e in events :: Steady(e)
    ensures !Run(cfg, s, events).startup.CatchingUp?
    decreases |events|
  {
    if events != [] {
      assert Steady(events[0]);
      assert forall e | e in events[1..] :: e in events;
      NeverListed(cfg, Step(cfg, s, events[0]), events[1..]);
    }
  }
}
