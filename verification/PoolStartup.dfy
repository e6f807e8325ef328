/**
 The startup reconciliations of the state machine, undisturbed: what they leave of the
 tables, for any answers of the node.
 */
module PoolStartup {
  import opened Text
  import opened Tables
  import opened Pool
  import opened Reorg
  import Rounds

  /**
   What the node answers the section at hand. `hit` says of a block that it is gone, of a
   batch that its transaction is on chain.
   */
  function AnswerAt(s: State, hit: nat -> bool): bool {
    match s.startup
    case Reconciling(todo) => todo != [] && hit(todo[0])
    case Settling(c) => c.Confirming? && c.todo != [] && hit(c.todo[0])
    case _ => true
  }

  function ConfirmerSections(c: Confirmer): nat {
    3 * |c.todo| + if c.LookingUp? then 2 else if c.MarkingPaid? then 1 else 0
  }

  function StartupSections(startup: Startup): nat {
    match startup
    case Started => 0
    case Reconciling(todo) => 1 + 2 * |todo|
    case ClosingOrphan(_, todo) => 2 + 2 * |todo|
    case Settling(c) => 1 + ConfirmerSections(c)
    case CatchingUp(todo, _) => 1 + |todo|
  }

  /** Startup steps until there are none left. */
  function StartupEnd(s: State, hit: nat -> bool): State
    decreases StartupSections(s.startup)
  {
    if s.startup.Started? then s else StartupEnd(StartupNext(s, AnswerAt(s, hit)), hit)
  }

  // ----- blocks that are gone -----

  /** Some listed block of the round is gone. */
  ghost predicate Loses(blocks: seq<FoundBlock>, ids: seq<nat>, hit: nat -> bool, roundId: nat) {
    exists i :: i in ids && hit(i) && i < |blocks| && blocks[i].roundId == roundId
  }

  ghost predicate OrphansHit(before: seq<FoundBlock>, after: seq<FoundBlock>, ids: seq<nat>, hit: nat -> bool) {
    && |after| == |before|
    && forall i: nat | i < |before| ::
         after[i] == if i in ids && hit(i) then before[i].(status := Orphaned) else before[i]
  }

  ghost predicate ClosesHit(
    blocks: seq<FoundBlock>, before: seq<Rounds.Round>, after: seq<Rounds.Round>, ids: seq<nat>, hit: nat -> bool)
  {
    && |after| == |before|
    && forall r: nat | r < |before| ::
         after[r] == if Loses(blocks, ids, hit, r)
                     then before[r].(end := Some(0), status := Rounds.OrphanedRound) else before[r]
  }

  lemma OneMoreLost(blocks: seq<FoundBlock>, blocks': seq<FoundBlock>, ids: seq<nat>, hit: nat -> bool, r: nat)
    requires ids != [] && ids[0] < |blocks| && |blocks'| == |blocks|
    requires forall i | 0 <= i < |blocks| :: blocks'[i].roundId == blocks[i].roundId
    ensures Loses(blocks, ids, hit, r) <==>
      Loses(blocks', ids[1..], hit, r) || (hit(ids[0]) && blocks[ids[0]].roundId == r)
  {
    assert forall x :: x in ids <==> x == ids[0] || x in ids[1..];
  }

  lemma HitOrphans(s: State, ids: seq<nat>)
    requires s.startup == Reconciling(ids) && ids != [] && ids[0] < |s.blocks|
    ensures StartupNext(StartupNext(s, true), true) == s.(
      blocks := WithStatus(s.blocks, ids[0], Orphaned),
      rounds := Rounds.Close(s.rounds, s.blocks[ids[0]].roundId, 0, Rounds.OrphanedRound),
      startup := Reconciling(ids[1..]))
  {
  }

  /** The block reconciliation orphans exactly the listed blocks that are gone, and closes exactly their rounds. */
  lemma {:induction false} StartupReconciles(s: State, ids: seq<nat>, hit: nat -> bool)
    requires s.startup == Reconciling(ids) && forall x | x in ids :: x < |s.blocks|
    ensures
      var s' := StartupEnd(s, hit);
      && OrphansHit(s.blocks, s'.blocks, ids, hit) && ClosesHit(s.blocks, s.rounds, s'.rounds, ids, hit)
      && s' == s.(blocks := s'.blocks, rounds := s'.rounds, startup := Started)
    decreases |ids|
  {
    if ids == [] {
      assert StartupEnd(s, hit) == StartupNext(s, false);
    } else {
      assert ids[0] in ids && forall x :: x in ids <==> x == ids[0] || x in ids[1..];
      var s1 := StartupNext(s, hit(ids[0]));
      var s2 := if hit(ids[0]) then StartupNext(s1, true) else s1;
      if hit(ids[0]) { HitOrphans(s, ids); }
      assert StartupEnd(s, hit) == StartupEnd(s2, hit);
      StartupReconciles(s2, ids[1..], hit);
      forall r: nat
        ensures Loses(s.blocks, ids, hit, r) <==>
          Loses(s2.blocks, ids[1..], hit, r) || (hit(ids[0]) && s.blocks[ids[0]].roundId == r)
      {
        OneMoreLost(s.blocks, s2.blocks, ids, hit, r);
      }
    }
  }

  // ----- batches that are on chain -----

  /** Block `i` is the latest of the round of a listed batch that is on chain. */
  ghost predicate PaysHit(blocks: seq<FoundBlock>, batches: seq<Batch>, ids: seq<nat>, hit: nat -> bool, i: nat) {
    exists j :: j in ids && hit(j) && j < |batches| && LatestInRound(blocks, batches[j].roundId) == Some(i)
  }

  ghost predicate ConfirmsHit(before: seq<Batch>, after: seq<Batch>, ids: seq<nat>, hit: nat -> bool) {
    && |after| == |before|
    && forall j: nat | j < |before| ::
         after[j] == if j in ids && hit(j) then before[j].(status := Confirmed) else before[j]
  }

  ghost predicate MarksHit(
    before: seq<FoundBlock>, after: seq<FoundBlock>, batches: seq<Batch>, ids: seq<nat>, hit: nat -> bool)
  {
    && |after| == |before|
    && forall i: nat | i < |before| ::
         after[i] == if PaysHit(before, batches, ids, hit, i) then before[i].(status := Paid) else before[i]
  }

  /** The tables once batch `b` is confirmed and the latest block of its round paid. */
  function Confirmation(s: State, b: nat): State
    requires b < |s.batches|
  {
    var fb := LatestInRound(s.blocks, s.batches[b].roundId);
    s.(batches := WithBatchStatus(s.batches, b, Confirmed),
       blocks := if fb.Some? then WithStatus(s.blocks, fb.value, Paid) else s.blocks)
  }

  lemma HitConfirms(s: State, ids: seq<nat>, hit: nat -> bool)
    requires s.startup == Settling(Confirming(ids)) && ids != [] && hit(ids[0]) && ids[0] < |s.batches|
    ensures StartupEnd(s, hit)
      == StartupEnd(Confirmation(s, ids[0]).(startup := Settling(Confirming(ids[1..]))), hit)
  {
    var s1 := StartupNext(s, true);
    assert s1 == s.(batches := WithBatchStatus(s.batches, ids[0], Confirmed),
                    startup := Settling(LookingUp(ids[0], ids[1..])));
    assert StartupEnd(s, hit) == StartupEnd(s1, hit);
    HitPays(s1, ids[0], ids[1..], hit);
  }

  lemma HitPays(s: State, b: nat, todo: seq<nat>, hit: nat -> bool)
    requires s.startup == Settling(LookingUp(b, todo)) && b < |s.batches|
    ensures
      var fb := LatestInRound(s.blocks, s.batches[b].roundId);
      StartupEnd(s, hit) == StartupEnd(
        s.(blocks := if fb.Some? then WithStatus(s.blocks, fb.value, Paid) else s.blocks,
           startup := Settling(Confirming(todo))), hit)
  {
    var s1 := StartupNext(s, AnswerAt(s, hit));
    assert StartupEnd(s, hit) == StartupEnd(s1, hit);
    if s1.startup.confirmer.MarkingPaid? {
      assert StartupEnd(s1, hit) == StartupEnd(StartupNext(s1, AnswerAt(s1, hit)), hit);
    }
  }

  lemma OneMorePaid(
    blocks: seq<FoundBlock>, blocks': seq<FoundBlock>, batches: seq<Batch>, batches': seq<Batch>,
    ids: seq<nat>, hit: nat -> bool, i: nat)
    requires ids != [] && ids[0] < |batches| && |blocks'| == |blocks| && |batches'| == |batches|
    requires forall k | 0 <= k < |blocks| :: blocks'[k].roundId == blocks[k].roundId
    requires forall k | 0 <= k < |batches| :: batches'[k].roundId == batches[k].roundId
    ensures PaysHit(blocks, batches, ids, hit, i) <==>
      || PaysHit(blocks', batches', ids[1..], hit, i)
      || (hit(ids[0]) && LatestInRound(blocks, batches[ids[0]].roundId) == Some(i))
  {
    assert forall x :: x in ids <==> x == ids[0] || x in ids[1..];
    forall j: nat | j < |batches|
      ensures LatestInRound(blocks', batches'[j].roundId) == LatestInRound(blocks, batches[j].roundId)
    {
      LatestKept(blocks, blocks', batches[j].roundId);
    }
  }

  /**
   The payout reconciliation confirms exactly the listed batches the node knows on chain and
   marks paid exactly the latest blocks of their rounds.
   */
  lemma {:induction false} StartupSettles(s: State, ids: seq<nat>, hit: nat -> bool)
    requires s.startup == Settling(Confirming(ids)) && forall x | x in ids :: x < |s.batches|
    ensures
      var s' := StartupEnd(s, hit);
      && ConfirmsHit(s.batches, s'.batches, ids, hit) && MarksHit(s.blocks, s'.blocks, s.batches, ids, hit)
      && s' == s.(blocks := s'.blocks, batches := s'.batches, startup := Started)
    decreases |ids|
  {
    if ids == [] {
      assert StartupEnd(s, hit) == StartupNext(s, false);
    } else {
      assert ids[0] in ids && forall x | x in ids[1..] :: x in ids;
      var s1 := (if hit(ids[0]) then Confirmation(s, ids[0]) else s).(startup := Settling(Confirming(ids[1..])));
      if hit(ids[0]) { HitConfirms(s, ids, hit); }
      assert StartupEnd(s, hit) == StartupEnd(s1, hit);
      StartupSettles(s1, ids[1..], hit);
      var s' := StartupEnd(s1, hit);
      ConfirmsOneMore(s.batches, s1.batches, s'.batches, ids, hit);
      MarksOneMore(s, s1, s'.blocks, ids, hit);
    }
  }

  lemma ConfirmsOneMore(before: seq<Batch>, mid: seq<Batch>, after: seq<Batch>, ids: seq<nat>, hit: nat -> bool)
    requires ids != [] && mid == (if hit(ids[0]) then WithBatchStatus(before, ids[0], Confirmed) else before)
    requires ConfirmsHit(mid, after, ids[1..], hit)
    ensures ConfirmsHit(before, after, ids, hit)
  {
    assert forall x :: x in ids <==> x == ids[0] || x in ids[1..];
  }

  lemma MarksOneMore(s: State, s1: State, after: seq<FoundBlock>, ids: seq<nat>, hit: nat -> bool)
    requires ids != [] && ids[0] < |s.batches|
    requires s1 == (if hit(ids[0]) then Confirmation(s, ids[0]) else s).(startup := s1.startup)
    requires MarksHit(s1.blocks, after, s1.batches, ids[1..], hit)
    ensures MarksHit(s.blocks, after, s.batches, ids, hit)
  {
    forall i: nat
      ensures PaysHit(s.blocks, s.batches, ids, hit, i) <==>
        || PaysHit(s1.blocks, s1.batches, ids[1..], hit, i)
        || (hit(ids[0]) && LatestInRound(s.blocks, s.batches[ids[0]].roundId) == Some(i))
    {
      OneMorePaid(s.blocks, s1.blocks, s.batches, s1.batches, ids, hit, i);
    }
  }

  // ----- blocks that matured while the pool was down -----

  lemma {:induction false} CatchUp(s: State, todo: seq<nat>, done: seq<nat>, hit: nat -> bool)
    requires s.startup == CatchingUp(todo, done)
    ensures StartupEnd(s, hit) == s.(
      blocks := MaturedAt(s.blocks, todo), queue := s.queue + MaturedEvents(s.blocks, done + todo), startup := Started)
    decreases |todo|
  {
    if todo == [] {
      assert done + todo == done && MaturedAt(s.blocks, []) == s.blocks;
      var end := s.(queue := s.queue + MaturedEvents(s.blocks, done), startup := Started);
      assert StartupEnd(s, hit) == StartupEnd(end, hit) == end;
    } else {
      var blocks := WithStatus(s.blocks, todo[0], Matured);
      var next := s.(blocks := blocks, startup := CatchingUp(todo[1..], done + [todo[0]]));
      assert StartupEnd(s, hit) == StartupEnd(next, hit);
      CatchUp(next, todo[1..], done + [todo[0]], hit);
      MaturesFirst(s.blocks, blocks, todo, done);
    }
  }

  lemma MaturesFirst(blocks: seq<FoundBlock>, blocks': seq<FoundBlock>, todo: seq<nat>, done: seq<nat>)
    requires todo != [] && blocks' == WithStatus(blocks, todo[0], Matured)
    ensures MaturedAt(blocks', todo[1..]) == MaturedAt(blocks, todo)
    ensures MaturedEvents(blocks', done + [todo[0]] + todo[1..]) == MaturedEvents(blocks, done + todo)
  {
    assert done + todo == done + [todo[0]] + todo[1..];
    SameEvents(blocks, blocks', done + todo);
    MaturedOneByOne(blocks, todo);
  }

  /** The startup check matures exactly the blocks deep enough under the node's tip and queues their events. */
  lemma StartupMatures(cfg: Config, s: State, nodeTip: int, hit: nat -> bool)
    requires s.startup.Started?
    ensures
      var s' := StartupEnd(BootNext(cfg, s, CheckAtStartup(nodeTip)), hit);
      var due := DueIds(s.blocks, nodeTip, cfg.confirmations);
      && s'.blocks == Checked(s.blocks, nodeTip, cfg.confirmations)
      && s' == s.(blocks := s'.blocks, queue := s.queue + MaturedEvents(s.blocks, due), tips := s.tips + {nodeTip})
  {
    var due := DueIds(s.blocks, nodeTip, cfg.confirmations);
    CatchUp(BootNext(cfg, s, CheckAtStartup(nodeTip)), due, [], hit);
    assert [] + due == due;
    DueAreChecked(s.blocks, nodeTip, cfg.confirmations);
  }
}
