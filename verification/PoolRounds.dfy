/**
 Rounds of the whole pool. Any number of sessions may be recording finds at once, on
 any templates; exactly which finds end up sharing a round is stated, and finds made
 one at a time on increasing templates are shown never to.
 */
module PoolRounds {
  import opened Text
  import opened Tables
  import opened Pool
  import opened PoolGrowth
  import Rounds

  // ----- every run -----

  predicate FinderValid(rounds: seq<Rounds.Round>, f: Finder) {
    && (f.Unmatched? || f.Resolved? ==> IsHash(f.find.hash))
    && (f.Resolved? || f.Inserted? ==> f.round < |rounds|)
  }

  /** At most one round is open, and everything points at existing rounds. */
  ghost predicate BaseInvariant(s: State) {
    && Rounds.AtMostOneOpen(s.rounds)
    && (forall b | 0 <= b < |s.blocks| :: s.blocks[b].roundId < |s.rounds|)
    && (forall id | id in s.finders :: FinderValid(s.rounds, s.finders[id]))
  }

  lemma BaseUntouched(s: State, s': State)
    requires BaseInvariant(s) && Rounds.AtMostOneOpen(s'.rounds) && |s.rounds| <= |s'.rounds|
    requires s'.finders == s.finders || s'.finders == map[]
    requires BlocksKept(s.blocks, s'.blocks) && |s'.blocks| == |s.blocks|
    ensures BaseInvariant(s')
  {
    assert forall b | 0 <= b < |s.blocks| :: SameBlock(s.blocks[b], s'.blocks[b]);
  }

  lemma MinerKeepsBase(s: State, e: MinerEvent)
    requires BaseInvariant(s)
    ensures BaseInvariant(MinerNext(s, e))
  {
  }

  lemma ChainKeepsBase(cfg: Config, s: State, e: ChainEvent)
    requires BaseInvariant(s)
    ensures BaseInvariant(ChainNext(cfg, s, e))
  {
    ChainGrows(cfg, s, e);
    BaseUntouched(s, ChainNext(cfg, s, e));
  }

  lemma BootKeepsBase(cfg: Config, s: State, e: StartupEvent)
    requires BaseInvariant(s)
    ensures BaseInvariant(BootNext(cfg, s, e))
  {
    BootGrows(cfg, s, e);
    BaseUntouched(s, BootNext(cfg, s, e));
  }

  lemma StepKeepsBase(cfg: Config, s: State, e: Event)
    requires BaseInvariant(s)
    ensures BaseInvariant(Step(cfg, s, e))
  {
    match e
    case Miner(m) => MinerKeepsBase(s, m);
    case Chain(c) => ChainKeepsBase(cfg, s, c);
    case Boot(b) => BootKeepsBase(cfg, s, b);
    case Payout(p) =>
      PayoutGrows(cfg, s, p);
      BaseUntouched(s, PayoutNext(cfg, s, p));
    case Operator(o) =>
      OperatorGrows(cfg, s, o);
      BaseUntouched(s, OperatorNext(cfg, s, o));
  }

  // ----- when two finds share a round -----

  ghost predicate OneBlockEach(blocks: seq<FoundBlock>) {
    forall b, c | 0 <= b < c < |blocks| :: blocks[b].roundId != blocks[c].roundId
  }

  /** No other block holds the round of block `i`. */
  ghost predicate Alone(blocks: seq<FoundBlock>, i: nat) {
    i < |blocks| && forall j | 0 <= j < |blocks| && j != i :: blocks[j].roundId != blocks[i].roundId
  }

  /** A block that is alone in its round has always been. */
  lemma AloneBefore(blocks: seq<FoundBlock>, blocks': seq<FoundBlock>, i: nat)
    requires BlocksKept(blocks, blocks') && i < |blocks| && Alone(blocks', i)
    ensures Alone(blocks, i)
  {
    assert forall j | 0 <= j < |blocks| :: SameBlock(blocks[j], blocks'[j]);
  }

  lemma AllAloneIff(blocks: seq<FoundBlock>)
    ensures OneBlockEach(blocks) <==> forall i: nat | i < |blocks| :: Alone(blocks, i)
  {
    if forall i: nat | i < |blocks| :: Alone(blocks, i) {
      forall b, c | 0 <= b < c < |blocks|
        ensures blocks[b].roundId != blocks[c].roundId
      {
        assert Alone(blocks, b);
      }
    }
  }

  ghost predicate HoldsBlock(blocks: seq<FoundBlock>, r: nat) {
    exists b :: 0 <= b < |blocks| && blocks[b].roundId == r
  }

  /** Session `id` is about to record its block in round `r`. */
  predicate Claims(s: State, id: nat, r: nat) {
    id in s.finders && s.finders[id].Resolved? && s.finders[id].round == r
  }

  /** The round holds a block, or a session is about to put one there. */
  ghost predicate Taken(s: State, r: nat) {
    HoldsBlock(s.blocks, r) || exists id :: Claims(s, id, r)
  }

  /** No two found blocks, recorded or about to be, share a round. */
  ghost predicate FreshInvariant(s: State) {
    && OneBlockEach(s.blocks)
    && (forall id, r | Claims(s, id, r) :: !HoldsBlock(s.blocks, r))
    && forall id, id', r | Claims(s, id, r) && Claims(s, id', r) :: id == id'
  }

  /** The existing round, if any, that the event resolves a find to. */
  function ResolvesTo(s: State, e: Event): Option<nat> {
    match e
    case Miner(FindBlockOn(session, t, find)) =>
      if session !in s.finders && IsHash(find.hash) then Rounds.Match(s.rounds, t) else None
    case Miner(FinderStep(session)) =>
      if session in s.finders && s.finders[session].Unmatched? then Rounds.FindOpen(s.rounds) else None
    case _ => None
  }

  /** The event does not resolve a find to a taken round. */
  ghost predicate Separate(s: State, e: Event) {
    ResolvesTo(s, e).Some? ==> !Taken(s, ResolvesTo(s, e).value)
  }

  /** Which claims a step leaves: those of before, except for one session whose finder is now `f`. */
  ghost predicate OneFinderChanged(s: State, s': State, id: nat, f: Finder) {
    s'.finders == s.finders[id := f]
  }

  lemma ClaimsAfter(s: State, s': State, id: nat, f: Finder)
    requires OneFinderChanged(s, s', id, f)
    ensures forall x, r | x != id :: Claims(s', x, r) <==> Claims(s, x, r)
    ensures forall r :: Claims(s', id, r) <==> f.Resolved? && f.round == r
  {
  }

  lemma ResolvingIff(s: State, s': State, id: nat, f: Finder)
    requires FreshInvariant(s) && OneFinderChanged(s, s', id, f) && s'.blocks == s.blocks
    requires f.Resolved? && (id !in s.finders || s.finders[id].Unmatched?)
    ensures FreshInvariant(s') <==> !Taken(s, f.round)
  {
    ClaimsAfter(s, s', id, f);
    assert Claims(s', id, f.round);
  }

  lemma NewRoundIsNotTaken(s: State)
    requires BaseInvariant(s)
    ensures !Taken(s, |s.rounds|)
  {
  }

  lemma RecordingKeepsFresh(s: State, id: nat)
    requires FreshInvariant(s) && id in s.finders && s.finders[id].Resolved?
    ensures FreshInvariant(FinderNext(s, id))
  {
    var f := s.finders[id];
    var s' := FinderNext(s, id);
    ClaimsAfter(s, s', id, Inserted(f.t, f.round));
    assert Claims(s, id, f.round);
    forall x, r | Claims(s', x, r)
      ensures !HoldsBlock(s'.blocks, r)
    {
      assert Claims(s, x, r);
    }
  }

  lemma MinerFreshIff(s: State, e: MinerEvent)
    requires BaseInvariant(s) && FreshInvariant(s)
    ensures FreshInvariant(MinerNext(s, e)) <==> Separate(s, Miner(e))
  {
    var s' := MinerNext(s, e);
    match e
    case OpenRound(t) => FreshUntouched(s, s');
    case FindBlockOn(id, t, find) =>
      if id !in s.finders && IsHash(find.hash) {
        var f := Queried(s.rounds, t, find);
        ClaimsAfter(s, s', id, f);
        if f.Resolved? { ResolvingIff(s, s', id, f); }
      }
    case FinderStep(id) =>
      if id in s.finders {
        match s.finders[id]
        case Unmatched(t, find) =>
          NewRoundIsNotTaken(s);
          ResolvingIff(s, s', id, s'.finders[id]);
        case Resolved(_, _, _) => RecordingKeepsFresh(s, id);
        case Inserted(_, _) => assert forall x, r | Claims(s', x, r) :: Claims(s, x, r);
      }
  }

  lemma FreshUntouched(s: State, s': State)
    requires FreshInvariant(s)
    requires s'.finders == s.finders || s'.finders == map[]
    requires BlocksKept(s.blocks, s'.blocks) && |s'.blocks| == |s.blocks|
    ensures FreshInvariant(s')
  {
    assert forall b | 0 <= b < |s.blocks| :: SameBlock(s.blocks[b], s'.blocks[b]);
    assert forall x, r | Claims(s', x, r) :: Claims(s, x, r);
    forall r | HoldsBlock(s'.blocks, r)
      ensures HoldsBlock(s.blocks, r)
    {
      var b :| 0 <= b < |s'.blocks| && s'.blocks[b].roundId == r;
      assert s.blocks[b].roundId == r;
    }
  }

  /** Rounds stay unshared exactly when no find resolves to a round that is taken. */
  lemma FreshIff(cfg: Config, s: State, e: Event)
    requires BaseInvariant(s) && FreshInvariant(s)
    ensures FreshInvariant(Step(cfg, s, e)) <==> Separate(s, e)
  {
    match e
    case Miner(m) => MinerFreshIff(s, m);
    case Chain(c) =>
      ChainGrows(cfg, s, c);
      FreshUntouched(s, ChainNext(cfg, s, c));
    case Boot(b) =>
      BootGrows(cfg, s, b);
      FreshUntouched(s, BootNext(cfg, s, b));
    case Payout(p) =>
      PayoutGrows(cfg, s, p);
      FreshUntouched(s, PayoutNext(cfg, s, p));
    case Operator(o) =>
      OperatorGrows(cfg, s, o);
      FreshUntouched(s, OperatorNext(cfg, s, o));
  }

  // ----- when two found blocks share a round -----

  /** The event records a new block in a round that holds one. */
  ghost predicate RecordsOnTop(s: State, e: Event) {
    && e.Miner? && e.miner.FinderStep? && e.miner.session in s.finders
    && var f := s.finders[e.miner.session];
       f.Resolved? && CanRecord(s.blocks, f.find.hash, f.find.coinbaseValue) && HoldsBlock(s.blocks, f.round)
  }

  lemma SameRowsOneBlockEach(blocks: seq<FoundBlock>, blocks': seq<FoundBlock>)
    requires BlocksKept(blocks, blocks') && |blocks'| == |blocks|
    ensures OneBlockEach(blocks') <==> OneBlockEach(blocks)
  {
    assert forall j | 0 <= j < |blocks| :: SameBlock(blocks[j], blocks'[j]);
  }

  lemma AppendOneBlockEach(blocks: seq<FoundBlock>, block: FoundBlock)
    requires OneBlockEach(blocks)
    ensures OneBlockEach(blocks + [block]) <==> !HoldsBlock(blocks, block.roundId)
  {
    var blocks' := blocks + [block];
    if b :| 0 <= b < |blocks| && blocks[b].roundId == block.roundId {
      assert blocks'[b].roundId == blocks'[|blocks|].roundId;
    }
  }

  lemma MinerSharesIff(s: State, e: MinerEvent)
    requires OneBlockEach(s.blocks)
    ensures OneBlockEach(MinerNext(s, e).blocks) <==> !RecordsOnTop(s, Miner(e))
  {
    if e.FinderStep? && e.session in s.finders && s.finders[e.session].Resolved? {
      var f := s.finders[e.session];
      var block := FoundBlock(f.round, f.find.hash, f.find.height, Immature, f.find.coinbaseValue);
      AppendOneBlockEach(s.blocks, block);
    }
  }

  /** Found blocks stay in different rounds exactly when none is recorded in a round that holds one. */
  lemma SharesIff(cfg: Config, s: State, e: Event)
    requires OneBlockEach(s.blocks)
    ensures OneBlockEach(Step(cfg, s, e).blocks) <==> !RecordsOnTop(s, e)
  {
    match e
    case Miner(m) => MinerSharesIff(s, m);
    case Chain(c) =>
      ChainGrows(cfg, s, c);
      SameRowsOneBlockEach(s.blocks, ChainNext(cfg, s, c).blocks);
    case Boot(b) =>
      BootGrows(cfg, s, b);
      SameRowsOneBlockEach(s.blocks, BootNext(cfg, s, b).blocks);
    case Payout(p) =>
      PayoutGrows(cfg, s, p);
      SameRowsOneBlockEach(s.blocks, PayoutNext(cfg, s, p).blocks);
    case Operator(o) =>
      OperatorGrows(cfg, s, o);
      SameRowsOneBlockEach(s.blocks, OperatorNext(cfg, s, o).blocks);
  }

  // ----- finds one at a time on increasing templates -----

  /**
   A find starts when none is in progress, on a newer template, and no restart comes between
   recording a block and closing its round.
   */
  predicate Disciplined(s: State, e: Event) {
    && (e.Miner? && e.miner.FindBlockOn? ==> s.finders == map[] && e.miner.t > s.lastFound)
    && (e.Boot? && e.boot.Restart? ==> forall id | id in s.finders :: !s.finders[id].Inserted?)
  }

  ghost predicate ClosedBefore(s: State) {
    forall i | 0 <= i < |s.rounds| && s.rounds[i].status != Rounds.Open ::
      && s.rounds[i].end.Some? && s.rounds[i].end.value <= s.lastFound
      && (s.finders != map[] ==> s.rounds[i].end.value < s.lastFound)
  }

  predicate Closing(s: State, id: nat, r: nat) {
    id in s.finders && s.finders[id].Inserted? && s.finders[id].round == r
  }

  ghost predicate DisciplineInvariant(s: State) {
    && ClosedBefore(s)
    && (forall id | id in s.finders :: s.finders[id].t == s.lastFound > 0)
    && (forall id, id' | id in s.finders && id' in s.finders :: id == id')
    && forall b | 0 <= b < |s.blocks| && s.blocks[b].roundId < |s.rounds|
         && s.rounds[s.blocks[b].roundId].status == Rounds.Open ::
         exists id :: Closing(s, id, s.blocks[b].roundId)
  }

  lemma OpenRoundIsFree(s: State, r: nat)
    requires DisciplineInvariant(s) && r < |s.rounds| && s.rounds[r].status == Rounds.Open
    requires forall id | id in s.finders :: s.finders[id].Unmatched?
    ensures !Taken(s, r)
  {
  }

  lemma DisciplinedIsSeparate(s: State, e: Event)
    requires DisciplineInvariant(s) && Disciplined(s, e)
    ensures Separate(s, e)
  {
    var to := ResolvesTo(s, e);
    if to.Some? {
      assert s.rounds[to.value].status == Rounds.Open;
      OpenRoundIsFree(s, to.value);
    }
  }

  lemma DisciplineUntouched(s: State, s': State)
    requires DisciplineInvariant(s)
    requires s'.rounds == s.rounds && s'.finders == s.finders && s'.lastFound == s.lastFound
    requires BlocksKept(s.blocks, s'.blocks) && |s'.blocks| == |s.blocks|
    ensures DisciplineInvariant(s')
  {
    assert forall b | 0 <= b < |s.blocks| :: SameBlock(s.blocks[b], s'.blocks[b]);
    assert forall id, r :: Closing(s', id, r) <==> Closing(s, id, r);
  }

  lemma OrphanClosingKeepsDiscipline(s: State, s': State, b: nat)
    requires DisciplineInvariant(s)
    requires s'.rounds == OrphanClosed(s, b)
    requires s'.finders == s.finders && s'.lastFound == s.lastFound && s'.blocks == s.blocks
    ensures DisciplineInvariant(s')
  {
    assert forall id, r :: Closing(s', id, r) <==> Closing(s, id, r);
    assert s.finders != map[] ==> s.lastFound > 0 by {
      if s.finders != map[] {
        var id :| id in s.finders;
        assert s.finders[id].t == s.lastFound > 0;
      }
    }
  }

  lemma OpeningKeepsDiscipline(s: State, t: nat)
    requires BaseInvariant(s) && DisciplineInvariant(s)
    ensures DisciplineInvariant(s.(rounds := Rounds.GetOrCreate(s.rounds, t).0))
  {
    var s' := s.(rounds := Rounds.GetOrCreate(s.rounds, t).0);
    assert forall id, r :: Closing(s', id, r) <==> Closing(s, id, r);
  }

  lemma FindingKeepsDiscipline(s: State, session: nat, t: nat, find: Find)
    requires DisciplineInvariant(s) && s.finders == map[] && t > s.lastFound
    ensures DisciplineInvariant(Finding(s, session, t, find))
  {
    assert forall id, r :: !Closing(s, id, r);
  }

  lemma FinderKeepsDiscipline(s: State, session: nat)
    requires BaseInvariant(s) && DisciplineInvariant(s) && session in s.finders
    ensures DisciplineInvariant(FinderNext(s, session))
  {
    var s' := FinderNext(s, session);
    match s.finders[session]
    case Unmatched(t, find) =>
      assert forall id, r :: !Closing(s, id, r);
    case Resolved(t, find, r) =>
      assert forall id, x :: !Closing(s, id, x);
      assert Closing(s', session, r);
    case Inserted(t, r) =>
      assert s'.finders == map[];
      assert forall id, x | Closing(s, id, x) :: x == r;
  }

  lemma MinerKeepsDiscipline(s: State, e: MinerEvent)
    requires BaseInvariant(s) && DisciplineInvariant(s) && Disciplined(s, Miner(e))
    ensures DisciplineInvariant(MinerNext(s, e))
  {
    match e
    case OpenRound(t) => OpeningKeepsDiscipline(s, t);
    case FindBlockOn(session, t, find) =>
      if IsHash(find.hash) { FindingKeepsDiscipline(s, session, t, find); }
    case FinderStep(session) =>
      if session in s.finders { FinderKeepsDiscipline(s, session); }
  }

  lemma ChainKeepsDiscipline(cfg: Config, s: State, e: ChainEvent)
    requires DisciplineInvariant(s)
    ensures DisciplineInvariant(ChainNext(cfg, s, e))
  {
    var s' := ChainNext(cfg, s, e);
    ChainGrows(cfg, s, e);
    if e.ConsumerStep? && s.consumer.ClosingRound? {
      OrphanClosingKeepsDiscipline(s, s', s.consumer.block);
    } else {
      DisciplineUntouched(s, s');
    }
  }

  lemma BootKeepsDiscipline(cfg: Config, s: State, e: StartupEvent)
    requires DisciplineInvariant(s) && Disciplined(s, Boot(e))
    ensures DisciplineInvariant(BootNext(cfg, s, e))
  {
    var s' := BootNext(cfg, s, e);
    BootGrows(cfg, s, e);
    if e.StartupStep? && s.startup.ClosingOrphan? {
      OrphanClosingKeepsDiscipline(s, s', s.startup.block);
    } else if e.Restart? {
      assert forall id, r :: !Closing(s, id, r);
    } else {
      DisciplineUntouched(s, s');
    }
  }

  lemma StepKeepsDiscipline(cfg: Config, s: State, e: Event)
    requires BaseInvariant(s) && DisciplineInvariant(s) && Disciplined(s, e)
    ensures DisciplineInvariant(Step(cfg, s, e))
  {
    match e
    case Miner(m) => MinerKeepsDiscipline(s, m);
    case Chain(c) => ChainKeepsDiscipline(cfg, s, c);
    case Boot(b) => BootKeepsDiscipline(cfg, s, b);
    case Payout(p) =>
      PayoutGrows(cfg, s, p);
      DisciplineUntouched(s, PayoutNext(cfg, s, p));
    case Operator(o) =>
      OperatorGrows(cfg, s, o);
      DisciplineUntouched(s, OperatorNext(cfg, s, o));
  }
}
