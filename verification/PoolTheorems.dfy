/** The lifecycle theorems, for every run of the pool from an empty database. */
module PoolTheorems {
  import opened PayoutPlan
  import opened Tables
  import opened Pool
  import opened PoolGrowth
  import opened PoolRounds
  import opened PoolPayouts
  import opened PoolConfirmed
  import opened PoolPaid
  import opened PoolDepth
  import opened PoolMoney
  import Rounds

  // ----- any run -----

  ghost predicate CoreInvariant(s: State) {
    BaseInvariant(s) && KeyInvariant(s.blocks, s.batches) && SubmitInvariant(s)
  }

  lemma StepKeepsCore(cfg: Config, s: State, e: Event)
    requires CoreInvariant(s)
    ensures CoreInvariant(Step(cfg, s, e))
  {
    StepKeepsBase(cfg, s, e);
    StepKeepsKeys(cfg, s, e);
    StepKeepsSubmissions(cfg, s, e);
  }

  lemma {:induction false} RunKeepsCore(cfg: Config, s: State, events: seq<Event>)
    requires CoreInvariant(s)
    ensures CoreInvariant(Run(cfg, s, events))
    decreases |events|
  {
    if events != [] {
      StepKeepsCore(cfg, s, events[0]);
      RunKeepsCore(cfg, Step(cfg, s, events[0]), events[1..]);
    }
  }

  /** A state some run reaches. */
  ghost predicate Reachable(cfg: Config, s: State) {
    exists events :: s == Run(cfg, START, events)
  }

  lemma ReachableKeepsCore(cfg: Config, s: State)
    requires Reachable(cfg, s)
    ensures CoreInvariant(s)
  {
    var events :| s == Run(cfg, START, events);
    RunKeepsCore(cfg, START, events);
  }

  /**
   Whatever the interleaving, and on whatever templates blocks are found: every batch
   belongs to a recorded block, no block has two batches, no batch was submitted twice, and
   what was submitted is not pending unless it is being marked at this moment.
   */
  lemma SinglePayout(cfg: Config, s: State)
    requires Reachable(cfg, s)
    ensures forall j | 0 <= j < |s.batches| :: Owned(s.blocks, s.batches[j])
    ensures forall i: nat, j, k | 0 <= j < k < |s.batches| ::
      !(OwnedBy(s.blocks, s.batches[j], i) && OwnedBy(s.blocks, s.batches[k], i))
    ensures forall i, j | 0 <= i < j < |s.signed| :: s.signed[i] != s.signed[j]
    ensures forall b | 0 <= b < |s.batches| && s.batches[b].status != Pending ::
      b in s.signed && s.batches[b].txid.Some?
    ensures forall b | b in s.signed :: b < |s.batches| && (s.batches[b].status != Pending || BeingMarked(s.handler, b))
  {
    ReachableKeepsCore(cfg, s);
  }

  /** In every step of every run a batch keeps its block, round and money and moves forward one status at most. */
  lemma BatchesOnlyAdvance(cfg: Config, s: State, e: Event)
    requires Reachable(cfg, s)
    ensures BatchesKept(s.batches, Step(cfg, s, e).batches)
    ensures Advances(s.batches, Step(cfg, s, e).batches)
  {
    ReachableKeepsCore(cfg, s);
    StepGrows(cfg, s, e);
    StepKeepsSubmissions(cfg, s, e);
  }

  /** No run ever has two open rounds. */
  lemma OneOpenRound(cfg: Config, s: State)
    requires Reachable(cfg, s)
    ensures Rounds.AtMostOneOpen(s.rounds)
  {
    ReachableKeepsCore(cfg, s);
  }

  // ----- runs in which no find resolves to a taken round -----

  ghost predicate SeparateRun(cfg: Config, s: State, events: seq<Event>)
    decreases |events|
  {
    events == [] || (Separate(s, events[0]) && SeparateRun(cfg, Step(cfg, s, events[0]), events[1..]))
  }

  /** Rounds are unshared in every state of the run. */
  ghost predicate UnsharedThroughout(cfg: Config, s: State, events: seq<Event>)
    decreases |events|
  {
    FreshInvariant(s) && (events == [] || UnsharedThroughout(cfg, Step(cfg, s, events[0]), events[1..]))
  }

  ghost predicate DisciplinedRun(cfg: Config, s: State, events: seq<Event>)
    decreases |events|
  {
    events == [] || (Disciplined(s, events[0]) && DisciplinedRun(cfg, Step(cfg, s, events[0]), events[1..]))
  }

  lemma {:induction false} UnsharedFromIff(cfg: Config, s: State, events: seq<Event>)
    requires BaseInvariant(s) && FreshInvariant(s)
    ensures UnsharedThroughout(cfg, s, events) <==> SeparateRun(cfg, s, events)
    decreases |events|
  {
    if events != [] {
      StepKeepsBase(cfg, s, events[0]);
      FreshIff(cfg, s, events[0]);
      if Separate(s, events[0]) {
        UnsharedFromIff(cfg, Step(cfg, s, events[0]), events[1..]);
      }
    }
  }

  /** No two finds ever share a round in a run exactly when none resolves to a taken one. */
  lemma RoundsUnsharedIff(cfg: Config, events: seq<Event>)
    ensures UnsharedThroughout(cfg, START, events) <==> SeparateRun(cfg, START, events)
  {
    UnsharedFromIff(cfg, START, events);
  }

  lemma {:induction false} DisciplinedFrom(cfg: Config, s: State, events: seq<Event>)
    requires BaseInvariant(s) && DisciplineInvariant(s) && DisciplinedRun(cfg, s, events)
    ensures SeparateRun(cfg, s, events)
    decreases |events|
  {
    if events != [] {
      DisciplinedIsSeparate(s, events[0]);
      StepKeepsBase(cfg, s, events[0]);
      StepKeepsDiscipline(cfg, s, events[0]);
      DisciplinedFrom(cfg, Step(cfg, s, events[0]), events[1..]);
    }
  }

  // ----- found blocks and rounds -----

  /** No step of the run records a block in a round that holds one. */
  ghost predicate RecordsApart(cfg: Config, s: State, events: seq<Event>)
    decreases |events|
  {
    events == [] || (!RecordsOnTop(s, events[0]) && RecordsApart(cfg, Step(cfg, s, events[0]), events[1..]))
  }

  lemma {:induction false} OneBlockEachIff(cfg: Config, s: State, events: seq<Event>)
    requires OneBlockEach(s.blocks)
    ensures OneBlockEach(Run(cfg, s, events).blocks) <==> RecordsApart(cfg, s, events)
    decreases |events|
  {
    if events != [] {
      var s1 := Step(cfg, s, events[0]);
      SharesIff(cfg, s, events[0]);
      if RecordsOnTop(s, events[0]) {
        RunGrows(cfg, s1, events[1..]);
        StaysShared(s1.blocks, Run(cfg, s1, events[1..]).blocks);
      } else {
        OneBlockEachIff(cfg, s1, events[1..]);
      }
    }
  }

  lemma StaysShared(blocks: seq<FoundBlock>, blocks': seq<FoundBlock>)
    requires BlocksKept(blocks, blocks')
    ensures OneBlockEach(blocks') ==> OneBlockEach(blocks)
  {
    assert forall j | 0 <= j < |blocks| :: SameBlock(blocks[j], blocks'[j]);
  }

  /** After any run, no two found blocks share a round exactly when none was recorded in a round that held one. */
  lemma OneBlockPerRoundIff(cfg: Config, events: seq<Event>)
    ensures OneBlockEach(Run(cfg, START, events).blocks) <==> RecordsApart(cfg, START, events)
    ensures
      var blocks := Run(cfg, START, events).blocks;
      (forall i: nat | i < |blocks| :: Alone(blocks, i)) <==> RecordsApart(cfg, START, events)
  {
    OneBlockEachIff(cfg, START, events);
    AllAloneIff(Run(cfg, START, events).blocks);
  }

  lemma {:induction false} SeparateFrom(cfg: Config, s: State, events: seq<Event>)
    requires BaseInvariant(s) && FreshInvariant(s) && SeparateRun(cfg, s, events)
    ensures FreshInvariant(Run(cfg, s, events))
    decreases |events|
  {
    if events != [] {
      StepKeepsBase(cfg, s, events[0]);
      FreshIff(cfg, s, events[0]);
      SeparateFrom(cfg, Step(cfg, s, events[0]), events[1..]);
    }
  }

  /**
   Finds one at a time on strictly increasing positive templates, with no restart between
   recording a block and closing its round, never share a round.
   */
  lemma DisciplineSuffices(cfg: Config, events: seq<Event>)
    requires DisciplinedRun(cfg, START, events)
    ensures SeparateRun(cfg, START, events)
    ensures OneBlockEach(Run(cfg, START, events).blocks)
  {
    DisciplinedFrom(cfg, START, events);
    SeparateFrom(cfg, START, events);
  }

  // ----- payments and money, for every block alone in its round -----

  ghost predicate Invariant(cfg: Config, s: State) {
    CoreInvariant(s) && PaidInvariant(s) && MoneyInvariant(cfg, s)
  }

  lemma StepKeepsInvariant(cfg: Config, s: State, e: Event)
    requires Invariant(cfg, s)
    ensures Invariant(cfg, Step(cfg, s, e))
  {
    StepKeepsCore(cfg, s, e);
    StepKeepsPaid(cfg, s, e);
    StepKeepsMoney(cfg, s, e);
  }

  lemma {:induction false} RunKeepsInvariant(cfg: Config, s: State, events: seq<Event>)
    requires Invariant(cfg, s)
    ensures Invariant(cfg, Run(cfg, s, events))
    decreases |events|
  {
    if events != [] {
      StepKeepsInvariant(cfg, s, events[0]);
      RunKeepsInvariant(cfg, Step(cfg, s, events[0]), events[1..]);
    }
  }

  lemma ReachableKeepsInvariant(cfg: Config, s: State)
    requires Reachable(cfg, s)
    ensures Invariant(cfg, s)
  {
    var events :| s == Run(cfg, START, events);
    RunKeepsInvariant(cfg, START, events);
  }

  // ----- confirmations -----

  /** Some step of the run reports the transaction on chain. */
  ghost predicate ReportedIn(cfg: Config, s: State, events: seq<Event>, txid: string)
    decreases |events|
  {
    events != [] &&
    (Reports(s, events[0], txid) || ReportedIn(cfg, Step(cfg, s, events[0]), events[1..], txid))
  }

  /** In some step of the run the signer answers for batch `b` with the transaction. */
  ghost predicate SignedIn(cfg: Config, s: State, events: seq<Event>, b: nat, txid: string)
    decreases |events|
  {
    events != [] &&
    (Signs(s, events[0], b, txid) || SignedIn(cfg, Step(cfg, s, events[0]), events[1..], b, txid))
  }

  lemma {:induction false} RunKeepsReports(
    cfg: Config, s: State, events: seq<Event>, known: iset<string>, known': iset<string>)
    requires CoreInvariant(s) && ReportInvariant(s, known) && known <= known'
    requires forall x | ReportedIn(cfg, s, events, x) :: x in known'
    ensures ReportInvariant(Run(cfg, s, events), known')
    decreases |events|
  {
    if events == [] {
      OthersKeepReports(s, s, known, known');
    } else {
      forall x | Reports(s, events[0], x) ensures x in known' { assert ReportedIn(cfg, s, events, x); }
      StepKeepsReports(cfg, s, events[0], known, known');
      StepKeepsCore(cfg, s, events[0]);
      RunKeepsReports(cfg, Step(cfg, s, events[0]), events[1..], known', known');
    }
  }

  lemma {:induction false} RunKeepsSigned(
    cfg: Config, s: State, events: seq<Event>, signed: iset<(nat, string)>, signed': iset<(nat, string)>)
    requires CoreInvariant(s) && SignInvariant(s.batches, s.handler, signed) && signed <= signed'
    requires forall b: nat, x | SignedIn(cfg, s, events, b, x) :: (b, x) in signed'
    ensures SignInvariant(Run(cfg, s, events).batches, Run(cfg, s, events).handler, signed')
    decreases |events|
  {
    if events != [] {
      forall b: nat, x | Signs(s, events[0], b, x)
        ensures (b, x) in signed'
      {
        assert SignedIn(cfg, s, events, b, x);
      }
      StepKeepsSigned(cfg, s, events[0], signed, signed');
      StepKeepsCore(cfg, s, events[0]);
      RunKeepsSigned(cfg, Step(cfg, s, events[0]), events[1..], signed', signed');
    }
  }

  /**
   After every run a batch past pending has the transaction the signer answered with for it,
   and a confirmed one has one that a connected block or the node at startup reported.
   */
  lemma ConfirmedWasReported(cfg: Config, events: seq<Event>, j: nat)
    requires j < |Run(cfg, START, events).batches| && Run(cfg, START, events).batches[j].status != Pending
    ensures
      var batch := Run(cfg, START, events).batches[j];
      && batch.txid.Some? && SignedIn(cfg, START, events, j, batch.txid.value)
      && (batch.status == Confirmed ==> ReportedIn(cfg, START, events, batch.txid.value))
  {
    RunKeepsSigned(cfg, START, events, iset{}, iset b: nat, x: string | SignedIn(cfg, START, events, b, x) :: (b, x));
    RunKeepsReports(cfg, START, events, iset{}, iset x: string | ReportedIn(cfg, START, events, x));
  }

  /**
   A paid block alone in its round has its own batch, confirmed, with the transaction the
   signer answered with for it, reported on chain during the run.
   */
  lemma PaidMeansConfirmed(cfg: Config, events: seq<Event>, i: nat)
    requires
      var s := Run(cfg, START, events);
      Alone(s.blocks, i) && s.blocks[i].status == Paid
    ensures
      var s := Run(cfg, START, events);
      exists j: nat ::
        && PaysFor(s, j, i) && SignedIn(cfg, START, events, j, s.batches[j].txid.value)
        && ReportedIn(cfg, START, events, s.batches[j].txid.value)
  {
    var s := Run(cfg, START, events);
    RunKeepsInvariant(cfg, START, events);
    assert TreatedAsPaid(s, i);
    var j: nat :| PaysFor(s, j, i);
    ConfirmedWasReported(cfg, events, j);
  }

  /** A batch with payout rows accounts for the whole coinbase of its block, when that is alone in its round. */
  lemma PersistedConservation(cfg: Config, s: State, j: nat, i: nat)
    requires Reachable(cfg, s) && Alone(s.blocks, i)
    requires j < |s.batches| && OwnedBy(s.blocks, s.batches[j], i) && s.batches[j].payouts != []
    ensures
      var b, coinbase := s.batches[j], s.blocks[i].coinbaseValue;
      coinbase == Minerfund(coinbase) + b.fee + AmountTotal(b.payouts) + DustTotal(b.payouts)
  {
    ReachableKeepsInvariant(cfg, s);
    assert Accounted(cfg, s.blocks, s.batches[j]);
    var k: nat :| AccountsFor(cfg, s.blocks, s.batches[j], k);
    assert k == i;
  }

  // ----- depth -----

  /** No manual trigger of the run creates a batch for a block that was not deep at the time. */
  ghost predicate TriggersOnlyDeep(cfg: Config, s: State, events: seq<Event>)
    decreases |events|
  {
    events == [] || (TriggersDeep(cfg, s, events[0]) && TriggersOnlyDeep(cfg, Step(cfg, s, events[0]), events[1..]))
  }

  lemma {:induction false} RunKeepsDepth(cfg: Config, s: State, events: seq<Event>)
    requires Invariant(cfg, s) && DepthInvariant(cfg, s) && TriggersOnlyDeep(cfg, s, events)
    ensures DepthInvariant(cfg, Run(cfg, s, events))
    decreases |events|
  {
    if events != [] {
      StepKeepsInvariant(cfg, s, events[0]);
      StepKeepsDepth(cfg, s, events[0]);
      RunKeepsDepth(cfg, Step(cfg, s, events[0]), events[1..]);
    }
  }

  /** In some step of the run the node reports the height as its tip. */
  ghost predicate TipToldIn(cfg: Config, s: State, events: seq<Event>, tip: int)
    decreases |events|
  {
    events != [] &&
    (TellsTip(s, events[0], tip) || TipToldIn(cfg, Step(cfg, s, events[0]), events[1..], tip))
  }

  lemma {:induction false} RunKeepsTips(
    cfg: Config, s: State, events: seq<Event>, told: iset<int>, told': iset<int>)
    requires TipInvariant(s, told) && told <= told' && forall x | TipToldIn(cfg, s, events, x) :: x in told'
    ensures TipInvariant(Run(cfg, s, events), told')
    decreases |events|
  {
    if events != [] {
      forall x | TellsTip(s, events[0], x) ensures x in told' { assert TipToldIn(cfg, s, events, x); }
      StepKeepsTips(cfg, s, events[0], told, told');
      RunKeepsTips(cfg, Step(cfg, s, events[0]), events[1..], told', told');
    }
  }

  /** Every tip a maturity check of the run used was reported by the node in the run, or is the initial zero. */
  lemma TipsWereTold(cfg: Config, events: seq<Event>, tip: int)
    requires tip in Run(cfg, START, events).tips && tip != 0
    ensures TipToldIn(cfg, START, events, tip)
  {
    RunKeepsTips(cfg, START, events, iset{}, iset x: int | TipToldIn(cfg, START, events, x));
  }

  /**
   Queued maturation events and batches belong to blocks that were deep, and so do matured
   and paid blocks that are alone in their rounds.
   */
  lemma DepthSafety(cfg: Config, events: seq<Event>)
    requires TriggersOnlyDeep(cfg, START, events)
    ensures
      var s := Run(cfg, START, events);
      && (forall e | e in s.queue && e.BlockMatured? :: DeepHash(cfg, s, e.hash))
      && (forall j | 0 <= j < |s.batches| :: DeepOwner(cfg, s, s.batches[j]))
      && forall i: nat | Alone(s.blocks, i) && (s.blocks[i].status == Matured || s.blocks[i].status == Paid) ::
           WasDeep(cfg, s, i)
  {
    var s := Run(cfg, START, events);
    RunKeepsInvariant(cfg, START, events);
    RunKeepsDepth(cfg, START, events);
    forall i: nat | Alone(s.blocks, i) && s.blocks[i].status == Paid
      ensures WasDeep(cfg, s, i)
    {
      assert TreatedAsPaid(s, i);
      var j: nat :| PaysFor(s, j, i);
      BatchOwnerWasDeep(cfg, s, j, i);
    }
  }
}
