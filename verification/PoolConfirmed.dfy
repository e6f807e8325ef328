/**
 What the pool takes from outside is what it was told: a batch has the transaction the
 signer answered with, is confirmed only when that was reported on chain, and maturity is
 checked only under tips the node reported.
 */
module PoolConfirmed {
  import opened Text
  import opened PayoutPlan
  import opened Tables
  import opened Pool
  import opened PoolPayouts

  /** The batch whose transaction the startup reconciliation asks the node about, when the node knows it on chain. */
  predicate AnswersFor(s: State, e: Event, b: nat) {
    && e.Boot? && e.boot.StartupStep? && e.boot.answer
    && s.startup.Settling? && s.startup.confirmer.Confirming?
    && s.startup.confirmer.todo != [] && s.startup.confirmer.todo[0] == b && b < |s.batches|
  }

  /** The transaction is in a block whose connect event the consumer takes, or is one the node answers for. */
  ghost predicate Reports(s: State, e: Event, txid: string) {
    || (e.Chain? && e.chain.Connect? && s.consumer.Listening? && txid in e.chain.txids)
    || exists b: nat :: AnswersFor(s, e, b) && s.batches[b].txid == Some(txid)
  }

  /** `known` holds every transaction the consumer, the queue and the handler go by, and those of confirmed batches. */
  ghost predicate ReportInvariant(s: State, known: iset<string>) {
    && (forall j | 0 <= j < |s.batches| && s.batches[j].status == Confirmed :: Known(s.batches[j], known))
    && ConsumerKnows(s.consumer, known)
    && (forall e | e in s.queue && e.BlockConnected? :: AllKnown(e.txids, known))
    && HandlerKnows(s.batches, s.handler, known)
  }

  ghost predicate AllKnown(txids: seq<string>, known: iset<string>) {
    forall x | x in txids :: x in known
  }

  ghost predicate Known(batch: Batch, known: iset<string>) {
    batch.txid.Some? && batch.txid.value in known
  }

  ghost predicate ConsumerKnows(c: Consumer, known: iset<string>) {
    !c.Listening? && !c.Orphaning? && !c.ClosingRound? ==> AllKnown(c.txids, known)
  }

  ghost predicate HandlerKnows(batches: seq<Batch>, handler: Handler, known: iset<string>) {
    && (handler.ListingSubmitted? ==> AllKnown(handler.txids, known))
    && (handler.Scanning? ==> forall b | b in handler.confirmer.todo :: b < |batches| && Known(batches[b], known))
  }

  /** Batches of before keep status and transaction, and new ones are pending. */
  ghost predicate StatusesKept(batches: seq<Batch>, batches': seq<Batch>) {
    && |batches| <= |batches'|
    && (forall j | 0 <= j < |batches| ::
          batches'[j].status == batches[j].status && batches'[j].txid == batches[j].txid)
    && forall j | |batches| <= j < |batches'| :: batches'[j].status == Pending
  }

  lemma OthersKeepReports(s: State, s': State, known: iset<string>, known': iset<string>)
    requires ReportInvariant(s, known) && known <= known' && StatusesKept(s.batches, s'.batches)
    requires s'.consumer == s.consumer || ConsumerKnows(s'.consumer, known')
    requires forall e | e in s'.queue && e.BlockConnected? :: e in s.queue || AllKnown(e.txids, known')
    requires s'.handler == s.handler || HandlerKnows(s'.batches, s'.handler, known')
    ensures ReportInvariant(s', known')
  {
  }

  lemma ChainKeepsReports(cfg: Config, s: State, e: ChainEvent, known: iset<string>, known': iset<string>)
    requires ReportInvariant(s, known) && known <= known' && forall x | Reports(s, Chain(e), x) :: x in known'
    ensures ReportInvariant(ChainNext(cfg, s, e), known')
  {
    var s' := ChainNext(cfg, s, e);
    if e.Connect? && s.consumer.Listening? {
      forall x | x in e.txids
        ensures x in known'
      {
        assert Reports(s, Chain(e), x);
      }
    }
    OthersKeepReports(s, s', known, known');
  }

  /** Confirming a batch with a known transaction, while the handler goes on as it was or to known work. */
  lemma ConfirmingKeepsReports(s: State, s': State, b: nat, known: iset<string>, known': iset<string>)
    requires ReportInvariant(s, known) && known <= known' && b < |s.batches| && Known(s.batches[b], known')
    requires s'.batches == WithBatchStatus(s.batches, b, Confirmed) && s'.consumer == s.consumer && s'.queue == s.queue
    requires s'.handler == s.handler || HandlerKnows(s'.batches, s'.handler, known')
    ensures ReportInvariant(s', known')
  {
  }

  lemma StartupKeepsReports(s: State, answer: bool, known: iset<string>, known': iset<string>)
    requires SubmitInvariant(s) && ReportInvariant(s, known) && known <= known'
    requires forall x | Reports(s, Boot(StartupStep(answer)), x) :: x in known'
    ensures ReportInvariant(StartupNext(s, answer), known')
  {
    var s' := StartupNext(s, answer);
    if s.startup.Settling? && s.startup.confirmer.Confirming? && s.startup.confirmer.todo != [] && answer {
      var b := s.startup.confirmer.todo[0];
      assert b in s.startup.confirmer.todo;
      assert AnswersFor(s, Boot(StartupStep(answer)), b);
      assert Reports(s, Boot(StartupStep(answer)), s.batches[b].txid.value);
      ConfirmingKeepsReports(s, s', b, known, known');
    } else {
      assert s'.batches == s.batches;
      OthersKeepReports(s, s', known, known');
    }
  }

  lemma ScanningKeepsReports(s: State, known: iset<string>, known': iset<string>)
    requires ReportInvariant(s, known) && known <= known' && s.handler.Scanning?
    ensures ReportInvariant(HandlerNext(s), known')
  {
    var s', c := HandlerNext(s), s.handler.confirmer;
    assert c.Confirming? && c.todo != [] ==> c.todo[0] in c.todo && forall b | b in c.todo[1..] :: b in c.todo;
    if c.Confirming? && c.todo != [] {
      ConfirmingKeepsReports(s, s', c.todo[0], known, known');
    } else {
      OthersKeepReports(s, s', known, known');
    }
  }

  /** Exactly the transactions of the connected block lead to a confirmation. */
  lemma ListingKeepsReports(s: State, known: iset<string>, known': iset<string>)
    requires ReportInvariant(s, known) && known <= known' && s.handler.ListingSubmitted?
    ensures ReportInvariant(HandlerNext(s), known')
  {
    OthersKeepReports(s, HandlerNext(s), known, known');
  }

  lemma MarkingKeepsReports(s: State, known: iset<string>, known': iset<string>)
    requires SubmitInvariant(s) && ReportInvariant(s, known) && known <= known' && s.handler.Marking?
    ensures ReportInvariant(HandlerNext(s), known')
  {
    assert s.handler.batch in [s.handler.batch] + s.handler.todo;
  }

  lemma HandlerKeepsReports(s: State, known: iset<string>, known': iset<string>)
    requires SubmitInvariant(s) && ReportInvariant(s, known) && known <= known'
    ensures ReportInvariant(HandlerNext(s), known')
  {
    if s.handler.Scanning? {
      ScanningKeepsReports(s, known, known');
    } else if s.handler.ListingSubmitted? {
      ListingKeepsReports(s, known, known');
    } else if s.handler.Marking? {
      MarkingKeepsReports(s, known, known');
    } else {
      OthersKeepReports(s, HandlerNext(s), known, known');
    }
  }

  lemma PaidOutKeepsStatuses(cfg: Config, s: State, b: nat, inputs: Inputs, found: bool)
    ensures StatusesKept(s.batches, PaidOut(cfg, s, b, inputs, found))
  {
  }

  lemma PayoutKeepsReports(cfg: Config, s: State, e: PayoutStep, known: iset<string>, known': iset<string>)
    requires SubmitInvariant(s) && ReportInvariant(s, known) && known <= known'
    ensures ReportInvariant(PayoutNext(cfg, s, e), known')
  {
    match e
    case HandlerStep => HandlerKeepsReports(s, known, known');
    case CreateStep(inputs, found) =>
      if s.handler.Creating? { PaidOutKeepsStatuses(cfg, s, s.handler.block, inputs, found); }
      OthersKeepReports(s, PayoutNext(cfg, s, e), known, known');
    case Replan(inputs, found) =>
      if s.handler.Replanning? { ReplanKeepsStatuses(cfg, s, inputs, found); }
      OthersKeepReports(s, PayoutNext(cfg, s, e), known, known');
    case _ => OthersKeepReports(s, PayoutNext(cfg, s, e), known, known');
  }

  lemma ReplanKeepsStatuses(cfg: Config, s: State, inputs: Inputs, found: bool)
    requires s.handler.Replanning?
    ensures
      var s' := Replanned(cfg, s, inputs, found);
      && StatusesKept(s.batches, s'.batches) && s'.queue == s.queue && s'.consumer == s.consumer
      && s'.handler.Processing?
  {
    var todo, b := s.handler.todo, s.handler.block;
    if todo != [] && b < |s.blocks| { RowsKeepStatuses(s.batches, todo[0], OutputsOf(cfg, s.blocks[b], inputs)); }
  }

  lemma RowsKeepStatuses(batches: seq<Batch>, id: nat, payouts: seq<PayoutOutput>)
    ensures StatusesKept(batches, WithPayouts(batches, id, payouts))
  {
  }

  lemma OperatorKeepsReports(cfg: Config, s: State, e: OperatorEvent, known: iset<string>, known': iset<string>)
    requires ReportInvariant(s, known) && known <= known'
    ensures ReportInvariant(OperatorNext(cfg, s, e), known')
  {
    if e.AdminCreate? { PaidOutKeepsStatuses(cfg, s, e.block, e.inputs, e.found); }
    OthersKeepReports(s, OperatorNext(cfg, s, e), known, known');
  }

  /** Every step goes by transactions known before or reported in it. */
  lemma StepKeepsReports(cfg: Config, s: State, e: Event, known: iset<string>, known': iset<string>)
    requires SubmitInvariant(s) && ReportInvariant(s, known)
    requires known <= known' && forall x | Reports(s, e, x) :: x in known'
    ensures ReportInvariant(Step(cfg, s, e), known')
  {
    match e
    case Miner(m) => OthersKeepReports(s, MinerNext(s, m), known, known');
    case Chain(c) => ChainKeepsReports(cfg, s, c, known, known');
    case Boot(b) =>
      if b.StartupStep? {
        StartupKeepsReports(s, b.answer, known, known');
      } else {
        OthersKeepReports(s, BootNext(cfg, s, b), known, known');
      }
    case Payout(p) => PayoutKeepsReports(cfg, s, p, known, known');
    case Operator(o) => OperatorKeepsReports(cfg, s, o, known, known');
  }

  // ----- which transaction a batch was submitted with -----

  /** The signer answers for batch `b` with this transaction. */
  predicate Signs(s: State, e: Event, b: nat, txid: string) {
    e.Payout? && e.payout == Sign(txid) && AtBatch(s) && s.handler.todo[0] == b
  }

  /** `signed` holds, for every batch past pending and the one being marked, its transaction. */
  ghost predicate SignInvariant(batches: seq<Batch>, handler: Handler, signed: iset<(nat, string)>) {
    && (forall j: nat | j < |batches| && batches[j].status != Pending ::
          batches[j].txid.Some? && (j, batches[j].txid.value) in signed)
    && (handler.Marking? ==> (handler.batch, handler.txid) in signed)
  }

  /** Batches past pending stay so with their transaction, and no others get there. */
  ghost predicate TxidsKept(batches: seq<Batch>, batches': seq<Batch>) {
    && |batches| <= |batches'|
    && (forall j | 0 <= j < |batches| ::
          batches'[j].txid == batches[j].txid && (batches'[j].status != Pending ==> batches[j].status != Pending))
    && forall j | |batches| <= j < |batches'| :: batches'[j].status == Pending
  }

  lemma OthersKeepSigned(s: State, s': State, signed: iset<(nat, string)>, signed': iset<(nat, string)>)
    requires SignInvariant(s.batches, s.handler, signed) && signed <= signed'
    requires TxidsKept(s.batches, s'.batches) && (s'.handler == s.handler || !s'.handler.Marking?)
    ensures SignInvariant(s'.batches, s'.handler, signed')
  {
  }

  lemma ConfirmerKeepsTxids(s: State, c: Confirmer, hit: bool)
    requires SubmitInvariant(s) && ConfirmerSent(s.batches, c)
    ensures TxidsKept(s.batches, ConfirmedTables(s, c, hit).1)
  {
    if c.Confirming? && c.todo != [] { assert c.todo[0] in c.todo; }
  }

  lemma HandlerKeepsSigned(s: State, signed: iset<(nat, string)>, signed': iset<(nat, string)>)
    requires SubmitInvariant(s) && SignInvariant(s.batches, s.handler, signed) && signed <= signed'
    ensures SignInvariant(HandlerNext(s).batches, HandlerNext(s).handler, signed')
  {
    if s.handler.Scanning? { ConfirmerKeepsTxids(s, s.handler.confirmer, true); }
    if !s.handler.Marking? { OthersKeepSigned(s, HandlerNext(s), signed, signed'); }
  }

  lemma PayoutKeepsSigned(
    cfg: Config, s: State, e: PayoutStep, signed: iset<(nat, string)>, signed': iset<(nat, string)>)
    requires SubmitInvariant(s) && SignInvariant(s.batches, s.handler, signed) && signed <= signed'
    requires forall b: nat, x | Signs(s, Payout(e), b, x) :: (b, x) in signed'
    ensures SignInvariant(PayoutNext(cfg, s, e).batches, PayoutNext(cfg, s, e).handler, signed')
  {
    match e
    case HandlerStep => HandlerKeepsSigned(s, signed, signed');
    case CreateStep(inputs, found) =>
      if s.handler.Creating? { PaidOutKeepsStatuses(cfg, s, s.handler.block, inputs, found); }
      OthersKeepSigned(s, PayoutNext(cfg, s, e), signed, signed');
    case Replan(inputs, found) =>
      if s.handler.Replanning? { ReplanKeepsStatuses(cfg, s, inputs, found); }
      OthersKeepSigned(s, PayoutNext(cfg, s, e), signed, signed');
    case Sign(txid) => if AtBatch(s) { assert Signs(s, Payout(e), s.handler.todo[0], txid); }
    case _ => OthersKeepSigned(s, PayoutNext(cfg, s, e), signed, signed');
  }

  lemma BootKeepsSigned(
    cfg: Config, s: State, e: StartupEvent, signed: iset<(nat, string)>, signed': iset<(nat, string)>)
    requires SubmitInvariant(s) && SignInvariant(s.batches, s.handler, signed) && signed <= signed'
    ensures SignInvariant(BootNext(cfg, s, e).batches, BootNext(cfg, s, e).handler, signed')
  {
    if e.StartupStep? && s.startup.Settling? { ConfirmerKeepsTxids(s, s.startup.confirmer, e.answer); }
    OthersKeepSigned(s, BootNext(cfg, s, e), signed, signed');
  }

  /** Every step records for a batch the transaction the signer answered with. */
  lemma StepKeepsSigned(cfg: Config, s: State, e: Event, signed: iset<(nat, string)>, signed': iset<(nat, string)>)
    requires SubmitInvariant(s) && SignInvariant(s.batches, s.handler, signed) && signed <= signed'
    requires forall b: nat, x | Signs(s, e, b, x) :: (b, x) in signed'
    ensures SignInvariant(Step(cfg, s, e).batches, Step(cfg, s, e).handler, signed')
  {
    match e
    case Payout(p) => PayoutKeepsSigned(cfg, s, p, signed, signed');
    case Operator(o) =>
      if o.AdminCreate? { PaidOutKeepsStatuses(cfg, s, o.block, o.inputs, o.found); }
      OthersKeepSigned(s, OperatorNext(cfg, s, o), signed, signed');
    case Boot(b) => BootKeepsSigned(cfg, s, b, signed, signed');
    case Miner(m) => OthersKeepSigned(s, MinerNext(s, m), signed, signed');
    case Chain(c) => OthersKeepSigned(s, ChainNext(cfg, s, c), signed, signed');
  }

  // ----- which tips a maturity check used -----

  /** The node reports this height as its tip: with a connect event the consumer takes, or at startup. */
  predicate TellsTip(s: State, e: Event, tip: int) {
    || (e.Chain? && e.chain.Connect? && s.consumer.Listening? && e.chain.height == tip)
    || (e.Boot? && e.boot == CheckAtStartup(tip) && s.startup.Started?)
  }

  /** Every tip used, and the one at hand, was told or is the zero a restart sets. */
  ghost predicate TipInvariant(s: State, told: iset<int>) {
    (s.tip == 0 || s.tip in told) && forall x | x in s.tips :: x == 0 || x in told
  }

  /** Every step checks maturity only under tips the node told. */
  lemma StepKeepsTips(cfg: Config, s: State, e: Event, told: iset<int>, told': iset<int>)
    requires TipInvariant(s, told) && told <= told' && forall x | TellsTip(s, e, x) :: x in told'
    ensures TipInvariant(Step(cfg, s, e), told')
  {
    match e
    case Chain(Connect(hash, height, txids)) => if s.consumer.Listening? { assert TellsTip(s, e, height); }
    case Boot(CheckAtStartup(nodeTip)) => if s.startup.Started? { assert TellsTip(s, e, nodeTip); }
    case Payout(p) => PayoutKeepsTips(cfg, s, p);
    case _ =>
  }

  lemma PayoutKeepsTips(cfg: Config, s: State, e: PayoutStep)
    ensures PayoutNext(cfg, s, e).tip == s.tip && PayoutNext(cfg, s, e).tips == s.tips
  {
  }
}
