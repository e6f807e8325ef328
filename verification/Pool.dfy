/**
 The pool's payout lifecycle as a state machine. Every actor is cut at its lock
 sections, so a step is one statement or one transaction; between any two steps of
 one actor the others may run. What the node, the signer and the operator do is
 part of the event.
 */
module Pool {
  import opened Text
  import opened Tables
  import Rounds

  datatype PayoutEvent = BlockMatured(hash: string) | BlockConnected(txids: seq<string>)

  /** A block the node accepted. */
  datatype Find = Find(hash: string, height: int, coinbaseValue: nat)

  /** A session that found a block on template `t`: resolve (two sections), record, close. */
  datatype Finder =
    | Unmatched(t: nat, find: Find)
    | Resolved(t: nat, find: Find, round: nat)
    | Inserted(t: nat, round: nat)

  /** The node event consumer. */
  datatype Consumer =
    | Listening
    | Orphaning(block: nat)
    | ClosingRound(block: nat)
    | Reconnected(block: nat, txids: seq<string>)
    | Restoring(block: nat, pending: bool, txids: seq<string>)
    | Rematuring(block: nat, txids: seq<string>)
    | Checking(txids: seq<string>)
    | Maturing(todo: seq<nat>, done: seq<nat>, txids: seq<string>)

  /** A loop that confirms batches and marks their blocks paid. */
  datatype Confirmer =
    | Confirming(todo: seq<nat>)
    | LookingUp(batch: nat, todo: seq<nat>)
    | MarkingPaid(block: nat, todo: seq<nat>)

  /** What runs once at startup. */
  datatype Startup =
    | Started
    | Reconciling(todo: seq<nat>)
    | ClosingOrphan(block: nat, todo: seq<nat>)
    | Settling(confirmer: Confirmer)
    | CatchingUp(todo: seq<nat>, done: seq<nat>)

  /** The payout handler's event loop. */
  datatype Handler =
    | Waiting
    | Guarding(block: nat)
    | Creating(block: nat)
    | ListingSubmitted(txids: seq<string>)
    | Scanning(confirmer: Confirmer)
    | ListingPending
    | Processing(todo: seq<nat>)
    | Reloading(todo: seq<nat>)
    | LookingUpBlock(todo: seq<nat>)
    | Replanning(block: nat, todo: seq<nat>)
    | Marking(batch: nat, txid: string, todo: seq<nat>)

  /**
   `finders` holds the sessions that are between finding a block and closing its round.
   `lastFound`, `tips` and `signed` are history: the template of the last find, every
   tip a maturity check used, and the batches the signer submitted, in order.
   */
  datatype State = State(
    rounds: seq<Rounds.Round>, blocks: seq<FoundBlock>, batches: seq<Batch>,
    tip: int, queue: seq<PayoutEvent>,
    finders: map<nat, Finder>, consumer: Consumer, startup: Startup, handler: Handler, admins: set<nat>,
    lastFound: nat, tips: set<int>, signed: seq<nat>)

  const START := State([], [], [], 0, [], map[], Listening, Started, Waiting, {}, 0, {}, [])

  datatype MinerEvent = OpenRound(t: nat) | FindBlockOn(session: nat, t: nat, find: Find) | FinderStep(session: nat)

  datatype ChainEvent = Disconnect(hash: string) | Connect(hash: string, height: int, txids: seq<string>) | ConsumerStep

  datatype StartupEvent =
    | Restart
    | ReconcileBlocks
    | ReconcilePayouts
    | CheckAtStartup(nodeTip: int)
    | StartupStep(answer: bool)

  datatype PayoutStep =
    | HandlerStep
    | CreateStep(inputs: Inputs, found: bool)
    | SkipBatch
    | FindRowsMissing
    | Replan(inputs: Inputs, found: bool)
    | Sign(txid: string)

  datatype OperatorEvent =
    | AdminCheck(hash: string)
    | AdminCreate(block: nat, inputs: Inputs, found: bool)
    | DeletePayouts(batch: nat)

  datatype Event =
    | Miner(miner: MinerEvent)
    | Chain(chain: ChainEvent)
    | Boot(boot: StartupEvent)
    | Payout(payout: PayoutStep)
    | Operator(operator: OperatorEvent)

  // ----- finding a block -----

  function Queried(rounds: seq<Rounds.Round>, t: nat, find: Find): Finder {
    match Rounds.Match(rounds, t)
    case Some(id) => Resolved(t, find, id)
    case None => Unmatched(t, find)
  }

  function Finding(s: State, session: nat, t: nat, find: Find): State {
    s.(finders := s.finders[session := Queried(s.rounds, t, find)], lastFound := t)
  }

  function FinderNext(s: State, session: nat): State
    requires session in s.finders
  {
    match s.finders[session]
    case Unmatched(t, find) =>
      var (rounds, id, _) := Rounds.GetOrCreate(s.rounds, t);
      s.(rounds := rounds, finders := s.finders[session := Resolved(t, find, id)])
    case Resolved(t, find, id) =>
      s.(blocks := Tables.Recorded(s.blocks, id, find.hash, find.height, find.coinbaseValue),
         finders := s.finders[session := Inserted(t, id)])
    case Inserted(t, id) =>
      s.(rounds := Rounds.Close(s.rounds, id, t, Rounds.Found), finders := s.finders - {session})
  }

  // ----- node events -----

  function RoundOf(blocks: seq<FoundBlock>, block: nat): nat {
    if block < |blocks| then blocks[block].roundId else 0
  }

  function OrphanClosed(s: State, block: nat): seq<Rounds.Round> {
    if block < |s.blocks| then Rounds.Close(s.rounds, s.blocks[block].roundId, 0, Rounds.OrphanedRound) else s.rounds
  }

  function Disconnected(s: State, hash: string): State {
    match FindBlock(s.blocks, hash)
    case Some(b) => s.(consumer := Orphaning(b))
    case None => s
  }

  function Connected(s: State, hash: string, height: int, txids: seq<string>): State {
    var tip := if height > s.tip then height else s.tip;
    var b := FindBlock(s.blocks, hash);
    s.(tip := tip,
       consumer :=
         if b.Some? && s.blocks[b.value].status == Orphaned then Reconnected(b.value, txids) else Checking(txids))
  }

  function MaturedEvents(blocks: seq<FoundBlock>, ids: seq<nat>): (events: seq<PayoutEvent>)
    ensures forall e | e in events ::
      e.BlockMatured? && exists i :: i in ids && i < |blocks| && e.hash == blocks[i].hash
  {
    if ids == [] then []
    else
      var rest := MaturedEvents(blocks, ids[1..]);
      if ids[0] < |blocks| then [BlockMatured(blocks[ids[0]].hash)] + rest else rest
  }

  function ConsumerNext(cfg: Config, s: State): State {
    match s.consumer
    case Listening => s
    case Orphaning(b) => s.(blocks := WithStatus(s.blocks, b, Orphaned), consumer := ClosingRound(b))
    case ClosingRound(b) => s.(rounds := OrphanClosed(s, b), consumer := Listening)
    case Reconnected(b, txids) =>
      if RoundHas(s.batches, RoundOf(s.blocks, b), Submitted) then s.(consumer := Checking(txids))
      else s.(consumer := Restoring(b, RoundHas(s.batches, RoundOf(s.blocks, b), Pending), txids))
    case Restoring(b, pending, txids) =>
      s.(blocks :=
           if b < |s.blocks| && s.blocks[b].status == Orphaned then WithStatus(s.blocks, b, Immature) else s.blocks,
         consumer := if pending then Rematuring(b, txids) else Checking(txids))
    case Rematuring(b, txids) => s.(blocks := WithStatus(s.blocks, b, Matured), consumer := Checking(txids))
    case Checking(txids) =>
      s.(consumer := Maturing(DueIds(s.blocks, s.tip, cfg.confirmations), [], txids), tips := s.tips + {s.tip})
    case Maturing(todo, done, txids) =>
      if todo == []
      then s.(queue := s.queue + MaturedEvents(s.blocks, done) + [BlockConnected(txids)], consumer := Listening)
      else s.(blocks := WithStatus(s.blocks, todo[0], Matured),
              consumer := Maturing(todo[1..], done + [todo[0]], txids))
  }

  // ----- confirming -----

  function ConfirmedTables(s: State, c: Confirmer, hit: bool): (seq<FoundBlock>, seq<Batch>) {
    match c
    case Confirming(todo) =>
      (s.blocks, if todo != [] && hit then WithBatchStatus(s.batches, todo[0], Confirmed) else s.batches)
    case LookingUp(_, _) => (s.blocks, s.batches)
    case MarkingPaid(k, _) => (WithStatus(s.blocks, k, Paid), s.batches)
  }

  /** The confirmer after its next section; None when its loop is done. */
  function ConfirmerNext(s: State, c: Confirmer, hit: bool): Option<Confirmer> {
    match c
    case Confirming(todo) =>
      if todo == [] then None else Some(if hit then LookingUp(todo[0], todo[1..]) else Confirming(todo[1..]))
    case LookingUp(b, todo) =>
      if b < |s.batches| then
        match LatestInRound(s.blocks, s.batches[b].roundId)
        case Some(k) => Some(MarkingPaid(k, todo))
        case None => Some(Confirming(todo))
      else Some(Confirming(todo))
    case MarkingPaid(_, todo) => Some(Confirming(todo))
  }

  // ----- startup -----

  function StartupNext(s: State, answer: bool): State {
    match s.startup
    case Started => s
    case Reconciling(todo) =>
      if todo == [] then s.(startup := Started)
      else if answer then
        s.(blocks := WithStatus(s.blocks, todo[0], Orphaned), startup := ClosingOrphan(todo[0], todo[1..]))
      else s.(startup := Reconciling(todo[1..]))
    case ClosingOrphan(b, todo) => s.(rounds := OrphanClosed(s, b), startup := Reconciling(todo))
    case Settling(c) =>
      var (blocks, batches) := ConfirmedTables(s, c, answer);
      var next := ConfirmerNext(s, c, answer);
      s.(blocks := blocks, batches := batches, startup := if next.None? then Started else Settling(next.value))
    case CatchingUp(todo, done) =>
      if todo == [] then s.(queue := s.queue + MaturedEvents(s.blocks, done), startup := Started)
      else s.(blocks := WithStatus(s.blocks, todo[0], Matured), startup := CatchingUp(todo[1..], done + [todo[0]]))
  }

  /** Everything in memory is lost; the tables stay. */
  function Restarted(s: State): State {
    s.(tip := 0, queue := [], finders := map[], consumer := Listening, startup := Started, handler := Waiting,
       admins := {})
  }

  // ----- payout handler -----

  function Received(s: State): State {
    if s.queue == [] then s
    else
      match s.queue[0]
      case BlockMatured(hash) =>
        var b := FindBlock(s.blocks, hash);
        s.(queue := s.queue[1..], handler := if b.Some? then Guarding(b.value) else Waiting)
      case BlockConnected(txids) => s.(queue := s.queue[1..], handler := ListingSubmitted(txids))
  }

  /** On to the next batch. */
  function Skipped(todo: seq<nat>): Handler {
    Processing(if todo == [] then [] else todo[1..])
  }

  /** A rebuild plans with the latest block of the batch's round. */
  function LookedUp(s: State, todo: seq<nat>): Handler {
    if todo != [] && todo[0] < |s.batches| then
      match LatestInRound(s.blocks, s.batches[todo[0]].roundId)
      case Some(k) => Replanning(k, todo)
      case None => Skipped(todo)
    else Skipped(todo)
  }

  function HandlerNext(s: State): State {
    match s.handler
    case Waiting => Received(s)
    case Guarding(b) =>
      s.(handler := if b < |s.blocks| && !PrefixGuard(s.batches, s.blocks[b].hash) then Creating(b) else ListingPending)
    case Creating(_) => s
    case ListingSubmitted(txids) => s.(handler := Scanning(Confirming(SettledIds(s.batches, txids))))
    case Scanning(c) =>
      var (blocks, batches) := ConfirmedTables(s, c, true);
      var next := ConfirmerNext(s, c, true);
      s.(blocks := blocks, batches := batches, handler := if next.None? then ListingPending else Scanning(next.value))
    case ListingPending => s.(handler := Processing(BatchIds(s.batches, Pending)))
    case Processing(todo) => if todo == [] then s.(handler := Waiting) else s
    case Reloading(todo) =>
      s.(handler :=
           if todo != [] && todo[0] < |s.batches| && s.batches[todo[0]].status == Pending
           then LookingUpBlock(todo) else Skipped(todo))
    case LookingUpBlock(todo) => s.(handler := LookedUp(s, todo))
    case Replanning(_, _) => s
    case Marking(b, txid, todo) => s.(batches := MarkedSubmitted(s.batches, b, txid), handler := Processing(todo))
  }

  /** A payout transaction; `found` says whether the block's winning share outcome exists. */
  ghost function PaidOut(cfg: Config, s: State, block: nat, inputs: Inputs, found: bool): seq<Batch> {
    if found && block < |s.blocks| then Created(cfg, s.batches, s.blocks[block], inputs) else s.batches
  }

  /** The rebuild's transaction, with the block looked up before; a failure skips the batch. */
  ghost function Replanned(cfg: Config, s: State, inputs: Inputs, found: bool): State
    requires s.handler.Replanning?
  {
    var todo := s.handler.todo;
    if found && todo != [] && s.handler.block < |s.blocks| && CanPlan(cfg, s.blocks[s.handler.block], inputs)
    then s.(batches := WithPayouts(s.batches, todo[0], OutputsOf(cfg, s.blocks[s.handler.block], inputs)),
            handler := Processing(todo))
    else s.(handler := Skipped(todo))
  }

  predicate AtBatch(s: State) {
    s.handler.Processing? && s.handler.todo != []
  }

  predicate Eligible(s: State, hash: string) {
    var b := FindBlock(s.blocks, hash);
    b.Some? && s.blocks[b.value].status != Orphaned && s.blocks[b.value].status != Paid
  }

  // ----- steps -----

  function MinerNext(s: State, e: MinerEvent): State {
    match e
    case OpenRound(t) => s.(rounds := Rounds.GetOrCreate(s.rounds, t).0)
    case FindBlockOn(session, t, find) =>
      if session !in s.finders && IsHash(find.hash) then Finding(s, session, t, find) else s
    case FinderStep(session) => if session in s.finders then FinderNext(s, session) else s
  }

  function ChainNext(cfg: Config, s: State, e: ChainEvent): State {
    match e
    case Disconnect(hash) => if s.consumer.Listening? then Disconnected(s, hash) else s
    case Connect(hash, height, txids) => if s.consumer.Listening? then Connected(s, hash, height, txids) else s
    case ConsumerStep => ConsumerNext(cfg, s)
  }

  function BootNext(cfg: Config, s: State, e: StartupEvent): State {
    match e
    case Restart => if !s.handler.Marking? then Restarted(s) else s
    case ReconcileBlocks =>
      if s.startup.Started? then s.(startup := Reconciling(ImmatureIds(s.blocks))) else s
    case ReconcilePayouts =>
      if s.startup.Started? then s.(startup := Settling(Confirming(BatchIds(s.batches, Submitted)))) else s
    case CheckAtStartup(nodeTip) =>
      if s.startup.Started?
      then s.(startup := CatchingUp(DueIds(s.blocks, nodeTip, cfg.confirmations), []), tips := s.tips + {nodeTip})
      else s
    case StartupStep(answer) => StartupNext(s, answer)
  }

  ghost function PayoutNext(cfg: Config, s: State, e: PayoutStep): State {
    match e
    case HandlerStep => HandlerNext(s)
    case CreateStep(inputs, found) =>
      if s.handler.Creating?
      then s.(batches := PaidOut(cfg, s, s.handler.block, inputs, found), handler := ListingPending)
      else s
    case SkipBatch => if AtBatch(s) then s.(handler := Processing(s.handler.todo[1..])) else s
    case FindRowsMissing =>
      if AtBatch(s) && s.handler.todo[0] < |s.batches| && s.batches[s.handler.todo[0]].payouts == []
      then s.(handler := Reloading(s.handler.todo))
      else s
    case Replan(inputs, found) => if s.handler.Replanning? then Replanned(cfg, s, inputs, found) else s
    case Sign(txid) =>
      if AtBatch(s)
      then s.(signed := s.signed + [s.handler.todo[0]],
              handler := Marking(s.handler.todo[0], txid, s.handler.todo[1..]))
      else s
  }

  ghost function OperatorNext(cfg: Config, s: State, e: OperatorEvent): State {
    match e
    case AdminCheck(hash) =>
      if Eligible(s, hash) then s.(admins := s.admins + {FindBlock(s.blocks, hash).value}) else s
    case AdminCreate(block, inputs, found) =>
      if block in s.admins
      then s.(batches := PaidOut(cfg, s, block, inputs, found), admins := s.admins - {block})
      else s
    case DeletePayouts(batch) => s.(batches := WithPayouts(s.batches, batch, []))
  }

  ghost function Step(cfg: Config, s: State, e: Event): State {
    match e
    case Miner(m) => MinerNext(s, m)
    case Chain(c) => ChainNext(cfg, s, c)
    case Boot(b) => BootNext(cfg, s, b)
    case Payout(p) => PayoutNext(cfg, s, p)
    case Operator(o) => OperatorNext(cfg, s, o)
  }

  ghost function Run(cfg: Config, s: State, events: seq<Event>): State
    decreases |events|
  {
    if events == [] then s else Run(cfg, Step(cfg, s, events[0]), events[1..])
  }
}
