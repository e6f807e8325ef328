/**
 The found-block and payout-batch tables and the statements run on them. Row ids
 are positions; rows are never deleted. A block hash is unique.
 */
module Tables {
  import opened Text
  import opened PayoutPlan

  datatype BlockStatus = Immature | Matured | Orphaned | Paid

  datatype FoundBlock = FoundBlock(
    roundId: nat, hash: string, height: int, status: BlockStatus, coinbaseValue: nat)

  datatype BatchStatus = Pending | Submitted | Confirmed

  datatype Batch = Batch(
    roundId: nat, status: BatchStatus, gross: int, fee: int, retryKey: string,
    txid: Option<string>, payouts: seq<PayoutOutput>)

  // ----- found blocks -----

  function FindBlock(blocks: seq<FoundBlock>, hash: string): (id: Option<nat>)
    ensures id.Some? ==> id.value < |blocks| && blocks[id.value].hash == hash
    ensures id.None? ==> forall i | 0 <= i < |blocks| :: blocks[i].hash != hash
  {
    if blocks == [] then None
    else
      var n := |blocks| - 1;
      var first := FindBlock(blocks[..n], hash);
      assert forall i | 0 <= i < n :: blocks[i] == blocks[..n][i];
      if first.Some? then first else if blocks[n].hash == hash then Some(n) else None
  }

  /** The most recent block of a round. */
  function LatestInRound(blocks: seq<FoundBlock>, roundId: nat): (id: Option<nat>)
    ensures id.Some? ==> id.value < |blocks| && blocks[id.value].roundId == roundId
    ensures id.Some? ==> forall i | id.value < i < |blocks| :: blocks[i].roundId != roundId
    ensures id.None? ==> forall i | 0 <= i < |blocks| :: blocks[i].roundId != roundId
  {
    if blocks == [] then None
    else
      var n := |blocks| - 1;
      assert forall i | 0 <= i < n :: blocks[i] == blocks[..n][i];
      if blocks[n].roundId == roundId then Some(n) else LatestInRound(blocks[..n], roundId)
  }

  /** Lookups by round and by hash do not depend on statuses. */
  lemma {:induction false} LatestKept(blocks: seq<FoundBlock>, blocks': seq<FoundBlock>, roundId: nat)
    requires |blocks'| == |blocks| && forall i | 0 <= i < |blocks| :: blocks'[i].roundId == blocks[i].roundId
    ensures LatestInRound(blocks', roundId) == LatestInRound(blocks, roundId)
  {
    if blocks != [] {
      var n := |blocks| - 1;
      if blocks[n].roundId != roundId { LatestKept(blocks[..n], blocks'[..n], roundId); }
    }
  }

  lemma {:induction false} FindKept(blocks: seq<FoundBlock>, blocks': seq<FoundBlock>, hash: string)
    requires |blocks'| == |blocks| && forall i | 0 <= i < |blocks| :: blocks'[i].hash == blocks[i].hash
    ensures FindBlock(blocks', hash) == FindBlock(blocks, hash)
  {
    if blocks != [] {
      var n := |blocks| - 1;
      FindKept(blocks[..n], blocks'[..n], hash);
    }
  }

  /** The insert fails on a known hash and on a value SQLite cannot store. */
  predicate CanRecord(blocks: seq<FoundBlock>, hash: string, coinbaseValue: nat) {
    FindBlock(blocks, hash).None? && coinbaseValue <= I64_MAX
  }

  function Recorded(blocks: seq<FoundBlock>, roundId: nat, hash: string, height: int, coinbaseValue: nat)
    : seq<FoundBlock>
  {
    if CanRecord(blocks, hash, coinbaseValue)
    then blocks + [FoundBlock(roundId, hash, height, Immature, coinbaseValue)]
    else blocks
  }

  function WithStatus(blocks: seq<FoundBlock>, id: nat, status: BlockStatus): (r: seq<FoundBlock>)
    ensures |r| == |blocks|
  {
    if id < |blocks| then blocks[id := blocks[id].(status := status)] else blocks
  }

  function MarkedOrphaned(blocks: seq<FoundBlock>, hash: string): (r: seq<FoundBlock>)
    ensures |r| == |blocks|
  {
    match FindBlock(blocks, hash)
    case Some(i) => WithStatus(blocks, i, Orphaned)
    case None => blocks
  }

  /** Only touches a row whose status is orphaned. */
  function UnOrphaned(blocks: seq<FoundBlock>, hash: string): (r: seq<FoundBlock>)
    ensures |r| == |blocks|
  {
    match FindBlock(blocks, hash)
    case Some(i) => if blocks[i].status == Orphaned then WithStatus(blocks, i, Immature) else blocks
    case None => blocks
  }

  /** The tip gives the block at least the required confirmations; heights are unbounded integers. */
  predicate Deep(height: int, tip: int, confirmations: int) {
    tip - height + 1 >= confirmations
  }

  /** The positions that hold true, largest first: `ORDER BY id DESC`. */
  function Selected(keep: seq<bool>): (ids: seq<nat>)
    ensures forall x: nat :: x in ids <==> x < |keep| && keep[x]
    ensures Falling(ids)
  {
    if keep == [] then []
    else
      var n := |keep| - 1;
      var rest := Selected(keep[..n]);
      assert forall x: nat :: x in [n] + rest <==> x == n || x in rest;
      assert forall k | 0 <= k < |rest| :: rest[k] in rest;
      if keep[n] then [n] + rest else rest
  }

  predicate Falling(ids: seq<nat>) {
    forall i, j | 0 <= i < j < |ids| :: ids[i] > ids[j]
  }

  predicate Due(block: FoundBlock, tip: int, confirmations: int) {
    block.status == Immature && Deep(block.height, tip, confirmations)
  }

  /** Ids of the immature blocks that are deep enough, newest first. */
  function DueIds(blocks: seq<FoundBlock>, tip: int, confirmations: int): (ids: seq<nat>)
    ensures forall x: nat :: x in ids <==>
      x < |blocks| && blocks[x].status == Immature && tip - blocks[x].height + 1 >= confirmations
    ensures Falling(ids)
  {
    Selected(seq(|blocks|, i requires 0 <= i < |blocks| => Due(blocks[i], tip, confirmations)))
  }

  /**
   Orphaning then un-orphaning leaves the block immature and every other row as it was,
   and un-orphaning does nothing to a block that is not orphaned.
   */
  lemma OrphanRoundTrip(blocks: seq<FoundBlock>, i: nat)
    requires DistinctHashes(blocks) && i < |blocks|
    ensures UnOrphaned(MarkedOrphaned(blocks, blocks[i].hash), blocks[i].hash) == WithStatus(blocks, i, Immature)
    ensures blocks[i].status != Orphaned ==> UnOrphaned(blocks, blocks[i].hash) == blocks
    ensures forall j | 0 <= j < |blocks| && j != i :: MarkedOrphaned(blocks, blocks[i].hash)[j] == blocks[j]
  {
    var orphaned := MarkedOrphaned(blocks, blocks[i].hash);
    assert FindBlock(blocks, blocks[i].hash) == Some(i);
    assert forall j | 0 <= j < |blocks| :: orphaned[j].hash == blocks[j].hash;
    assert FindBlock(orphaned, blocks[i].hash) == Some(i);
  }

  /** Ids of the immature blocks, newest first. */
  function ImmatureIds(blocks: seq<FoundBlock>): (ids: seq<nat>)
    ensures forall x: nat :: x in ids <==> x < |blocks| && blocks[x].status == Immature
    ensures Falling(ids)
  {
    Selected(seq(|blocks|, i requires 0 <= i < |blocks| => blocks[i].status == Immature))
  }

  // ----- batches -----

  /** Ids of the batches with a status, newest first. */
  function BatchIds(batches: seq<Batch>, status: BatchStatus): (ids: seq<nat>)
    ensures forall x: nat :: x in ids <==> x < |batches| && batches[x].status == status
    ensures Falling(ids)
  {
    Selected(seq(|batches|, i requires 0 <= i < |batches| => batches[i].status == status))
  }

  predicate Settled(batch: Batch, txids: seq<string>) {
    batch.status == Submitted && batch.txid.Some? && batch.txid.value in txids
  }

  /** Ids of the submitted batches whose transaction is among `txids`, newest first. */
  function SettledIds(batches: seq<Batch>, txids: seq<string>): (ids: seq<nat>)
    ensures forall x: nat :: x in ids <==>
      x < |batches| && batches[x].status == Submitted && batches[x].txid.Some? && batches[x].txid.value in txids
    ensures Falling(ids)
  {
    Selected(seq(|batches|, i requires 0 <= i < |batches| => Settled(batches[i], txids)))
  }

  /** The join of batches with found blocks on the round, filtered by status. */
  predicate RoundHas(batches: seq<Batch>, roundId: nat, status: BatchStatus) {
    exists i :: 0 <= i < |batches| && batches[i].roundId == roundId && batches[i].status == status
  }

  /** The count query of the creation guard is positive. */
  predicate LikeGuard(batches: seq<Batch>, hash: string) {
    exists i :: 0 <= i < |batches| && Like(hash + "%", batches[i].retryKey)
  }

  /** The handler's own scan of retry keys. */
  predicate PrefixGuard(batches: seq<Batch>, hash: string) {
    exists i :: 0 <= i < |batches| && hash <= batches[i].retryKey
  }

  function WithBatchStatus(batches: seq<Batch>, id: nat, status: BatchStatus): (r: seq<Batch>)
    ensures |r| == |batches|
  {
    if id < |batches| then batches[id := batches[id].(status := status)] else batches
  }

  function MarkedSubmitted(batches: seq<Batch>, id: nat, txid: string): (r: seq<Batch>)
    ensures |r| == |batches|
  {
    if id < |batches| then batches[id := batches[id].(status := Submitted, txid := Some(txid))] else batches
  }

  function WithPayouts(batches: seq<Batch>, id: nat, payouts: seq<PayoutOutput>): (r: seq<Batch>)
    ensures |r| == |batches|
  {
    if id < |batches| then batches[id := batches[id].(payouts := payouts)] else batches
  }

  // ----- creating and rebuilding a payout -----

  datatype Config = Config(confirmations: int, feeBps: nat, minPayout: int)

  /** What a payout transaction reads under the lock: the window and the dust balances. */
  datatype Inputs = Inputs(shares: seq<ShareEntry>, dust: seq<(string, int)>)

  function FeeFor(cfg: Config, block: FoundBlock): int {
    PoolFee(RewardFromCoinbase(block.coinbaseValue), cfg.feeBps)
  }

  ghost function OutputsOf(cfg: Config, block: FoundBlock, inputs: Inputs): seq<PayoutOutput> {
    OutputsFrom(cfg, block.coinbaseValue, inputs)
  }

  ghost function OutputsFrom(cfg: Config, coinbase: nat, inputs: Inputs): seq<PayoutOutput> {
    var gross := RewardFromCoinbase(coinbase);
    PlanOutputs(inputs.shares, inputs.dust, gross, gross - PoolFee(gross, cfg.feeBps), cfg.minPayout)
  }

  ghost function NewBatch(cfg: Config, block: FoundBlock, inputs: Inputs): Batch {
    var outputs := OutputsOf(cfg, block, inputs);
    Batch(block.roundId, Pending, RewardFromCoinbase(block.coinbaseValue), FeeFor(cfg, block),
          RetryKey(block.hash, |outputs|), None, outputs)
  }

  /** The creation transaction: nothing happens when the guard finds a batch of this hash. */
  ghost function Created(cfg: Config, batches: seq<Batch>, block: FoundBlock, inputs: Inputs): seq<Batch> {
    if LikeGuard(batches, block.hash) then batches else batches + [NewBatch(cfg, block, inputs)]
  }

  /** The window is not empty and the plan has outputs. */
  ghost predicate CanPlan(cfg: Config, block: FoundBlock, inputs: Inputs) {
    inputs.shares != [] && OutputsOf(cfg, block, inputs) != []
  }

  ghost predicate CanRebuild(cfg: Config, blocks: seq<FoundBlock>, batches: seq<Batch>, id: nat, inputs: Inputs) {
    && id < |batches| && batches[id].status == Pending
    && var k := LatestInRound(blocks, batches[id].roundId);
       k.Some? && CanPlan(cfg, blocks[k.value], inputs)
  }

  /** The rebuild replaces the payout rows and nothing else of the batch. */
  ghost function Rebuilt(cfg: Config, blocks: seq<FoundBlock>, batches: seq<Batch>, id: nat, inputs: Inputs)
    : seq<Batch>
  {
    if CanRebuild(cfg, blocks, batches, id, inputs)
    then WithPayouts(batches, id, OutputsOf(cfg, blocks[LatestInRound(blocks, batches[id].roundId).value], inputs))
    else batches
  }

  // ----- which block a batch belongs to -----

  ghost predicate DistinctHashes(blocks: seq<FoundBlock>) {
    && (forall i | 0 <= i < |blocks| :: IsHash(blocks[i].hash))
    && forall i, j | 0 <= i < j < |blocks| :: blocks[i].hash != blocks[j].hash
  }

  /** The hash a batch was created for. */
  function HashOf(batch: Batch): string {
    if |batch.retryKey| < 64 then batch.retryKey else batch.retryKey[..64]
  }

  /** The batch was created for block `i`. */
  ghost predicate OwnedBy(blocks: seq<FoundBlock>, batch: Batch, i: nat) {
    i < |blocks| && blocks[i].hash == HashOf(batch) && batch.roundId == blocks[i].roundId
  }

  ghost predicate Owned(blocks: seq<FoundBlock>, batch: Batch) {
    exists i :: OwnedBy(blocks, batch, i)
  }

  /** Every batch belongs to a block, and no two belong to the same one. */
  ghost predicate KeyInvariant(blocks: seq<FoundBlock>, batches: seq<Batch>) {
    && DistinctHashes(blocks)
    && (forall j | 0 <= j < |batches| :: Owned(blocks, batches[j]))
    && forall j, k | 0 <= j < k < |batches| :: HashOf(batches[j]) != HashOf(batches[k])
  }

  /** The guard's LIKE and the handler's starts_with are both equality on the 64-digit hash. */
  lemma GuardIsEquality(hash: string, batch: Batch)
    requires IsHash(hash) && IsHash(HashOf(batch))
    ensures Like(hash + "%", batch.retryKey) <==> hash == HashOf(batch)
    ensures hash <= batch.retryKey <==> hash == HashOf(batch)
  {
    var key, owner := batch.retryKey, HashOf(batch);
    LikePrefix(hash, key);
    assert key[..64] == owner;
    if Like(hash + "%", key) {
      forall i | 0 <= i < 64
        ensures hash[i] == owner[i]
      {
        assert owner[i] == key[i] && IsLowerHex(owner[i]);
      }
      assert hash == owner;
    }
    if hash == owner {
      forall i | 0 <= i < 64
        ensures Fold(key[i]) == hash[i]
      {
        assert hash[i] == key[i] && IsLowerHex(hash[i]);
      }
    }
  }

  lemma RetryKeyHash(hash: string, count: nat)
    requires |hash| == 64
    ensures |RetryKey(hash, count)| >= 64 && RetryKey(hash, count)[..64] == hash
  {
  }

  /** The guards refuse exactly when the block has a batch. */
  lemma GuardIff(blocks: seq<FoundBlock>, batches: seq<Batch>, hash: string)
    requires KeyInvariant(blocks, batches) && IsHash(hash)
    ensures LikeGuard(batches, hash) <==> exists j :: 0 <= j < |batches| && HashOf(batches[j]) == hash
    ensures PrefixGuard(batches, hash) <==> exists j :: 0 <= j < |batches| && HashOf(batches[j]) == hash
  {
    forall j | 0 <= j < |batches|
      ensures Like(hash + "%", batches[j].retryKey) <==> HashOf(batches[j]) == hash
      ensures hash <= batches[j].retryKey <==> HashOf(batches[j]) == hash
    {
      var i: nat :| OwnedBy(blocks, batches[j], i);
      GuardIsEquality(hash, batches[j]);
    }
    if j :| 0 <= j < |batches| && HashOf(batches[j]) == hash {
      assert Like(hash + "%", batches[j].retryKey) && hash <= batches[j].retryKey;
    }
  }
}
