/**
 The accounting service and the event handlers that drive it, one call at a time:
 table updates in place, with the loops of the source.
 */
module Accounting {
  import opened Orders
  import opened Text
  import opened PayoutPlan
  import opened Tables
  import opened Reorg
  import opened Snapshots
  import opened Pool
  import opened PoolGrowth
  import opened PoolPayouts
  import opened PoolStartup
  import Rounds

  // ----- facts about id lists -----

  predicate Above(x: nat, y: nat) {
    x > y
  }

  lemma FallingUnique(a: seq<nat>, b: seq<nat>)
    requires Falling(a) && Falling(b) && forall x :: x in a <==> x in b
    ensures a == b
  {
    assert Elements(a) == Elements(b);
    SortedUnique(a, b, Above);
  }

  lemma PrefixGrows(ids: seq<nat>, k: nat)
    requires k < |ids|
    ensures forall x: nat :: x in ids[..k + 1] <==> x in ids[..k] || x == ids[k]
    ensures Falling(ids) ==> forall x | x in ids[..k] :: x > ids[k]
  {
    assert ids[..k + 1] == ids[..k] + [ids[k]];
  }

  lemma {:induction false} EventsAppend(blocks: seq<FoundBlock>, ids: seq<nat>, x: nat)
    requires x < |blocks|
    ensures MaturedEvents(blocks, ids + [x]) == MaturedEvents(blocks, ids) + [BlockMatured(blocks[x].hash)]
  {
    if ids == [] {
      assert [] + [x] == [x] && [x][1..] == [];
    } else {
      assert (ids + [x])[1..] == ids[1..] + [x];
      EventsAppend(blocks, ids[1..], x);
    }
  }

  // ----- what the loops do, row by row -----

  /** Some submitted batch, its transaction among `txids`, belongs to a round whose latest block is `i`. */
  ghost predicate Settles(blocks: seq<FoundBlock>, batches: seq<Batch>, txids: seq<string>, i: nat) {
    exists j ::
      && 0 <= j < |batches| && LatestInRound(blocks, batches[j].roundId) == Some(i)
      && batches[j].status == Submitted && batches[j].txid.Some? && batches[j].txid.value in txids
  }

  /** The same, for a batch among `ids`. */
  ghost predicate PaidThrough(blocks: seq<FoundBlock>, batches: seq<Batch>, txids: seq<string>, ids: seq<nat>, i: nat) {
    exists j ::
      && j in ids && j < |batches| && Settled(batches[j], txids)
      && LatestInRound(blocks, batches[j].roundId) == Some(i)
  }

  /** An immature block the node's chain does not contain. */
  predicate Gone(block: FoundBlock, tip: int, canonical: map<int, string>) {
    block.status == Immature &&
    (block.height > tip || (block.height in canonical && canonical[block.height] != block.hash))
  }

  predicate LosesBlock(blocks: seq<FoundBlock>, tip: int, canonical: map<int, string>, ids: seq<nat>, roundId: nat) {
    exists i :: i in ids && i < |blocks| && Gone(blocks[i], tip, canonical) && blocks[i].roundId == roundId
  }

  /** Some block of the round became orphaned. */
  ghost predicate LostBlock(before: seq<FoundBlock>, after: seq<FoundBlock>, roundId: nat) {
    exists i :: 0 <= i < |before| && i < |after| && before[i].roundId == roundId
      && before[i].status != Orphaned && after[i].status == Orphaned
  }

  /** Blocks and rounds after the reconciliation has visited `ids`. */
  ghost predicate ReconciledUpTo(
    rows: seq<FoundBlock>, blocks: seq<FoundBlock>, rounds0: seq<Rounds.Round>, rounds: seq<Rounds.Round>,
    tip: int, canonical: map<int, string>, ids: seq<nat>)
  {
    && |blocks| == |rows| && |rounds| == |rounds0|
    && (forall i: nat | i < |rows| ::
          blocks[i] == if i in ids && Gone(rows[i], tip, canonical) then rows[i].(status := Orphaned) else rows[i])
    && forall r: nat | r < |rounds0| ::
         rounds[r] == if LosesBlock(rows, tip, canonical, ids, r)
                      then rounds0[r].(end := Some(0), status := Rounds.OrphanedRound) else rounds0[r]
  }

  lemma ReconciledOneMore(
    rows: seq<FoundBlock>, blocks: seq<FoundBlock>, rounds0: seq<Rounds.Round>, rounds: seq<Rounds.Round>,
    tip: int, canonical: map<int, string>, ids: seq<nat>, k: nat)
    requires DistinctHashes(rows) && k < |ids| && ids[k] < |rows|
    requires ReconciledUpTo(rows, blocks, rounds0, rounds, tip, canonical, ids[..k])
    ensures !Gone(rows[ids[k]], tip, canonical) ==>
      ReconciledUpTo(rows, blocks, rounds0, rounds, tip, canonical, ids[..k + 1])
    ensures Gone(rows[ids[k]], tip, canonical) ==>
      ReconciledUpTo(
        rows, MarkedOrphaned(blocks, rows[ids[k]].hash), rounds0,
        Rounds.Close(rounds, rows[ids[k]].roundId, 0, Rounds.OrphanedRound), tip, canonical, ids[..k + 1])
  {
    PrefixGrows(ids, k);
    LosesOneMore(rows, tip, canonical, ids, k);
    assert FindBlock(blocks, rows[ids[k]].hash) == Some(ids[k]);
  }

  /** The rounds that lose a block are those of the blocks that became orphaned. */
  lemma LosesIff(rows: seq<FoundBlock>, blocks: seq<FoundBlock>, tip: int, canonical: map<int, string>)
    requires |blocks| == |rows| && forall i: nat | i < |rows| ::
      blocks[i] == if Gone(rows[i], tip, canonical) then rows[i].(status := Orphaned) else rows[i]
    ensures forall r: nat :: LosesBlock(rows, tip, canonical, ImmatureIds(rows), r) <==> LostBlock(rows, blocks, r)
  {
    forall r: nat
      ensures LosesBlock(rows, tip, canonical, ImmatureIds(rows), r) <==> LostBlock(rows, blocks, r)
    {
      if i :| 0 <= i < |rows| && rows[i].roundId == r && rows[i].status != Orphaned && blocks[i].status == Orphaned {
        assert i in ImmatureIds(rows) && Gone(rows[i], tip, canonical);
      }
      if i :| i in ImmatureIds(rows) && i < |rows| && Gone(rows[i], tip, canonical) && rows[i].roundId == r {
        assert blocks[i].status == Orphaned && rows[i].status != Orphaned;
      }
    }
  }

  ghost predicate HasBatch(batches: seq<Batch>, hash: string) {
    exists j :: 0 <= j < |batches| && HashOf(batches[j]) == hash
  }

  /** The rows a rebuild writes where there are none; none again when it fails. */
  ghost function RebuiltRows(cfg: Config, blocks: seq<FoundBlock>, batch: Batch, found: bool, inputs: Inputs)
    : seq<PayoutOutput>
  {
    var k := LatestInRound(blocks, batch.roundId);
    if found && k.Some? && inputs.shares != [] then OutputsOf(cfg, blocks[k.value], inputs) else []
  }

  lemma RebuildsRows(
    cfg: Config, blocks: seq<FoundBlock>, batches: seq<Batch>, b: nat, found: bool, inputs: Inputs,
    rows: seq<PayoutOutput>)
    requires b < |batches| && batches[b].status == Pending && batches[b].payouts == []
    requires rows == RebuiltRows(cfg, blocks, batches[b], found, inputs)
    ensures rows != [] <==> found && CanRebuild(cfg, blocks, batches, b, inputs)
    ensures found ==> Rebuilt(cfg, blocks, batches, b, inputs) == WithPayouts(batches, b, rows)
  {
  }

  /** What the node and the signer answer for one batch. */
  datatype Answer = NodeDown | Reached(found: bool, shares: seq<ShareEntry>, signed: Option<string>)

  /** What one pass does to a batch row that it visits or not, and submits or not. */
  ghost predicate RowProcessed(b: Batch, b': Batch, answer: Answer, visited: bool, sent: bool) {
    && SameBatch(b, b')
    && (!visited ==> b' == b)
    && (b.payouts != [] ==> b'.payouts == b.payouts)
    && (sent <==> visited && answer.Reached? && answer.signed.Some? && b'.payouts != [])
    && (if sent then b'.status == Submitted && b'.txid == answer.signed else b'.status == b.status && b'.txid == b.txid)
  }

  ghost predicate Processed(
    before: seq<Batch>, after: seq<Batch>, answers: seq<Answer>, visited: seq<nat>, sent: seq<nat>)
  {
    && |after| == |before| == |answers|
    && forall j: nat | j < |before| :: RowProcessed(before[j], after[j], answers[j], j in visited, j in sent)
  }

  /** The rows a pass leaves a batch with: its own, or where it had none those of a rebuild at that moment. */
  ghost predicate RowsFrom(
    cfg: Config, blocks: seq<FoundBlock>, b: Batch, rows: seq<PayoutOutput>, answer: Answer, visited: bool)
  {
    if visited && answer.Reached? && b.payouts == []
    then exists dust :: rows == RebuiltRows(cfg, blocks, b, answer.found, Inputs(answer.shares, dust))
    else rows == b.payouts
  }

  ghost predicate Filled(
    cfg: Config, blocks: seq<FoundBlock>, before: seq<Batch>, after: seq<Batch>, answers: seq<Answer>,
    visited: seq<nat>)
  {
    && |after| == |before| == |answers|
    && forall j: nat | j < |before| :: RowsFrom(cfg, blocks, before[j], after[j].payouts, answers[j], j in visited)
  }

  lemma FilledOneMore(
    cfg: Config, blocks: seq<FoundBlock>, before: seq<Batch>, after: seq<Batch>, after': seq<Batch>,
    answers: seq<Answer>, visited: seq<nat>, visited': seq<nat>, b: nat)
    requires Filled(cfg, blocks, before, after, answers, visited) && b < |after| && after[b] == before[b]
    requires |after'| == |after| && forall j | 0 <= j < |after| && j != b :: after'[j] == after[j]
    requires forall x: nat :: x in visited' <==> x in visited || x == b
    requires RowsFrom(cfg, blocks, after[b], after'[b].payouts, answers[b], true)
    ensures Filled(cfg, blocks, before, after', answers, visited')
  {
    forall j: nat | j < |before|
      ensures RowsFrom(cfg, blocks, before[j], after'[j].payouts, answers[j], j in visited')
    {
      assert RowsFrom(cfg, blocks, before[j], after[j].payouts, answers[j], j in visited);
    }
  }

  lemma SentOneMore(ids: seq<nat>, k: nat, sent: seq<nat>)
    requires k < |ids| && Falling(ids) && Falling(sent) && (forall x | x in sent :: x in ids[..k])
    ensures Falling(sent + [ids[k]])
    ensures forall x: nat :: x in sent + [ids[k]] <==> x in sent || x == ids[k]
    ensures ids[k] !in ids[..k] && ids[k] !in sent
  {
    PrefixGrows(ids, k);
    assert forall m | 0 <= m < |sent| :: sent[m] in sent;
  }

  lemma ProcessedOneMore(
    before: seq<Batch>, after: seq<Batch>, after': seq<Batch>, answers: seq<Answer>,
    visited: seq<nat>, visited': seq<nat>, b: nat, sent: seq<nat>, sent': seq<nat>)
    requires Processed(before, after, answers, visited, sent)
    requires |after'| == |after| && b < |after| && forall j | 0 <= j < |after| && j != b :: after'[j] == after[j]
    requires b !in visited && forall x: nat :: x in visited' <==> x in visited || x == b
    requires forall x: nat | x != b :: x in sent' <==> x in sent
    requires RowProcessed(after[b], after'[b], answers[b], true, b in sent')
    ensures Processed(before, after', answers, visited', sent')
  {
    forall j: nat | j < |before|
      ensures RowProcessed(before[j], after'[j], answers[j], j in visited', j in sent')
    {
      assert RowProcessed(before[j], after[j], answers[j], j in visited, j in sent);
      if j == b {
        assert after[j] == before[j];
      } else {
        assert after'[j] == after[j];
      }
    }
  }

  /** Batches and blocks after confirming the settled batches among `ids`. */
  ghost predicate ConfirmedUpTo(
    rows: seq<Batch>, batches: seq<Batch>, blocks0: seq<FoundBlock>, blocks: seq<FoundBlock>,
    txids: seq<string>, ids: seq<nat>)
  {
    && |batches| == |rows| && |blocks| == |blocks0|
    && (forall j: nat | j < |rows| ::
          batches[j] == if j in ids && Settled(rows[j], txids) then rows[j].(status := Confirmed) else rows[j])
    && (forall i: nat | i < |blocks0| ::
          blocks[i] == if PaidThrough(blocks0, rows, txids, ids, i) then blocks0[i].(status := Paid) else blocks0[i])
  }

  ghost predicate SettledUpTo(rows: seq<Batch>, confirmed: seq<nat>, txids: seq<string>, ids: seq<nat>) {
    && Falling(confirmed)
    && forall x: nat :: x in confirmed <==> x in ids && x < |rows| && Settled(rows[x], txids)
  }

  lemma SettledOneMore(rows: seq<Batch>, confirmed: seq<nat>, txids: seq<string>, ids: seq<nat>, k: nat)
    requires k < |ids| && ids[k] < |rows| && Falling(ids) && SettledUpTo(rows, confirmed, txids, ids[..k])
    ensures Settled(rows[ids[k]], txids) ==> SettledUpTo(rows, confirmed + [ids[k]], txids, ids[..k + 1])
    ensures !Settled(rows[ids[k]], txids) ==> SettledUpTo(rows, confirmed, txids, ids[..k + 1])
  {
    PrefixGrows(ids, k);
    assert forall m | 0 <= m < |confirmed| :: confirmed[m] in confirmed;
    assert forall x :: x in confirmed + [ids[k]] <==> x in confirmed || x == ids[k];
  }

  lemma ConfirmedOneMore(
    rows: seq<Batch>, batches: seq<Batch>, blocks0: seq<FoundBlock>, blocks: seq<FoundBlock>,
    txids: seq<string>, ids: seq<nat>, k: nat)
    requires k < |ids| && ids[k] < |rows| && ConfirmedUpTo(rows, batches, blocks0, blocks, txids, ids[..k])
    ensures !Settled(rows[ids[k]], txids) ==> ConfirmedUpTo(rows, batches, blocks0, blocks, txids, ids[..k + 1])
    ensures Settled(rows[ids[k]], txids) ==>
      var fb := LatestInRound(blocks, rows[ids[k]].roundId);
      var blocks' := if fb.Some? then WithStatus(blocks, fb.value, Paid) else blocks;
      ConfirmedUpTo(rows, WithBatchStatus(batches, ids[k], Confirmed), blocks0, blocks', txids, ids[..k + 1])
  {
    PrefixGrows(ids, k);
    PaidOneMore(blocks0, rows, txids, ids, k);
    LatestKept(blocks0, blocks, rows[ids[k]].roundId);
  }

  /** Blocks after the check has visited `ids`. */
  ghost predicate CheckedUpTo(
    rows: seq<FoundBlock>, blocks: seq<FoundBlock>, tip: int, confirmations: int, ids: seq<nat>)
  {
    && |blocks| == |rows|
    && forall i: nat | i < |rows| ::
         blocks[i] == if i in ids && Deep(rows[i].height, tip, confirmations)
                      then rows[i].(status := Matured) else rows[i]
  }

  /** The rows picked so far, with their ids. */
  ghost predicate Picked(
    rows: seq<FoundBlock>, matured: seq<FoundBlock>, due: seq<nat>, tip: int, confirmations: int, ids: seq<nat>)
  {
    && Falling(due) && |matured| == |due|
    && (forall x: nat :: x in due <==> x in ids && x < |rows| && Deep(rows[x].height, tip, confirmations))
    && forall m | 0 <= m < |due| :: due[m] < |rows| && matured[m] == rows[due[m]]
  }

  lemma CheckedOneMore(
    rows: seq<FoundBlock>, blocks: seq<FoundBlock>, tip: int, confirmations: int, ids: seq<nat>, k: nat)
    requires k < |ids| && ids[k] < |rows| && CheckedUpTo(rows, blocks, tip, confirmations, ids[..k])
    ensures
      var deep := Deep(rows[ids[k]].height, tip, confirmations);
      var blocks' := if deep then WithStatus(blocks, ids[k], Matured) else blocks;
      CheckedUpTo(rows, blocks', tip, confirmations, ids[..k + 1])
  {
    PrefixGrows(ids, k);
  }

  lemma PickedOneMore(
    rows: seq<FoundBlock>, matured: seq<FoundBlock>, due: seq<nat>, tip: int, confirmations: int, ids: seq<nat>, k: nat)
    requires k < |ids| && ids[k] < |rows| && Falling(ids) && Picked(rows, matured, due, tip, confirmations, ids[..k])
    ensures Deep(rows[ids[k]].height, tip, confirmations)
      ==> Picked(rows, matured + [rows[ids[k]]], due + [ids[k]], tip, confirmations, ids[..k + 1])
    ensures !Deep(rows[ids[k]].height, tip, confirmations)
      ==> Picked(rows, matured, due, tip, confirmations, ids[..k + 1])
  {
    PrefixGrows(ids, k);
    assert forall m | 0 <= m < |due| :: due[m] in due;
    assert forall x :: x in due + [ids[k]] <==> x in due || x == ids[k];
  }

  function Tagged(id: nat, shares: seq<ShareEntry>): seq<(nat, ShareEntry)> {
    seq(|shares|, i requires 0 <= i < |shares| => (id, shares[i]))
  }

  lemma TaggedHas(id: nat, shares: seq<ShareEntry>)
    ensures forall x :: x in Tagged(id, shares) <==> x.0 == id && x.1 in shares
  {
    forall x: (nat, ShareEntry) | x.0 == id && x.1 in shares
      ensures x in Tagged(id, shares)
    {
      var i :| 0 <= i < |shares| && shares[i] == x.1;
      assert Tagged(id, shares)[i] == x;
    }
  }

  function Without(snapshots: seq<(nat, ShareEntry)>, id: nat): (r: seq<(nat, ShareEntry)>)
    ensures forall x :: x in r <==> x in snapshots && x.0 != id
  {
    if snapshots == [] then []
    else
      var n := |snapshots| - 1;
      assert snapshots == snapshots[..n] + [snapshots[n]];
      Without(snapshots[..n], id) + if snapshots[n].0 != id then [snapshots[n]] else []
  }

  class Service {
    var rounds: seq<Rounds.Round>
    var blocks: seq<FoundBlock>
    var batches: seq<Batch>
    var dust: seq<(string, int)>
    var snapshots: seq<(nat, ShareEntry)>
    var tip: int
    var queue: seq<PayoutEvent>

    constructor ()
      ensures rounds == [] && blocks == [] && batches == [] && dust == [] && snapshots == [] && tip == 0 && queue == []
    {
      rounds, blocks, batches, dust, snapshots, tip, queue := [], [], [], [], [], 0, [];
    }

    // ----- found blocks -----

    method RecordFoundBlock(roundId: nat, hash: string, height: int, coinbaseValue: nat) returns (ok: bool)
      requires DistinctHashes(blocks) && IsHash(hash)
      modifies this`blocks
      ensures DistinctHashes(blocks)
      ensures ok <==>
        coinbaseValue <= 0x7fff_ffff_ffff_ffff && forall i | 0 <= i < |old(blocks)| :: old(blocks)[i].hash != hash
      ensures blocks ==
        if ok then old(blocks) + [FoundBlock(roundId, hash, height, Immature, coinbaseValue)] else old(blocks)
      ensures blocks == Recorded(old(blocks), roundId, hash, height, coinbaseValue)
    {
      ok := CanRecord(blocks, hash, coinbaseValue);
      if ok {
        blocks := blocks + [FoundBlock(roundId, hash, height, Immature, coinbaseValue)];
      }
    }

    method MarkOrphaned(hash: string)
      modifies this`blocks
      ensures blocks == MarkedOrphaned(old(blocks), hash)
    {
      var b := FindBlock(blocks, hash);
      if b.Some? {
        blocks := blocks[b.value := blocks[b.value].(status := Orphaned)];
      }
    }

    method UnOrphan(hash: string)
      modifies this`blocks
      ensures blocks == UnOrphaned(old(blocks), hash)
    {
      var b := FindBlock(blocks, hash);
      if b.Some? && blocks[b.value].status == Orphaned {
        blocks := blocks[b.value := blocks[b.value].(status := Immature)];
      }
    }

    method UpdateStatus(id: nat, status: BlockStatus)
      modifies this`blocks
      ensures blocks == WithStatus(old(blocks), id, status)
    {
      if id < |blocks| {
        blocks := blocks[id := blocks[id].(status := status)];
      }
    }

    /** Matures every immature block that is deep enough and returns exactly those, newest first. */
    method CheckMaturation(tip: int, confirmations: int) returns (matured: seq<FoundBlock>, ghost due: seq<nat>)
      modifies this`blocks
      ensures blocks == Checked(old(blocks), tip, confirmations)
      ensures |blocks| == |old(blocks)| && forall i | 0 <= i < |blocks| ::
        var b := old(blocks)[i];
        blocks[i] == if b.status == Immature && tip - b.height + 1 >= confirmations then b.(status := Matured) else b
      ensures forall i | 0 <= i < |blocks| :: !Due(blocks[i], tip, confirmations)
      ensures due == DueIds(old(blocks), tip, confirmations) && |matured| == |due|
      ensures forall k | 0 <= k < |due| :: due[k] < |old(blocks)| && matured[k] == old(blocks)[due[k]]
    {
      var rows := blocks;
      var immature := ImmatureIds(rows);
      matured, due := [], [];
      for k := 0 to |immature|
        invariant rows == old(blocks) && CheckedUpTo(rows, blocks, tip, confirmations, immature[..k])
        invariant Picked(rows, matured, due, tip, confirmations, immature[..k])
      {
        var b := immature[k];
        assert b in immature;
        CheckedOneMore(rows, blocks, tip, confirmations, immature, k);
        PickedOneMore(rows, matured, due, tip, confirmations, immature, k);
        if Deep(rows[b].height, tip, confirmations) {
          UpdateStatus(b, Matured);
          matured, due := matured + [rows[b]], due + [b];
        }
      }
      assert immature[..|immature|] == immature;
      FallingUnique(due, DueIds(rows, tip, confirmations));
    }

    /**
     Startup reconciliation: orphans exactly the immature blocks the chain does not contain,
     and closes exactly the rounds of those.
     */
    method ReconcileFoundBlocks(tipHeight: int, canonical: map<int, string>)
      requires DistinctHashes(blocks)
      modifies this`blocks, this`rounds
      ensures |blocks| == |old(blocks)| && |rounds| == |old(rounds)|
      ensures forall i | 0 <= i < |blocks| ::
        var b := old(blocks)[i];
        blocks[i] ==
          if b.status == Immature &&
             (b.height > tipHeight || (b.height in canonical && canonical[b.height] != b.hash))
          then b.(status := Orphaned) else b
      ensures forall r: nat | r < |rounds| ::
        rounds[r] == if LostBlock(old(blocks), blocks, r)
                     then old(rounds)[r].(end := Some(0), status := Rounds.OrphanedRound) else old(rounds)[r]
    {
      var rows := blocks;
      var immature := ImmatureIds(rows);
      for k := 0 to |immature|
        invariant rows == old(blocks)
        invariant ReconciledUpTo(rows, blocks, old(rounds), rounds, tipHeight, canonical, immature[..k])
      {
        var b := immature[k];
        assert b in immature;
        ReconciledOneMore(rows, blocks, old(rounds), rounds, tipHeight, canonical, immature, k);
        if Gone(rows[b], tipHeight, canonical) {
          MarkOrphaned(rows[b].hash);
          rounds := Rounds.Close(rounds, rows[b].roundId, 0, Rounds.OrphanedRound);
        }
      }
      assert immature[..|immature|] == immature;
      LosesIff(rows, blocks, tipHeight, canonical);
    }

    // ----- node events -----

    method HandleBlockDisconnected(hash: string)
      modifies this`blocks, this`rounds
      ensures blocks == MarkedOrphaned(old(blocks), hash)
      ensures
        var b := FindBlock(old(blocks), hash);
        rounds == if b.Some?
                  then Rounds.Close(old(rounds), old(blocks)[b.value].roundId, 0, Rounds.OrphanedRound)
                  else old(rounds)
    {
      var b := FindBlock(blocks, hash);
      if b.None? {
        return;
      }
      var found := blocks[b.value];
      MarkOrphaned(hash);
      rounds := Rounds.Close(rounds, found.roundId, 0, Rounds.OrphanedRound);
    }

    method UpdateBlockConnected(height: int)
      modifies this`tip
      ensures tip == Higher(old(tip), height)
    {
      if height > tip {
        tip := height;
      }
    }

    /** Restores the block if it may be restored. */
    method Reconnect(hash: string)
      modifies this`blocks
      ensures blocks == Restored(old(blocks), batches, hash)
    {
      var b := FindBlock(blocks, hash);
      if b.Some? && blocks[b.value].status == Orphaned {
        var roundId := blocks[b.value].roundId;
        if !RoundHas(batches, roundId, Submitted) {
          var pending := RoundHas(batches, roundId, Pending);
          UnOrphan(hash);
          if pending {
            UpdateStatus(b.value, Matured);
          }
        }
      }
    }

    /** Sends one maturation event per matured block. */
    method SendMatured(matured: seq<FoundBlock>, ghost rows: seq<FoundBlock>, ghost ids: seq<nat>)
      requires |matured| == |ids| && forall k | 0 <= k < |ids| :: ids[k] < |rows| && matured[k] == rows[ids[k]]
      modifies this`queue
      ensures queue == old(queue) + MaturedEvents(rows, ids)
    {
      for k := 0 to |matured|
        invariant queue == old(queue) + MaturedEvents(rows, ids[..k])
      {
        ghost var sent := MaturedEvents(rows, ids[..k]);
        var event := BlockMatured(matured[k].hash);
        assert ids[..k + 1] == ids[..k] + [ids[k]];
        EventsAppend(rows, ids[..k], ids[k]);
        assert old(queue) + sent + [event] == old(queue) + (sent + [event]);
        queue := queue + [event];
      }
      assert ids[..|ids|] == ids;
    }

    method HandleBlockConnected(hash: string, height: int, txids: seq<string>, confirmations: int)
      modifies this`blocks, this`tip, this`queue
      ensures tip == Higher(old(tip), height)
      ensures blocks == AfterConnect(old(blocks), batches, hash, tip, confirmations)
      ensures
        var restored := Restored(old(blocks), batches, hash);
        queue == old(queue) + MaturedEvents(restored, DueIds(restored, tip, confirmations)) + [BlockConnected(txids)]
    {
      UpdateBlockConnected(height);
      Reconnect(hash);
      ghost var restored := blocks;
      var matured, due := CheckMaturation(tip, confirmations);
      SendMatured(matured, restored, due);
      queue := queue + [BlockConnected(txids)];
    }

    // ----- confirming -----

    /**
     Confirms exactly the submitted batches whose transaction is on chain, and marks
     paid exactly the latest blocks of their rounds.
     */
    method ConfirmBatches(txids: seq<string>) returns (confirmed: seq<nat>)
      modifies this`blocks, this`batches
      ensures |batches| == |old(batches)| && |blocks| == |old(blocks)|
      ensures forall j: nat | j < |batches| ::
        var b := old(batches)[j];
        batches[j] == if b.status == Submitted && b.txid.Some? && b.txid.value in txids
                      then b.(status := Confirmed) else b
      ensures forall i: nat | i < |blocks| ::
        blocks[i] == if Settles(old(blocks), old(batches), txids, i)
                     then old(blocks)[i].(status := Paid) else old(blocks)[i]
      ensures Falling(confirmed) && forall j: nat :: j in confirmed <==>
        && j < |batches| && old(batches)[j].status == Submitted
        && old(batches)[j].txid.Some? && old(batches)[j].txid.value in txids
    {
      var rows := batches;
      var submitted := BatchIds(rows, Submitted);
      confirmed := [];
      for k := 0 to |submitted|
        invariant SettledUpTo(rows, confirmed, txids, submitted[..k])
        invariant rows == old(batches) && ConfirmedUpTo(rows, batches, old(blocks), blocks, txids, submitted[..k])
      {
        var b := submitted[k];
        assert b in submitted;
        ConfirmedOneMore(rows, batches, old(blocks), blocks, txids, submitted, k);
        SettledOneMore(rows, confirmed, txids, submitted, k);
        if Settled(rows[b], txids) {
          ConfirmBatch(b);
          confirmed := confirmed + [b];
        }
      }
      assert submitted[..|submitted|] == submitted;
      assert forall i: nat ::
          PaidThrough(old(blocks), rows, txids, submitted, i) <==> Settles(old(blocks), rows, txids, i);
    }

    /** One batch: its status, then the latest block of its round. */
    method ConfirmBatch(b: nat)
      requires b < |batches|
      modifies this`blocks, this`batches
      ensures batches == WithBatchStatus(old(batches), b, Confirmed)
      ensures
        var fb := LatestInRound(old(blocks), old(batches)[b].roundId);
        blocks == if fb.Some? then WithStatus(old(blocks), fb.value, Paid) else old(blocks)
    {
      batches := batches[b := batches[b].(status := Confirmed)];
      var fb := LatestInRound(blocks, batches[b].roundId);
      if fb.Some? {
        UpdateStatus(fb.value, Paid);
      }
    }

    // ----- payouts -----

    /** Payout rows, snapshots and dust of one transaction. */
    method WriteOutputs(id: nat, outputs: seq<PayoutOutput>, shares: seq<ShareEntry>)
      requires UniqueRows(dust)
      modifies this`snapshots, this`dust
      ensures snapshots == old(snapshots) + Tagged(id, Collected(outputs, shares))
      ensures forall x :: x in snapshots <==> x in old(snapshots) || (x.0 == id && x.1 in Collected(outputs, shares))
      ensures dust == Credited(old(dust), outputs)
      ensures UniqueRows(dust) && forall a :: DustOf(dust, a) == DustOf(old(dust), a) + CarriedTo(outputs, a)
    {
      var collected := SnapshotShares(outputs, shares);
      TaggedHas(id, collected);
      snapshots := snapshots + Tagged(id, collected);
      dust := CreditDust(dust, outputs);
    }

    /**
     Creates the batch of a block unless its winning share outcome is missing or the
     guard finds a batch of the same hash; then nothing changes.
     */
    method CreatePayout(cfg: Config, block: FoundBlock, found: bool, shares: seq<ShareEntry>) returns (id: Option<nat>)
      requires UniqueRows(dust)
      modifies this`batches, this`snapshots, this`dust
      ensures UniqueRows(dust)
      ensures id.Some? <==> found && !LikeGuard(old(batches), block.hash)
      ensures id.None? ==> batches == old(batches) && snapshots == old(snapshots) && dust == old(dust)
      ensures id.Some? ==>
        && id.value == |old(batches)|
        && batches == old(batches) + [NewBatch(cfg, block, Inputs(shares, old(dust)))]
        && snapshots == old(snapshots) + Tagged(id.value, Collected(batches[id.value].payouts, shares))
        && dust == Credited(old(dust), batches[id.value].payouts)
    {
      if !found {
        return None;
      }
      var batch := PlanBatch(cfg, block, dust, shares);
      if LikeGuard(batches, block.hash) {
        return None;
      }
      batches := batches + [batch];
      id := Some(|batches| - 1);
      WriteOutputs(id.value, batch.payouts, shares);
    }

    /**
     A maturation event. However often it arrives, a recorded block with a winning share
     outcome ends with exactly one batch.
     */
    method HandleMatured(cfg: Config, hash: string, found: bool, shares: seq<ShareEntry>) returns (created: bool)
      requires UniqueRows(dust) && KeyInvariant(blocks, batches)
      modifies this`batches, this`snapshots, this`dust
      ensures UniqueRows(dust) && KeyInvariant(blocks, batches)
      ensures created <==> FindBlock(blocks, hash).Some? && found && !HasBatch(old(batches), hash)
      ensures !created ==> batches == old(batches) && snapshots == old(snapshots) && dust == old(dust)
      ensures FindBlock(blocks, hash).Some? && found ==> HasBatch(batches, hash)
      ensures created ==>
        var block := blocks[FindBlock(blocks, hash).value];
        && batches == old(batches) + [NewBatch(cfg, block, Inputs(shares, old(dust)))]
        && batches[|old(batches)|].roundId == block.roundId && batches[|old(batches)|].status == Pending
        && batches[|old(batches)|].txid == None
        && batches[|old(batches)|].retryKey == hash + ":" + Decimal(|batches[|old(batches)|].payouts|)
        && snapshots == old(snapshots) + Tagged(|old(batches)|, Collected(batches[|old(batches)|].payouts, shares))
        && dust == Credited(old(dust), batches[|old(batches)|].payouts)
      ensures old(batches) <= batches && |batches| == |old(batches)| + if created then 1 else 0
    {
      var b := FindBlock(blocks, hash);
      if b.None? {
        return false;
      }
      var block := blocks[b.value];
      GuardIff(blocks, batches, hash);
      if PrefixGuard(batches, hash) {
        return false;
      }
      var id := CreatePayout(cfg, block, found, shares);
      created := id.Some?;
      if created {
        NewBatchOwned(cfg, blocks, b.value, Inputs(shares, old(dust)));
        assert Owned(blocks, batches[|old(batches)|]);
        CreatingKeepsKeys(blocks, old(batches), batches[|old(batches)|]);
      }
    }

    /** Replaces the payout rows and snapshots of a pending batch, or fails and changes nothing. */
    method RebuildPayout(cfg: Config, id: nat, found: bool, shares: seq<ShareEntry>) returns (ok: bool)
      requires UniqueRows(dust)
      modifies this`batches, this`snapshots, this`dust
      ensures UniqueRows(dust)
      ensures ok <==> found && CanRebuild(cfg, blocks, old(batches), id, Inputs(shares, old(dust)))
      ensures !ok ==> batches == old(batches) && snapshots == old(snapshots) && dust == old(dust)
      ensures ok ==> found && shares != [] && id < |old(batches)| && old(batches)[id].status == Pending
      ensures ok ==>
        && batches == Rebuilt(cfg, blocks, old(batches), id, Inputs(shares, old(dust)))
        && snapshots == Without(old(snapshots), id) + Tagged(id, Collected(batches[id].payouts, shares))
        && dust == Credited(old(dust), batches[id].payouts)
    {
      ghost var before, inputs := batches, Inputs(shares, dust);
      var outputs := RowsToRebuild(cfg, id, found, shares);
      if outputs == [] {
        return false;
      }
      ReplaceRows(id, outputs, shares);
      assert batches == Rebuilt(cfg, blocks, before, id, inputs);
      ok := true;
    }

    method ReplaceRows(id: nat, outputs: seq<PayoutOutput>, shares: seq<ShareEntry>)
      requires UniqueRows(dust) && id < |batches|
      modifies this`batches, this`snapshots, this`dust
      ensures UniqueRows(dust)
      ensures batches == WithPayouts(old(batches), id, outputs) && batches[id].payouts == outputs
      ensures snapshots == Without(old(snapshots), id) + Tagged(id, Collected(outputs, shares))
      ensures dust == Credited(old(dust), outputs)
    {
      batches := batches[id := batches[id].(payouts := outputs)];
      snapshots := Without(snapshots, id);
      WriteOutputs(id, outputs, shares);
    }

    /** The rows a rebuild would write; none when it has to fail. */
    method RowsToRebuild(cfg: Config, id: nat, found: bool, shares: seq<ShareEntry>)
      returns (outputs: seq<PayoutOutput>)
      ensures outputs != [] <==> found && CanRebuild(cfg, blocks, batches, id, Inputs(shares, dust))
      ensures outputs != [] ==>
        Rebuilt(cfg, blocks, batches, id, Inputs(shares, dust)) == WithPayouts(batches, id, outputs)
    {
      if id >= |batches| || batches[id].status != Pending {
        return [];
      }
      var fb := LatestInRound(blocks, batches[id].roundId);
      if fb.None? || !found || shares == [] {
        return [];
      }
      outputs := PlanRows(cfg, blocks[fb.value], dust, shares);
    }

    /**
     One pass over the pending batches. A batch is submitted, once, exactly when the node
     and the signer answered and it has payout rows. Rows are only added where none were, and
     are then those of a rebuild; when that fails nothing is submitted.
     */
    method ProcessPending(cfg: Config, answers: seq<Answer>) returns (sent: seq<nat>)
      requires UniqueRows(dust) && |answers| == |batches|
      modifies this`batches, this`snapshots, this`dust
      ensures UniqueRows(dust)
      ensures Processed(old(batches), batches, answers, BatchIds(old(batches), Pending), sent)
      ensures Filled(cfg, blocks, old(batches), batches, answers, BatchIds(old(batches), Pending))
      ensures Falling(sent)
    {
      var pending := BatchIds(batches, Pending);
      sent := [];
      for k := 0 to |pending|
        invariant UniqueRows(dust) && Falling(sent) && forall x | x in sent :: x in pending[..k]
        invariant Processed(old(batches), batches, answers, pending[..k], sent)
        invariant Filled(cfg, blocks, old(batches), batches, answers, pending[..k])
      {
        var b := pending[k];
        assert b in pending;
        PrefixGrows(pending, k);
        SentOneMore(pending, k, sent);
        ghost var before, earlier := batches, sent;
        assert RowProcessed(old(batches)[b], batches[b], answers[b], b in pending[..k], b in sent);
        var submitted := SubmitBatch(cfg, b, answers[b]);
        if submitted {
          sent := sent + [b];
        }
        ProcessedOneMore(
          old(batches), before, batches, answers, pending[..k], pending[..k + 1], b, earlier, sent);
        FilledOneMore(
          cfg, blocks, old(batches), before, batches, answers, pending[..k], pending[..k + 1], b);
      }
      assert pending[..|pending|] == pending;
    }

    method RebuildMissing(
      cfg: Config, b: nat, found: bool, shares: seq<ShareEntry>, ghost rows: seq<PayoutOutput>) returns (ok: bool)
      requires UniqueRows(dust) && b < |batches| && batches[b].status == Pending && batches[b].payouts == []
      requires rows == RebuiltRows(cfg, blocks, batches[b], found, Inputs(shares, dust))
      modifies this`batches, this`snapshots, this`dust
      ensures UniqueRows(dust) && batches == WithPayouts(old(batches), b, rows) && (ok <==> rows != [])
    {
      ghost var before, inputs := batches, Inputs(shares, dust);
      RebuildsRows(cfg, blocks, before, b, found, inputs, rows);
      ok := RebuildPayout(cfg, b, found, shares);
      assert ok ==> batches == Rebuilt(cfg, blocks, before, b, inputs);
      assert !ok ==> WithPayouts(before, b, []) == before;
    }

    /** Rebuilds missing payout rows; false when that fails. */
    method LoadRows(cfg: Config, b: nat, found: bool, shares: seq<ShareEntry>) returns (ok: bool)
      requires UniqueRows(dust) && b < |batches| && batches[b].status == Pending
      modifies this`batches, this`snapshots, this`dust
      ensures UniqueRows(dust) && |batches| == |old(batches)|
      ensures forall j | 0 <= j < |batches| && j != b :: batches[j] == old(batches)[j]
      ensures batches[b] == old(batches)[b].(payouts := batches[b].payouts)
      ensures old(batches)[b].payouts != [] ==>
        batches == old(batches) && snapshots == old(snapshots) && dust == old(dust)
      ensures old(batches)[b].payouts == [] ==>
        batches[b].payouts == RebuiltRows(cfg, blocks, old(batches)[b], found, Inputs(shares, old(dust)))
      ensures ok <==> batches[b].payouts != []
    {
      if batches[b].payouts != [] {
        return true;
      }
      ghost var rows := RebuiltRows(cfg, blocks, batches[b], found, Inputs(shares, dust));
      ok := RebuildMissing(cfg, b, found, shares, rows);
    }

    /** One pending batch: rebuild missing rows, sign, record the submission. */
    method SubmitBatch(cfg: Config, b: nat, answer: Answer) returns (submitted: bool)
      requires UniqueRows(dust) && b < |batches| && batches[b].status == Pending
      modifies this`batches, this`snapshots, this`dust
      ensures UniqueRows(dust) && |batches| == |old(batches)|
      ensures forall j | 0 <= j < |batches| && j != b :: batches[j] == old(batches)[j]
      ensures RowProcessed(old(batches)[b], batches[b], answer, true, submitted)
      ensures RowsFrom(cfg, blocks, old(batches)[b], batches[b].payouts, answer, true)
    {
      if answer.NodeDown? {
        return false;
      }
      var ok := LoadRows(cfg, b, answer.found, answer.shares);
      if !ok || answer.signed.None? {
        return false;
      }
      batches := batches[b := batches[b].(status := Submitted, txid := answer.signed)];
      return true;
    }
  }

  /** The payout rows planned for a block. */
  method PlanRows(cfg: Config, block: FoundBlock, dust: seq<(string, int)>, shares: seq<ShareEntry>)
    returns (outputs: seq<PayoutOutput>)
    ensures outputs == OutputsOf(cfg, block, Inputs(shares, dust))
  {
    var gross := RewardFromCoinbase(block.coinbaseValue);
    var plan := BuildPayoutPlan(
      block.roundId, block.height, block.hash, 0.0, gross, cfg.feeBps, None, cfg.minPayout, dust, shares);
    assert plan.poolFee == FeeFor(cfg, block);
    outputs := plan.outputs;
  }

  /** The plan of a block as the batch row it becomes. */
  method PlanBatch(cfg: Config, block: FoundBlock, dust: seq<(string, int)>, shares: seq<ShareEntry>)
    returns (batch: Batch)
    ensures batch == NewBatch(cfg, block, Inputs(shares, dust))
  {
    var outputs := PlanRows(cfg, block, dust, shares);
    batch := Batch(
      block.roundId, Pending, RewardFromCoinbase(block.coinbaseValue), FeeFor(cfg, block),
      RetryKey(block.hash, |outputs|), None, outputs);
  }

  lemma LosesOneMore(rows: seq<FoundBlock>, tip: int, canonical: map<int, string>, ids: seq<nat>, k: nat)
    requires k < |ids| && ids[k] < |rows|
    ensures forall r: nat ::
      (LosesBlock(rows, tip, canonical, ids[..k + 1], r)
       <==> LosesBlock(rows, tip, canonical, ids[..k], r)
            || (Gone(rows[ids[k]], tip, canonical) && rows[ids[k]].roundId == r))
  {
    PrefixGrows(ids, k);
    forall r: nat
      ensures LosesBlock(rows, tip, canonical, ids[..k + 1], r)
        <==> LosesBlock(rows, tip, canonical, ids[..k], r)
             || (Gone(rows[ids[k]], tip, canonical) && rows[ids[k]].roundId == r)
    {
      if i :| i in ids[..k] && i < |rows| && Gone(rows[i], tip, canonical) && rows[i].roundId == r {
        assert i in ids[..k + 1];
      }
      assert ids[k] in ids[..k + 1];
    }
  }

  lemma PaidOneMore(blocks: seq<FoundBlock>, rows: seq<Batch>, txids: seq<string>, ids: seq<nat>, k: nat)
    requires k < |ids| && ids[k] < |rows|
    ensures forall i: nat ::
      (PaidThrough(blocks, rows, txids, ids[..k + 1], i)
       <==> PaidThrough(blocks, rows, txids, ids[..k], i)
            || (Settled(rows[ids[k]], txids) && LatestInRound(blocks, rows[ids[k]].roundId) == Some(i)))
  {
    PrefixGrows(ids, k);
    assert ids[k] in ids[..k + 1];
  }

  // ----- the handler of the state machine confirms what the service method does -----

  /** The handler, undisturbed, to the end of its scan. */
  function ScanEnd(s: State): State
    decreases if s.handler.Scanning? then 1 + ConfirmerSections(s.handler.confirmer) else 0
  {
    if s.handler.Scanning? then ScanEnd(HandlerNext(s)) else s
  }

  lemma ThreeSections(s: State, b: nat, todo: seq<nat>)
    requires s.handler == Scanning(Confirming([b] + todo)) && b < |s.batches|
    ensures ScanEnd(s) == ScanEnd(Confirmation(s, b).(handler := Scanning(Confirming(todo))))
  {
    assert ([b] + todo)[1..] == todo;
    var s1 := HandlerNext(s);
    assert s1 == s.(batches := WithBatchStatus(s.batches, b, Confirmed), handler := Scanning(LookingUp(b, todo)));
    TwoSections(s1, b, todo);
  }

  lemma TwoSections(s: State, b: nat, todo: seq<nat>)
    requires s.handler == Scanning(LookingUp(b, todo)) && b < |s.batches|
    ensures
      var fb := LatestInRound(s.blocks, s.batches[b].roundId);
      ScanEnd(s) == ScanEnd(
        s.(blocks := if fb.Some? then WithStatus(s.blocks, fb.value, Paid) else s.blocks,
           handler := Scanning(Confirming(todo))))
  {
    var s1 := HandlerNext(s);
    assert ScanEnd(s) == ScanEnd(s1);
    if s1.handler.confirmer.MarkingPaid? { assert ScanEnd(s1) == ScanEnd(HandlerNext(s1)); }
  }

  lemma {:induction false} ScanFrom(
    s: State, rows: seq<Batch>, blocks0: seq<FoundBlock>, txids: seq<string>, ids: seq<nat>, k: nat)
    requires k <= |ids| && s.handler == Scanning(Confirming(ids[k..]))
    requires forall x | x in ids :: x < |rows| && Settled(rows[x], txids)
    requires ConfirmedUpTo(rows, s.batches, blocks0, s.blocks, txids, ids[..k])
    ensures
      var s' := ScanEnd(s);
      && ConfirmedUpTo(rows, s'.batches, blocks0, s'.blocks, txids, ids)
      && s' == s.(blocks := s'.blocks, batches := s'.batches, handler := ListingPending)
    decreases |ids| - k
  {
    if k == |ids| {
      assert ids[k..] == [] && ids[..k] == ids;
      assert ScanEnd(s) == ScanEnd(HandlerNext(s)) == HandlerNext(s);
    } else {
      assert ids[k] in ids && ids[k..] == [ids[k]] + ids[k + 1..];
      ThreeSections(s, ids[k], ids[k + 1..]);
      ConfirmedOneMore(rows, s.batches, blocks0, s.blocks, txids, ids, k);
      var s1 := Confirmation(s, ids[k]).(handler := Scanning(Confirming(ids[k + 1..])));
      ScanFrom(s1, rows, blocks0, txids, ids, k + 1);
    }
  }

  /**
   The handler of the state machine, undisturbed after a connected block, confirms exactly
   the submitted batches whose transaction is in the block and marks paid exactly the latest
   blocks of their rounds, as the service method does.
   */
  lemma HandlerScans(s: State, txids: seq<string>)
    requires s.handler == ListingSubmitted(txids)
    ensures
      var s' := ScanEnd(HandlerNext(s));
      && |s'.batches| == |s.batches| && |s'.blocks| == |s.blocks|
      && (forall j: nat | j < |s.batches| ::
            var b := s.batches[j];
            s'.batches[j] == if b.status == Submitted && b.txid.Some? && b.txid.value in txids
                             then b.(status := Confirmed) else b)
      && (forall i: nat | i < |s.blocks| ::
            s'.blocks[i] == if Settles(s.blocks, s.batches, txids, i)
                            then s.blocks[i].(status := Paid) else s.blocks[i])
      && s' == s.(blocks := s'.blocks, batches := s'.batches, handler := ListingPending)
  {
    var ids, s1 := SettledIds(s.batches, txids), HandlerNext(s);
    assert ids[0..] == ids && ids[..0] == [];
    assert ConfirmedUpTo(s.batches, s1.batches, s.blocks, s1.blocks, txids, []);
    ScanFrom(s1, s.batches, s.blocks, txids, ids, 0);
    forall i: nat
      ensures PaidThrough(s.blocks, s.batches, txids, ids, i) <==> Settles(s.blocks, s.batches, txids, i)
    {
    }
  }
}
