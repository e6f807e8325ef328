/** The audit rows and the dust balances a payout transaction writes. */
module Snapshots {
  import opened Text
  import opened Apportionment
  import opened PayoutPlan
  import opened PlanTheorems
  import opened Pplns

  // ----- share snapshots -----

  /** The shares of one address, in window order. */
  function SharesOf(shares: seq<ShareEntry>, a: string): seq<ShareEntry> {
    if shares == [] then []
    else
      var n := |shares| - 1;
      SharesOf(shares[..n], a) + if shares[n].address == a then [shares[n]] else []
  }

  function Collected(outputs: seq<PayoutOutput>, shares: seq<ShareEntry>): seq<ShareEntry> {
    if outputs == [] then []
    else
      var n := |outputs| - 1;
      Collected(outputs[..n], shares) + SharesOf(shares, outputs[n].address)
  }

  /** For every output, scan the whole window for shares of its address. */
  method SnapshotShares(outputs: seq<PayoutOutput>, shares: seq<ShareEntry>) returns (snapshots: seq<ShareEntry>)
    ensures snapshots == Collected(outputs, shares)
  {
    snapshots := [];
    for i := 0 to |outputs|
      invariant snapshots == Collected(outputs[..i], shares)
    {
      for k := 0 to |shares|
        invariant snapshots == Collected(outputs[..i], shares) + SharesOf(shares[..k], outputs[i].address)
      {
        assert shares[..k + 1][..k] == shares[..k];
        if shares[k].address == outputs[i].address {
          snapshots := snapshots + [shares[k]];
        }
      }
      assert shares[..|shares|] == shares;
      assert outputs[..i + 1][..i] == outputs[..i];
    }
    assert outputs[..|outputs|] == outputs;
  }

  lemma {:induction false} CountOf(shares: seq<ShareEntry>, a: string, s: ShareEntry)
    ensures multiset(SharesOf(shares, a))[s] == if s.address == a then multiset(shares)[s] else 0
  {
    if shares != [] {
      var n := |shares| - 1;
      CountOf(shares[..n], a, s);
      assert shares == shares[..n] + [shares[n]];
    }
  }

  ghost predicate DistinctAddresses(outputs: seq<PayoutOutput>) {
    forall i, j | 0 <= i < j < |outputs| :: outputs[i].address != outputs[j].address
  }

  ghost predicate HasOutput(outputs: seq<PayoutOutput>, a: string) {
    exists i :: 0 <= i < |outputs| && outputs[i].address == a
  }

  lemma HasOutputSplit(outputs: seq<PayoutOutput>, a: string)
    requires outputs != []
    ensures
      var n := |outputs| - 1;
      HasOutput(outputs, a) <==> HasOutput(outputs[..n], a) || outputs[n].address == a
  {
    var n := |outputs| - 1;
    if i :| 0 <= i < n && outputs[..n][i].address == a { assert outputs[i].address == a; }
    if i :| 0 <= i < |outputs| && outputs[i].address == a {
      if i < n { assert outputs[..n][i].address == a; }
    }
  }

  lemma {:induction false} CountCollected(outputs: seq<PayoutOutput>, shares: seq<ShareEntry>, s: ShareEntry)
    requires DistinctAddresses(outputs)
    ensures multiset(Collected(outputs, shares))[s] == if HasOutput(outputs, s.address) then multiset(shares)[s] else 0
  {
    if outputs != [] {
      var n := |outputs| - 1;
      CountCollected(outputs[..n], shares, s);
      CountOf(shares, outputs[n].address, s);
      HasOutputSplit(outputs, s.address);
      assert outputs[n].address == s.address ==> !HasOutput(outputs[..n], s.address);
    }
  }

  /** Outputs that name every address of the window once snapshot every share exactly once. */
  lemma CollectedIsPermutation(outputs: seq<PayoutOutput>, shares: seq<ShareEntry>)
    requires DistinctAddresses(outputs)
    requires forall s | s in shares :: HasOutput(outputs, s.address)
    ensures multiset(Collected(outputs, shares)) == multiset(shares)
  {
    forall s: ShareEntry
      ensures multiset(Collected(outputs, shares))[s] == multiset(shares)[s]
    {
      CountCollected(outputs, shares, s);
      assert s in multiset(shares) ==> s in shares;
    }
  }

  lemma PlanAddresses(shares: seq<ShareEntry>, dust: seq<(string, int)>, gross: int, net: int, minPayout: int)
    ensures DistinctAddresses(PlanOutputs(shares, dust, gross, net, minPayout))
    ensures PlanOutputs(shares, dust, gross, net, minPayout) != [] ==>
      forall a :: a in Addresses(shares) <==> HasOutput(PlanOutputs(shares, dust, gross, net, minPayout), a)
  {
    if Pays?(shares, dust, gross, net) {
      var outputs := PlanOutputs(shares, dust, gross, net, minPayout);
      OneOutputPerAddress(shares, dust, gross, net, minPayout);
      forall i, j | 0 <= i < j < |outputs|
        ensures outputs[i].address != outputs[j].address
      {
        LessIrreflexive(outputs[i].address);
      }
    }
  }

  /** A plan with outputs writes each window share once, so snapshot work adds up to the window's work. */
  lemma SnapshotsPartitionWindow(
    shares: seq<ShareEntry>, dust: seq<(string, int)>, gross: int, net: int, minPayout: int)
    requires PlanOutputs(shares, dust, gross, net, minPayout) != []
    ensures
      var snapshots := Collected(PlanOutputs(shares, dust, gross, net, minPayout), shares);
      multiset(snapshots) == multiset(shares) && WorkSum(snapshots) == WorkSum(shares)
  {
    var outputs := PlanOutputs(shares, dust, gross, net, minPayout);
    PlanAddresses(shares, dust, gross, net, minPayout);
    forall s | s in shares
      ensures HasOutput(outputs, s.address)
    {
      assert s.address in Addresses(shares);
    }
    CollectedIsPermutation(outputs, shares);
    WorkSumPermutation(Collected(outputs, shares), shares);
  }

  // ----- where the weights come from -----

  /** The work an address is credited is that of its snapshot rows. */
  lemma {:induction false} WorkIsSnapshotWork(shares: seq<ShareEntry>, a: string)
    ensures WorkOf(shares, a) == WorkSum(SharesOf(shares, a))
  {
    if shares != [] {
      var n := |shares| - 1;
      WorkIsSnapshotWork(shares[..n], a);
      var before, mine := SharesOf(shares[..n], a), SharesOf(shares, a);
      if shares[n].address == a {
        assert mine[..|mine| - 1] == before;
      } else {
        assert mine == before;
      }
    }
  }

  function WorkMap(ks: seq<string>, shares: seq<ShareEntry>): map<string, real> {
    map k | k in ks :: WorkOf(shares, k)
  }

  lemma {:induction false} SumOneMore(
    ks: seq<string>, f: map<string, real>, f': map<string, real>, a: string, d: real)
    requires NoRepeats(ks) && forall k | k in ks :: k in f && k in f' && f'[k] == f[k] + if k == a then d else 0.0
    ensures SumReal(ks, f') == SumReal(ks, f) + if a in ks then d else 0.0
  {
    if ks != [] {
      var n := |ks| - 1;
      SumOneMore(ks[..n], f, f', a, d);
      LastKey(ks, a);
    }
  }

  lemma LastKey(ks: seq<string>, a: string)
    requires NoRepeats(ks) && ks != []
    ensures a in ks <==> a in ks[..|ks| - 1] || a == ks[|ks| - 1]
    ensures !(a in ks[..|ks| - 1] && a == ks[|ks| - 1])
  {
    assert ks == ks[..|ks| - 1] + [ks[|ks| - 1]];
  }

  lemma {:induction false} SumZero(ks: seq<string>, f: map<string, real>)
    requires forall k | k in ks :: k in f && f[k] == 0.0
    ensures SumReal(ks, f) == 0.0
  {
    if ks != [] { SumZero(ks[..|ks| - 1], f); }
  }

  lemma {:induction false} WorkAddsUp(ks: seq<string>, shares: seq<ShareEntry>)
    requires NoRepeats(ks) && forall s | s in shares :: s.address in ks
    ensures SumReal(ks, WorkMap(ks, shares)) == WorkSum(shares)
  {
    if shares == [] {
      SumZero(ks, WorkMap(ks, shares));
    } else {
      var n := |shares| - 1;
      assert shares[n] in shares;
      WorkAddsUp(ks, shares[..n]);
      SumOneMore(ks, WorkMap(ks, shares[..n]), WorkMap(ks, shares), shares[n].address, shares[n].difficulty);
    }
  }

  /** Without dust in the window the total weight is the window's work. */
  lemma WeightsAddUp(shares: seq<ShareEntry>, dust: seq<(string, int)>, gross: int, w: map<string, real>)
    requires w == Weights(shares, dust, gross) && forall a | a in Addresses(shares) :: DustOf(dust, a) <= 0
    ensures Total(w) == WorkSum(shares)
  {
    var ks := InKeyOrder(w.Keys);
    InKeyOrderMembers(w.Keys);
    PlainWeights(ks, shares, dust, gross, w);
  }

  lemma PlainWeights(
    ks: seq<string>, shares: seq<ShareEntry>, dust: seq<(string, int)>, gross: int, w: map<string, real>)
    requires NoRepeats(ks) && forall a :: a in ks <==> a in Addresses(shares)
    requires w == Weights(shares, dust, gross) && forall a | a in Addresses(shares) :: DustOf(dust, a) <= 0
    ensures (forall k | k in ks :: k in w) && SumReal(ks, w) == WorkSum(shares)
  {
    assert forall s | s in shares :: s.address in Addresses(shares);
    WorkAddsUp(ks, shares);
    assert WorkMap(ks, shares) == w;
  }

  // ----- dust balances -----

  ghost predicate UniqueRows(dust: seq<(string, int)>) {
    forall i, j | 0 <= i < j < |dust| :: dust[i].0 != dust[j].0
  }

  function RowOf(dust: seq<(string, int)>, a: string): (id: Option<nat>)
    ensures id.Some? ==> id.value < |dust| && dust[id.value].0 == a
    ensures id.None? ==> forall i | 0 <= i < |dust| :: dust[i].0 != a
  {
    if dust == [] then None
    else
      var n := |dust| - 1;
      assert forall i | 0 <= i < n :: dust[i] == dust[..n][i];
      if dust[n].0 == a then Some(n) else RowOf(dust[..n], a)
  }

  function Upserted(dust: seq<(string, int)>, a: string, amount: int): seq<(string, int)> {
    match RowOf(dust, a)
    case Some(i) => dust[i := (a, dust[i].1 + amount)]
    case None => dust + [(a, amount)]
  }

  lemma {:induction false} BalanceAt(dust: seq<(string, int)>, a: string)
    ensures DustOf(dust, a) == match RowOf(dust, a) case Some(i) => dust[i].1 case None => 0
  {
    if dust != [] { BalanceAt(dust[..|dust| - 1], a); }
  }

  lemma RowIs(dust: seq<(string, int)>, i: nat)
    requires UniqueRows(dust) && i < |dust|
    ensures RowOf(dust, dust[i].0) == Some(i)
  {
  }

  lemma UpsertCredits(dust: seq<(string, int)>, a: string, amount: int, b: string)
    requires UniqueRows(dust)
    ensures UniqueRows(Upserted(dust, a, amount))
    ensures DustOf(Upserted(dust, a, amount), b) == DustOf(dust, b) + if a == b then amount else 0
  {
    var dust' := Upserted(dust, a, amount);
    assert UniqueRows(dust');
    BalanceAt(dust, b);
    BalanceAt(dust', b);
    var i, i' := RowOf(dust, b), RowOf(dust', b);
    if i'.Some? && i'.value < |dust| {
      assert dust[i'.value].0 == b;
      RowIs(dust, i'.value);
    }
    if i.Some? {
      assert dust'[i.value].0 == b;
      RowIs(dust', i.value);
    }
  }

  /** Dust the outputs carry forward for an address. */
  function CarriedTo(outputs: seq<PayoutOutput>, a: string): int {
    if outputs == [] then 0
    else
      var n := |outputs| - 1;
      CarriedTo(outputs[..n], a) + if outputs[n].address == a && outputs[n].dust > 0 then outputs[n].dust else 0
  }

  /** With one output per address, an address is carried the dust of its output. */
  lemma {:induction false} CarriedIsOutputDust(outputs: seq<PayoutOutput>, a: string)
    requires DistinctAddresses(outputs)
    ensures !HasOutput(outputs, a) ==> CarriedTo(outputs, a) == 0
    ensures forall i | 0 <= i < |outputs| && outputs[i].address == a ::
      CarriedTo(outputs, a) == if outputs[i].dust > 0 then outputs[i].dust else 0
  {
    if outputs != [] {
      var n := |outputs| - 1;
      CarriedIsOutputDust(outputs[..n], a);
      HasOutputSplit(outputs, a);
      assert forall i | 0 <= i < n :: outputs[..n][i] == outputs[i];
    }
  }

  /** The balances after the upserts of a payout transaction. */
  function Credited(dust: seq<(string, int)>, outputs: seq<PayoutOutput>): seq<(string, int)> {
    if outputs == [] then dust
    else
      var n := |outputs| - 1;
      var before := Credited(dust, outputs[..n]);
      if outputs[n].dust > 0 then Upserted(before, outputs[n].address, outputs[n].dust) else before
  }

  /** Every address's balance grows by what its outputs carried forward, and rows stay unique. */
  lemma {:induction false} CreditedBalances(dust: seq<(string, int)>, outputs: seq<PayoutOutput>, a: string)
    requires UniqueRows(dust)
    ensures UniqueRows(Credited(dust, outputs))
    ensures DustOf(Credited(dust, outputs), a) == DustOf(dust, a) + CarriedTo(outputs, a)
  {
    if outputs != [] {
      var n := |outputs| - 1;
      CreditedBalances(dust, outputs[..n], a);
      UpsertCredits(Credited(dust, outputs[..n]), outputs[n].address, outputs[n].dust, a);
    }
  }

  method UpsertAll(dust: seq<(string, int)>, outputs: seq<PayoutOutput>) returns (dust': seq<(string, int)>)
    ensures dust' == Credited(dust, outputs)
  {
    dust' := dust;
    for i := 0 to |outputs|
      invariant dust' == Credited(dust, outputs[..i])
    {
      assert outputs[..i + 1][..i] == outputs[..i];
      if outputs[i].dust > 0 {
        dust' := Upserted(dust', outputs[i].address, outputs[i].dust);
      }
    }
    assert outputs[..|outputs|] == outputs;
  }

  method CreditDust(dust: seq<(string, int)>, outputs: seq<PayoutOutput>) returns (dust': seq<(string, int)>)
    requires UniqueRows(dust)
    ensures dust' == Credited(dust, outputs) && UniqueRows(dust')
    ensures forall a :: DustOf(dust', a) == DustOf(dust, a) + CarriedTo(outputs, a)
  {
    dust' := UpsertAll(dust, outputs);
    CreditedBalances(dust, outputs, "");
    forall a
      ensures DustOf(Credited(dust, outputs), a) == DustOf(dust, a) + CarriedTo(outputs, a)
    {
      CreditedBalances(dust, outputs, a);
    }
  }
}
