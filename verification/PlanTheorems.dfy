/**
 What a payout plan promises: it hands out the net reward to the satoshi, pays
 every address within one satoshi of its proportional quota, never pays less
 work more, and depends only on how much work each address did.
 */
module PlanTheorems {
  import opened Orders
  import opened Text
  import opened Apportionment
  import opened PayoutPlan

  function Gross(o: PayoutOutput): int {
    o.amount + o.dust
  }

  /** A plan that pays lists the outputs of its quotas in key order. */
  lemma PlanShape(shares: seq<ShareEntry>, dust: seq<(string, int)>, gross: int, net: int, minPayout: int)
    requires Pays?(shares, dust, gross, net)
    ensures
      var q := WindowQuotas(shares, dust, gross, net);
      && q.Keys == Addresses(shares)
      && (forall k | k in InKeyOrder(q.Keys) :: k in q)
      && PlanOutputs(shares, dust, gross, net, minPayout)
         == OutputsFor(InKeyOrder(q.Keys), shares, q, net, minPayout)
  {
    InKeyOrderMembers(Addresses(shares));
  }

  lemma KeyedOutput(
    ks: seq<string>, shares: seq<ShareEntry>, q: map<string, real>, net: int, minPayout: int, i: nat)
    requires (forall k | k in ks :: k in Addresses(shares) && k in q) && i < |ks|
    ensures
      var o := OutputsFor(ks, shares, q, net, minPayout)[i];
      && o.address == ks[i] && o.address in q && o.address in Addresses(shares)
      && o == Clipped(o.address, FirstWorker(shares, o.address), Pay(q, net, o.address), minPayout)
  {
    assert ks[i] in ks;
  }

  lemma OutputAt(shares: seq<ShareEntry>, dust: seq<(string, int)>, gross: int, net: int, minPayout: int, i: nat)
    requires i < |PlanOutputs(shares, dust, gross, net, minPayout)|
    ensures Pays?(shares, dust, gross, net)
    ensures
      var o, q := PlanOutputs(shares, dust, gross, net, minPayout)[i], WindowQuotas(shares, dust, gross, net);
      && o.address in q && o.address == InKeyOrder(q.Keys)[i]
      && o == Clipped(o.address, FirstWorker(shares, o.address), Pay(q, net, o.address), minPayout)
  {
    PlanShape(shares, dust, gross, net, minPayout);
    var q := WindowQuotas(shares, dust, gross, net);
    KeyedOutput(InKeyOrder(q.Keys), shares, q, net, minPayout, i);
  }

  // ----- who is paid -----

  /** A plan has outputs exactly when there is weight and a positive net reward. */
  lemma OutputsExistIff(shares: seq<ShareEntry>, dust: seq<(string, int)>, gross: int, net: int, minPayout: int)
    ensures PlanOutputs(shares, dust, gross, net, minPayout) != [] <==> Pays?(shares, dust, gross, net)
  {
    if Pays?(shares, dust, gross, net) {
      var w := Weights(shares, dust, gross);
      assert InKeyOrder(w.Keys) != [];
    }
  }

  lemma OneOutputPerKey(
    ks: seq<string>, shares: seq<ShareEntry>, q: map<string, real>, net: int, minPayout: int)
    requires forall k | k in ks :: k in Addresses(shares) && k in q
    ensures
      var outputs := OutputsFor(ks, shares, q, net, minPayout);
      && (SortedBy(ks, Less) ==>
           forall i, j | 0 <= i < j < |outputs| :: Less(outputs[i].address, outputs[j].address))
      && (forall a :: a in ks <==> exists i :: 0 <= i < |outputs| && outputs[i].address == a)
  {
    var outputs := OutputsFor(ks, shares, q, net, minPayout);
    forall i | 0 <= i < |outputs|
      ensures outputs[i].address == ks[i]
    {
      KeyedOutput(ks, shares, q, net, minPayout, i);
    }
    forall a
      ensures a in ks <==> exists i :: 0 <= i < |outputs| && outputs[i].address == a
    {
      if a in ks {
        var i :| 0 <= i < |ks| && ks[i] == a;
        assert outputs[i].address == a;
      }
    }
  }

  /** One output per address of the window, in address order. */
  lemma OneOutputPerAddress(
    shares: seq<ShareEntry>, dust: seq<(string, int)>, gross: int, net: int, minPayout: int)
    requires Pays?(shares, dust, gross, net)
    ensures
      var outputs := PlanOutputs(shares, dust, gross, net, minPayout);
      && (forall i, j | 0 <= i < j < |outputs| :: Less(outputs[i].address, outputs[j].address))
      && (forall a :: a in Addresses(shares) <==> exists i :: 0 <= i < |outputs| && outputs[i].address == a)
  {
    PlanShape(shares, dust, gross, net, minPayout);
    InKeyOrderMembers(Addresses(shares));
    var q := WindowQuotas(shares, dust, gross, net);
    OneOutputPerKey(InKeyOrder(Addresses(shares)), shares, q, net, minPayout);
  }

  // ----- conservation -----

  lemma {:induction false} OutputSum(
    ks: seq<string>, shares: seq<ShareEntry>, q: map<string, real>, net: int, minPayout: int)
    requires forall k | k in ks :: k in Addresses(shares) && k in q
    ensures
      var outputs := OutputsFor(ks, shares, q, net, minPayout);
      AmountTotal(outputs) + DustTotal(outputs) == SumInt(ks, Pays(q, net))
  {
    var outputs := OutputsFor(ks, shares, q, net, minPayout);
    if ks != [] {
      var n := |ks| - 1;
      OutputSum(ks[..n], shares, q, net, minPayout);
      assert outputs[..n] == OutputsFor(ks[..n], shares, q, net, minPayout);
      assert Gross(outputs[n]) == Pay(q, net, ks[n]);
    }
  }

  /** Everything the plan pays or carries forward adds up to the net reward. */
  lemma PlanConserves(shares: seq<ShareEntry>, dust: seq<(string, int)>, gross: int, net: int, minPayout: int)
    requires Pays?(shares, dust, gross, net)
    ensures
      var outputs := PlanOutputs(shares, dust, gross, net, minPayout);
      AmountTotal(outputs) + DustTotal(outputs) == net
  {
    var q := WindowQuotas(shares, dust, gross, net);
    InKeyOrderMembers(q.Keys);
    OutputSum(InKeyOrder(q.Keys), shares, q, net, minPayout);
    QuotasAreExact(Weights(shares, dust, gross), net);
    PaymentsSumToNet(q, net);
  }

  /** Every satoshi of a coinbase is minerfund, pool fee, payout or carried dust. */
  lemma CoinbaseConserved(
    coinbase: nat, feeBps: nat, shares: seq<ShareEntry>, dust: seq<(string, int)>, minPayout: int)
    requires coinbase < U64 - 1
    requires
      var gross := RewardFromCoinbase(coinbase);
      PlanOutputs(shares, dust, gross, gross - PoolFee(gross, feeBps), minPayout) != []
    ensures
      var gross := RewardFromCoinbase(coinbase);
      var outputs := PlanOutputs(shares, dust, gross, gross - PoolFee(gross, feeBps), minPayout);
      coinbase == Minerfund(coinbase) + PoolFee(gross, feeBps) + AmountTotal(outputs) + DustTotal(outputs)
  {
    var gross := RewardFromCoinbase(coinbase);
    RewardSplitsCoinbase(coinbase);
    OutputsExistIff(shares, dust, gross, gross - PoolFee(gross, feeBps), minPayout);
    PlanConserves(shares, dust, gross, gross - PoolFee(gross, feeBps), minPayout);
  }

  // ----- fairness -----

  /** Paid plus carried is strictly within one satoshi of the proportional quota. */
  lemma PlanWithinOneSatoshi(
    shares: seq<ShareEntry>, dust: seq<(string, int)>, gross: int, net: int, minPayout: int, i: nat)
    requires i < |PlanOutputs(shares, dust, gross, net, minPayout)|
    ensures Pays?(shares, dust, gross, net)
    ensures
      var o, q := PlanOutputs(shares, dust, gross, net, minPayout)[i], WindowQuotas(shares, dust, gross, net);
      && o.address in q
      && -1.0 < Gross(o) as real - q[o.address] < 1.0
      && (Frac(q, o.address) == 0.0 ==> Gross(o) as real == q[o.address])
  {
    OutputAt(shares, dust, gross, net, minPayout, i);
    var o, q := PlanOutputs(shares, dust, gross, net, minPayout)[i], WindowQuotas(shares, dust, gross, net);
    QuotasAreExact(Weights(shares, dust, gross), net);
    WithinOneSatoshi(q, net, o.address);
    if Frac(q, o.address) == 0.0 { WholeQuotaPaidExactly(q, net, o.address); }
  }

  /** The same without quotas: every output is the part of the net reward that its weight is of the total. */
  lemma PlanIsProportional(
    shares: seq<ShareEntry>, dust: seq<(string, int)>, gross: int, net: int, minPayout: int, i: nat,
    o: PayoutOutput, w: map<string, real>)
    requires i < |PlanOutputs(shares, dust, gross, net, minPayout)|
    requires o == PlanOutputs(shares, dust, gross, net, minPayout)[i] && w == Weights(shares, dust, gross)
    ensures o.address in w && WithinOne(Gross(o), w[o.address], Total(w), net)
  {
    PlanWithinOneSatoshi(shares, dust, gross, net, minPayout, i);
    NearQuota(w, net, o.address, Gross(o));
  }

  lemma NearQuota(w: map<string, real>, net: int, a: string, paid: int)
    requires Total(w) > 0.0 && a in w && -1.0 < paid as real - Quotas(w, net)[a] < 1.0
    ensures WithinOne(paid, w[a], Total(w), net)
  {
    NearScaled(w, Total(w), net, a, paid);
  }

  lemma NearScaled(w: map<string, real>, total: real, net: int, a: string, paid: int)
    requires total > 0.0 && a in w && -1.0 < paid as real - Scaled(w, total, net as real)[a] < 1.0
    ensures WithinOne(paid, w[a], total, net)
  {
    QuotaShare(paid, Scaled(w, total, net as real)[a], w[a], total, net);
  }

  /** `paid` differs from the part `weight / total` of `net` by less than one satoshi. */
  predicate WithinOne(paid: int, weight: real, total: real, net: int) {
    -total < paid as real * total - weight * net as real < total
  }

  lemma QuotaShare(paid: int, q: real, weight: real, total: real, net: int)
    requires total > 0.0 && q == weight / total * net as real && -1.0 < paid as real - q < 1.0
    ensures WithinOne(paid, weight, total, net)
  {
    var part, d := weight / total, paid as real - q;
    assert part * total == weight;
    assert q * total == part * total * net as real;
    assert d * total == paid as real * total - q * total;
    Smaller(d, total);
  }

  lemma Smaller(d: real, total: real)
    requires total > 0.0 && -1.0 < d < 1.0
    ensures -total < d * total < total
  {
  }

  /** At least the minimum is paid on chain in full, less is carried as dust in full. */
  lemma PlanClips(shares: seq<ShareEntry>, dust: seq<(string, int)>, gross: int, net: int, minPayout: int, i: nat)
    requires i < |PlanOutputs(shares, dust, gross, net, minPayout)|
    ensures
      var o := PlanOutputs(shares, dust, gross, net, minPayout)[i];
      && (Gross(o) >= minPayout ==> o.amount == Gross(o) && o.dust == 0)
      && (Gross(o) < minPayout ==> o.amount == 0 && o.dust == Gross(o))
  {
    OutputAt(shares, dust, gross, net, minPayout, i);
  }

  /** Totals are sums: of one output its own columns, of two lists the sum of both. */
  lemma {:induction false} TotalsAdd(a: seq<PayoutOutput>, b: seq<PayoutOutput>)
    ensures AmountTotal(a + b) == AmountTotal(a) + AmountTotal(b) && DustTotal(a + b) == DustTotal(a) + DustTotal(b)
    ensures |a| == 1 ==> AmountTotal(a) == a[0].amount && DustTotal(a) == a[0].dust
  {
    if b == [] {
      assert a + b == a;
      if |a| == 1 { assert a[..0] == []; }
    } else {
      TotalsAdd(a, b[..|b| - 1]);
      assert (a + b)[..|a + b| - 1] == a + b[..|b| - 1];
    }
  }

  // ----- weights -----

  /** The weight of an address, times the reward, is its work times the reward plus its dust balance. */
  lemma WeightIsWorkAndDust(shares: seq<ShareEntry>, dust: seq<(string, int)>, gross: int, a: string)
    requires a in Addresses(shares)
    ensures WeighsAs(Weights(shares, dust, gross)[a], WorkOf(shares, a), DustOf(dust, a), gross)
  {
    BonusIsDust(WorkOf(shares, a), DustOf(dust, a), gross);
  }

  predicate WeighsAs(weight: real, work: real, balance: int, gross: int) {
    if gross > 0 && balance > 0
    then weight * gross as real == work * gross as real + balance as real
    else weight == work
  }

  lemma BonusIsDust(work: real, balance: int, gross: int)
    ensures WeighsAs(work + BonusFor(balance, gross), work, balance, gross)
  {
    if gross > 0 && balance > 0 {
      var bonus := BonusFor(balance, gross);
      assert bonus * gross as real == balance as real;
      assert (work + bonus) * gross as real == work * gross as real + bonus * gross as real;
    }
  }

  /** More dust never lowers a weight, and raises it when both balance and reward are positive. */
  lemma DustRaisesWeight(
    shares: seq<ShareEntry>, dust: seq<(string, int)>, dust': seq<(string, int)>, gross: int, a: string)
    requires a in Addresses(shares) && DustOf(dust, a) <= DustOf(dust', a)
    ensures
      var w, w' := Weights(shares, dust, gross)[a], Weights(shares, dust', gross)[a];
      w <= w' && (gross > 0 && 0 <= DustOf(dust, a) < DustOf(dust', a) ==> w < w')
  {
    if gross > 0 && DustOf(dust', a) > 0 {
      DivideOrder(DustOf(dust, a) as real, DustOf(dust', a) as real, gross as real);
    }
  }

  lemma DivideOrder(x: real, y: real, g: real)
    requires g > 0.0
    ensures x <= y ==> x / g <= y / g
    ensures x < y ==> x / g < y / g
    ensures y > 0.0 ==> y / g > 0.0
  {
    var p, q := x / g, y / g;
    assert p * g == x && q * g == y;
  }

  lemma {:induction false} WorkNonNegative(shares: seq<ShareEntry>, a: string)
    requires forall s | s in shares :: s.difficulty >= 0.0
    ensures WorkOf(shares, a) >= 0.0
  {
    if shares != [] {
      assert shares[|shares| - 1] in shares;
      WorkNonNegative(shares[..|shares| - 1], a);
    }
  }

  /** More weight is never paid less, before clipping and after; equal weights differ by one satoshi at most. */
  lemma PayFollowsWeight(
    shares: seq<ShareEntry>, dust: seq<(string, int)>, gross: int, net: int, minPayout: int, i: nat, j: nat)
    requires i < |PlanOutputs(shares, dust, gross, net, minPayout)|
    requires j < |PlanOutputs(shares, dust, gross, net, minPayout)|
    requires forall s | s in shares :: s.difficulty >= 0.0
    ensures
      var o := PlanOutputs(shares, dust, gross, net, minPayout)[i];
      var p := PlanOutputs(shares, dust, gross, net, minPayout)[j];
      var w := Weights(shares, dust, gross);
      && o.address in w && p.address in w
      && (w[o.address] > w[p.address] ==> Gross(o) >= Gross(p) && o.amount >= p.amount)
      && (w[o.address] == w[p.address] ==> -1 <= Gross(o) - Gross(p) <= 1)
  {
    OutputAt(shares, dust, gross, net, minPayout, i);
    OutputAt(shares, dust, gross, net, minPayout, j);
    var o := PlanOutputs(shares, dust, gross, net, minPayout)[i];
    var p := PlanOutputs(shares, dust, gross, net, minPayout)[j];
    var q := WindowQuotas(shares, dust, gross, net);
    var w := Weights(shares, dust, gross);
    WorkNonNegative(shares, o.address);
    QuotaOrder(w, net, o.address, p.address);
    PayNonNegative(q, net, o.address);
    if w[o.address] > w[p.address] { PayMonotone(q, net, o.address, p.address); }
    if w[o.address] == w[p.address] { EqualQuotas(q, net, o.address, p.address); }
  }

  // ----- what a plan depends on -----

  lemma SameWeights(
    shares: seq<ShareEntry>, shares': seq<ShareEntry>, dust: seq<(string, int)>, dust': seq<(string, int)>, gross: int)
    requires Addresses(shares) == Addresses(shares')
    requires forall a | a in Addresses(shares) :: WorkOf(shares, a) == WorkOf(shares', a)
    requires forall a | a in Addresses(shares) :: DustOf(dust, a) == DustOf(dust', a)
    ensures Weights(shares, dust, gross) == Weights(shares', dust', gross)
  {
  }

  /** Dust held by addresses outside the window has no effect on the plan. */
  lemma DustOutsideWindowIsIgnored(
    shares: seq<ShareEntry>, dust: seq<(string, int)>, dust': seq<(string, int)>,
    gross: int, net: int, minPayout: int)
    requires forall a | a in Addresses(shares) :: DustOf(dust, a) == DustOf(dust', a)
    ensures PlanOutputs(shares, dust, gross, net, minPayout) == PlanOutputs(shares, dust', gross, net, minPayout)
  {
    SameWeights(shares, shares, dust, dust', gross);
  }

  lemma {:induction false} WorkOfRemove(shares: seq<ShareEntry>, i: nat, a: string)
    requires i < |shares|
    ensures WorkOf(shares, a)
      == WorkOf(shares[..i] + shares[i + 1..], a) + if shares[i].address == a then shares[i].difficulty else 0.0
  {
    var n := |shares| - 1;
    var rest := shares[..i] + shares[i + 1..];
    if i == n {
      assert rest == shares[..n];
    } else {
      WorkOfRemove(shares[..n], i, a);
      assert rest[..|rest| - 1] == shares[..n][..i] + shares[..n][i + 1..];
      assert rest[|rest| - 1] == shares[n];
    }
  }

  /** The work of an address does not depend on the order of the shares. */
  lemma {:induction false} WorkOfPermutation(shares: seq<ShareEntry>, shares': seq<ShareEntry>, a: string)
    requires multiset(shares) == multiset(shares')
    ensures WorkOf(shares, a) == WorkOf(shares', a)
  {
    assert |shares| == |multiset(shares)| == |shares'|;
    if shares != [] {
      var n := |shares| - 1;
      var last := shares[n];
      assert shares == shares[..n] + [last];
      assert last in multiset(shares');
      var i :| 0 <= i < |shares'| && shares'[i] == last;
      var rest := shares'[..i] + shares'[i + 1..];
      assert shares' == shares'[..i] + [last] + shares'[i + 1..];
      assert multiset(rest) == multiset(shares') - multiset{last};
      assert multiset(shares[..n]) == multiset(shares) - multiset{last};
      WorkOfRemove(shares', i, a);
      WorkOfPermutation(shares[..n], rest, a);
    }
  }

  ghost predicate SamePayments(outputs: seq<PayoutOutput>, outputs': seq<PayoutOutput>) {
    && |outputs| == |outputs'|
    && forall i | 0 <= i < |outputs| ::
      && outputs[i].address == outputs'[i].address
      && outputs[i].amount == outputs'[i].amount
      && outputs[i].dust == outputs'[i].dust
  }

  lemma PermutedWeights(
    shares: seq<ShareEntry>, shares': seq<ShareEntry>, dust: seq<(string, int)>, gross: int)
    requires multiset(shares) == multiset(shares')
    ensures Addresses(shares) == Addresses(shares')
    ensures Weights(shares, dust, gross) == Weights(shares', dust, gross)
  {
    SameElements(shares, shares');
    assert forall s :: s in shares <==> s in Elements(shares);
    assert forall s :: s in shares' <==> s in Elements(shares');
    forall a | a in Addresses(shares)
      ensures WorkOf(shares, a) == WorkOf(shares', a)
    {
      WorkOfPermutation(shares, shares', a);
    }
    SameWeights(shares, shares', dust, dust, gross);
  }

  lemma SamePaymentsFor(
    ks: seq<string>, shares: seq<ShareEntry>, shares': seq<ShareEntry>, q: map<string, real>, net: int, minPayout: int)
    requires forall k | k in ks :: k in Addresses(shares) && k in Addresses(shares') && k in q
    ensures SamePayments(OutputsFor(ks, shares, q, net, minPayout), OutputsFor(ks, shares', q, net, minPayout))
  {
    forall i | 0 <= i < |ks|
      ensures
        var o, p := OutputsFor(ks, shares, q, net, minPayout)[i], OutputsFor(ks, shares', q, net, minPayout)[i];
        o.address == p.address && o.amount == p.amount && o.dust == p.dust
    {
      KeyedOutput(ks, shares, q, net, minPayout, i);
      KeyedOutput(ks, shares', q, net, minPayout, i);
    }
  }

  /** Order independence: permuting the window changes no address, amount or dust of any output. */
  lemma OrderIndependence(
    shares: seq<ShareEntry>, shares': seq<ShareEntry>, dust: seq<(string, int)>, gross: int, net: int, minPayout: int)
    requires multiset(shares) == multiset(shares')
    ensures SamePayments(
      PlanOutputs(shares, dust, gross, net, minPayout), PlanOutputs(shares', dust, gross, net, minPayout))
  {
    PermutedWeights(shares, shares', dust, gross);
    if Pays?(shares, dust, gross, net) {
      PlanShape(shares, dust, gross, net, minPayout);
      PlanShape(shares', dust, gross, net, minPayout);
      var q := WindowQuotas(shares, dust, gross, net);
      SamePaymentsFor(InKeyOrder(q.Keys), shares, shares', q, net, minPayout);
    }
  }

  // ----- worker ids -----

  /** Every address in the window mines under one worker id. */
  ghost predicate OneWorkerPerAddress(shares: seq<ShareEntry>) {
    forall s, t | s in shares && t in shares && s.address == t.address :: s.workerId == t.workerId
  }

  lemma FirstWorkerMember(shares: seq<ShareEntry>, a: string) returns (s: ShareEntry)
    requires a in Addresses(shares)
    ensures s in shares && s.address == a && s.workerId == FirstWorker(shares, a)
  {
    FirstWorkerIsFirst(shares, a);
    var i :| 0 <= i < |shares| && shares[i].address == a && shares[i].workerId == FirstWorker(shares, a)
      && a !in Addresses(shares[..i]);
    s := shares[i];
  }

  lemma FirstWorkerOfFront(s: ShareEntry, rest: seq<ShareEntry>)
    ensures s.address in Addresses([s] + rest)
    ensures FirstWorker([s] + rest, s.address) == s.workerId
  {
    var shares := [s] + rest;
    assert shares[0] in shares;
    FirstWorkerIsFirst(shares, s.address);
    var i :| 0 <= i < |shares| && shares[i].address == s.address
      && shares[i].workerId == FirstWorker(shares, s.address) && s.address !in Addresses(shares[..i]);
    assert forall k | 0 < k <= |shares| :: shares[..k][0] == s;
  }

  lemma SameWorkersSameOutputs(
    ks: seq<string>, shares: seq<ShareEntry>, shares': seq<ShareEntry>, q: map<string, real>, net: int, minPayout: int)
    requires forall k | k in ks :: k in Addresses(shares) && k in Addresses(shares') && k in q
    requires forall k | k in ks :: FirstWorker(shares, k) == FirstWorker(shares', k)
    ensures OutputsFor(ks, shares, q, net, minPayout) == OutputsFor(ks, shares', q, net, minPayout)
  {
    forall i | 0 <= i < |ks|
      ensures OutputsFor(ks, shares, q, net, minPayout)[i] == OutputsFor(ks, shares', q, net, minPayout)[i]
    {
      KeyedOutput(ks, shares, q, net, minPayout, i);
      KeyedOutput(ks, shares', q, net, minPayout, i);
    }
  }

  lemma OneWorkerGivesSameOutputs(
    shares: seq<ShareEntry>, shares': seq<ShareEntry>, dust: seq<(string, int)>, gross: int, net: int, minPayout: int)
    requires multiset(shares) == multiset(shares') && OneWorkerPerAddress(shares)
    ensures PlanOutputs(shares, dust, gross, net, minPayout) == PlanOutputs(shares', dust, gross, net, minPayout)
  {
    PermutedWeights(shares, shares', dust, gross);
    if Pays?(shares, dust, gross, net) {
      PlanShape(shares, dust, gross, net, minPayout);
      PlanShape(shares', dust, gross, net, minPayout);
      forall k | k in Addresses(shares)
        ensures FirstWorker(shares, k) == FirstWorker(shares', k)
      {
        var s := FirstWorkerMember(shares, k);
        var t := FirstWorkerMember(shares', k);
        assert t in multiset(shares');
        assert t in shares;
      }
      var q := WindowQuotas(shares, dust, gross, net);
      SameWorkersSameOutputs(InKeyOrder(q.Keys), shares, shares', q, net, minPayout);
    }
  }

  lemma BringToFront(shares: seq<ShareEntry>, u: ShareEntry) returns (shares': seq<ShareEntry>)
    requires u in shares
    ensures multiset(shares') == multiset(shares)
    ensures u.address in Addresses(shares') && FirstWorker(shares', u.address) == u.workerId
  {
    var i :| 0 <= i < |shares| && shares[i] == u;
    var rest := shares[..i] + shares[i + 1..];
    assert shares == shares[..i] + [u] + shares[i + 1..];
    shares' := [u] + rest;
    FirstWorkerOfFront(u, rest);
  }

  lemma OutputOf(
    shares: seq<ShareEntry>, dust: seq<(string, int)>, gross: int, net: int, minPayout: int, a: string, k: nat)
    requires Pays?(shares, dust, gross, net) && a in Addresses(shares)
    requires k < |InKeyOrder(Addresses(shares))| && InKeyOrder(Addresses(shares))[k] == a
    ensures k < |PlanOutputs(shares, dust, gross, net, minPayout)|
    ensures PlanOutputs(shares, dust, gross, net, minPayout)[k].workerId == FirstWorker(shares, a)
  {
    PlanShape(shares, dust, gross, net, minPayout);
    OutputAt(shares, dust, gross, net, minPayout, k);
  }

  /** Two workers on one address: some order of the same shares names a different worker. */
  lemma TwoWorkersDisagree(
    shares: seq<ShareEntry>, dust: seq<(string, int)>, gross: int, net: int, minPayout: int)
    returns (shares': seq<ShareEntry>)
    requires Pays?(shares, dust, gross, net) && !OneWorkerPerAddress(shares)
    ensures multiset(shares') == multiset(shares)
    ensures PlanOutputs(shares', dust, gross, net, minPayout) != PlanOutputs(shares, dust, gross, net, minPayout)
  {
    var s, t :| s in shares && t in shares && s.address == t.address && s.workerId != t.workerId;
    var a := s.address;
    assert a in Addresses(shares);
    shares' := BringToFront(shares, if s.workerId == FirstWorker(shares, a) then t else s);
    PermutedWeights(shares, shares', dust, gross);
    InKeyOrderMembers(Addresses(shares));
    var k :| 0 <= k < |InKeyOrder(Addresses(shares))| && InKeyOrder(Addresses(shares))[k] == a;
    OutputOf(shares, dust, gross, net, minPayout, a, k);
    OutputOf(shares', dust, gross, net, minPayout, a, k);
  }

  /**
   The recorded worker ids, unlike the amounts, are independent of the order of
   the window exactly when no address mines under two workers.
   */
  lemma WorkerIdsOrderIndependentIff(
    shares: seq<ShareEntry>, dust: seq<(string, int)>, gross: int, net: int, minPayout: int)
    requires Pays?(shares, dust, gross, net)
    ensures OneWorkerPerAddress(shares) <==>
      forall shares': seq<ShareEntry> | multiset(shares') == multiset(shares) ::
        PlanOutputs(shares', dust, gross, net, minPayout) == PlanOutputs(shares, dust, gross, net, minPayout)
  {
    if OneWorkerPerAddress(shares) {
      forall shares': seq<ShareEntry> | multiset(shares') == multiset(shares)
        ensures PlanOutputs(shares', dust, gross, net, minPayout) == PlanOutputs(shares, dust, gross, net, minPayout)
      {
        OneWorkerGivesSameOutputs(shares, shares', dust, gross, net, minPayout);
      }
    } else {
      var shares' := TwoWorkersDisagree(shares, dust, gross, net, minPayout);
    }
  }
}
