/**
 Building the payout plan of a found block: weights from the window and the
 dust balances, the pool fee, largest-remainder distribution and clipping of
 small amounts to dust.
 */
module PayoutPlan {
  import opened Orders
  import opened Text
  import opened Apportionment

  /** A share in the payout window. Timestamps are numbered in time order. */
  datatype ShareEntry = ShareEntry(
    shareId: int, outcomeId: int, workerId: int, address: string, difficulty: real, createdAt: int)

  datatype PayoutOutput = PayoutOutput(address: string, workerId: int, amount: int, dust: int)

  datatype PayoutPlan = PayoutPlan(
    roundId: int, blockHeight: int, blockHash: string, networkDifficulty: real, totalWork: real,
    grossReward: int, poolFee: int, feeAddress: Option<string>, outputs: seq<PayoutOutput>,
    dustTotal: int, retryKey: string)

  const U64: int := 0x1_0000_0000_0000_0000
  const I64_MAX: int := 0x7fff_ffff_ffff_ffff

  // ----- reward and fee -----

  /** What the node keeps of a coinbase. */
  function Minerfund(coinbase: nat): nat {
    coinbase / 2
  }

  /** The pool's part of a u64 coinbase value, converted to i64 as the source does. */
  function RewardFromCoinbase(coinbase: nat): int {
    var kept := coinbase - Minerfund(coinbase);
    if kept > I64_MAX then kept - U64 else kept
  }

  /** Minerfund and reward make up the coinbase for every u64 value but the largest. */
  lemma RewardSplitsCoinbase(coinbase: nat)
    requires coinbase < U64
    ensures RewardFromCoinbase(coinbase) + Minerfund(coinbase) == coinbase <==> coinbase != U64 - 1
    ensures coinbase != U64 - 1 ==> Minerfund(coinbase) <= RewardFromCoinbase(coinbase) <= Minerfund(coinbase) + 1
  {
  }

  /** The fee in satoshis; the product is taken in u64. */
  function PoolFee(gross: int, feeBps: nat): (fee: int)
    ensures 0 <= fee
  {
    if gross > 0 then gross * feeBps % U64 / 10000 else 0
  }

  /** Up to 10^12 satoshis and 100% the u64 product does not wrap, and the fee is the true share rounded down. */
  lemma FeeDoesNotOverflow(gross: int, feeBps: nat)
    requires 0 <= gross <= 1_000_000_000_000 && feeBps <= 10000
    ensures gross * feeBps < U64
    ensures PoolFee(gross, feeBps) * 10000 <= gross * feeBps < (PoolFee(gross, feeBps) + 1) * 10000
    ensures PoolFee(gross, feeBps) <= gross
  {
    Product(gross, feeBps);
  }

  /** For any reward the fee is the true share rounded down exactly when the product fits u64. */
  lemma FeeIsExactIff(gross: int, feeBps: nat)
    ensures gross <= 0 ==> PoolFee(gross, feeBps) == 0
    ensures gross > 0 ==>
      (PoolFee(gross, feeBps) * 10000 <= gross * feeBps < (PoolFee(gross, feeBps) + 1) * 10000
       <==> gross * feeBps < U64)
  {
  }

  lemma Product(gross: int, feeBps: nat)
    requires 0 <= gross <= 1_000_000_000_000 && feeBps <= 10000
    ensures 0 <= gross * feeBps <= gross * 10000
  {
  }

  // ----- weights -----

  function Addresses(shares: seq<ShareEntry>): set<string> {
    set s | s in shares :: s.address
  }

  /** Work units credited to an address. */
  function WorkOf(shares: seq<ShareEntry>, a: string): real {
    if shares == [] then 0.0
    else
      var n := |shares| - 1;
      WorkOf(shares[..n], a) + if shares[n].address == a then shares[n].difficulty else 0.0
  }

  /** The worker id recorded for an address: that of its first share in the list. */
  function FirstWorker(shares: seq<ShareEntry>, a: string): int
    requires a in Addresses(shares)
  {
    var n := |shares| - 1;
    assert forall s | s in shares :: s in shares[..n] || s == shares[n];
    if a in Addresses(shares[..n]) then FirstWorker(shares[..n], a) else shares[n].workerId
  }

  lemma {:induction false} FirstWorkerIsFirst(shares: seq<ShareEntry>, a: string)
    requires a in Addresses(shares)
    ensures exists i :: 0 <= i < |shares| && shares[i].address == a
              && shares[i].workerId == FirstWorker(shares, a)
              && a !in Addresses(shares[..i])
  {
    var n := |shares| - 1;
    assert forall s | s in shares :: s in shares[..n] || s == shares[n];
    if a in Addresses(shares[..n]) {
      FirstWorkerIsFirst(shares[..n], a);
      var i :| 0 <= i < n && shares[..n][i].address == a
        && shares[..n][i].workerId == FirstWorker(shares[..n], a) && a !in Addresses(shares[..n][..i]);
      assert shares[..n][..i] == shares[..i];
    }
  }

  /** The balance of an address; a repeated row overrides the earlier one. */
  function DustOf(dust: seq<(string, int)>, a: string): int {
    if dust == [] then 0
    else
      var n := |dust| - 1;
      if dust[n].0 == a then dust[n].1 else DustOf(dust[..n], a)
  }

  /** The last row of an address counts, and an address without rows has no dust. */
  lemma {:induction false} DustOfIsLast(dust: seq<(string, int)>, a: string, i: nat)
    requires i <= |dust| && forall j | i < j < |dust| :: dust[j].0 != a
    ensures i < |dust| && dust[i].0 == a ==> DustOf(dust, a) == dust[i].1
    ensures i == 0 && (dust == [] || dust[0].0 != a) ==> DustOf(dust, a) == 0
  {
    if i < |dust| - 1 { DustOfIsLast(dust[..|dust| - 1], a, i); }
  }

  /** Dust counts as extra work: `dust / gross` units. */
  function Bonus(dust: seq<(string, int)>, gross: int, a: string): real {
    BonusFor(DustOf(dust, a), gross)
  }

  function BonusFor(balance: int, gross: int): (bonus: real)
    ensures bonus >= 0.0
  {
    if gross > 0 && balance > 0 then balance as real / gross as real else 0.0
  }

  function Weights(shares: seq<ShareEntry>, dust: seq<(string, int)>, gross: int): map<string, real> {
    map a | a in Addresses(shares) :: WorkOf(shares, a) + Bonus(dust, gross, a)
  }

  // ----- the plan's outputs, stated without loops -----

  function Clipped(a: string, worker: int, whole: int, minPayout: int): PayoutOutput {
    if whole < minPayout then PayoutOutput(a, worker, 0, whole) else PayoutOutput(a, worker, whole, 0)
  }

  /** An output of at least the minimum is paid on chain in full; a smaller one is carried as dust in full. */
  predicate PaidOrCarried(outputs: seq<PayoutOutput>, minPayout: int) {
    forall o | o in outputs ::
      && (o.amount + o.dust >= minPayout ==> o.dust == 0)
      && (o.amount + o.dust < minPayout ==> o.amount == 0)
  }

  ghost predicate Pays?(shares: seq<ShareEntry>, dust: seq<(string, int)>, gross: int, net: int) {
    Total(Weights(shares, dust, gross)) > 0.0 && net > 0
  }

  /** The exact quota of every address in the window. */
  ghost function WindowQuotas(shares: seq<ShareEntry>, dust: seq<(string, int)>, gross: int, net: int)
    : (q: map<string, real>)
    requires Pays?(shares, dust, gross, net)
    ensures q.Keys == Addresses(shares)
  {
    Quotas(Weights(shares, dust, gross), net)
  }

  ghost function OutputsFor(
    ks: seq<string>, shares: seq<ShareEntry>, q: map<string, real>, net: int, minPayout: int)
    : (outputs: seq<PayoutOutput>)
    requires forall k | k in ks :: k in Addresses(shares) && k in q
    ensures |outputs| == |ks|
  {
    seq(|ks|, i requires 0 <= i < |ks| =>
      Clipped(ks[i], FirstWorker(shares, ks[i]), Pay(q, net, ks[i]), minPayout))
  }

  ghost function PlanOutputs(
    shares: seq<ShareEntry>, dust: seq<(string, int)>, gross: int, net: int, minPayout: int)
    : (outputs: seq<PayoutOutput>)
  {
    if Pays?(shares, dust, gross, net) then
      var q := WindowQuotas(shares, dust, gross, net);
      InKeyOrderMembers(q.Keys);
      OutputsFor(InKeyOrder(q.Keys), shares, q, net, minPayout)
    else
      []
  }

  lemma InKeyOrderMembers(S: set<string>)
    ensures forall k | k in InKeyOrder(S) :: k in S
    ensures forall k | k in S :: k in InKeyOrder(S)
    ensures NoRepeats(InKeyOrder(S))
  {
    var ks := InKeyOrder(S);
    assert forall k | k in ks :: k in Elements(ks);
    assert forall k | k in Elements(ks) :: k in ks;
    LessIsStrictOrder(S);
    SortedHasNoRepeats(ks, Less);
  }

  function DustTotal(outputs: seq<PayoutOutput>): int {
    if outputs == [] then 0 else DustTotal(outputs[..|outputs| - 1]) + outputs[|outputs| - 1].dust
  }

  function AmountTotal(outputs: seq<PayoutOutput>): int {
    if outputs == [] then 0 else AmountTotal(outputs[..|outputs| - 1]) + outputs[|outputs| - 1].amount
  }

  function RetryKey(blockHash: string, count: nat): string {
    blockHash + ":" + Decimal(count)
  }

  /** A retry key fixes the block hash and the number of outputs. */
  lemma RetryKeyIff(hash: string, count: nat, hash': string, count': nat)
    requires |hash| == |hash'|
    ensures RetryKey(hash, count) == RetryKey(hash', count') <==> hash == hash' && count == count'
  {
    var key, key' := RetryKey(hash, count), RetryKey(hash', count');
    var n := |hash|;
    assert key[..n] == hash && key'[..n] == hash';
    assert key[n + 1..] == Decimal(count) && key'[n + 1..] == Decimal(count');
    if key == key' { DecimalInjective(count, count'); }
  }

  // ----- the steps of build_payout_plan -----

  datatype Entry = Entry(workerId: int, work: real)

  datatype Alloc = Alloc(address: string, workerId: int, whole: int, fractional: real)

  ghost predicate WorkByAddress(work: map<string, Entry>, shares: seq<ShareEntry>) {
    && work.Keys == Addresses(shares)
    && forall a | a in work :: work[a] == Entry(FirstWorker(shares, a), WorkOf(shares, a))
  }

  /** One more share, added to its address's entry. */
  function Credit(work: map<string, Entry>, share: ShareEntry): map<string, Entry> {
    var entry := if share.address in work then work[share.address] else Entry(share.workerId, 0.0);
    work[share.address := entry.(work := entry.work + share.difficulty)]
  }

  lemma CreditOne(work: map<string, Entry>, done: seq<ShareEntry>, share: ShareEntry)
    requires WorkByAddress(work, done)
    ensures WorkByAddress(Credit(work, share), done + [share])
  {
    var more := done + [share];
    assert more[..|more| - 1] == done;
    assert Addresses(more) == Addresses(done) + {share.address};
    WorkOfAbsent(done, share.address);
    forall a | a in Addresses(more)
      ensures FirstWorker(more, a) == if a in Addresses(done) then FirstWorker(done, a) else share.workerId
    {
    }
  }

  method AggregateWork(shares: seq<ShareEntry>) returns (work: map<string, Entry>)
    ensures WorkByAddress(work, shares)
  {
    work := map[];
    for i := 0 to |shares|
      invariant WorkByAddress(work, shares[..i])
    {
      CreditOne(work, shares[..i], shares[i]);
      assert shares[..i + 1] == shares[..i] + [shares[i]];
      work := Credit(work, shares[i]);
    }
    assert shares[..|shares|] == shares;
  }

  lemma {:induction false} WorkOfAbsent(shares: seq<ShareEntry>, a: string)
    ensures a !in Addresses(shares) ==> WorkOf(shares, a) == 0.0
  {
    if shares != [] {
      var n := |shares| - 1;
      assert shares[n] in shares;
      assert forall s | s in shares[..n] :: s in shares;
      WorkOfAbsent(shares[..n], a);
    }
  }

  method CollectDust(dust: seq<(string, int)>) returns (balances: map<string, int>)
    ensures forall a :: (if a in balances then balances[a] else 0) == DustOf(dust, a)
  {
    balances := map[];
    for i := 0 to |dust|
      invariant forall a :: (if a in balances then balances[a] else 0) == DustOf(dust[..i], a)
    {
      assert dust[..i + 1][..i] == dust[..i];
      balances := balances[dust[i].0 := dust[i].1];
    }
    assert dust[..|dust|] == dust;
  }

  function Boost(entry: Entry, bonus: real): Entry {
    entry.(work := entry.work + bonus)
  }

  /** After the first `i` keys, exactly those have their bonus. */
  ghost predicate BonusAdded(
    weighted: map<string, Entry>, work: map<string, Entry>, dust: seq<(string, int)>, gross: int, done: set<string>)
  {
    && weighted.Keys == work.Keys
    && forall a | a in work ::
      weighted[a] == if a in done then Boost(work[a], Bonus(dust, gross, a)) else work[a]
  }

  lemma PrefixStep(ks: seq<string>, i: nat)
    requires i < |ks| && NoRepeats(ks)
    ensures ks[i] !in Elements(ks[..i])
    ensures Elements(ks[..i + 1]) == Elements(ks[..i]) + {ks[i]}
  {
    assert ks[..i + 1] == ks[..i] + [ks[i]];
  }

  lemma BonusOneMore(
    weighted: map<string, Entry>, work: map<string, Entry>, dust: seq<(string, int)>, gross: int,
    done: set<string>, a: string)
    requires BonusAdded(weighted, work, dust, gross, done) && a in work && a !in done
    ensures BonusAdded(weighted[a := Boost(weighted[a], Bonus(dust, gross, a))], work, dust, gross, done + {a})
    ensures DustOf(dust, a) == 0 ==> BonusAdded(weighted, work, dust, gross, done + {a})
  {
  }

  method AddDustBonus(work: map<string, Entry>, dust: seq<(string, int)>, gross: int)
    returns (weighted: map<string, Entry>)
    ensures BonusAdded(weighted, work, dust, gross, work.Keys)
  {
    var balances := CollectDust(dust);
    var ks := InKeyOrder(work.Keys);
    InKeyOrderMembers(work.Keys);
    weighted := work;
    ghost var done := {};
    for i := 0 to |ks|
      invariant done == Elements(ks[..i])
      invariant BonusAdded(weighted, work, dust, gross, done)
    {
      var a := ks[i];
      PrefixStep(ks, i);
      BonusOneMore(weighted, work, dust, gross, done, a);
      done := done + {a};
      if a in balances {
        weighted := weighted[a := Boost(weighted[a], BonusFor(balances[a], gross))];
      }
    }
    assert ks[..|ks|] == ks;
  }

  ghost function WorkUnits(weighted: map<string, Entry>): map<string, real> {
    map a | a in weighted :: weighted[a].work
  }

  method SumWork(ks: seq<string>, weighted: map<string, Entry>, ghost units: map<string, real>) returns (total: real)
    requires forall k | k in ks :: k in weighted && k in units && units[k] == weighted[k].work
    ensures total == SumReal(ks, units)
  {
    total := 0.0;
    for i := 0 to |ks|
      invariant total == SumReal(ks[..i], units)
    {
      assert ks[..i + 1][..i] == ks[..i];
      total := total + weighted[ks[i]].work;
    }
    assert ks[..|ks|] == ks;
  }

  method TotalWork(weighted: map<string, Entry>) returns (total: real)
    ensures total == Total(WorkUnits(weighted))
  {
    var ks := InKeyOrder(weighted.Keys);
    InKeyOrderMembers(weighted.Keys);
    assert WorkUnits(weighted).Keys == weighted.Keys;
    total := SumWork(ks, weighted, WorkUnits(weighted));
  }

  // ----- distribution -----

  predicate LargerFraction(x: Alloc, y: Alloc) {
    x.fractional >= y.fractional
  }

  predicate AddressOrder(x: Alloc, y: Alloc) {
    !Less(y.address, x.address)
  }

  function AddressesOf(allocs: seq<Alloc>): (s: seq<string>)
    ensures |s| == |allocs| && forall i | 0 <= i < |s| :: s[i] == allocs[i].address
  {
    seq(|allocs|, i requires 0 <= i < |allocs| => allocs[i].address)
  }

  /** Larger fractional part first, then smaller address. */
  predicate ServedBefore(x: Alloc, y: Alloc) {
    x.fractional > y.fractional || (x.fractional == y.fractional && Less(x.address, y.address))
  }

  predicate SmallerAddress(x: Alloc, y: Alloc) {
    Less(x.address, y.address)
  }

  /** Every row is the table's row for its address. */
  ghost predicate FromTable(allocs: seq<Alloc>, table: map<string, Alloc>) {
    forall x | x in allocs :: x.address in table && x == table[x.address]
  }

  ghost predicate Keyed(table: map<string, Alloc>) {
    forall a | a in table :: table[a].address == a
  }

  lemma RowOrdersAreStrict(allocs: seq<Alloc>, table: map<string, Alloc>)
    requires FromTable(allocs, table)
    ensures StrictOrder(Elements(allocs), ServedBefore)
    ensures StrictOrder(Elements(allocs), SmallerAddress)
  {
    var S := Elements(allocs);
    AddressOrderIsStrict(S);
    ServingOrderIsStrict(S);
  }

  lemma AddressOrderIsStrict(S: set<Alloc>)
    requires forall x, y | x in S && y in S && x.address == y.address :: x == y
    ensures StrictOrder(S, SmallerAddress)
  {
    forall x | x in S ensures !SmallerAddress(x, x) { LessIrreflexive(x.address); }
    forall x, y | x in S && y in S && x != y
      ensures SmallerAddress(x, y) || SmallerAddress(y, x)
    {
      LessTotal(x.address, y.address);
    }
    forall x, y, z | x in S && y in S && z in S && SmallerAddress(x, y) && SmallerAddress(y, z)
      ensures SmallerAddress(x, z)
    {
      LessTransitive(x.address, y.address, z.address);
    }
  }

  lemma ServingOrderIsStrict(S: set<Alloc>)
    requires StrictOrder(S, SmallerAddress)
    ensures StrictOrder(S, ServedBefore)
  {
    forall x | x in S ensures !ServedBefore(x, x) { assert !SmallerAddress(x, x); }
    forall x, y | x in S && y in S && x != y
      ensures ServedBefore(x, y) || ServedBefore(y, x)
    {
      assert SmallerAddress(x, y) || SmallerAddress(y, x);
    }
    forall x, y, z | x in S && y in S && z in S && ServedBefore(x, y) && ServedBefore(y, z)
      ensures ServedBefore(x, z)
    {
      if x.fractional == z.fractional {
        assert SmallerAddress(x, y) && SmallerAddress(y, z);
        assert SmallerAddress(x, z);
      }
    }
  }

  lemma AddressElements(allocs: seq<Alloc>, sorted: seq<Alloc>)
    requires Elements(allocs) == Elements(sorted)
    ensures Elements(AddressesOf(sorted)) == Elements(AddressesOf(allocs))
  {
    AddressElementsSubset(allocs, sorted);
    AddressElementsSubset(sorted, allocs);
  }

  lemma AddressElementsSubset(allocs: seq<Alloc>, sorted: seq<Alloc>)
    requires Elements(allocs) <= Elements(sorted)
    ensures Elements(AddressesOf(allocs)) <= Elements(AddressesOf(sorted))
  {
    forall a | a in Elements(AddressesOf(allocs))
      ensures a in Elements(AddressesOf(sorted))
    {
      var i :| 0 <= i < |allocs| && AddressesOf(allocs)[i] == a;
      assert allocs[i] in Elements(sorted);
      var j :| 0 <= j < |sorted| && sorted[j] == allocs[i];
      assert AddressesOf(sorted)[j] == a;
    }
  }

  /** Rounded-down rows, one per address. */
  ghost function FloorTable(weighted: map<string, Entry>, q: map<string, real>): (table: map<string, Alloc>)
    requires q.Keys == weighted.Keys
    ensures Keyed(table)
  {
    map a | a in q :: Alloc(a, weighted[a].workerId, q[a].Floor, Frac(q, a))
  }

  /** Rows after the remainder has been handed out. */
  ghost function PaidTable(weighted: map<string, Entry>, q: map<string, real>, net: int): (table: map<string, Alloc>)
    requires q.Keys == weighted.Keys
    ensures Keyed(table)
  {
    map a | a in q :: Alloc(a, weighted[a].workerId, Pay(q, net, a), Frac(q, a))
  }

  /** Sorting the rows by fractional part lists the addresses in the order they are served. */
  lemma FractionSortServes(allocs: seq<Alloc>, weighted: map<string, Entry>, q: map<string, real>)
    requires q.Keys == weighted.Keys
    requires FromTable(allocs, FloorTable(weighted, q))
    requires AddressesOf(allocs) == InKeyOrder(q.Keys)
    ensures AddressesOf(StableSort(allocs, LargerFraction)) == Served(q)
    ensures FromTable(StableSort(allocs, LargerFraction), FloorTable(weighted, q))
  {
    var table := FloorTable(weighted, q);
    var sorted := StableSort(allocs, LargerFraction);
    RowOrdersAreStrict(allocs, table);
    forall i, j | 0 <= i < j < |allocs|
      ensures if LargerFraction(allocs[i], allocs[j]) then ServedBefore(allocs[i], allocs[j])
              else ServedBefore(allocs[j], allocs[i])
    {
      assert Less(AddressesOf(allocs)[i], AddressesOf(allocs)[j]);
    }
    StableSortSorts(allocs, LargerFraction, ServedBefore);
    StableSortFromTable(allocs, LargerFraction, table);
    AddressElements(allocs, sorted);
    var r := AddressesOf(sorted);
    forall i, j | 0 <= i < j < |r|
      ensures Ahead(q)(r[i], r[j])
    {
      assert ServedBefore(sorted[i], sorted[j]);
      assert sorted[i] in sorted && sorted[j] in sorted;
    }
    AheadIsStrictOrder(q);
    SortedUnique(r, Served(q), Ahead(q));
  }

  lemma StableSortFromTable(allocs: seq<Alloc>, leq: (Alloc, Alloc) -> bool, table: map<string, Alloc>)
    requires FromTable(allocs, table)
    ensures FromTable(StableSort(allocs, leq), table)
  {
    StableSortPermutes(allocs, leq);
    SameElements(allocs, StableSort(allocs, leq));
    forall x | x in StableSort(allocs, leq)
      ensures x in allocs
    {
      assert x in Elements(StableSort(allocs, leq));
    }
  }

  /** Sorting any listing of a table by address restores key order. */
  lemma AddressSortRestores(allocs: seq<Alloc>, table: map<string, Alloc>)
    requires FromTable(allocs, table) && NoRepeats(AddressesOf(allocs))
    requires Elements(AddressesOf(allocs)) == table.Keys
    ensures FromTable(StableSort(allocs, AddressOrder), table)
    ensures AddressesOf(StableSort(allocs, AddressOrder)) == InKeyOrder(table.Keys)
  {
    var sorted := StableSort(allocs, AddressOrder);
    RowOrdersAreStrict(allocs, table);
    forall i, j | 0 <= i < j < |allocs|
      ensures if AddressOrder(allocs[i], allocs[j]) then SmallerAddress(allocs[i], allocs[j])
              else SmallerAddress(allocs[j], allocs[i])
    {
      assert AddressesOf(allocs)[i] != AddressesOf(allocs)[j];
      LessTotal(allocs[i].address, allocs[j].address);
    }
    StableSortSorts(allocs, AddressOrder, SmallerAddress);
    StableSortFromTable(allocs, AddressOrder, table);
    AddressElements(allocs, sorted);
    var r := AddressesOf(sorted);
    forall i, j | 0 <= i < j < |r|
      ensures Less(r[i], r[j])
    {
      assert SmallerAddress(sorted[i], sorted[j]);
    }
    LessIsStrictOrder(table.Keys);
    SortedUnique(r, InKeyOrder(table.Keys), Less);
  }

  /** Rows of a table in the given order of addresses. */
  ghost function RowsInOrder(ks: seq<string>, table: map<string, Alloc>): (rows: seq<Alloc>)
    requires forall k | k in ks :: k in table
    ensures |rows| == |ks|
  {
    seq(|ks|, i requires 0 <= i < |ks| => table[ks[i]])
  }

  lemma RowsAreTheTable(allocs: seq<Alloc>, table: map<string, Alloc>, ks: seq<string>)
    requires FromTable(allocs, table) && AddressesOf(allocs) == ks
    requires forall k | k in ks :: k in table
    ensures allocs == RowsInOrder(ks, table)
  {
    forall i | 0 <= i < |allocs|
      ensures allocs[i] == RowsInOrder(ks, table)[i]
    {
      assert allocs[i] in allocs;
      assert ks[i] == allocs[i].address;
    }
  }

  function SplitQuota(a: string, entry: Entry, total: real, net: int): Alloc
    requires total > 0.0
  {
    var quota := entry.work / total * net as real;
    Alloc(a, entry.workerId, quota.Floor, quota - quota.Floor as real)
  }

  /** Whole and fractional part of every quota, in the order given. */
  method FloorQuotas(ks: seq<string>, weighted: map<string, Entry>, total: real, net: int)
    returns (allocs: seq<Alloc>)
    requires total > 0.0 && forall k | k in ks :: k in weighted
    ensures |allocs| == |ks|
    ensures forall i | 0 <= i < |ks| :: allocs[i] == SplitQuota(ks[i], weighted[ks[i]], total, net)
  {
    allocs := [];
    for i := 0 to |ks|
      invariant |allocs| == i
      invariant forall j | 0 <= j < i :: allocs[j] == SplitQuota(ks[j], weighted[ks[j]], total, net)
    {
      allocs := allocs + [SplitQuota(ks[i], weighted[ks[i]], total, net)];
    }
  }

  /** The rows that loop builds are the rounded-down rows of the exact quotas. */
  lemma FloorQuotasFromTable(
    ks: seq<string>, allocs: seq<Alloc>, weighted: map<string, Entry>, total: real, net: int)
    requires total > 0.0 && (forall k | k in ks :: k in weighted) && |allocs| == |ks|
    requires forall i | 0 <= i < |ks| :: allocs[i] == SplitQuota(ks[i], weighted[ks[i]], total, net)
    ensures AddressesOf(allocs) == ks
    ensures WorkUnits(weighted).Keys == weighted.Keys
    ensures FromTable(allocs, FloorTable(weighted, Scaled(WorkUnits(weighted), total, net as real)))
  {
    var q := Scaled(WorkUnits(weighted), total, net as real);
    forall x | x in allocs
      ensures x.address in q && x == FloorTable(weighted, q)[x.address]
    {
      var i :| 0 <= i < |allocs| && allocs[i] == x;
      FloorRow(weighted, q, total, net, ks[i]);
    }
  }

  lemma FloorRow(weighted: map<string, Entry>, q: map<string, real>, total: real, net: int, a: string)
    requires total > 0.0 && q == Scaled(WorkUnits(weighted), total, net as real) && a in weighted
    ensures q.Keys == weighted.Keys
    ensures FloorTable(weighted, q)[a] == SplitQuota(a, weighted[a], total, net)
  {
    var quota := weighted[a].work / total * net as real;
    assert WorkUnits(weighted)[a] == weighted[a].work;
    assert q[a] == quota;
    assert FloorTable(weighted, q)[a] == Alloc(a, weighted[a].workerId, quota.Floor, quota - quota.Floor as real);
  }

  method AllocatedSum(allocs: seq<Alloc>, ghost q: map<string, real>, ghost weighted: map<string, Entry>)
    returns (sum: int)
    requires q.Keys == weighted.Keys && FromTable(allocs, FloorTable(weighted, q))
    ensures forall k | k in AddressesOf(allocs) :: k in q
    ensures sum == SumInt(AddressesOf(allocs), Floors(q))
  {
    ghost var ks := AddressesOf(allocs);
    forall k | k in ks
      ensures k in q
    {
      var i :| 0 <= i < |ks| && ks[i] == k;
      assert allocs[i] in allocs;
    }
    sum := 0;
    for i := 0 to |allocs|
      invariant sum == SumInt(ks[..i], Floors(q))
    {
      assert allocs[i] in allocs;
      assert ks[..i + 1][..i] == ks[..i];
      sum := sum + allocs[i].whole;
    }
    assert ks[..|ks|] == ks;
  }

  /** The remainder loop: one satoshi to each row from the front until the leftover is gone. */
  method HandOutRemainder(rows: seq<Alloc>, leftover: int) returns (paid: seq<Alloc>)
    ensures |paid| == |rows|
    ensures forall i | 0 <= i < |rows| ::
      paid[i] == rows[i].(whole := rows[i].whole + if i < leftover then 1 else 0)
  {
    paid := rows;
    var remainder := leftover;
    for i := 0 to |rows|
      invariant |paid| == |rows|
      invariant remainder == if leftover <= 0 then leftover else if i < leftover then leftover - i else 0
      invariant forall j | 0 <= j < i ::
        paid[j] == rows[j].(whole := rows[j].whole + if j < leftover then 1 else 0)
      invariant forall j | i <= j < |rows| :: paid[j] == rows[j]
    {
      if remainder <= 0 {
        break;
      }
      paid := paid[i := paid[i].(whole := paid[i].whole + 1)];
      remainder := remainder - 1;
    }
  }

  /** After the remainder loop every row in serving order holds its payment. */
  lemma RemainderRows(
    r: seq<string>, rows: seq<Alloc>, paid: seq<Alloc>,
    weighted: map<string, Entry>, q: map<string, real>, net: int, leftover: int)
    requires q.Keys == weighted.Keys && |paid| == |rows|
    requires FromTable(rows, FloorTable(weighted, q)) && AddressesOf(rows) == r
    requires forall i | 0 <= i < |r| ::
      r[i] in q && Pay(q, net, r[i]) == q[r[i]].Floor + if i < leftover then 1 else 0
    requires forall i | 0 <= i < |rows| ::
      paid[i] == rows[i].(whole := rows[i].whole + if i < leftover then 1 else 0)
    ensures FromTable(paid, PaidTable(weighted, q, net)) && AddressesOf(paid) == r
  {
    forall i | 0 <= i < |paid|
      ensures paid[i].address == r[i] && r[i] in q && paid[i] == PaidTable(weighted, q, net)[r[i]]
    {
      assert rows[i] in rows && r[i] == rows[i].address;
      assert rows[i] == FloorTable(weighted, q)[r[i]];
    }
  }

  lemma ServedRowsArePaid(
    rows: seq<Alloc>, paid: seq<Alloc>, weighted: map<string, Entry>, q: map<string, real>, net: int, leftover: int)
    requires q.Keys == weighted.Keys && |paid| == |rows| && leftover == Remainder(q, net)
    requires FromTable(rows, FloorTable(weighted, q)) && AddressesOf(rows) == Served(q)
    requires forall i | 0 <= i < |rows| ::
      paid[i] == rows[i].(whole := rows[i].whole + if i < leftover then 1 else 0)
    ensures FromTable(paid, PaidTable(weighted, q, net)) && AddressesOf(paid) == Served(q)
    ensures NoRepeats(AddressesOf(paid)) && Elements(AddressesOf(paid)) == q.Keys
  {
    var r := Served(q);
    forall i | 0 <= i < |r|
      ensures r[i] in q && Pay(q, net, r[i]) == q[r[i]].Floor + if i < leftover then 1 else 0
    {
      PayByIndex(q, net, r[i], i);
    }
    RemainderRows(r, rows, paid, weighted, q, net, leftover);
    AheadIsStrictOrder(q);
    SortedHasNoRepeats(r, Ahead(q));
  }

  /** Step 6: the leftover satoshis go to the largest fractional parts. */
  method LargestRemainder(rows: seq<Alloc>, net: int, ghost weighted: map<string, Entry>, ghost q: map<string, real>)
    returns (paid: seq<Alloc>)
    requires q.Keys == weighted.Keys
    requires FromTable(rows, FloorTable(weighted, q)) && AddressesOf(rows) == InKeyOrder(q.Keys)
    ensures FromTable(paid, PaidTable(weighted, q, net))
    ensures NoRepeats(AddressesOf(paid)) && Elements(AddressesOf(paid)) == q.Keys
  {
    var floorSum := AllocatedSum(rows, q, weighted);
    paid := ServeRemainder(rows, net - floorSum, net, weighted, q);
  }

  /** Sort by fractional part and serve the leftover from the front. */
  method ServeRemainder(
    rows: seq<Alloc>, remainder: int, ghost net: int, ghost weighted: map<string, Entry>, ghost q: map<string, real>)
    returns (paid: seq<Alloc>)
    requires q.Keys == weighted.Keys && remainder == Remainder(q, net)
    requires FromTable(rows, FloorTable(weighted, q)) && AddressesOf(rows) == InKeyOrder(q.Keys)
    ensures FromTable(paid, PaidTable(weighted, q, net))
    ensures NoRepeats(AddressesOf(paid)) && Elements(AddressesOf(paid)) == q.Keys
  {
    FractionSortServes(rows, weighted, q);
    var sorted := StableSort(rows, LargerFraction);
    paid := HandOutRemainder(sorted, remainder);
    ServedRowsArePaid(sorted, paid, weighted, q, net, remainder);
  }

  lemma ScaledKeys(weighted: map<string, Entry>, total: real, net: int)
    requires total > 0.0
    ensures Scaled(WorkUnits(weighted), total, net as real).Keys == weighted.Keys
  {
  }

  /** Steps 4 to 6: proportional distribution with remainder handling, back in address order. */
  method Distribute(weighted: map<string, Entry>, total: real, net: int, ghost q: map<string, real>)
    returns (allocs: seq<Alloc>)
    requires total > 0.0 && q == Scaled(WorkUnits(weighted), total, net as real)
    ensures q.Keys == weighted.Keys
    ensures forall k | k in InKeyOrder(q.Keys) :: k in q
    ensures allocs == RowsInOrder(InKeyOrder(q.Keys), PaidTable(weighted, q, net))
  {
    ScaledKeys(weighted, total, net);
    var ks := InKeyOrder(weighted.Keys);
    InKeyOrderMembers(weighted.Keys);
    allocs := FloorQuotas(ks, weighted, total, net);
    FloorQuotasFromTable(ks, allocs, weighted, total, net);
    allocs := LargestRemainder(allocs, net, weighted, q);
    ghost var table := PaidTable(weighted, q, net);
    AddressSortRestores(allocs, table);
    allocs := StableSort(allocs, AddressOrder);
    RowsAreTheTable(allocs, table, ks);
  }

  /** Step 7: amounts below the minimum become dust. */
  method ClipToMinimum(allocs: seq<Alloc>, minPayout: int) returns (outputs: seq<PayoutOutput>, dustTotal: int)
    ensures |outputs| == |allocs| && dustTotal == DustTotal(outputs)
    ensures forall i | 0 <= i < |allocs| ::
      outputs[i] == Clipped(allocs[i].address, allocs[i].workerId, allocs[i].whole, minPayout)
    ensures forall i | 0 <= i < |allocs| ::
      && outputs[i].address == allocs[i].address && outputs[i].workerId == allocs[i].workerId
      && (allocs[i].whole >= minPayout ==> outputs[i].amount == allocs[i].whole && outputs[i].dust == 0)
      && (allocs[i].whole < minPayout ==> outputs[i].amount == 0 && outputs[i].dust == allocs[i].whole)
    ensures PaidOrCarried(outputs, minPayout)
  {
    outputs, dustTotal := [], 0;
    for i := 0 to |allocs|
      invariant |outputs| == i && dustTotal == DustTotal(outputs)
      invariant forall j | 0 <= j < i ::
        outputs[j] == Clipped(allocs[j].address, allocs[j].workerId, allocs[j].whole, minPayout)
    {
      var alloc := allocs[i];
      ghost var before := outputs;
      if alloc.whole < minPayout {
        dustTotal := dustTotal + alloc.whole;
        outputs := outputs + [PayoutOutput(alloc.address, alloc.workerId, 0, alloc.whole)];
      } else {
        outputs := outputs + [PayoutOutput(alloc.address, alloc.workerId, alloc.whole, 0)];
      }
      assert outputs[..i] == before;
    }
  }

  ghost predicate Weighted(
    weighted: map<string, Entry>, shares: seq<ShareEntry>, dust: seq<(string, int)>, gross: int)
  {
    && weighted.Keys == Addresses(shares)
    && WorkUnits(weighted) == Weights(shares, dust, gross)
    && forall a | a in weighted :: weighted[a].workerId == FirstWorker(shares, a)
  }

  lemma BonusGivesWeights(
    work: map<string, Entry>, weighted: map<string, Entry>,
    shares: seq<ShareEntry>, dust: seq<(string, int)>, gross: int)
    requires WorkByAddress(work, shares) && BonusAdded(weighted, work, dust, gross, work.Keys)
    ensures Weighted(weighted, shares, dust, gross)
  {
    var units, weights := WorkUnits(weighted), Weights(shares, dust, gross);
    assert units.Keys == weights.Keys;
    forall a | a in units
      ensures units[a] == weights[a]
    {
      assert weighted[a] == Boost(work[a], Bonus(dust, gross, a));
    }
  }

  method WeighShares(shares: seq<ShareEntry>, dust: seq<(string, int)>, gross: int)
    returns (weighted: map<string, Entry>, total: real)
    ensures Weighted(weighted, shares, dust, gross)
    ensures total == Total(Weights(shares, dust, gross))
  {
    var work := AggregateWork(shares);
    weighted := AddDustBonus(work, dust, gross);
    BonusGivesWeights(work, weighted, shares, dust, gross);
    total := TotalWork(weighted);
  }

  lemma RowsGiveOutputs(
    allocs: seq<Alloc>, outputs: seq<PayoutOutput>, weighted: map<string, Entry>, q: map<string, real>,
    ks: seq<string>, shares: seq<ShareEntry>, net: int, minPayout: int)
    requires q.Keys == weighted.Keys == Addresses(shares)
    requires forall k | k in ks :: k in q
    requires forall a | a in weighted :: weighted[a].workerId == FirstWorker(shares, a)
    requires allocs == RowsInOrder(ks, PaidTable(weighted, q, net))
    requires |outputs| == |allocs|
    requires forall i | 0 <= i < |allocs| ::
      outputs[i] == Clipped(allocs[i].address, allocs[i].workerId, allocs[i].whole, minPayout)
    ensures outputs == OutputsFor(ks, shares, q, net, minPayout)
  {
    forall i | 0 <= i < |ks|
      ensures outputs[i] == OutputsFor(ks, shares, q, net, minPayout)[i]
    {
      assert ks[i] in ks;
      assert allocs[i] == PaidTable(weighted, q, net)[ks[i]];
    }
  }

  /** Steps 4 to 7: the net reward distributed and clipped, when there is anything to distribute. */
  method PlanRewards(
    weighted: map<string, Entry>, total: real, gross: int, net: int, minPayout: int,
    ghost dust: seq<(string, int)>, ghost shares: seq<ShareEntry>)
    returns (outputs: seq<PayoutOutput>, dustTotal: int)
    requires Weighted(weighted, shares, dust, gross) && total == Total(Weights(shares, dust, gross))
    ensures outputs == PlanOutputs(shares, dust, gross, net, minPayout)
    ensures dustTotal == DustTotal(outputs) && PaidOrCarried(outputs, minPayout)
  {
    outputs, dustTotal := [], 0;
    if total > 0.0 && net > 0 {
      ghost var q := WindowQuotas(shares, dust, gross, net);
      var allocs := Distribute(weighted, total, net, q);
      outputs, dustTotal := ClipToMinimum(allocs, minPayout);
      RowsGiveOutputs(allocs, outputs, weighted, q, InKeyOrder(q.Keys), shares, net, minPayout);
    }
  }

  /** The whole plan for a found block. */
  method BuildPayoutPlan(
    roundId: int, blockHeight: int, blockHash: string, networkDifficulty: real, gross: int, feeBps: nat,
    feeAddress: Option<string>, minPayout: int, dust: seq<(string, int)>, shares: seq<ShareEntry>)
    returns (plan: PayoutPlan)
    ensures plan.outputs == PlanOutputs(shares, dust, gross, gross - PoolFee(gross, feeBps), minPayout)
    ensures plan.poolFee == PoolFee(gross, feeBps) && plan.grossReward == gross
    ensures plan.totalWork == Total(Weights(shares, dust, gross))
    ensures plan.dustTotal == DustTotal(plan.outputs)
    ensures PaidOrCarried(plan.outputs, minPayout)
    ensures plan.retryKey == RetryKey(blockHash, |plan.outputs|)
    ensures plan.roundId == roundId && plan.blockHeight == blockHeight && plan.blockHash == blockHash
    ensures plan.networkDifficulty == networkDifficulty && plan.feeAddress == feeAddress
  {
    var weighted, total := WeighShares(shares, dust, gross);
    var poolFee := PoolFee(gross, feeBps);
    var outputs, dustTotal := PlanRewards(weighted, total, gross, gross - poolFee, minPayout, dust, shares);
    plan := PayoutPlan(
      roundId, blockHeight, blockHash, networkDifficulty, total, gross, poolFee, feeAddress,
      outputs, dustTotal, RetryKey(blockHash, |outputs|));
  }
}
