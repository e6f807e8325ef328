/**
 Largest-remainder division of a net reward, stated without sorting or loops:
 an address is paid the whole part of its quota, plus one satoshi when fewer
 addresses have a larger fractional part than there are satoshis left over.

 A quota map need not add up to the reward: what the remainder loop does for
 arbitrary quotas is stated first, and exact quotas are shown to meet its
 hypothesis afterwards.
 */
module Apportionment {
  import opened Orders
  import opened Text

  // ----- sums over the keys of a map -----

  function SumReal(ks: seq<string>, f: map<string, real>): real
    requires forall k | k in ks :: k in f
  {
    if ks == [] then 0.0 else SumReal(ks[..|ks| - 1], f) + f[ks[|ks| - 1]]
  }

  function SumInt(ks: seq<string>, f: map<string, int>): int
    requires forall k | k in ks :: k in f
  {
    if ks == [] then 0 else SumInt(ks[..|ks| - 1], f) + f[ks[|ks| - 1]]
  }

  ghost predicate NoRepeats(ks: seq<string>) {
    forall i, j | 0 <= i < j < |ks| :: ks[i] != ks[j]
  }

  lemma {:induction false} SumIntRemove(ks: seq<string>, i: nat, f: map<string, int>)
    requires i < |ks| && forall k | k in ks :: k in f
    ensures SumInt(ks, f) == SumInt(ks[..i] + ks[i + 1..], f) + f[ks[i]]
  {
    var n := |ks| - 1;
    var without := ks[..i] + ks[i + 1..];
    if i == n {
      assert without == ks[..n];
    } else {
      SumIntRemove(ks[..n], i, f);
      assert without[..|without| - 1] == ks[..n][..i] + ks[..n][i + 1..];
      assert without[|without| - 1] == ks[n];
    }
  }

  /** A sum does not depend on the order in which the keys are listed. */
  lemma {:induction false} SumIntReorder(ks: seq<string>, ls: seq<string>, f: map<string, int>)
    requires NoRepeats(ks) && NoRepeats(ls) && Elements(ks) == Elements(ls)
    requires forall k | k in ks :: k in f
    requires forall k | k in ls :: k in f
    ensures SumInt(ks, f) == SumInt(ls, f)
  {
    if ks == [] {
      assert Elements(ks) == {};
      if ls != [] { NonEmptyElements(ls); }
    } else {
      var n := |ks| - 1;
      assert ks[n] in Elements(ls);
      var i :| 0 <= i < |ls| && ls[i] == ks[n];
      var rest := ls[..i] + ls[i + 1..];
      SumIntRemove(ls, i, f);
      assert Elements(rest) == Elements(ks[..n]) by {
        ElementsWithout(ls, i);
        ElementsWithout(ks, n);
        assert ks[..n] + ks[n + 1..] == ks[..n];
      }
      SumIntReorder(ks[..n], rest, f);
    }
  }

  lemma ElementsWithout(ks: seq<string>, i: nat)
    requires i < |ks| && NoRepeats(ks)
    ensures Elements(ks[..i] + ks[i + 1..]) == Elements(ks) - {ks[i]}
  {
    var rest := ks[..i] + ks[i + 1..];
    forall x | x in Elements(ks) - {ks[i]}
      ensures x in Elements(rest)
    {
      var j :| 0 <= j < |ks| && ks[j] == x;
      assert rest[if j < i then j else j - 1] == x;
    }
    forall x | x in Elements(rest)
      ensures x in Elements(ks) - {ks[i]}
    {
      var j :| 0 <= j < |rest| && rest[j] == x;
      assert x == ks[if j < i then j else j + 1];
    }
  }

  lemma SortedHasNoRepeats(ks: seq<string>, lt: (string, string) -> bool)
    requires SortedBy(ks, lt) && StrictOrder(Elements(ks), lt)
    ensures NoRepeats(ks)
  {
    forall i, j | 0 <= i < j < |ks|
      ensures ks[i] != ks[j]
    {
      assert ks[i] in Elements(ks) && lt(ks[i], ks[j]);
    }
  }

  // ----- the rule -----

  function Floors(q: map<string, real>): map<string, int> {
    map a | a in q :: q[a].Floor
  }

  function Frac(q: map<string, real>, a: string): (r: real)
    requires a in q
    ensures 0.0 <= r < 1.0
  {
    q[a] - q[a].Floor as real
  }

  /** `a` is served before `b`: larger fractional part, then smaller address. */
  predicate Beats(q: map<string, real>, a: string, b: string) {
    a in q && b in q && (Frac(q, a) > Frac(q, b) || (Frac(q, a) == Frac(q, b) && Less(a, b)))
  }

  function Ahead(q: map<string, real>): (string, string) -> bool {
    (a: string, b: string) => Beats(q, a, b)
  }

  /** Satoshis left over once every quota is rounded down. */
  function Remainder(q: map<string, real>, net: int): int {
    net - SumInt(InKeyOrder(q.Keys), Floors(q))
  }

  ghost function Pay(q: map<string, real>, net: int, a: string): int
    requires a in q
  {
    q[a].Floor + if Rank(q.Keys, Ahead(q), a) < Remainder(q, net) then 1 else 0
  }

  ghost function Pays(q: map<string, real>, net: int): map<string, int> {
    map a | a in q :: Pay(q, net, a)
  }

  lemma AheadIsStrictOrder(q: map<string, real>)
    ensures StrictOrder(q.Keys, Ahead(q))
  {
    forall x | x in q.Keys ensures !Ahead(q)(x, x) { LessIrreflexive(x); }
    forall x, y | x in q.Keys && y in q.Keys && x != y
      ensures Ahead(q)(x, y) || Ahead(q)(y, x)
    {
      LessTotal(x, y);
    }
    forall x, y, z | x in q.Keys && y in q.Keys && z in q.Keys && Ahead(q)(x, y) && Ahead(q)(y, z)
      ensures Ahead(q)(x, z)
    {
      if Frac(q, x) == Frac(q, z) { LessTransitive(x, y, z); }
    }
  }

  /** The addresses in the order the remainder loop serves them. */
  ghost function Served(q: map<string, real>): (s: seq<string>)
    ensures SortedBy(s, Ahead(q)) && Elements(s) == q.Keys && |s| == |q|
    ensures forall k | k in s :: k in q
  {
    AheadIsStrictOrder(q);
    var s := Enumerate(q.Keys, Ahead(q));
    assert forall k | k in s :: k in Elements(s);
    s
  }

  function Clamp(x: int, lo: int, hi: int): int
    requires lo <= hi
  {
    if x < lo then lo else if x > hi then hi else x
  }

  /** The payment of the address served at position `i`. */
  lemma PayByIndex(q: map<string, real>, net: int, a: string, i: nat)
    requires i < |q| && Served(q)[i] == a
    ensures a in q && Pay(q, net, a) == q[a].Floor + if i < Remainder(q, net) then 1 else 0
  {
    AheadIsStrictOrder(q);
    assert a in Elements(Served(q));
    RankIsIndex(Served(q), Ahead(q), i);
  }

  /** One extra satoshi for each of the first `extra` addresses. */
  lemma {:induction false} PrefixSum(r: seq<string>, floors: map<string, int>, pays: map<string, int>, extra: int)
    requires forall k | k in r :: k in floors && k in pays
    requires forall i | 0 <= i < |r| :: pays[r[i]] == floors[r[i]] + if i < extra then 1 else 0
    ensures SumInt(r, pays) == SumInt(r, floors) + Clamp(extra, 0, |r|)
  {
    if r != [] {
      var n := |r| - 1;
      assert forall i | 0 <= i < n :: r[..n][i] == r[i];
      PrefixSum(r[..n], floors, pays, extra);
    }
  }

  lemma KeyOrderAndServedOrderAgree(q: map<string, real>, f: map<string, int>)
    requires f.Keys == q.Keys
    ensures SumInt(InKeyOrder(q.Keys), f) == SumInt(Served(q), f)
  {
    var ks, r := InKeyOrder(q.Keys), Served(q);
    assert forall k | k in ks :: k in Elements(ks);
    LessIsStrictOrder(q.Keys);
    AheadIsStrictOrder(q);
    SortedHasNoRepeats(ks, Less);
    SortedHasNoRepeats(r, Ahead(q));
    SumIntReorder(ks, r, f);
  }

  lemma ServedTotal(q: map<string, real>, net: int)
    ensures SumInt(Served(q), Pays(q, net)) == SumInt(Served(q), Floors(q)) + Clamp(Remainder(q, net), 0, |q|)
  {
    var r, floors, pays := Served(q), Floors(q), Pays(q, net);
    forall i | 0 <= i < |r|
      ensures r[i] in q && pays[r[i]] == floors[r[i]] + if i < Remainder(q, net) then 1 else 0
    {
      PayByIndex(q, net, r[i], i);
    }
    PrefixSum(r, floors, pays, Remainder(q, net));
  }

  /**
   What the remainder loop distributes for arbitrary quotas: never a negative
   amount and never more than one satoshi per address.
   */
  lemma RemainderLoopTotal(q: map<string, real>, net: int)
    ensures SumInt(InKeyOrder(q.Keys), Pays(q, net))
            == SumInt(InKeyOrder(q.Keys), Floors(q)) + Clamp(Remainder(q, net), 0, |q|)
  {
    ServedTotal(q, net);
    KeyOrderAndServedOrderAgree(q, Pays(q, net));
    KeyOrderAndServedOrderAgree(q, Floors(q));
  }

  /** The payments add up to the net reward exactly when the leftover fits one round of the loop. */
  lemma PaymentsExactIff(q: map<string, real>, net: int)
    ensures SumInt(InKeyOrder(q.Keys), Pays(q, net)) == net <==> 0 <= Remainder(q, net) <= |q|
  {
    RemainderLoopTotal(q, net);
  }

  // ----- exact quotas -----

  ghost predicate ExactQuotas(q: map<string, real>, net: int) {
    SumReal(InKeyOrder(q.Keys), q) == net as real
  }

  function Fracs(q: map<string, real>): map<string, real> {
    map a | a in q :: Frac(q, a)
  }

  lemma {:induction false} SumSplitsIntoFloorsAndFracs(ks: seq<string>, q: map<string, real>)
    requires forall k | k in ks :: k in q
    ensures SumReal(ks, q) == SumInt(ks, Floors(q)) as real + SumReal(ks, Fracs(q))
  {
    if ks != [] { SumSplitsIntoFloorsAndFracs(ks[..|ks| - 1], q); }
  }

  /** Addresses whose quota is not a whole number. */
  ghost function Fractional(q: map<string, real>): set<string> {
    set a | a in q && Frac(q, a) > 0.0
  }

  /** The keys of `ks` with a positive value. */
  ghost function Positive(ks: seq<string>, f: map<string, real>): set<string>
    requires forall k | k in ks :: k in f
  {
    set a | a in ks && f[a] > 0.0
  }

  lemma PositiveOneMore(ks: seq<string>, f: map<string, real>)
    requires ks != [] && NoRepeats(ks) && forall k | k in ks :: k in f
    ensures
      var n := |ks| - 1;
      && ks[n] !in Positive(ks[..n], f)
      && Positive(ks, f) == if f[ks[n]] > 0.0 then Positive(ks[..n], f) + {ks[n]} else Positive(ks[..n], f)
  {
    var n := |ks| - 1;
    assert ks == ks[..n] + [ks[n]];
  }

  /** Values below one add up to less than the number of positive ones. */
  lemma {:induction false} FracSumBounds(ks: seq<string>, f: map<string, real>)
    requires NoRepeats(ks) && forall k | k in ks :: k in f && 0.0 <= f[k] < 1.0
    ensures 0.0 <= SumReal(ks, f) <= |Positive(ks, f)| as real
    ensures Positive(ks, f) != {} ==> SumReal(ks, f) < |Positive(ks, f)| as real
  {
    if ks != [] {
      FracSumBounds(ks[..|ks| - 1], f);
      PositiveOneMore(ks, f);
    }
  }

  /** With exact quotas the leftover is never negative and is smaller than the number of fractional quotas. */
  lemma RemainderBounds(q: map<string, real>, net: int)
    requires ExactQuotas(q, net)
    ensures 0 <= Remainder(q, net) <= |Fractional(q)| <= |q|
    ensures Remainder(q, net) > 0 ==> Remainder(q, net) < |Fractional(q)|
  {
    var ks := InKeyOrder(q.Keys);
    assert forall k | k in ks :: k in Elements(ks);
    assert forall k | k in q :: k in Elements(ks);
    SumSplitsIntoFloorsAndFracs(ks, q);
    LessIsStrictOrder(q.Keys);
    SortedHasNoRepeats(ks, Less);
    assert Fractional(q) == Positive(ks, Fracs(q));
    FracSumBounds(ks, Fracs(q));
    SubsetSize(Fractional(q), q.Keys);
    assert Remainder(q, net) as real == SumReal(ks, Fracs(q));
  }

  /** Conservation: with exact quotas the payments add up to the net reward. */
  lemma PaymentsSumToNet(q: map<string, real>, net: int)
    requires ExactQuotas(q, net)
    ensures SumInt(InKeyOrder(q.Keys), Pays(q, net)) == net
  {
    RemainderBounds(q, net);
    PaymentsExactIff(q, net);
  }

  /** Every fractional quota is served before a whole one. */
  lemma WholeQuotaRank(q: map<string, real>, a: string)
    requires a in q && Frac(q, a) == 0.0
    ensures Rank(q.Keys, Ahead(q), a) >= |Fractional(q)|
  {
    var below := Below(q.Keys, Ahead(q), a);
    assert Fractional(q) <= below;
    SubsetSize(Fractional(q), below);
  }

  /** An address with a whole quota never gets the extra satoshi. */
  lemma WholeQuotaPaidExactly(q: map<string, real>, net: int, a: string)
    requires a in q && ExactQuotas(q, net) && Frac(q, a) == 0.0
    ensures Pay(q, net, a) == q[a].Floor
  {
    RemainderBounds(q, net);
    WholeQuotaRank(q, a);
  }

  /** Every payment is strictly within one satoshi of its quota. */
  lemma WithinOneSatoshi(q: map<string, real>, net: int, a: string)
    requires a in q && ExactQuotas(q, net)
    ensures -1.0 < Pay(q, net, a) as real - q[a] < 1.0
  {
    var whole, frac := q[a].Floor, Frac(q, a);
    if frac == 0.0 {
      WholeQuotaPaidExactly(q, net, a);
    }
    assert Pay(q, net, a) == whole || (frac > 0.0 && Pay(q, net, a) == whole + 1);
  }

  /** A larger quota is never paid less. */
  lemma PayMonotone(q: map<string, real>, net: int, a: string, b: string)
    requires a in q && b in q && q[a] > q[b]
    ensures Pay(q, net, a) >= Pay(q, net, b)
  {
    if q[a].Floor == q[b].Floor {
      AheadIsStrictOrder(q);
      assert Ahead(q)(a, b);
      RankMonotone(q.Keys, Ahead(q), a, b);
    }
  }

  /** Equal quotas are paid within one satoshi of each other, the smaller address never less. */
  lemma EqualQuotas(q: map<string, real>, net: int, a: string, b: string)
    requires a in q && b in q && q[a] == q[b]
    ensures -1 <= Pay(q, net, a) - Pay(q, net, b) <= 1
    ensures Less(a, b) ==> Pay(q, net, a) >= Pay(q, net, b)
  {
    if Less(a, b) {
      AheadIsStrictOrder(q);
      assert Ahead(q)(a, b);
      RankMonotone(q.Keys, Ahead(q), a, b);
    }
  }

  /** Nobody is paid a negative amount when no quota is negative. */
  lemma PayNonNegative(q: map<string, real>, net: int, a: string)
    requires a in q && q[a] >= 0.0
    ensures Pay(q, net, a) >= 0
  {
    assert q[a].Floor as real > q[a] - 1.0;
  }

  /**
   The extra satoshis go to larger fractional parts first and, of equal ones, to smaller
   addresses: whoever comes later gets one only if whoever comes earlier does.
   */
  lemma ExtraGoesInOrder(q: map<string, real>, net: int, a: string, b: string)
    requires a in q && b in q
    requires q[a] - q[a].Floor as real > q[b] - q[b].Floor as real
      || (q[a] - q[a].Floor as real == q[b] - q[b].Floor as real && Less(a, b))
    ensures Pay(q, net, b) - q[b].Floor <= Pay(q, net, a) - q[a].Floor
  {
    AheadIsStrictOrder(q);
    assert Ahead(q)(a, b);
    RankMonotone(q.Keys, Ahead(q), a, b);
  }

  // ----- quotas from weights -----

  function Total(w: map<string, real>): real {
    SumReal(InKeyOrder(w.Keys), w)
  }

  function Quotas(w: map<string, real>, net: int): map<string, real>
    requires Total(w) > 0.0
  {
    Scaled(w, Total(w), net as real)
  }

  function Scaled(w: map<string, real>, t: real, n: real): map<string, real>
    requires t > 0.0
  {
    map a | a in w :: w[a] / t * n
  }

  lemma {:induction false} ScaledSum(ks: seq<string>, w: map<string, real>, t: real, n: real)
    requires t > 0.0 && forall k | k in ks :: k in w
    ensures SumReal(ks, Scaled(w, t, n)) == SumReal(ks, w) / t * n
  {
    if ks == [] {
      ScaleZero(t, n);
    } else {
      var m := |ks| - 1;
      ScaledSum(ks[..m], w, t, n);
      ScaleSum(SumReal(ks[..m], w), w[ks[m]], t, n);
    }
  }

  lemma ScaleZero(t: real, n: real)
    requires t > 0.0
    ensures 0.0 / t * n == 0.0
  {
  }

  lemma ScaleSum(x: real, y: real, t: real, n: real)
    requires t > 0.0
    ensures (x + y) / t * n == x / t * n + y / t * n
  {
    assert (x + y) / t == x / t + y / t;
  }

  lemma ScaleWhole(t: real, n: real)
    requires t > 0.0
    ensures t / t * n == n
  {
  }

  lemma ScaleOrder(x: real, y: real, t: real, n: real)
    requires t > 0.0 && n > 0.0
    ensures x > y ==> x / t * n > y / t * n
    ensures x >= 0.0 ==> x / t * n >= 0.0
  {
    if x > y {
      assert x / t > y / t;
    }
  }

  lemma ScaledTotal(ks: seq<string>, w: map<string, real>, t: real, n: real)
    requires t > 0.0 && (forall k | k in ks :: k in w) && SumReal(ks, w) == t
    ensures SumReal(ks, Scaled(w, t, n)) == n
  {
    ScaledSum(ks, w, t, n);
    ScaleWhole(t, n);
  }

  /** Proportional quotas are exact. */
  lemma QuotasAreExact(w: map<string, real>, net: int)
    requires Total(w) > 0.0
    ensures ExactQuotas(Quotas(w, net), net)
  {
    var ks := InKeyOrder(w.Keys);
    assert forall k | k in ks :: k in Elements(ks);
    assert Quotas(w, net).Keys == w.Keys;
    ScaledTotal(ks, w, Total(w), net as real);
  }

  lemma ScaledOrder(w: map<string, real>, t: real, n: real, a: string, b: string)
    requires t > 0.0 && n > 0.0 && a in w && b in w
    ensures w[a] > w[b] ==> Scaled(w, t, n)[a] > Scaled(w, t, n)[b]
    ensures w[a] == w[b] ==> Scaled(w, t, n)[a] == Scaled(w, t, n)[b]
    ensures w[a] >= 0.0 ==> Scaled(w, t, n)[a] >= 0.0
  {
    ScaleOrder(w[a], w[b], t, n);
  }

  /** Quotas keep the order and the sign of the weights. */
  lemma QuotaOrder(w: map<string, real>, net: int, a: string, b: string)
    requires Total(w) > 0.0 && net > 0 && a in w && b in w
    ensures w[a] > w[b] ==> Quotas(w, net)[a] > Quotas(w, net)[b]
    ensures w[a] == w[b] ==> Quotas(w, net)[a] == Quotas(w, net)[b]
    ensures w[a] >= 0.0 ==> Quotas(w, net)[a] >= 0.0
  {
    ScaledOrder(w, Total(w), net as real, a, b);
  }
}
