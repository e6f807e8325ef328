/**
 Job ids and dedupe keys: the two strings the pool assembles from numbers and
 takes apart or compares again.
 */
module JobId {
  import opened Text

  const U64_LIMIT: nat := 0x1_0000_0000_0000_0000

  // ----- job ids -----

  /** `job-{template_id}-{epoch}`. */
  function Print(templateId: nat, epoch: nat): string {
    "job-" + Decimal(templateId) + "-" + Decimal(epoch)
  }

  /** `str::parse::<u64>`: an optional plus sign, then digits that fit. */
  function ParseU64(s: string): Option<nat> {
    var digits := if |s| > 1 && s[0] == '+' then s[1..] else s;
    if digits == "" || !AllDigits(digits) then None
    else if Value(digits) >= U64_LIMIT then None
    else Some(Value(digits))
  }

  /** The index of the last `c`. */
  function LastIndex(s: string, c: char): (i: Option<nat>)
    ensures i.Some? ==> i.value < |s| && s[i.value] == c && c !in s[i.value + 1..]
    ensures i.None? ==> c !in s
  {
    if s == "" then None
    else
      var n := |s| - 1;
      if s[n] == c then Some(n)
      else
        var i := LastIndex(s[..n], c);
        assert s == s[..n] + [s[n]];
        assert i.Some? ==> s[i.value + 1..] == s[..n][i.value + 1..] + [s[n]];
        i
  }

  function Parse(jobId: string): Option<(nat, nat)> {
    if |jobId| < 4 || jobId[..4] != "job-" then None
    else
      var stripped := jobId[4..];
      match LastIndex(stripped, '-')
      case None => None
      case Some(i) =>
        match (ParseU64(stripped[..i]), ParseU64(stripped[i + 1..]))
        case (Some(t), Some(e)) => Some((t, e))
        case _ => None
  }

  lemma ParseDecimal(n: nat)
    requires n < U64_LIMIT
    ensures ParseU64(Decimal(n)) == Some(n)
  {
    ValueOfDecimal(n);
    assert IsDigit(Decimal(n)[0]);
  }

  /** The parser undoes the printer for every pair of u64 numbers. */
  lemma ParsePrint(templateId: nat, epoch: nat)
    requires templateId < U64_LIMIT && epoch < U64_LIMIT
    ensures Parse(Print(templateId, epoch)) == Some((templateId, epoch))
  {
    var t, e := Decimal(templateId), Decimal(epoch);
    var id := Print(templateId, epoch);
    assert id[..4] == "job-";
    var stripped := id[4..];
    assert stripped == t + "-" + e;
    var i := LastIndex(stripped, '-').value;
    assert stripped[|t|] == '-';
    LastHyphen(t, e, stripped, i);
    assert stripped[..i] == t && stripped[i + 1..] == e;
    ParseDecimal(templateId);
    ParseDecimal(epoch);
  }

  lemma LastHyphen(t: string, e: string, s: string, i: nat)
    requires AllDigits(e) && s == t + "-" + e
    requires i < |s| && s[i] == '-' && '-' !in s[i + 1..]
    ensures i == |t|
  {
    assert forall j | i < j < |s| :: s[j] == s[i + 1..][j - i - 1];
    assert s[|t|] == '-';
    assert forall j | |t| < j < |s| :: s[j] == e[j - |t| - 1];
  }

  // ----- dedupe keys -----

  function DedupeKey(workerId: int, templateId: nat, epoch: nat, en2: string, ntime: string, nonce: string): string {
    SignedDecimal(workerId) + ":" + (Decimal(templateId) + ":" + (Decimal(epoch) + ":"
      + (en2 + ":" + (ntime + ":" + nonce))))
  }

  function Colons(s: string): nat {
    if s == "" then 0 else (if s[0] == ':' then 1 else 0) + Colons(s[1..])
  }

  lemma {:induction false} ColonsConcat(s: string, t: string)
    ensures Colons(s + t) == Colons(s) + Colons(t)
  {
    if s == "" {
      assert s + t == t;
    } else {
      ColonsConcat(s[1..], t);
      assert (s + t)[1..] == s[1..] + t;
    }
  }

  lemma {:induction false} NoColons(s: string)
    ensures Colons(s) == 0 <==> ':' !in s
  {
    if s != "" {
      NoColons(s[1..]);
      assert s == [s[0]] + s[1..];
    }
  }

  lemma ColonsOfPair(s: string, t: string)
    ensures Colons(s + ":" + t) == Colons(s) + 1 + Colons(t)
  {
    ColonsConcat(s + ":", t);
    ColonsConcat(s, ":");
    assert ":"[1..] == "";
  }

  /** Two strings split at their first colon agree on both sides. */
  lemma FirstColon(a: string, x: string, b: string, y: string)
    requires a + ":" + x == b + ":" + y && ':' !in a && ':' !in b
    ensures a == b && x == y
  {
    var s := a + ":" + x;
    assert s[|a|] == ':' && s[|b|] == ':';
    assert forall j | 0 <= j < |a| :: s[j] == a[j];
    assert forall j | 0 <= j < |b| :: s[j] == b[j];
    assert |a| == |b|;
    assert a == s[..|a|] == b;
    assert x == s[|a| + 1..] == y;
  }

  lemma NumbersHaveNoColon(w: int, t: nat)
    ensures ':' !in SignedDecimal(w) && ':' !in Decimal(t)
  {
    assert forall i | 0 <= i < |Decimal(t)| :: IsDigit(Decimal(t)[i]);
  }

  /** Equal keys name the same worker, template and epoch, whatever the miner's strings are. */
  lemma KeyFixesNumbers(
    w: int, t: nat, e: nat, en2: string, ntime: string, nonce: string,
    w': int, t': nat, e': nat, en2': string, ntime': string, nonce': string)
    requires DedupeKey(w, t, e, en2, ntime, nonce) == DedupeKey(w', t', e', en2', ntime', nonce')
    ensures w == w' && t == t' && e == e'
    ensures en2 + ":" + (ntime + ":" + nonce) == en2' + ":" + (ntime' + ":" + nonce')
  {
    NumbersHaveNoColon(w, t);
    NumbersHaveNoColon(w', t');
    NumbersHaveNoColon(w, e);
    NumbersHaveNoColon(w', e');
    var m, m' := en2 + ":" + (ntime + ":" + nonce), en2' + ":" + (ntime' + ":" + nonce');
    var r, r' := Decimal(e) + ":" + m, Decimal(e') + ":" + m';
    FirstColon(SignedDecimal(w), Decimal(t) + ":" + r, SignedDecimal(w'), Decimal(t') + ":" + r');
    FirstColon(Decimal(t), r, Decimal(t'), r');
    FirstColon(Decimal(e), m, Decimal(e'), m');
    SignedDecimalInjective(w, w');
    DecimalInjective(t, t');
    DecimalInjective(e, e');
  }

  /**
   A key assembled from strings without colons is shared with no other
   submission, well-formed or not.
   */
  lemma KeyInjective(
    w: int, t: nat, e: nat, en2: string, ntime: string, nonce: string,
    w': int, t': nat, e': nat, en2': string, ntime': string, nonce': string)
    requires ':' !in en2 && ':' !in ntime && ':' !in nonce
    requires DedupeKey(w, t, e, en2, ntime, nonce) == DedupeKey(w', t', e', en2', ntime', nonce')
    ensures w == w' && t == t' && e == e' && en2 == en2' && ntime == ntime' && nonce == nonce'
  {
    KeyFixesNumbers(w, t, e, en2, ntime, nonce, w', t', e', en2', ntime', nonce');
    NoColons(en2);
    NoColons(ntime);
    NoColons(nonce);
    NoColons(en2');
    NoColons(ntime');
    ColonsOfPair(ntime, nonce);
    ColonsOfPair(en2, ntime + ":" + nonce);
    ColonsOfPair(ntime', nonce');
    ColonsOfPair(en2', ntime' + ":" + nonce');
    FirstColon(en2, ntime + ":" + nonce, en2', ntime' + ":" + nonce');
    FirstColon(ntime, nonce, ntime', nonce');
  }

  /** Strings with colons do collide: one submission's key can be another's. */
  lemma ColonsCollide()
    ensures DedupeKey(1, 2, 3, "a:b", "c", "d") == DedupeKey(1, 2, 3, "a", "b:c", "d")
  {
    var x, y := "a:b" + ":" + ("c" + ":" + "d"), "a" + ":" + ("b:c" + ":" + "d");
    assert x == "a:b:c:d" == y;
  }
}
