/**
 The string operations the pool depends on: the lexicographic order of
 `BTreeMap<String, _>`, decimal printing and parsing of integers, splitting a
 `:`-joined key, and SQLite's LIKE.
 */
module Text {
  import opened Orders

  datatype Option<+T> = None | Some(value: T)

  // ----- lexicographic order -----

  predicate Less(a: string, b: string) {
    if b == "" then false
    else if a == "" then true
    else a[0] < b[0] || (a[0] == b[0] && Less(a[1..], b[1..]))
  }

  lemma {:induction false} LessIrreflexive(a: string)
    ensures !Less(a, a)
  {
    if a != "" { LessIrreflexive(a[1..]); }
  }

  lemma {:induction false} LessTotal(a: string, b: string)
    ensures a == b || Less(a, b) || Less(b, a)
  {
    if a != "" && b != "" {
      LessTotal(a[1..], b[1..]);
      assert a == [a[0]] + a[1..] && b == [b[0]] + b[1..];
    }
  }

  lemma {:induction false} LessTransitive(a: string, b: string, c: string)
    requires Less(a, b) && Less(b, c)
    ensures Less(a, c)
  {
    if a != "" && a[0] == b[0] == c[0] { LessTransitive(a[1..], b[1..], c[1..]); }
  }

  /** `Less` is a strict total order, so the keys of any map can be listed in order. */
  lemma LessIsStrictOrder(S: set<string>)
    ensures StrictOrder(S, Less)
  {
    forall x | x in S ensures !Less(x, x) { LessIrreflexive(x); }
    forall x, y | x in S && y in S && x != y ensures Less(x, y) || Less(y, x) { LessTotal(x, y); }
    forall x, y, z | x in S && y in S && z in S && Less(x, y) && Less(y, z)
      ensures Less(x, z)
    {
      LessTransitive(x, y, z);
    }
  }

  /** The keys of a `BTreeMap`, in iteration order. */
  function InKeyOrder(S: set<string>): (s: seq<string>)
    ensures SortedBy(s, Less) && Elements(s) == S && |s| == |S|
  {
    LessIsStrictOrder(S);
    Enumerate(S, Less)
  }

  // ----- decimal numbers -----

  const DIGITS: string := "0123456789"

  predicate IsDigit(c: char) {
    '0' <= c <= '9'
  }

  predicate AllDigits(s: string) {
    forall i | 0 <= i < |s| :: IsDigit(s[i])
  }

  function DigitValue(c: char): (d: nat)
    requires IsDigit(c)
    ensures d < 10 && DIGITS[d] == c
  {
    c as int - '0' as int
  }

  /** Decimal printing, as `format!("{}", n)`. */
  function Decimal(n: nat): (s: string)
    ensures s != "" && AllDigits(s)
  {
    if n < 10 then [DIGITS[n]] else Decimal(n / 10) + [DIGITS[n % 10]]
  }

  function SignedDecimal(n: int): (s: string)
    ensures s != ""
    ensures forall i | 0 <= i < |s| :: IsDigit(s[i]) || s[i] == '-'
  {
    if n < 0 then "-" + Decimal(-n) else Decimal(n)
  }

  /** The number a digit string denotes. */
  function Value(s: string): nat
    requires AllDigits(s)
  {
    if s == "" then 0 else 10 * Value(s[..|s| - 1]) + DigitValue(s[|s| - 1])
  }

  lemma {:induction false} ValueOfDecimal(n: nat)
    ensures Value(Decimal(n)) == n
  {
    if n >= 10 {
      ValueOfDecimal(n / 10);
      assert Decimal(n)[..|Decimal(n)| - 1] == Decimal(n / 10);
    } else {
      assert Decimal(n)[..0] == "";
    }
  }

  lemma DecimalInjective(m: nat, n: nat)
    requires Decimal(m) == Decimal(n)
    ensures m == n
  {
    ValueOfDecimal(m);
    ValueOfDecimal(n);
  }

  lemma SignedDecimalInjective(m: int, n: int)
    requires SignedDecimal(m) == SignedDecimal(n)
    ensures m == n
  {
    assert m < 0 <==> SignedDecimal(m)[0] == '-';
    assert n < 0 <==> SignedDecimal(n)[0] == '-';
    if m < 0 {
      assert SignedDecimal(m)[1..] == Decimal(-m) && SignedDecimal(n)[1..] == Decimal(-n);
      DecimalInjective(-m, -n);
    } else {
      DecimalInjective(m, n);
    }
  }

  // ----- SQLite LIKE -----

  /** ASCII case folding, which is all LIKE applies by default. */
  function Fold(c: char): char {
    if 'A' <= c <= 'Z' then (c as int + 32) as char else c
  }

  /** `text LIKE pattern`. */
  predicate Like(pattern: string, text: string)
    decreases |pattern| + |text|
  {
    if pattern == "" then text == ""
    else if pattern[0] == '%' then
      Like(pattern[1..], text) || (text != "" && Like(pattern, text[1..]))
    else
      text != "" && (pattern[0] == '_' || Fold(pattern[0]) == Fold(text[0])) && Like(pattern[1..], text[1..])
  }

  predicate IsLowerHex(c: char) {
    IsDigit(c) || 'a' <= c <= 'f'
  }

  /** A hash as the pool prints it: 32 bytes in lower-case hex. */
  predicate IsHash(h: string) {
    |h| == 64 && forall i | 0 <= i < |h| :: IsLowerHex(h[i])
  }

  lemma {:induction false} PercentMatchesAll(text: string)
    ensures Like("%", text)
  {
    if text != "" { PercentMatchesAll(text[1..]); }
  }

  /** `LIKE 'h%'` for a hex string `h` is a case-insensitive prefix test. */
  lemma {:induction false} LikePrefix(h: string, text: string)
    requires forall i | 0 <= i < |h| :: IsLowerHex(h[i])
    ensures Like(h + "%", text)
      <==> |text| >= |h| && forall i | 0 <= i < |h| :: Fold(text[i]) == h[i]
  {
    if h == "" {
      assert h + "%" == "%";
      PercentMatchesAll(text);
    } else {
      assert (h + "%")[0] == h[0] && (h + "%")[1..] == h[1..] + "%";
      if text != "" {
        LikePrefix(h[1..], text[1..]);
        assert |text| >= |h| && (forall i | 0 <= i < |h| :: Fold(text[i]) == h[i])
          <==> Fold(text[0]) == h[0] && |text[1..]| >= |h[1..]|
               && forall i | 0 <= i < |h[1..]| :: Fold(text[1..][i]) == h[1..][i] by {
          if Fold(text[0]) == h[0] && |text[1..]| >= |h[1..]|
             && forall i | 0 <= i < |h[1..]| :: Fold(text[1..][i]) == h[1..][i] {
            forall i | 0 <= i < |h|
              ensures Fold(text[i]) == h[i]
            {
              if i > 0 { assert Fold(text[1..][i - 1]) == h[1..][i - 1]; }
            }
          }
        }
      }
    }
  }
}
