/**
 The PPLNS window of a found block: the newest accepted shares, back to the
 share that brings their work up to the threshold.

 The query leaves the order of equal timestamps open; here rows with equal
 timestamps keep their order in the table.
 */
module Pplns {
  import opened Orders
  import opened PayoutPlan
  import opened PlanTheorems

  /** A share outcome joined with its share, worker and round. */
  datatype OutcomeRow = OutcomeRow(entry: ShareEntry, accepted: bool)

  predicate Eligible(row: OutcomeRow, foundAt: int) {
    row.accepted && row.entry.createdAt <= foundAt
  }

  function EligibleShares(rows: seq<OutcomeRow>, foundAt: int): seq<ShareEntry> {
    if rows == [] then []
    else
      var n := |rows| - 1;
      EligibleShares(rows[..n], foundAt) + if Eligible(rows[n], foundAt) then [rows[n].entry] else []
  }

  predicate NotOlder(x: ShareEntry, y: ShareEntry) {
    x.createdAt >= y.createdAt
  }

  /** The result of the query: accepted shares up to `foundAt`, newest first. */
  function NewestFirst(rows: seq<OutcomeRow>, foundAt: int): seq<ShareEntry> {
    StableSort(EligibleShares(rows, foundAt), NotOlder)
  }

  function WorkSum(shares: seq<ShareEntry>): real {
    if shares == [] then 0.0 else WorkSum(shares[..|shares| - 1]) + shares[|shares| - 1].difficulty
  }

  /** `k` ends the shortest nonempty prefix that reaches the threshold, or takes everything. */
  ghost predicate IsCutoff(shares: seq<ShareEntry>, threshold: real, k: nat) {
    && k <= |shares|
    && (forall m | 0 < m < k :: WorkSum(shares[..m]) < threshold)
    && (k == |shares| || (0 < k && WorkSum(shares[..k]) >= threshold))
  }

  lemma CutoffUnique(shares: seq<ShareEntry>, threshold: real, k: nat, m: nat)
    requires IsCutoff(shares, threshold, k) && IsCutoff(shares, threshold, m)
    ensures k == m
  {
  }

  /** The first position at which the running sum reaches the threshold, counted from one. */
  method ScanToThreshold(shares: seq<ShareEntry>, threshold: real) returns (k: nat)
    ensures IsCutoff(shares, threshold, k)
  {
    var cumulative := 0.0;
    for i := 0 to |shares|
      invariant cumulative == WorkSum(shares[..i])
      invariant forall m | 0 < m <= i :: WorkSum(shares[..m]) < threshold
    {
      assert shares[..i + 1][..i] == shares[..i];
      cumulative := cumulative + shares[i].difficulty;
      if cumulative >= threshold {
        return i + 1;
      }
    }
    return |shares|;
  }

  method CalculateWindow(rows: seq<OutcomeRow>, foundAt: int, nMultiplier: real, networkDifficulty: real)
    returns (window: seq<ShareEntry>)
    ensures |window| <= |NewestFirst(rows, foundAt)|
    ensures window == NewestFirst(rows, foundAt)[..|window|]
    ensures IsCutoff(NewestFirst(rows, foundAt), nMultiplier * networkDifficulty, |window|)
    ensures window == Window(rows, foundAt, nMultiplier * networkDifficulty)
    ensures forall s | s in window ::
      exists i :: 0 <= i < |rows| && rows[i].entry == s && rows[i].accepted && s.createdAt <= foundAt
  {
    var shares := NewestFirst(rows, foundAt);
    var k := ScanToThreshold(shares, nMultiplier * networkDifficulty);
    window := shares[..k];
    CutoffUnique(shares, nMultiplier * networkDifficulty, k, Cutoff(shares, nMultiplier * networkDifficulty));
    forall s | s in window
      ensures exists i :: 0 <= i < |rows| && rows[i].entry == s && rows[i].accepted && s.createdAt <= foundAt
    {
      ListedIff(rows, foundAt, s);
    }
  }

  /** The window as a value. */
  ghost function Window(rows: seq<OutcomeRow>, foundAt: int, threshold: real): seq<ShareEntry> {
    var shares := NewestFirst(rows, foundAt);
    shares[..Cutoff(shares, threshold)]
  }

  ghost function Cutoff(shares: seq<ShareEntry>, threshold: real): (k: nat)
    ensures IsCutoff(shares, threshold, k)
  {
    CutoffExists(shares, threshold, |shares|);
    var k :| IsCutoff(shares, threshold, k);
    k
  }

  lemma {:induction false} CutoffExists(shares: seq<ShareEntry>, threshold: real, n: nat)
    requires n <= |shares|
    ensures (exists k: nat :: IsCutoff(shares, threshold, k))
      || (n < |shares| && forall m | 0 < m <= n :: WorkSum(shares[..m]) < threshold)
  {
    if n > 0 {
      CutoffExists(shares, threshold, n - 1);
      if forall k: nat :: !IsCutoff(shares, threshold, k) {
        assert !IsCutoff(shares, threshold, n);
      }
    } else if shares == [] {
      assert IsCutoff(shares, threshold, 0);
    }
  }

  // ----- the order of the window -----

  /** The row is an accepted outcome of share `s`, no later than the find. */
  predicate IsOutcomeOf(row: OutcomeRow, foundAt: int, s: ShareEntry) {
    row.entry == s && row.accepted && row.entry.createdAt <= foundAt
  }

  /** The rows that are accepted outcomes of share `s` up to the find. */
  ghost function Occurrences(rows: seq<OutcomeRow>, foundAt: int, s: ShareEntry): set<int> {
    set i | 0 <= i < |rows| && IsOutcomeOf(rows[i], foundAt, s)
  }

  lemma OccurrencesOneMore(rows: seq<OutcomeRow>, row: OutcomeRow, foundAt: int, s: ShareEntry)
    ensures |rows| !in Occurrences(rows, foundAt, s)
    ensures Occurrences(rows + [row], foundAt, s)
      == Occurrences(rows, foundAt, s) + if IsOutcomeOf(row, foundAt, s) then {|rows|} else {}
  {
    assert forall i | 0 <= i < |rows| :: (rows + [row])[i] == rows[i];
  }

  lemma {:induction false} EligibleSharesAre(rows: seq<OutcomeRow>, foundAt: int, s: ShareEntry)
    ensures multiset(EligibleShares(rows, foundAt))[s] == |Occurrences(rows, foundAt, s)|
  {
    if rows == [] {
      assert Occurrences(rows, foundAt, s) == {};
    } else {
      var n := |rows| - 1;
      EligibleSharesAre(rows[..n], foundAt, s);
      OccurrencesOneMore(rows[..n], rows[n], foundAt, s);
      assert rows == rows[..n] + [rows[n]];
    }
  }

  ghost predicate InTimeOrder(s: seq<ShareEntry>) {
    forall i, j | 0 <= i < j < |s| :: s[i].createdAt >= s[j].createdAt
  }

  lemma {:induction false} InsertNewest(x: ShareEntry, s: seq<ShareEntry>)
    requires InTimeOrder(s)
    ensures InTimeOrder(Insert(x, s, NotOlder))
  {
    if s != [] && !NotOlder(x, s[0]) {
      InsertNewest(x, s[1..]);
      var t := Insert(x, s[1..], NotOlder);
      InsertPermutes(x, s[1..], NotOlder);
      forall k | 0 <= k < |t|
        ensures NotOlder(s[0], t[k])
      {
        assert t[k] in multiset(t);
        assert t[k] == x || t[k] in s[1..];
      }
    }
  }

  lemma {:induction false} SortNewest(s: seq<ShareEntry>)
    ensures InTimeOrder(StableSort(s, NotOlder))
  {
    if s != [] {
      SortNewest(s[1..]);
      InsertNewest(s[0], StableSort(s[1..], NotOlder));
    }
  }

  /** The query returns a share once for every accepted outcome row of it up to the find, newest first. */
  lemma NewestFirstIsSorted(rows: seq<OutcomeRow>, foundAt: int)
    ensures forall s :: multiset(NewestFirst(rows, foundAt))[s] == |Occurrences(rows, foundAt, s)|
    ensures InTimeOrder(NewestFirst(rows, foundAt))
  {
    StableSortPermutes(EligibleShares(rows, foundAt), NotOlder);
    SortNewest(EligibleShares(rows, foundAt));
    forall s
      ensures multiset(NewestFirst(rows, foundAt))[s] == |Occurrences(rows, foundAt, s)|
    {
      EligibleSharesAre(rows, foundAt, s);
    }
  }

  /** The query lists a share exactly when it has an accepted outcome row no later than the find. */
  lemma ListedIff(rows: seq<OutcomeRow>, foundAt: int, s: ShareEntry)
    ensures s in NewestFirst(rows, foundAt) <==>
      exists i :: 0 <= i < |rows| && rows[i].entry == s && rows[i].accepted && s.createdAt <= foundAt
  {
    var occurrences := Occurrences(rows, foundAt, s);
    NewestFirstIsSorted(rows, foundAt);
    assert s in NewestFirst(rows, foundAt) <==> occurrences != {};
    if i :| 0 <= i < |rows| && IsOutcomeOf(rows[i], foundAt, s) { assert i in occurrences; }
    if occurrences != {} { var i :| i in occurrences; }
  }

  // ----- membership, on the columns -----

  /** A listed share is in the window exactly when no nonempty list of shares before it reaches the threshold. */
  lemma TakenIff(shares: seq<ShareEntry>, threshold: real, p: nat)
    requires p < |shares|
    ensures p < Cutoff(shares, threshold) <==> forall m | 0 < m <= p :: WorkSum(shares[..m]) < threshold
  {
    var k := Cutoff(shares, threshold);
    assert IsCutoff(shares, threshold, k);
  }

  predicate Newer(x: ShareEntry, y: ShareEntry) {
    x.createdAt > y.createdAt
  }

  ghost predicate DistinctTimes(shares: seq<ShareEntry>) {
    forall i, j | 0 <= i < j < |shares| :: shares[i].createdAt != shares[j].createdAt
  }

  lemma DistinctTimesSort(shares: seq<ShareEntry>)
    requires DistinctTimes(shares)
    ensures SortedBy(StableSort(shares, NotOlder), Newer)
    ensures Elements(StableSort(shares, NotOlder)) == Elements(shares)
    ensures StrictOrder(Elements(shares), Newer)
  {
    forall x, y | x in Elements(shares) && y in Elements(shares) && x != y
      ensures Newer(x, y) || Newer(y, x)
    {
      var i :| 0 <= i < |shares| && shares[i] == x;
      var j :| 0 <= j < |shares| && shares[j] == y;
      assert i < j || j < i;
    }
    StableSortSorts(shares, NotOlder, Newer);
  }

  /** With distinct timestamps the window does not depend on the order of the table. */
  lemma WindowIgnoresTableOrder(rows: seq<OutcomeRow>, rows': seq<OutcomeRow>, foundAt: int, threshold: real)
    requires multiset(EligibleShares(rows, foundAt)) == multiset(EligibleShares(rows', foundAt))
    requires DistinctTimes(EligibleShares(rows, foundAt)) && DistinctTimes(EligibleShares(rows', foundAt))
    ensures Window(rows, foundAt, threshold) == Window(rows', foundAt, threshold)
  {
    var s, t := EligibleShares(rows, foundAt), EligibleShares(rows', foundAt);
    DistinctTimesSort(s);
    DistinctTimesSort(t);
    SameElements(s, t);
    SortedUnique(StableSort(s, NotOlder), StableSort(t, NotOlder), Newer);
  }

  // ----- growth and stability -----

  /** A larger multiplier never shortens the window. */
  lemma WindowGrows(rows: seq<OutcomeRow>, foundAt: int, n: real, n': real, networkDifficulty: real)
    requires n <= n' && networkDifficulty >= 0.0
    ensures Window(rows, foundAt, n * networkDifficulty) <= Window(rows, foundAt, n' * networkDifficulty)
  {
    var shares := NewestFirst(rows, foundAt);
    var t, t' := n * networkDifficulty, n' * networkDifficulty;
    assert t <= t';
    CutoffGrows(shares, t, t');
    var k, k' := Cutoff(shares, t), Cutoff(shares, t');
    assert shares[..k'][..k] == shares[..k];
  }

  lemma CutoffGrows(shares: seq<ShareEntry>, t: real, t': real)
    requires t <= t'
    ensures Cutoff(shares, t) <= Cutoff(shares, t')
  {
    var k, k' := Cutoff(shares, t), Cutoff(shares, t');
    assert IsCutoff(shares, t, k) && IsCutoff(shares, t', k');
  }

  lemma {:induction false} LaterRowsAreNotEligible(rows: seq<OutcomeRow>, later: seq<OutcomeRow>, foundAt: int)
    requires forall i | 0 <= i < |later| :: !Eligible(later[i], foundAt)
    ensures EligibleShares(rows + later, foundAt) == EligibleShares(rows, foundAt)
  {
    if later == [] {
      assert rows + later == rows;
    } else {
      var n := |later| - 1;
      LaterRowsAreNotEligible(rows, later[..n], foundAt);
      var all := rows + later;
      assert all[..|all| - 1] == rows + later[..n];
    }
  }

  /** Shares recorded strictly after the find do not change its window. */
  lemma WindowStable(rows: seq<OutcomeRow>, later: seq<OutcomeRow>, foundAt: int, threshold: real)
    requires forall i | 0 <= i < |later| :: later[i].entry.createdAt > foundAt || !later[i].accepted
    ensures Window(rows + later, foundAt, threshold) == Window(rows, foundAt, threshold)
  {
    LaterRowsAreNotEligible(rows, later, foundAt);
  }

  // ----- a share recorded after the find, in the same second -----

  /** Row ids increase, as an autoincrement key does. */
  ghost predicate IdsIncrease(shares: seq<ShareEntry>) {
    forall i, j | 0 <= i < j < |shares| :: shares[i].outcomeId < shares[j].outcomeId
  }

  predicate QueriedBefore(x: ShareEntry, y: ShareEntry) {
    x.createdAt > y.createdAt || (x.createdAt == y.createdAt && x.outcomeId < y.outcomeId)
  }

  lemma QueryOrder(shares: seq<ShareEntry>)
    requires IdsIncrease(shares)
    ensures SortedBy(StableSort(shares, NotOlder), QueriedBefore)
    ensures Elements(StableSort(shares, NotOlder)) == Elements(shares)
    ensures StrictOrder(Elements(shares), QueriedBefore)
  {
    forall x, y | x in Elements(shares) && y in Elements(shares) && x != y
      ensures QueriedBefore(x, y) || QueriedBefore(y, x)
    {
      var i :| 0 <= i < |shares| && shares[i] == x;
      var j :| 0 <= j < |shares| && shares[j] == y;
      assert i < j || j < i;
    }
    StableSortSorts(shares, NotOlder, QueriedBefore);
  }

  /** The table is in id order, as autoincrement ids are. */
  ghost predicate InIdOrder(rows: seq<OutcomeRow>) {
    forall i, j | 0 <= i < j < |rows| :: rows[i].entry.outcomeId < rows[j].entry.outcomeId
  }

  lemma IdsAppend(shares: seq<ShareEntry>, last: ShareEntry)
    requires IdsIncrease(shares) && forall s | s in shares :: s.outcomeId < last.outcomeId
    ensures IdsIncrease(shares + [last])
  {
    assert forall i | 0 <= i < |shares| :: shares[i] in shares;
  }

  lemma {:induction false} EligibleIdsBelow(rows: seq<OutcomeRow>, foundAt: int, id: int)
    requires forall i | 0 <= i < |rows| :: rows[i].entry.outcomeId < id
    ensures forall s | s in EligibleShares(rows, foundAt) :: s.outcomeId < id
  {
    if rows != [] { EligibleIdsBelow(rows[..|rows| - 1], foundAt, id); }
  }

  lemma {:induction false} EligibleIdsIncrease(rows: seq<OutcomeRow>, foundAt: int)
    requires InIdOrder(rows)
    ensures IdsIncrease(EligibleShares(rows, foundAt))
  {
    if rows != [] {
      var n := |rows| - 1;
      EligibleIdsIncrease(rows[..n], foundAt);
      EligibleIdsBelow(rows[..n], foundAt, rows[n].entry.outcomeId);
      if Eligible(rows[n], foundAt) {
        IdsAppend(EligibleShares(rows[..n], foundAt), rows[n].entry);
      } else {
        assert EligibleShares(rows, foundAt) == EligibleShares(rows[..n], foundAt);
      }
    }
  }

  /** The query lists this row before share `e`: accepted, no later than the find, and newer or of a smaller id. */
  predicate Precedes(row: OutcomeRow, foundAt: int, e: ShareEntry) {
    && row.accepted && row.entry.createdAt <= foundAt
    && (row.entry.createdAt > e.createdAt
        || (row.entry.createdAt == e.createdAt && row.entry.outcomeId < e.outcomeId))
  }

  /** The work of the rows listed before `e`. */
  function WorkBefore(rows: seq<OutcomeRow>, foundAt: int, e: ShareEntry): real {
    if rows == [] then 0.0
    else
      var n := |rows| - 1;
      WorkBefore(rows[..n], foundAt, e) + if Precedes(rows[n], foundAt, e) then rows[n].entry.difficulty else 0.0
  }

  ghost function SharesBefore(rows: seq<OutcomeRow>, foundAt: int, e: ShareEntry): seq<ShareEntry> {
    if rows == [] then []
    else
      var n := |rows| - 1;
      SharesBefore(rows[..n], foundAt, e) + if Precedes(rows[n], foundAt, e) then [rows[n].entry] else []
  }

  lemma {:induction false} WorkBeforeIsSum(rows: seq<OutcomeRow>, foundAt: int, e: ShareEntry)
    ensures WorkSum(SharesBefore(rows, foundAt, e)) == WorkBefore(rows, foundAt, e)
    ensures SharesBefore(rows, foundAt, e) == [] <==> forall i | 0 <= i < |rows| :: !Precedes(rows[i], foundAt, e)
  {
    if rows != [] {
      var n := |rows| - 1;
      WorkBeforeIsSum(rows[..n], foundAt, e);
      var before, all := SharesBefore(rows[..n], foundAt, e), SharesBefore(rows, foundAt, e);
      if Precedes(rows[n], foundAt, e) {
        assert all[..|all| - 1] == before;
      } else {
        assert all == before;
        assert forall i | 0 <= i < n :: rows[..n][i] == rows[i];
      }
    }
  }

  lemma {:induction false} CountBefore(rows: seq<OutcomeRow>, foundAt: int, e: ShareEntry, s: ShareEntry)
    ensures multiset(SharesBefore(rows, foundAt, e))[s]
      == if QueriedBefore(s, e) then multiset(EligibleShares(rows, foundAt))[s] else 0
  {
    if rows != [] { CountBefore(rows[..|rows| - 1], foundAt, e, s); }
  }

  lemma CountInPrefix(t: seq<ShareEntry>, p: nat, s: ShareEntry)
    requires p < |t| && SortedBy(t, QueriedBefore)
    ensures multiset(t[..p])[s] == if QueriedBefore(s, t[p]) then multiset(t)[s] else 0
  {
    assert t == t[..p] + t[p..];
    if s in t[..p] {
      var i :| 0 <= i < p && t[i] == s;
      assert QueriedBefore(t[i], t[p]);
    }
    if s in t[p..] {
      var i :| p <= i < |t| && t[i] == s;
      assert i == p || QueriedBefore(t[p], t[i]);
    }
  }

  /** What the query lists before position `p` is what the columns say comes before that share. */
  lemma ListedBefore(rows: seq<OutcomeRow>, foundAt: int, p: nat)
    requires InIdOrder(rows) && p < |NewestFirst(rows, foundAt)|
    ensures
      var t := NewestFirst(rows, foundAt);
      multiset(t[..p]) == multiset(SharesBefore(rows, foundAt, t[p]))
  {
    var shares, t := EligibleShares(rows, foundAt), NewestFirst(rows, foundAt);
    EligibleIdsIncrease(rows, foundAt);
    QueryOrder(shares);
    StableSortPermutes(shares, NotOlder);
    forall s
      ensures multiset(t[..p])[s] == multiset(SharesBefore(rows, foundAt, t[p]))[s]
    {
      CountInPrefix(t, p, s);
      CountBefore(rows, foundAt, t[p], s);
    }
  }

  lemma {:induction false} PrefixSumsGrow(shares: seq<ShareEntry>, m: nat, p: nat)
    requires m <= p <= |shares| && forall s | s in shares :: s.difficulty >= 0.0
    ensures WorkSum(shares[..m]) <= WorkSum(shares[..p])
    decreases p
  {
    if m < p {
      assert shares[p - 1] in shares && shares[..p][..p - 1] == shares[..p - 1];
      PrefixSumsGrow(shares, m, p - 1);
    }
  }

  /** A listed share is in the window exactly when it is first or the work listed before it is below the threshold. */
  lemma TakenBelowThreshold(shares: seq<ShareEntry>, threshold: real, p: nat)
    requires p < |shares| && forall s | s in shares :: s.difficulty >= 0.0
    ensures p < Cutoff(shares, threshold) <==> p == 0 || WorkSum(shares[..p]) < threshold
  {
    TakenIff(shares, threshold, p);
    forall m | 0 < m <= p
      ensures WorkSum(shares[..m]) <= WorkSum(shares[..p])
    {
      PrefixSumsGrow(shares, m, p);
    }
  }

  /**
   Membership on the columns: a row's share is in the window if and only if it was accepted,
   no later than the find, and the rows listed before it have less work than the threshold;
   the first one is always in.
   */
  lemma WindowMembership(rows: seq<OutcomeRow>, foundAt: int, threshold: real, r: nat)
    requires InIdOrder(rows) && r < |rows|
    requires forall i | 0 <= i < |rows| :: rows[i].entry.difficulty >= 0.0
    ensures
      var e := rows[r].entry;
      e in Window(rows, foundAt, threshold) <==>
        && rows[r].accepted && e.createdAt <= foundAt
        && (WorkBefore(rows, foundAt, e) < threshold || forall i | 0 <= i < |rows| :: !Precedes(rows[i], foundAt, e))
  {
    var t, e := NewestFirst(rows, foundAt), rows[r].entry;
    ListedIff(rows, foundAt, e);
    if e in t {
      var p :| 0 <= p < |t| && t[p] == e;
      ListedAt(rows, foundAt, threshold, p);
      OnlyRow(rows, r);
    }
  }

  /** Ids identify rows. */
  lemma OnlyRow(rows: seq<OutcomeRow>, r: nat)
    requires InIdOrder(rows) && r < |rows|
    ensures forall i | 0 <= i < |rows| && rows[i].entry == rows[r].entry :: i == r
  {
  }

  lemma ListedAt(rows: seq<OutcomeRow>, foundAt: int, threshold: real, p: nat)
    requires InIdOrder(rows) && p < |NewestFirst(rows, foundAt)|
    requires forall i | 0 <= i < |rows| :: rows[i].entry.difficulty >= 0.0
    ensures
      var e := NewestFirst(rows, foundAt)[p];
      e in Window(rows, foundAt, threshold) <==>
        WorkBefore(rows, foundAt, e) < threshold || forall i | 0 <= i < |rows| :: !Precedes(rows[i], foundAt, e)
  {
    var t := NewestFirst(rows, foundAt);
    var e, before := t[p], SharesBefore(rows, foundAt, t[p]);
    forall s | s in t
      ensures s.difficulty >= 0.0
    {
      ListedIff(rows, foundAt, s);
    }
    ListedBefore(rows, foundAt, p);
    WorkSumPermutation(t[..p], before);
    WorkBeforeIsSum(rows, foundAt, e);
    assert |t[..p]| == |multiset(t[..p])| == |multiset(before)| == |before|;
    TakenBelowThreshold(t, threshold, p);
    EligibleIdsIncrease(rows, foundAt);
    QueryOrder(EligibleShares(rows, foundAt));
    InPrefixIff(t, p, Cutoff(t, threshold));
  }

  lemma InPrefixIff(t: seq<ShareEntry>, p: nat, k: nat)
    requires SortedBy(t, QueriedBefore) && p < |t| && k <= |t|
    ensures t[p] in t[..k] <==> p < k
  {
    if p < k {
      assert t[..k][p] == t[p];
    } else {
      assert forall i | 0 <= i < k :: QueriedBefore(t[i], t[p]);
    }
  }

  /** `p` shares of the list carry the timestamp of the find; they come first. */
  ghost predicate SameSecond(shares: seq<ShareEntry>, foundAt: int, p: nat) {
    && p <= |shares|
    && (forall i | 0 <= i < p :: shares[i].createdAt == foundAt)
    && (forall i | p <= i < |shares| :: shares[i].createdAt < foundAt)
  }

  /** A share recorded last, with the find's timestamp, is queried right after that second's other shares. */
  lemma LatePosition(shares: seq<ShareEntry>, late: ShareEntry, foundAt: int, p: nat)
    requires IdsIncrease(shares + [late]) && late.createdAt == foundAt
    requires SameSecond(StableSort(shares, NotOlder), foundAt, p)
    ensures
      var t := StableSort(shares, NotOlder);
      StableSort(shares + [late], NotOlder) == t[..p] + [late] + t[p..]
  {
    assert forall i | 0 <= i < |shares| :: (shares + [late])[i] == shares[i];
    assert IdsIncrease(shares);
    QueryOrder(shares);
    QueryOrder(shares + [late]);
    var t := StableSort(shares, NotOlder);
    var t' := t[..p] + [late] + t[p..];
    forall x | x in t
      ensures x.outcomeId < late.outcomeId
    {
      assert x in Elements(t);
      var i :| 0 <= i < |shares| && shares[i] == x;
      assert (shares + [late])[i].outcomeId < (shares + [late])[|shares|].outcomeId;
    }
    LateElements(shares, t, late, p);
    LateSorted(t, late, foundAt, p);
    SortedUnique(StableSort(shares + [late], NotOlder), t', QueriedBefore);
  }

  lemma LateElements(shares: seq<ShareEntry>, t: seq<ShareEntry>, late: ShareEntry, p: nat)
    requires p <= |t| && Elements(t) == Elements(shares)
    ensures Elements(t[..p] + [late] + t[p..]) == Elements(shares + [late])
  {
    assert t == t[..p] + t[p..];
    forall x
      ensures x in Elements(t[..p] + [late] + t[p..]) <==> x in Elements(shares + [late])
    {
      assert x in t <==> x in Elements(t);
      assert x in shares <==> x in Elements(shares);
    }
  }

  lemma LateSorted(t: seq<ShareEntry>, late: ShareEntry, foundAt: int, p: nat)
    requires SortedBy(t, QueriedBefore) && SameSecond(t, foundAt, p) && late.createdAt == foundAt
    requires forall x | x in t :: x.outcomeId < late.outcomeId
    ensures SortedBy(t[..p] + [late] + t[p..], QueriedBefore)
  {
    var t' := t[..p] + [late] + t[p..];
    forall i, j | 0 <= i < j < |t'|
      ensures QueriedBefore(t'[i], t'[j])
    {
      var i', j' := if i < p then i else i - 1, if j < p then j else j - 1;
      assert i != p ==> t'[i] == t[i'];
      assert j != p ==> t'[j] == t[j'];
    }
  }

  lemma CutoffInside(t: seq<ShareEntry>, late: ShareEntry, threshold: real, p: nat, m: nat)
    requires 0 < m <= p <= |t| && WorkSum(t[..m]) >= threshold
    ensures Cutoff(t, threshold) <= m && Cutoff(t[..p] + [late] + t[p..], threshold) == Cutoff(t, threshold)
  {
    var t' := t[..p] + [late] + t[p..];
    var k := Cutoff(t, threshold);
    assert forall n | 0 <= n <= p :: t'[..n] == t[..n];
    assert IsCutoff(t, threshold, k);
    assert k <= m;
    assert WorkSum(t[..k]) >= threshold && k > 0 by {
      if k == |t| { assert m == k; }
    }
    CutoffUnique(t', threshold, k, Cutoff(t', threshold));
  }

  lemma CutoffBeyond(t: seq<ShareEntry>, late: ShareEntry, threshold: real, p: nat)
    requires p <= |t| && forall m | 0 < m <= p :: WorkSum(t[..m]) < threshold
    ensures Cutoff(t, threshold) >= p && Cutoff(t[..p] + [late] + t[p..], threshold) > p
  {
    var t' := t[..p] + [late] + t[p..];
    assert forall n | 0 <= n <= p :: t'[..n] == t[..n];
    assert IsCutoff(t, threshold, Cutoff(t, threshold));
    assert IsCutoff(t', threshold, Cutoff(t', threshold));
  }

  /**
   Timestamps have a resolution of one second. A share accepted after the find
   but in its second leaves the window alone exactly when the shares of that
   second recorded before it already fill the window.
   */
  lemma SameSecondShareIff(rows: seq<OutcomeRow>, late: OutcomeRow, foundAt: int, threshold: real, p: nat)
    requires late.accepted && late.entry.createdAt == foundAt
    requires IdsIncrease(EligibleShares(rows, foundAt) + [late.entry])
    requires SameSecond(NewestFirst(rows, foundAt), foundAt, p)
    ensures Window(rows + [late], foundAt, threshold) == Window(rows, foundAt, threshold)
      <==> exists m :: 0 < m <= p && WorkSum(NewestFirst(rows, foundAt)[..m]) >= threshold
  {
    var shares, e := EligibleShares(rows, foundAt), late.entry;
    assert (rows + [late])[..|rows|] == rows;
    assert EligibleShares(rows + [late], foundAt) == shares + [e];
    LatePosition(shares, e, foundAt, p);
    var t := NewestFirst(rows, foundAt);
    var t' := t[..p] + [e] + t[p..];
    assert NewestFirst(rows + [late], foundAt) == t';
    if m :| 0 < m <= p && WorkSum(t[..m]) >= threshold {
      CutoffInside(t, e, threshold, p, m);
      var k := Cutoff(t, threshold);
      assert t'[..k] == t[..k];
    } else {
      CutoffBeyond(t, e, threshold, p);
      LateIsNew(shares, e);
      var window, window' := Window(rows, foundAt, threshold), Window(rows + [late], foundAt, threshold);
      assert window'[p] == e;
      assert |window| > p ==> window[p] in t;
    }
  }

  lemma LateIsNew(shares: seq<ShareEntry>, late: ShareEntry)
    requires IdsIncrease(shares + [late])
    ensures late !in StableSort(shares, NotOlder)
  {
    assert forall i | 0 <= i < |shares| :: (shares + [late])[i] == shares[i];
    assert (shares + [late])[|shares|] == late;
    StableSortPermutes(shares, NotOlder);
    assert late !in shares;
    assert late !in multiset(shares);
  }

  lemma {:induction false} WorkSumRemove(shares: seq<ShareEntry>, i: nat)
    requires i < |shares|
    ensures WorkSum(shares) == WorkSum(shares[..i] + shares[i + 1..]) + shares[i].difficulty
  {
    var n := |shares| - 1;
    var rest := shares[..i] + shares[i + 1..];
    if i == n {
      assert rest == shares[..n];
    } else {
      WorkSumRemove(shares[..n], i);
      assert rest[..|rest| - 1] == shares[..n][..i] + shares[..n][i + 1..];
      assert rest[|rest| - 1] == shares[n];
    }
  }

  lemma {:induction false} WorkSumPermutation(shares: seq<ShareEntry>, shares': seq<ShareEntry>)
    requires multiset(shares) == multiset(shares')
    ensures WorkSum(shares) == WorkSum(shares')
  {
    assert |shares| == |multiset(shares)| == |shares'|;
    if shares != [] {
      var n := |shares| - 1;
      var last := shares[n];
      assert shares == shares[..n] + [last];
      assert last in multiset(shares');
      var i :| 0 <= i < |shares'| && shares'[i] == last;
      var rest := shares'[..i] + shares'[i + 1..];
      assert shares' == shares'[..i] + [last] + shares'[i + 1..];
      assert multiset(rest) == multiset(shares') - multiset{last};
      assert multiset(shares[..n]) == multiset(shares) - multiset{last};
      WorkSumRemove(shares', i);
      WorkSumPermutation(shares[..n], rest);
    }
  }

  // ----- rebuilding -----

  /**
   A rebuild after any later shares, with the dust of the window's addresses
   unchanged, reproduces the payout rows exactly.
   */
  lemma RebuildReproduces(
    rows: seq<OutcomeRow>, later: seq<OutcomeRow>, foundAt: int, threshold: real,
    dust: seq<(string, int)>, dust': seq<(string, int)>, gross: int, net: int, minPayout: int)
    requires forall i | 0 <= i < |later| :: later[i].entry.createdAt > foundAt || !later[i].accepted
    requires forall a | a in Addresses(Window(rows, foundAt, threshold)) :: DustOf(dust, a) == DustOf(dust', a)
    ensures PlanOutputs(Window(rows + later, foundAt, threshold), dust', gross, net, minPayout)
      == PlanOutputs(Window(rows, foundAt, threshold), dust, gross, net, minPayout)
  {
    WindowStable(rows, later, foundAt, threshold);
    DustOutsideWindowIsIgnored(Window(rows, foundAt, threshold), dust, dust', gross, net, minPayout);
  }
}
