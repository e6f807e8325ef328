/**
 The rounds table. Ids are positions in the table; rows are never deleted.
 `resolve_round_for_template` holds the lock twice, so its query and its
 fallback are separate operations here.
 */
module Rounds {
  import opened Text

  datatype RoundStatus = Open | Found | OrphanedRound

  datatype Round = Round(start: nat, end: Option<nat>, status: RoundStatus)

  /** The WHERE clause of the resolve query. */
  predicate Covers(r: Round, t: nat) {
    r.start <= t && (r.status == Open || r.end.None? || r.end.value >= t)
  }

  /** The covering round with the largest start; of equals the first. */
  function Match(rounds: seq<Round>, t: nat): (id: Option<nat>)
    ensures id.Some? ==> id.value < |rounds| && Covers(rounds[id.value], t)
    ensures id.Some? ==>
      forall i | 0 <= i < |rounds| && Covers(rounds[i], t) :: rounds[i].start <= rounds[id.value].start
    ensures id.None? ==> forall i | 0 <= i < |rounds| :: !Covers(rounds[i], t)
  {
    if rounds == [] then None
    else
      var n := |rounds| - 1;
      var best := Match(rounds[..n], t);
      assert forall i | 0 <= i < n :: rounds[i] == rounds[..n][i];
      if Covers(rounds[n], t) && (best.None? || rounds[n].start > rounds[best.value].start) then Some(n) else best
  }

  function FindOpen(rounds: seq<Round>): (id: Option<nat>)
    ensures id.Some? ==> id.value < |rounds| && rounds[id.value].status == Open
    ensures id.None? ==> forall i | 0 <= i < |rounds| :: rounds[i].status != Open
  {
    if rounds == [] then None
    else
      var n := |rounds| - 1;
      var first := FindOpen(rounds[..n]);
      assert forall i | 0 <= i < n :: rounds[i] == rounds[..n][i];
      if first.Some? then first else if rounds[n].status == Open then Some(n) else None
  }

  /** The open round, or a new one starting at `t`. */
  function GetOrCreate(rounds: seq<Round>, t: nat): (r: (seq<Round>, nat, bool))
    ensures r.1 < |r.0| && r.0[r.1].status == Open && rounds <= r.0
  {
    match FindOpen(rounds)
    case Some(id) => (rounds, id, false)
    case None => (rounds + [Round(t, None, Open)], |rounds|, true)
  }

  function Resolve(rounds: seq<Round>, t: nat): (r: (seq<Round>, nat, bool))
    ensures r.1 < |r.0| && rounds <= r.0
  {
    match Match(rounds, t)
    case Some(id) => (rounds, id, false)
    case None => GetOrCreate(rounds, t)
  }

  function Close(rounds: seq<Round>, id: nat, end: nat, status: RoundStatus): (r: seq<Round>)
    ensures |r| == |rounds|
  {
    if id < |rounds| then rounds[id := rounds[id].(end := Some(end), status := status)] else rounds
  }

  class Table {
    var rounds: seq<Round>

    constructor ()
      ensures rounds == []
    {
      rounds := [];
    }

    method GetOrCreateCurrentRound(t: nat) returns (id: nat, isNew: bool)
      modifies this
      ensures (rounds, id, isNew) == GetOrCreate(old(rounds), t)
      ensures isNew <==> forall i | 0 <= i < |old(rounds)| :: old(rounds)[i].status != Open
      ensures rounds == if isNew then old(rounds) + [Round(t, None, Open)] else old(rounds)
      ensures id < |rounds| && rounds[id].status == Open
      ensures forall u: nat :: Covers(rounds[id], u) <==> rounds[id].start <= u
    {
      var existing := FindOpen(rounds);
      if existing.Some? {
        return existing.value, false;
      }
      rounds := rounds + [Round(t, None, Open)];
      return |rounds| - 1, true;
    }

    method CloseRound(id: nat, end: nat, status: RoundStatus)
      modifies this
      ensures rounds == Close(old(rounds), id, end, status)
      ensures status != Open && id < |rounds| ==> FindOpen(rounds) != Some(id)
      ensures status != Open && id < |rounds| ==>
        forall t: nat :: Covers(rounds[id], t) <==> old(rounds)[id].start <= t <= end
      ensures status != Open && AtMostOneOpen(old(rounds)) ==> AtMostOneOpen(rounds)
    {
      if id < |rounds| {
        rounds := rounds[id := rounds[id].(end := Some(end), status := status)];
      }
    }

    /** The query: a scan that keeps the best covering row. */
    method QueryCovering(t: nat) returns (best: Option<nat>)
      ensures best == Match(rounds, t)
    {
      best := None;
      for i := 0 to |rounds|
        invariant best == Match(rounds[..i], t)
      {
        assert rounds[..i + 1][..i] == rounds[..i];
        if Covers(rounds[i], t) && (best.None? || rounds[i].start > rounds[best.value].start) {
          best := Some(i);
        }
      }
      assert rounds[..|rounds|] == rounds;
    }

    method ResolveRoundForTemplate(t: nat) returns (id: nat, isNew: bool)
      modifies this
      ensures (rounds, id, isNew) == Resolve(old(rounds), t)
    {
      var matching := QueryCovering(t);
      if matching.Some? {
        return matching.value, false;
      }
      id, isNew := GetOrCreateCurrentRound(t);
    }
  }

  // ----- round discipline -----

  ghost predicate AtMostOneOpen(rounds: seq<Round>) {
    forall i, j | 0 <= i < j < |rounds| :: !(rounds[i].status == Open && rounds[j].status == Open)
  }

  /** What sessions do to the table, one lock section at a time. */
  datatype Section =
    | Query(session: nat, t: nat)
    | Fallback(session: nat)
    | CloseSection(id: nat, end: nat, status: RoundStatus)

  /** The table and the sessions that found no covering round and have not yet taken the lock again. */
  datatype Shared = Shared(rounds: seq<Round>, waiting: map<nat, nat>)

  function Step(s: Shared, section: Section): Shared {
    match section
    case Query(session, t) =>
      if Match(s.rounds, t).None? then s.(waiting := s.waiting[session := t]) else s
    case Fallback(session) =>
      if session in s.waiting
      then Shared(GetOrCreate(s.rounds, s.waiting[session]).0, s.waiting - {session})
      else s
    case CloseSection(id, end, status) =>
      if status == Open then s else s.(rounds := Close(s.rounds, id, end, status))
  }

  function Run(s: Shared, sections: seq<Section>): Shared
    decreases |sections|
  {
    if sections == [] then s else Run(Step(s, sections[0]), sections[1..])
  }

  lemma StepKeepsOneOpen(s: Shared, section: Section)
    requires AtMostOneOpen(s.rounds)
    ensures AtMostOneOpen(Step(s, section).rounds)
  {
  }

  /** However sessions interleave between the two lock sections, there is never more than one open round. */
  lemma {:induction false} NeverTwoOpenRounds(s: Shared, sections: seq<Section>)
    requires AtMostOneOpen(s.rounds)
    ensures AtMostOneOpen(Run(s, sections).rounds)
    decreases |sections|
  {
    if sections != [] {
      StepKeepsOneOpen(s, sections[0]);
      NeverTwoOpenRounds(Step(s, sections[0]), sections[1..]);
    }
  }

  /** Resolving a template twice in succession gives the same round and changes nothing the second time. */
  lemma ResolveTwice(rounds: seq<Round>, t: nat)
    ensures
      var (rounds', id, _) := Resolve(rounds, t);
      Resolve(rounds', t) == (rounds', id, false)
  {
    if Match(rounds, t).None? {
      if FindOpen(rounds).None? {
        NewRoundMatches(rounds, t);
      }
    }
  }

  lemma NewRoundMatches(rounds: seq<Round>, t: nat)
    requires Match(rounds, t).None?
    ensures Match(rounds + [Round(t, None, Open)], t) == Some(|rounds|)
  {
    var all := rounds + [Round(t, None, Open)];
    assert all[..|rounds|] == rounds && Covers(all[|rounds|], t);
  }

  /**
   The round a template resolves to covers it exactly when some round covered it
   already or none was open: otherwise the later open round is returned.
   */
  lemma ResolvedRoundCoversIff(rounds: seq<Round>, t: nat)
    ensures
      var (rounds', id, _) := Resolve(rounds, t);
      Covers(rounds'[id], t) <==> (exists i :: 0 <= i < |rounds| && Covers(rounds[i], t)) || FindOpen(rounds).None?
  {
    var (rounds', id, _) := Resolve(rounds, t);
    if Match(rounds, t).Some? {
      assert Covers(rounds[Match(rounds, t).value], t);
    }
  }

  /** A second find on the template that closed a round resolves to that round again. */
  lemma SameTemplateSameRound(rounds: seq<Round>, t: nat)
    requires Match(rounds, t).Some?
    ensures Match(Close(rounds, Match(rounds, t).value, t, Found), t) == Match(rounds, t)
  {
    var id := Match(rounds, t).value;
    MatchIsFirst(rounds, t);
    var closed := Close(rounds, id, t, Found);
    assert forall i | 0 <= i < |rounds| ::
        Covers(closed[i], t) == Covers(rounds[i], t) && closed[i].start == rounds[i].start;
    MatchIsFirst(closed, t);
  }

  /** Of the covering rounds with the largest start, the first is chosen. */
  lemma {:induction false} MatchIsFirst(rounds: seq<Round>, t: nat)
    ensures
      var id := Match(rounds, t);
      id.Some? ==> forall i | 0 <= i < id.value && Covers(rounds[i], t) :: rounds[i].start < rounds[id.value].start
  {
    if rounds != [] {
      var n := |rounds| - 1;
      assert forall i | 0 <= i < n :: rounds[i] == rounds[..n][i];
      MatchIsFirst(rounds[..n], t);
    }
  }
}
