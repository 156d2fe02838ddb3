/** The round scorer: from a contract, the attacking players, the tricks they
    won and the doubling flag, the signed base points and every player's delta. */
module Scoring {
  import opened Types
  import opened Constants

  /** Winning Abondance pays by trick count; any other winning count pays 9. */
  const AbondanceTable: map<int, int> := map[9 := 4, 10 := 7, 11 := 8, 12 := 9]

  /** The signed base points of a contract, before doubling. The win test is
      the catalog's `tricks >= target`; Miserie, Piccolo and the solos test an
      exact trick count instead. */
  function ContractPoints(def: ContractDef, tricksWon: int): int {
    var isWin := tricksWon >= def.target;
    match def.kind
    case Alone =>
      if isWin then 2 + (tricksWon - 5) else -(2 + (5 - tricksWon))
    case Normal =>
      var normalVal := 2 + Abs(tricksWon - 8);
      var normalVal := if tricksWon == 13 then normalVal * 2 else normalVal;
      if isWin then normalVal else -normalVal
    case Troel =>
      if tricksWon == 13 then 20
      else if isWin then 4 + (tricksWon - 8) * 2
      else -(4 + (8 - tricksWon) * 2)
    case Abondance =>
      if isWin then (if tricksWon in AbondanceTable then AbondanceTable[tricksWon] else 9)
      else -4
    case Miserie => if tricksWon == 0 then 7 else -7
    case MiserieTable => if tricksWon == 0 then 14 else -14
    case Piccolo => if tricksWon == 1 then 5 else -5
    case Solo => if tricksWon == 13 then 25 else -25
    case SoloSlim => if tricksWon == 13 then 30 else -30
    case Pass => 0
  }

  /** Whether the attacking side made its contract with `tricksWon` tricks. */
  predicate Made(kind: ContractType, tricksWon: int) {
    match kind
    case Alone => tricksWon >= 5
    case Normal => tricksWon >= 8
    case Troel => tricksWon >= 8
    case Abondance => tricksWon >= 9
    case Miserie => tricksWon == 0
    case MiserieTable => tricksWon == 0
    case Piccolo => tricksWon == 1
    case Solo => tricksWon == 13
    case SoloSlim => tricksWon == 13
    case Pass => false
  }

  /** The unsigned stake: two plus the distance from the target for Alone and
      Normal (twice that for all 13 tricks in Normal), four plus twice the
      distance for Troel (20 for all 13), the Abondance table or 4, and a
      fixed amount for the other contracts. */
  function Stake(kind: ContractType, tricksWon: int): int {
    match kind
    case Alone => 2 + Abs(tricksWon - 5)
    case Normal => if tricksWon == 13 then 14 else 2 + Abs(tricksWon - 8)
    case Troel => if tricksWon == 13 then 20 else 4 + 2 * Abs(tricksWon - 8)
    case Abondance =>
      if tricksWon < 9 then 4
      else if tricksWon in AbondanceTable then AbondanceTable[tricksWon] else 9
    case Miserie => 7
    case MiserieTable => 14
    case Piccolo => 5
    case Solo => 25
    case SoloSlim => 30
    case Pass => 0
  }

  /** The base points are the stake, won when the contract is made and lost
      otherwise; the stake of a real contract is never zero, for any trick count. */
  lemma ContractPointsAreSignedStake(kind: ContractType, tricksWon: int)
    requires kind != Pass
    ensures Find(kind).Some?
    ensures Stake(kind, tricksWon) > 0
    ensures ContractPoints(Find(kind).value, tricksWon)
            == if Made(kind, tricksWon) then Stake(kind, tricksWon) else -Stake(kind, tricksWon)
  {
    SignedStakeAtTarget(Find(kind).value, tricksWon);
  }

  lemma SignedStakeAtTarget(def: ContractDef, tricksWon: int)
    requires def.kind != Pass && def.target == Target(def.kind)
    ensures Stake(def.kind, tricksWon) > 0
    ensures ContractPoints(def, tricksWon)
            == if Made(def.kind, tricksWon) then Stake(def.kind, tricksWon) else -Stake(def.kind, tricksWon)
  {
    match def.kind {
      case Alone =>
      case Normal =>
      case Troel =>
      case Abondance =>
      case Miserie =>
      case MiserieTable =>
      case Piccolo =>
      case Solo =>
      case SoloSlim =>
    }
  }

  /** For the contracts that are about taking tricks, one more trick never
      scores less. */
  lemma MoreTricksNeverScoreLess(kind: ContractType, t1: int, t2: int)
    requires kind in {Alone, Normal, Troel, Abondance, Solo, SoloSlim}
    requires 0 <= t1 <= t2 <= 13
    ensures Find(kind).Some?
    ensures ContractPoints(Find(kind).value, t1) <= ContractPoints(Find(kind).value, t2)
  {
    ContractPointsAreSignedStake(kind, t1);
    ContractPointsAreSignedStake(kind, t2);
  }

  /** The single doubling step, applied after the contract formula. */
  function Doubled(basePoints: int, isDoubled: bool): int {
    if isDoubled then basePoints * 2 else basePoints
  }

  /** `players.filter(p => !active.includes(p.id)).map(p => p.id)`. */
  function Defenders(players: seq<PlayerId>, active: seq<PlayerId>): (d: seq<PlayerId>)
    ensures forall id :: id in d <==> id in players && id !in active
    ensures |d| <= |players|
  {
    if players == [] then []
    else (if players[0] in active then [] else [players[0]]) + Defenders(players[1..], active)
  }

  /** The deltas of an accepted round: one attacker gets three times the base
      points, otherwise each attacker gets the base points; each defender
      loses the base points. */
  function Distribute(basePoints: int, active: seq<PlayerId>, defenders: seq<PlayerId>): map<PlayerId, int> {
    var defended := map id | id in defenders :: -basePoints;
    if |active| == 1 then map[active[0] := basePoints * 3] + defended
    else (map id | id in active :: basePoints) + defended
  }

  /** What an accepted round produces. */
  datatype Calculation = Calculation(
    basePoints: int,
    result: map<PlayerId, int>,
    defendingPlayerIds: seq<PlayerId>)

  /** `calculateScores`: a pass round always scores nothing; any other round is
      rejected unless the contract is in the catalog and exactly as many
      players attack as its category needs. */
  function CalculateScores(isPassRound: bool, selected: ContractType, active: seq<PlayerId>,
                           players: seq<PlayerId>, tricksWon: int, isDoubled: bool): (r: Option<Calculation>)
    ensures isPassRound ==> r == Some(Calculation(0, map[], []))
    ensures !isPassRound ==>
              (r.Some? <==> Find(selected).Some? && |active| == Seats(Find(selected).value.category))
    ensures !isPassRound && r.Some? ==>
              r.value.basePoints == Doubled(ContractPoints(Find(selected).value, tricksWon), isDoubled)
              && r.value.defendingPlayerIds == Defenders(players, active)
              && r.value.result == Distribute(r.value.basePoints, active, r.value.defendingPlayerIds)
  {
    if isPassRound then Some(Calculation(0, map[], []))
    else match Find(selected)
      case None => None
      case Some(def) =>
        var basePoints := Doubled(ContractPoints(def, tricksWon), isDoubled);
        var defenders := Defenders(players, active);
        if |active| == 0 then None
        else if def.category == TwoVsTwo && |active| != 2 then None
        else if def.category == OneVsThree && |active| != 1 then None
        else Some(Calculation(basePoints, Distribute(basePoints, active, defenders), defenders))
  }

  /** The attacking ids are distinct ids of seated players. */
  predicate WellChosen(active: seq<PlayerId>, players: seq<PlayerId>) {
    Distinct(active) && forall id :: id in active ==> id in players
  }

  /** Every seated player receives a delta and nobody else does: a lone
      attacker gets three times the base points, each of two attackers the
      base points, and each defender loses the base points. */
  lemma DistributionShape(selected: ContractType, active: seq<PlayerId>,
                          players: seq<PlayerId>, tricksWon: int, isDoubled: bool)
    requires WellChosen(active, players)
    requires CalculateScores(false, selected, active, players, tricksWon, isDoubled).Some?
    ensures var c := CalculateScores(false, selected, active, players, tricksWon, isDoubled).value;
            && c.result.Keys == set id | id in players
            && (forall id :: id in players && id in active ==>
                  c.result[id] == if |active| == 1 then 3 * c.basePoints else c.basePoints)
            && (forall id :: id in players && id !in active ==> c.result[id] == -c.basePoints)
  {
    var c := CalculateScores(false, selected, active, players, tricksWon, isDoubled).value;
    DistributeShape(c.basePoints, active, players);
  }

  lemma DistributeShape(basePoints: int, active: seq<PlayerId>, players: seq<PlayerId>)
    requires WellChosen(active, players) && active != []
    ensures var m := Distribute(basePoints, active, Defenders(players, active));
            && m.Keys == set id | id in players
            && (forall id :: id in players && id in active ==>
                  m[id] == if |active| == 1 then 3 * basePoints else basePoints)
            && (forall id :: id in players && id !in active ==> m[id] == -basePoints)
  {
    if |active| == 1 {
      assert active == [active[0]];
      SoloShape(basePoints, active[0], players);
    } else {
      TeamShape(basePoints, active, players);
    }
  }

  lemma SoloShape(basePoints: int, a: PlayerId, players: seq<PlayerId>)
    requires a in players
    ensures var m := Distribute(basePoints, [a], Defenders(players, [a]));
            && m.Keys == set id | id in players
            && m[a] == 3 * basePoints
            && forall id :: id in players && id != a ==> m[id] == -basePoints
  {
    var defended := map id | id in Defenders(players, [a]) :: -basePoints;
    var m := Distribute(basePoints, [a], Defenders(players, [a]));
    assert m == map[a := basePoints * 3] + defended;
    assert m.Keys == {a} + defended.Keys;
  }

  lemma TeamShape(basePoints: int, active: seq<PlayerId>, players: seq<PlayerId>)
    requires |active| != 1 && active != []
    requires forall id :: id in active ==> id in players
    ensures var m := Distribute(basePoints, active, Defenders(players, active));
            && m.Keys == set id | id in players
            && forall id :: id in players ==> m[id] == if id in active then basePoints else -basePoints
  {
    var defended := map id | id in Defenders(players, active) :: -basePoints;
    var attacked := map id | id in active :: basePoints;
    var m := Distribute(basePoints, active, Defenders(players, active));
    assert m == attacked + defended;
    forall id | id in players
      ensures id in m && m[id] == if id in active then basePoints else -basePoints
    {
      if id in active {
        assert id !in defended;
      } else {
        assert id in defended;
      }
    }
    assert forall id :: id in m ==> id in players;
  }

  /** Number of entries of `ids` that are attackers. */
  function CountIn(ids: seq<PlayerId>, active: seq<PlayerId>): (n: nat)
    ensures n <= |ids|
  {
    if ids == [] then 0 else (if ids[0] in active then 1 else 0) + CountIn(ids[1..], active)
  }

  lemma {:induction false} CountInSameMembers(ids: seq<PlayerId>, a1: seq<PlayerId>, a2: seq<PlayerId>)
    requires forall id :: id in ids ==> (id in a1 <==> id in a2)
    ensures CountIn(ids, a1) == CountIn(ids, a2)
  {
    if ids != [] {
      CountInSameMembers(ids[1..], a1, a2);
    }
  }

  /** With no repeated seats, the attackers are counted exactly once each. */
  lemma {:induction false} CountInChosen(ids: seq<PlayerId>, active: seq<PlayerId>)
    requires Distinct(ids) && WellChosen(active, ids)
    ensures CountIn(ids, active) == |active|
  {
    if active == [] {
      CountInNone(ids, active);
    } else {
      var x, rest := active[0], active[1..];
      assert x !in rest && WellChosen(rest, ids);
      CountInChosen(ids, rest);
      CountInAddOne(ids, x, rest);
      assert active == [x] + rest;
    }
  }

  lemma {:induction false} CountInNone(ids: seq<PlayerId>, active: seq<PlayerId>)
    requires active == []
    ensures CountIn(ids, active) == 0
  {
    if ids != [] {
      CountInNone(ids[1..], active);
    }
  }

  /** Adding an attacker who holds exactly one seat adds one to the count. */
  lemma {:induction false} CountInAddOne(ids: seq<PlayerId>, x: PlayerId, rest: seq<PlayerId>)
    requires Distinct(ids) && x in ids && x !in rest
    ensures CountIn(ids, [x] + rest) == CountIn(ids, rest) + 1
  {
    if ids[0] == x {
      assert x !in ids[1..];
      CountInSameMembers(ids[1..], [x] + rest, rest);
    } else {
      CountInAddOne(ids[1..], x, rest);
    }
  }

  /** Summing deltas that are `a` for attackers and `d` for everybody else. */
  lemma {:induction false} SumOverSplit(ids: seq<PlayerId>, result: map<PlayerId, int>,
                                        active: seq<PlayerId>, a: int, d: int)
    requires forall id :: id in ids ==> Delta(result, id) == if id in active then a else d
    ensures SumOver(ids, result) == CountIn(ids, active) * a + (|ids| - CountIn(ids, active)) * d
  {
    if ids != [] {
      SumOverSplit(ids[1..], result, active, a, d);
      var c := CountIn(ids[1..], active);
      var n := |ids| - 1;
      if ids[0] in active {
        assert (c + 1) * a + (n - c) * d == c * a + (n - c) * d + a;
      } else {
        assert c * a + (n + 1 - c) * d == c * a + (n - c) * d + d;
      }
    }
  }

  /** Every accepted round is zero-sum over the four seats. */
  lemma ZeroSum(isPassRound: bool, selected: ContractType, active: seq<PlayerId>,
                players: seq<PlayerId>, tricksWon: int, isDoubled: bool)
    requires |players| == 4 && Distinct(players) && WellChosen(active, players)
    requires CalculateScores(isPassRound, selected, active, players, tricksWon, isDoubled).Some?
    ensures SumOver(players, CalculateScores(isPassRound, selected, active, players, tricksWon, isDoubled).value.result) == 0
  {
    var c := CalculateScores(isPassRound, selected, active, players, tricksWon, isDoubled).value;
    if isPassRound {
      SumOverSplit(players, c.result, active, 0, 0);
    } else {
      DistributeZeroSum(c.basePoints, active, players);
    }
  }

  lemma DistributeZeroSum(bp: int, active: seq<PlayerId>, players: seq<PlayerId>)
    requires |players| == 4 && Distinct(players) && WellChosen(active, players)
    requires |active| == 1 || |active| == 2
    ensures SumOver(players, Distribute(bp, active, Defenders(players, active))) == 0
  {
    var m := Distribute(bp, active, Defenders(players, active));
    DistributeShape(bp, active, players);
    CountInChosen(players, active);
    var a := if |active| == 1 then 3 * bp else bp;
    assert forall id :: id in players ==> Delta(m, id) == if id in active then a else -bp;
    SumOverSplit(players, m, active, a, -bp);
  }

  /** Doubling is applied exactly once: the doubled round is accepted exactly
      when the plain one is, with twice the base points and twice every delta. */
  lemma DoublingAppliedOnce(selected: ContractType, active: seq<PlayerId>,
                            players: seq<PlayerId>, tricksWon: int)
    ensures var plain := CalculateScores(false, selected, active, players, tricksWon, false);
            var twice := CalculateScores(false, selected, active, players, tricksWon, true);
            && (plain.Some? <==> twice.Some?)
            && (plain.Some? ==>
                  && twice.value.basePoints == 2 * plain.value.basePoints
                  && twice.value.result.Keys == plain.value.result.Keys
                  && (forall id :: id in plain.value.result ==> twice.value.result[id] == 2 * plain.value.result[id]))
  {
  }

  /** Normal, two attackers, ten tricks: each attacker +4, each defender -4. */
  lemma NormalTenTricks()
    ensures var r := CalculateScores(false, Normal, ["a", "b"], ["a", "b", "c", "d"], 10, false);
            && r.Some? && r.value.basePoints == 4
            && (forall id :: id in ["a", "b"] ==> id in r.value.result && r.value.result[id] == 4)
            && (forall id :: id in ["c", "d"] ==> id in r.value.result && r.value.result[id] == -4)
  {
    DistributionShape(Normal, ["a", "b"], ["a", "b", "c", "d"], 10, false);
  }

  /** Troel with all thirteen tricks: 20 for each attacker. */
  lemma TroelThirteen()
    ensures var r := CalculateScores(false, Troel, ["a", "b"], ["a", "b", "c", "d"], 13, false);
            && r.Some? && r.value.basePoints == 20
            && (forall id :: id in ["a", "b"] ==> id in r.value.result && r.value.result[id] == 20)
            && (forall id :: id in ["c", "d"] ==> id in r.value.result && r.value.result[id] == -20)
  {
    assert Find(Troel) == Some(ContractDef(Troel, "Troel", 8, 0, 13, TwoVsTwo));
    DistributionShape(Troel, ["a", "b"], ["a", "b", "c", "d"], 13, false);
  }

  /** The same Troel in a round doubled by a preceding pass: every delta doubles. */
  lemma TroelThirteenDoubled()
    ensures var r := CalculateScores(false, Troel, ["a", "b"], ["a", "b", "c", "d"], 13, true);
            && r.Some? && r.value.basePoints == 40
            && (forall id :: id in ["a", "b"] ==> id in r.value.result && r.value.result[id] == 40)
            && (forall id :: id in ["c", "d"] ==> id in r.value.result && r.value.result[id] == -40)
  {
    TroelThirteen();
    DoublingAppliedOnce(Troel, ["a", "b"], ["a", "b", "c", "d"], 13);
  }

  /** Abondance pays 8 with eleven tricks and costs 4 with eight. */
  lemma AbondanceWinAndLoss()
    ensures Find(Abondance).Some?
    ensures ContractPoints(Find(Abondance).value, 11) == 8
    ensures ContractPoints(Find(Abondance).value, 8) == -4
  {
  }

  /** A made Solo: the lone attacker +75, each defender -25. */
  lemma SoloMade()
    ensures var r := CalculateScores(false, Solo, ["b"], ["a", "b", "c", "d"], 13, false);
            && r.Some? && r.value.basePoints == 25
            && "b" in r.value.result && r.value.result["b"] == 75
            && (forall id :: id in ["a", "c", "d"] ==> id in r.value.result && r.value.result[id] == -25)
  {
    DistributionShape(Solo, ["b"], ["a", "b", "c", "d"], 13, false);
  }

  /** A team contract with a single attacker is rejected. */
  lemma TeamContractNeedsTwo()
    ensures CalculateScores(false, Normal, ["a"], ["a", "b", "c", "d"], 8, false).None?
  {
  }
}
