/** The round-entry form: the contract picked, the attacking players, the
    trick counter and the pass switch, and the submit step that turns them
    into a `Round` record. */
module RoundInput {
  import opened Types
  import opened Constants
  import opened Scoring
  import opened Text

  function Max(a: int, b: int): int { if a < b then b else a }
  function Min(a: int, b: int): int { if a < b then a else b }

  class RoundInputForm {
    /** The seated players and whether this round counts double, as given by the game. */
    const players: seq<Player>
    const isDoubled: bool

    var selectedContract: ContractType
    var activePlayerIds: seq<PlayerId>
    var tricksWon: int
    var isPassRound: bool

    /** The form's invariant: a catalog contract is selected, the counter is
        within a deal's 13 tricks, and the attackers are distinct seated
        players, no more than the contract's side holds. */
    ghost predicate Valid()
      reads this
    {
      && |players| == 4
      && Distinct(Ids(players))
      && selectedContract != Pass
      && 0 <= tricksWon <= 13
      && WellChosen(activePlayerIds, Ids(players))
      && |activePlayerIds| <= Seats(Find(selectedContract).value.category)
    }

    /** `contractDef?.category === 'team'` for the selected contract. */
    predicate IsTeamGame()
      reads this
    {
      Find(selectedContract).Some? && Find(selectedContract).value.category == TwoVsTwo
    }

    /** The form opens on Normal with no attackers, the counter on Normal's
        target and the pass switch off (the contract-change effect also runs
        once on opening and sets the same values). */
    constructor (players: seq<Player>, isDoubled: bool)
      requires |players| == 4 && Distinct(Ids(players))
      ensures Valid()
      ensures this.players == players && this.isDoubled == isDoubled
      ensures selectedContract == Normal && activePlayerIds == []
      ensures tricksWon == 8 && !isPassRound
    {
      this.players := players;
      this.isDoubled := isDoubled;
      selectedContract := Normal;
      activePlayerIds := [];
      tricksWon := Find(Normal).value.target;
      isPassRound := false;
    }

    /** Clicking a seated player: ignored in a pass round; otherwise a picked
        player is dropped, and an unpicked one is added while the side has
        room; in a one-against-three contract a new pick replaces the old one. */
    method TogglePlayer(id: PlayerId)
      requires Valid() && id in Ids(players)
      modifies this`activePlayerIds
      ensures Valid()
      ensures old(isPassRound) ==> activePlayerIds == old(activePlayerIds)
      ensures !old(isPassRound) && id in old(activePlayerIds) ==>
                activePlayerIds == Without(old(activePlayerIds), id)
      ensures !old(isPassRound) && id !in old(activePlayerIds) ==>
                activePlayerIds == if |old(activePlayerIds)| < Seats(Find(selectedContract).value.category)
                                   then old(activePlayerIds) + [id]
                                   else if IsTeamGame() then old(activePlayerIds)
                                   else [id]
      ensures !isPassRound ==>
                (id in activePlayerIds <==>
                   id !in old(activePlayerIds)
                   && (!IsTeamGame() || |old(activePlayerIds)| < 2))
    {
      if isPassRound {
        return;
      }
      var isTeamGame := IsTeamGame();
      if id in activePlayerIds {
        activePlayerIds := Without(activePlayerIds, id);
      } else {
        if isTeamGame {
          if |activePlayerIds| < 2 {
            activePlayerIds := activePlayerIds + [id];
          }
        } else {
          if |activePlayerIds| < 1 {
            activePlayerIds := activePlayerIds + [id];
          } else {
            activePlayerIds := [id];
          }
        }
      }
    }

    /** The "-" button of the trick counter: never below 0. */
    method DecrementTricks()
      requires Valid()
      modifies this`tricksWon
      ensures Valid()
      ensures tricksWon == Max(0, old(tricksWon) - 1)
    {
      tricksWon := Max(0, tricksWon - 1);
    }

    /** The "+" button of the trick counter: never above 13. */
    method IncrementTricks()
      requires Valid()
      modifies this`tricksWon
      ensures Valid()
      ensures tricksWon == Min(13, old(tricksWon) + 1)
    {
      tricksWon := Min(13, tricksWon + 1);
    }

    /** Clicking a contract button selects it and switches passing off. When
        that changes the contract or the pass switch, the contract-change
        effect resets the counter to the new target and clears the attackers;
        clicking the contract already selected outside a pass round changes
        nothing. */
    method SelectContract(c: ContractType)
      requires Valid() && c != Pass
      modifies this
      ensures Valid()
      ensures selectedContract == c && !isPassRound
      ensures (old(selectedContract) != c || old(isPassRound)) ==>
                tricksWon == Find(c).value.target && activePlayerIds == []
      ensures (old(selectedContract) == c && !old(isPassRound)) ==>
                tricksWon == old(tricksWon) && activePlayerIds == old(activePlayerIds)
    {
      var changed := selectedContract != c || isPassRound;
      selectedContract := c;
      isPassRound := false;
      if changed {
        ContractChanged();
      }
    }

    /** The "everyone passed" switch. Switching it off runs the
        contract-change effect for the contract still selected. */
    method TogglePass()
      requires Valid()
      modifies this
      ensures Valid()
      ensures isPassRound == !old(isPassRound) && selectedContract == old(selectedContract)
      ensures isPassRound ==> tricksWon == old(tricksWon) && activePlayerIds == old(activePlayerIds)
      ensures !isPassRound ==> tricksWon == Find(selectedContract).value.target && activePlayerIds == []
    {
      isPassRound := !isPassRound;
      ContractChanged();
    }

    /** The contract-change effect: outside a pass round, the counter jumps to
        the selected contract's target and the attackers are cleared. */
    method ContractChanged()
      requires selectedContract != Pass
      requires |players| == 4 && Distinct(Ids(players))
      requires isPassRound ==> Valid()
      modifies this`tricksWon, this`activePlayerIds
      ensures Valid()
      ensures isPassRound ==> tricksWon == old(tricksWon) && activePlayerIds == old(activePlayerIds)
      ensures !isPassRound ==> tricksWon == Find(selectedContract).value.target && activePlayerIds == []
    {
      if isPassRound {
        return;
      }
      var contractDef := Find(selectedContract);
      if contractDef.Some? {
        CatalogBounds();
        tricksWon := contractDef.value.target;
        activePlayerIds := [];
      }
    }

    /** The scorer's verdict on the form as it stands. */
    function Scored(): Option<Calculation>
      reads this
    {
      CalculateScores(isPassRound, selectedContract, activePlayerIds, Ids(players), tricksWon, isDoubled)
    }

    /** `isValid`, which enables the submit button: a pass round always, a
        team contract with exactly two attackers, any other with exactly one.
        It holds exactly when the scorer accepts the form. */
    function IsValid(): (ok: bool)
      requires Valid()
      reads this
      ensures ok <==> CalculateScores(isPassRound, selectedContract, activePlayerIds,
                                      Ids(players), tricksWon, isDoubled).Some?
    {
      if isPassRound then true
      else if IsTeamGame() then |activePlayerIds| == 2
      else |activePlayerIds| == 1
    }

    /** `handleSubmit`: scores the form and, when the scorer accepts it, builds
        the round to commit (its number is assigned at commit time). A pass
        round is stored as Pass with no attackers, no tricks, no points and no
        doubling; any other round stores the absolute base points, which are
        never zero, and deltas that sum to zero over the four seats. The clock
        is read twice, once for the id and once for the timestamp. */
    method Submit(idTime: nat, stampTime: nat) returns (round: Option<Round>)
      requires Valid()
      ensures round.Some? <==> IsValid()
      ensures round.Some? ==>
                && round.value.id == "r-" + NatToString(idTime)
                && round.value.roundNumber == 0
                && round.value.players == Ids(players)
                && round.value.timestamp == stampTime
                && round.value.points >= 0
                && SumOver(Ids(players), round.value.result) == 0
      ensures round.Some? ==> Scored().Some? && round.value.result == Scored().value.result
      ensures round.Some? && isPassRound ==>
                && round.value.contract == Pass
                && round.value.activePlayerIds == [] && round.value.defendingPlayerIds == []
                && round.value.tricksWon == 0 && round.value.points == 0
                && round.value.result == map[] && !round.value.isDoubled
      ensures round.Some? && !isPassRound ==>
                && round.value.contract == selectedContract
                && round.value.activePlayerIds == activePlayerIds
                && round.value.defendingPlayerIds == Defenders(Ids(players), activePlayerIds)
                && round.value.tricksWon == tricksWon
                && round.value.isDoubled == isDoubled
                && round.value.points > 0
                && round.value.points
                   == Abs(Doubled(ContractPoints(Find(selectedContract).value, tricksWon), isDoubled))
    {
      var ids := Ids(players);
      var scored := CalculateScores(isPassRound, selectedContract, activePlayerIds, ids, tricksWon, isDoubled);
      if scored.None? {
        return None;
      }
      var c := scored.value;
      ZeroSum(isPassRound, selectedContract, activePlayerIds, ids, tricksWon, isDoubled);
      ContractPointsAreSignedStake(selectedContract, tricksWon);
      round := Some(Round(
        "r-" + NatToString(idTime),
        0,
        if isPassRound then Pass else selectedContract,
        ids,
        if isPassRound then [] else activePlayerIds,
        c.defendingPlayerIds,
        if isPassRound then 0 else tricksWon,
        Abs(c.basePoints),
        c.result,
        stampTime,
        isDoubled && !isPassRound));
    }
  }
}
