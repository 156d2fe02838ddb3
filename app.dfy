/** The application shell: the single game-state aggregate and the commands
    that replace it (start, commit a round, finish, reopen, reset), and the
    cumulative-score series drawn by the statistics chart. */
module App {
  import opened Types
  import opened RoundInput
  import opened Scoring

  /** The state the application starts from and returns to on reset. */
  const InitialState := GameState([], [], 0, false, false, false)

  /** A player's cumulative delta over `rounds`, a missing key counting 0. */
  function Total(rounds: seq<Round>, id: PlayerId): int {
    if rounds == [] then 0
    else Total(rounds[..|rounds| - 1], id) + Delta(rounds[|rounds| - 1].result, id)
  }

  /** Appending a round adds its delta to every running total. */
  lemma TotalSnoc(rounds: seq<Round>, r: Round, id: PlayerId)
    ensures Total(rounds + [r], id) == Total(rounds, id) + Delta(r.result, id)
  {
    assert (rounds + [r])[..|rounds|] == rounds;
  }

  function SumInts(xs: seq<int>): int {
    if xs == [] then 0 else xs[0] + SumInts(xs[1..])
  }

  /** The sum of the players' scores. */
  function SumScores(players: seq<Player>): int {
    if players == [] then 0 else players[0].score + SumScores(players[1..])
  }

  /** The sum, over `ids`, of each id's cumulative delta. */
  function TotalsOver(ids: seq<PlayerId>, rounds: seq<Round>): int {
    if ids == [] then 0 else Total(rounds, ids[0]) + TotalsOver(ids[1..], rounds)
  }

  /** The players' scores, in seating order. */
  function Scores(players: seq<Player>): (s: seq<int>)
    ensures |s| == |players|
    ensures forall k :: 0 <= k < |players| ==> s[k] == players[k].score
  {
    if players == [] then [] else [players[0].score] + Scores(players[1..])
  }

  /** `players.map(p => ({...p, score: p.score + (result[p.id] || 0)}))`:
      every player keeps id and name and gains the round's delta. */
  function ScoreRound(players: seq<Player>, result: map<PlayerId, int>): (r: seq<Player>)
    ensures |r| == |players| && Ids(r) == Ids(players)
    ensures forall k :: 0 <= k < |players| ==>
              r[k].id == players[k].id && r[k].name == players[k].name
              && r[k].score == players[k].score + Delta(result, players[k].id)
  {
    if players == [] then []
    else
      var p := players[0];
      [p.(score := p.score + Delta(result, p.id))] + ScoreRound(players[1..], result)
  }

  /** Scoring a round raises the score sum by the round's delta sum, so a
      zero-sum round leaves the score sum unchanged. */
  lemma {:induction false} ScoreRoundSum(players: seq<Player>, result: map<PlayerId, int>)
    ensures SumScores(ScoreRound(players, result)) == SumScores(players) + SumOver(Ids(players), result)
  {
    if players != [] {
      ScoreRoundSum(players[1..], result);
      assert ScoreRound(players, result)[1..] == ScoreRound(players[1..], result);
    }
  }

  lemma {:induction false} TotalsOverSnoc(ids: seq<PlayerId>, rounds: seq<Round>, r: Round)
    ensures TotalsOver(ids, rounds + [r]) == TotalsOver(ids, rounds) + SumOver(ids, r.result)
  {
    if ids != [] {
      TotalSnoc(rounds, r, ids[0]);
      TotalsOverSnoc(ids[1..], rounds, r);
    }
  }

  /** When every round is zero-sum over `ids`, so is the whole history. */
  lemma {:induction false} TotalsOverBalanced(ids: seq<PlayerId>, rounds: seq<Round>)
    requires forall i :: 0 <= i < |rounds| ==> SumOver(ids, rounds[i].result) == 0
    ensures TotalsOver(ids, rounds) == 0
  {
    if rounds == [] {
      TotalsOverEmpty(ids);
    } else {
      var init := rounds[..|rounds| - 1];
      TotalsOverBalanced(ids, init);
      TotalsOverSnoc(ids, init, rounds[|rounds| - 1]);
      assert init + [rounds[|rounds| - 1]] == rounds;
    }
  }

  lemma {:induction false} TotalsOverEmpty(ids: seq<PlayerId>)
    ensures TotalsOver(ids, []) == 0
  {
    if ids != [] {
      TotalsOverEmpty(ids[1..]);
    }
  }

  /** Every round's deltas sum to zero over `ids`. */
  ghost predicate BalancedOver(ids: seq<PlayerId>, rounds: seq<Round>) {
    forall i :: 0 <= i < |rounds| ==> SumOver(ids, rounds[i].result) == 0
  }

  /** Each score is its opening score plus its cumulative delta over `rounds`. */
  ghost predicate ScoresTrack(players: seq<Player>, openings: seq<int>, rounds: seq<Round>) {
    && |openings| == |players|
    && forall k :: 0 <= k < |players| ==> players[k].score == openings[k] + Total(rounds, players[k].id)
  }

  lemma BalancedSnoc(ids: seq<PlayerId>, rounds: seq<Round>, r: Round)
    requires BalancedOver(ids, rounds) && SumOver(ids, r.result) == 0
    ensures BalancedOver(ids, rounds + [r])
  {
    assert forall i :: 0 <= i < |rounds| ==> (rounds + [r])[i] == rounds[i];
  }

  /** Scoring a round keeps every score equal to its opening score plus its
      cumulative delta, now including that round. */
  lemma ScoreRoundTracks(players: seq<Player>, openings: seq<int>, rounds: seq<Round>, r: Round)
    requires ScoresTrack(players, openings, rounds)
    ensures ScoresTrack(ScoreRound(players, r.result), openings, rounds + [r])
  {
    var scored := ScoreRound(players, r.result);
    forall k | 0 <= k < |players|
      ensures scored[k].score == openings[k] + Total(rounds + [r], scored[k].id)
    {
      TotalSnoc(rounds, r, players[k].id);
    }
  }

  /** Scores that are opening scores plus cumulative deltas sum to the
      opening sum plus the deltas of all rounds. */
  lemma {:induction false} ScoresSplit(players: seq<Player>, openings: seq<int>, rounds: seq<Round>)
    requires ScoresTrack(players, openings, rounds)
    ensures SumScores(players) == SumInts(openings) + TotalsOver(Ids(players), rounds)
  {
    if players != [] {
      assert ScoresTrack(players[1..], openings[1..], rounds);
      ScoresSplit(players[1..], openings[1..], rounds);
    }
  }

  /** The invariant of a game state: the dealer has moved one seat per
      committed round, rounds are numbered 1, 2, … in order, the next round
      is doubled exactly after a Pass round, and every score is its opening
      score plus its deltas. */
  ghost predicate Consistent(players: seq<Player>, rounds: seq<Round>, dealerIndex: int,
                             nextRoundDoubled: bool, openings: seq<int>)
  {
    && dealerIndex == |rounds| % 4
    && (forall i :: 0 <= i < |rounds| ==> rounds[i].roundNumber == i + 1)
    && nextRoundDoubled == (|rounds| > 0 && rounds[|rounds| - 1].contract == Pass)
    && ScoresTrack(players, openings, rounds)
  }

  /** Committing a round numbered after the history, with the deal passed on
      and the doubling flag set from its contract, keeps the invariant. */
  lemma CommitKeepsConsistent(players: seq<Player>, rounds: seq<Round>, dealerIndex: int,
                              nextRoundDoubled: bool, openings: seq<int>, round: Round)
    requires Consistent(players, rounds, dealerIndex, nextRoundDoubled, openings)
    ensures var numbered := round.(roundNumber := |rounds| + 1);
            Consistent(ScoreRound(players, round.result), rounds + [numbered],
                       (dealerIndex + 1) % 4, round.contract == Pass, openings)
  {
    var numbered := round.(roundNumber := |rounds| + 1);
    ScoreRoundTracks(players, openings, rounds, numbered);
    assert forall i :: 0 <= i < |rounds| ==> (rounds + [numbered])[i] == rounds[i];
  }

  /** The application's game state. `openingScores` records the scores the
      players were seated with, so that each score is its opening score plus
      the deltas of the committed rounds. */
  class Game {
    var players: seq<Player>
    var rounds: seq<Round>
    var dealerIndex: int
    var gameStarted: bool
    var gameFinished: bool
    var nextRoundDoubled: bool
    ghost var openingScores: seq<int>

    ghost predicate Valid()
      reads this
    {
      Consistent(players, rounds, dealerIndex, nextRoundDoubled, openingScores)
    }

    /** Every committed round's deltas sum to zero over the seated players. */
    ghost predicate Balanced()
      reads this
    {
      BalancedOver(Ids(players), rounds)
    }

    function State(): GameState
      reads this
    {
      GameState(players, rounds, dealerIndex, gameStarted, gameFinished, nextRoundDoubled)
    }

    constructor ()
      ensures Valid() && Balanced()
      ensures State() == InitialState
    {
      players := [];
      rounds := [];
      dealerIndex := 0;
      gameStarted := false;
      gameFinished := false;
      nextRoundDoubled := false;
      openingScores := [];
    }

    /** `handleStartGame`: seats the given players with no rounds, the first
        seat dealing, nothing doubled. The player count is not checked. */
    method StartGame(ps: seq<Player>)
      modifies this
      ensures Valid() && Balanced()
      ensures State() == GameState(ps, [], 0, true, false, false)
      ensures openingScores == Scores(ps)
    {
      players := ps;
      rounds := [];
      dealerIndex := 0;
      gameStarted := true;
      gameFinished := false;
      nextRoundDoubled := false;
      openingScores := Scores(ps);
    }

    /** `handleRoundComplete`: numbers the round after the rounds so far,
        appends it, adds its deltas to the scores, passes the deal on and
        doubles the next round exactly when this one was a Pass. It accepts
        any round, also once the game is finished. */
    method CompleteRound(round: Round)
      requires Valid()
      modifies this
      ensures Valid()
      ensures rounds == old(rounds) + [round.(roundNumber := |old(rounds)| + 1)]
      ensures players == ScoreRound(old(players), round.result)
      ensures dealerIndex == (old(dealerIndex) + 1) % 4
      ensures nextRoundDoubled <==> round.contract == Pass
      ensures gameStarted == old(gameStarted) && gameFinished == old(gameFinished)
      ensures openingScores == old(openingScores)
      ensures old(Balanced()) && SumOver(Ids(old(players)), round.result) == 0 ==> Balanced()
    {
      var numbered := round.(roundNumber := |rounds| + 1);
      var isPass := round.contract == Pass;
      var updatedPlayers := ScoreRound(players, round.result);
      CommitKeepsConsistent(players, rounds, dealerIndex, nextRoundDoubled, openingScores, round);
      if Balanced() && SumOver(Ids(players), round.result) == 0 {
        BalancedSnoc(Ids(players), rounds, numbered);
      }
      players := updatedPlayers;
      rounds := rounds + [numbered];
      dealerIndex := (dealerIndex + 1) % 4;
      nextRoundDoubled := isPass;
    }

    /** `handleFinishGame`: only the finished flag changes. */
    method FinishGame()
      requires Valid()
      modifies this`gameFinished
      ensures Valid() && gameFinished
    {
      gameFinished := true;
    }

    /** Closing the game-over screen: back to the running game, nothing else changes. */
    method Reopen()
      requires Valid()
      modifies this`gameFinished
      ensures Valid() && !gameFinished
    {
      gameFinished := false;
    }

    /** `handleReset`: when the user confirms, everything returns to the
        initial state; otherwise nothing changes. */
    method Reset(confirmed: bool)
      requires Valid()
      modifies this
      ensures Valid()
      ensures confirmed ==> State() == InitialState && Balanced()
      ensures !confirmed ==> State() == old(State()) && openingScores == old(openingScores)
    {
      if confirmed {
        players := [];
        rounds := [];
        dealerIndex := 0;
        gameStarted := false;
        gameFinished := false;
        nextRoundDoubled := false;
        openingScores := [];
      }
    }

    /** The game-over screen's reset: back to the initial state, unconfirmed. */
    method ResetFromGameOver()
      requires Valid()
      modifies this
      ensures Valid() && Balanced()
      ensures State() == InitialState
    {
      Reset(true);
    }

    /** The chart's series: after the i-th round, each seat's running total;
        the last point is each score less its opening score. */
    method Chart() returns (rows: seq<seq<int>>)
      requires Valid()
      ensures |rows| == |rounds|
      ensures forall i :: 0 <= i < |rows| ==> |rows[i]| == |players|
      ensures forall i, k :: 0 <= i < |rows| && 0 <= k < |players| ==>
                rows[i][k] == Total(rounds[..i + 1], players[k].id)
      ensures |rounds| > 0 ==>
                forall k :: 0 <= k < |players| ==>
                  rows[|rounds| - 1][k] == players[k].score - openingScores[k]
    {
      rows := ChartRows(rounds, players);
      assert rounds[..|rounds|] == rounds;
    }

    /** Scores move only by zero-sum rounds, so their sum stays the opening sum. */
    lemma ScoresConserved()
      requires Valid() && Balanced()
      ensures SumScores(players) == SumInts(openingScores)
    {
      ScoresSplit(players, openingScores, rounds);
      TotalsOverBalanced(Ids(players), rounds);
    }
  }

  /** The chart data loop: for round i and each player, the deltas of rounds
      0..i summed afresh. */
  method ChartRows(rounds: seq<Round>, players: seq<Player>) returns (rows: seq<seq<int>>)
    ensures |rows| == |rounds|
    ensures forall i :: 0 <= i < |rows| ==> |rows[i]| == |players|
    ensures forall i, k :: 0 <= i < |rows| && 0 <= k < |players| ==>
              rows[i][k] == Total(rounds[..i + 1], players[k].id)
  {
    rows := [];
    var i := 0;
    while i < |rounds|
      invariant 0 <= i <= |rounds|
      invariant |rows| == i
      invariant forall r :: 0 <= r < i ==> |rows[r]| == |players|
      invariant forall r, k :: 0 <= r < i && 0 <= k < |players| ==>
                  rows[r][k] == Total(rounds[..r + 1], players[k].id)
    {
      var point: seq<int> := [];
      var k := 0;
      while k < |players|
        invariant 0 <= k <= |players|
        invariant |point| == k
        invariant forall q :: 0 <= q < k ==> point[q] == Total(rounds[..i + 1], players[q].id)
      {
        var id := players[k].id;
        var score := 0;
        var j := 0;
        while j <= i
          invariant 0 <= j <= i + 1
          invariant score == Total(rounds[..j], id)
        {
          assert rounds[..j + 1][..j] == rounds[..j];
          score := score + Delta(rounds[j].result, id);
          j := j + 1;
        }
        point := point + [score];
        k := k + 1;
      }
      rows := rows + [point];
      i := i + 1;
    }
  }

  /** One chart point as the chart receives it: the x value under the key
      "name", then each player's value under the player's name, in seating
      order, so a later player overwrites an earlier one of the same name. */
  function ChartPoint(x: int, players: seq<Player>, row: seq<int>): (point: map<string, int>)
    requires |row| == |players|
    ensures "name" in point
  {
    if players == [] then map["name" := x]
    else
      var n := |players| - 1;
      ChartPoint(x, players[..n], row[..n])[players[n].name := row[n]]
  }

  /** Every player's name is a key of the point. */
  lemma {:induction false} ChartPointHasName(x: int, players: seq<Player>, row: seq<int>, k: nat)
    requires |row| == |players| && k < |players|
    ensures players[k].name in ChartPoint(x, players, row)
  {
    var n := |players| - 1;
    if k < n {
      ChartPointHasName(x, players[..n], row[..n], k);
    }
  }

  /** A player whose name no later player repeats is charted with their own
      running total. */
  lemma {:induction false} ChartPointValue(x: int, players: seq<Player>, row: seq<int>, k: nat)
    requires |row| == |players| && k < |players|
    requires forall q :: k < q < |players| ==> players[q].name != players[k].name
    ensures players[k].name in ChartPoint(x, players, row)
    ensures ChartPoint(x, players, row)[players[k].name] == row[k]
  {
    var n := |players| - 1;
    if k < n {
      ChartPointValue(x, players[..n], row[..n], k);
    }
  }

  /** The x value survives unless a player is called "name". */
  lemma {:induction false} ChartPointX(x: int, players: seq<Player>, row: seq<int>)
    requires |row| == |players|
    requires forall k :: 0 <= k < |players| ==> players[k].name != "name"
    ensures ChartPoint(x, players, row)["name"] == x
  {
    var n := |players| - 1;
    if players != [] {
      ChartPointX(x, players[..n], row[..n]);
    }
  }

  /** Two players entered under the same name share one chart key: looking up
      the first one's series gives the second one's running total. */
  lemma ChartPointMergesSameNames()
    ensures var ps := [Player("p-0-1", "Jan", 5), Player("p-1-1", "Jan", -5),
                       Player("p-2-1", "Zuid", 0), Player("p-3-1", "West", 0)];
            var row := [5, -5, 0, 0];
            ps[0].name in ChartPoint(1, ps, row) && ChartPoint(1, ps, row)[ps[0].name] == row[1] != row[0]
  {
    var ps := [Player("p-0-1", "Jan", 5), Player("p-1-1", "Jan", -5),
               Player("p-2-1", "Zuid", 0), Player("p-3-1", "West", 0)];
    assert "Jan" != "Zuid" && "Jan" != "West";
    ChartPointValue(1, ps, [5, -5, 0, 0], 1);
  }

  /** One commit from the round-entry form: the form is scored, and the round
      is committed only when the form is complete; an incomplete form leaves
      the game as it was. The form is opened with the game's players and its
      doubling flag. */
  method PlayRound(game: Game, form: RoundInputForm, idTime: nat, stampTime: nat)
    returns (committed: bool)
    requires game.Valid() && form.Valid()
    requires form.players == game.players && form.isDoubled == game.nextRoundDoubled
    modifies game
    ensures game.Valid()
    ensures committed <==> form.IsValid()
    ensures !committed ==> game.State() == old(game.State())
    ensures committed ==>
              && |game.rounds| == |old(game.rounds)| + 1
              && game.rounds[|game.rounds| - 1].isDoubled == (old(game.nextRoundDoubled) && !form.isPassRound)
              && game.nextRoundDoubled == form.isPassRound
              && game.players
                 == ScoreRound(old(game.players),
                               CalculateScores(form.isPassRound, form.selectedContract, form.activePlayerIds,
                                               Ids(form.players), form.tricksWon, form.isDoubled).value.result)
    ensures old(game.Balanced()) ==> game.Balanced()
  {
    var round := form.Submit(idTime, stampTime);
    if round.None? {
      return false;
    }
    game.CompleteRound(round.value);
    committed := true;
  }
}
