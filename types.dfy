/** The records the scorekeeper passes around: players, contract kinds,
    committed rounds and the whole game state. */
module Types {

  /** Opaque player token (built as "p-<seat>-<clock>" at game setup). */
  type PlayerId = string

  datatype Player = Player(id: PlayerId, name: string, score: int)

  /** The ten contract kinds; `Pass` is the "everyone passed" pseudo-contract
      that has no catalog entry. */
  datatype ContractType =
    | Pass
    | Alone
    | Normal
    | Troel
    | Piccolo
    | Abondance
    | Miserie
    | MiserieTable
    | Solo
    | SoloSlim

  /** One committed round. `players` is the seating order of player ids and
      `result` maps player ids to signed score deltas. */
  datatype Round = Round(
    id: string,
    roundNumber: int,
    contract: ContractType,
    players: seq<PlayerId>,
    activePlayerIds: seq<PlayerId>,
    defendingPlayerIds: seq<PlayerId>,
    tricksWon: int,
    points: int,
    result: map<PlayerId, int>,
    timestamp: int,
    isDoubled: bool)

  /** The single aggregate the application replaces on every command. */
  datatype GameState = GameState(
    players: seq<Player>,
    rounds: seq<Round>,
    dealerIndex: int,
    gameStarted: bool,
    gameFinished: bool,
    nextRoundDoubled: bool)

  datatype Option<+T> = None | Some(value: T)

  /** The ids of `players`, in seating order (`players.map(p => p.id)`). */
  function Ids(players: seq<Player>): (ids: seq<PlayerId>)
    ensures |ids| == |players|
    ensures forall i :: 0 <= i < |players| ==> ids[i] == players[i].id
  {
    if players == [] then [] else [players[0].id] + Ids(players[1..])
  }

  predicate Distinct<T(==)>(s: seq<T>) {
    forall i, j :: 0 <= i < j < |s| ==> s[i] != s[j]
  }

  /** A round's delta for `id`, reading a missing key as 0 (`result[id] || 0`). */
  function Delta(result: map<PlayerId, int>, id: PlayerId): int {
    if id in result then result[id] else 0
  }

  /** Sum of the deltas `result` gives to each id of `ids`. */
  function SumOver(ids: seq<PlayerId>, result: map<PlayerId, int>): int {
    if ids == [] then 0 else Delta(result, ids[0]) + SumOver(ids[1..], result)
  }

  function Abs(x: int): (r: nat)
    ensures r == x || r == -x
  {
    if x < 0 then -x else x
  }

  /** `s.filter(y => y !== x)`. */
  function Without(s: seq<PlayerId>, x: PlayerId): (r: seq<PlayerId>)
    ensures forall y :: y in r <==> y in s && y != x
    ensures |r| <= |s|
    ensures Distinct(s) ==> Distinct(r)
  {
    if s == [] then []
    else if s[0] == x then Without(s[1..], x)
    else
      var rest := Without(s[1..], x);
      assert Distinct(s) ==> s[0] !in s[1..];
      [s[0]] + rest
  }

  /** Removing an element that occurs once from a duplicate-free sequence
      shortens it by exactly one. */
  lemma {:induction false} WithoutLength(s: seq<PlayerId>, x: PlayerId)
    requires Distinct(s) && x in s
    ensures |Without(s, x)| == |s| - 1
  {
    if s[0] == x {
      WithoutAbsent(s[1..], x);
    } else {
      WithoutLength(s[1..], x);
    }
  }

  lemma {:induction false} WithoutAbsent(s: seq<PlayerId>, x: PlayerId)
    requires x !in s
    ensures Without(s, x) == s
  {
    if s != [] {
      WithoutAbsent(s[1..], x);
    }
  }
}
