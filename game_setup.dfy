/** The setup screen: four editable seat names and the player records built
    from them when the game starts. */
module GameSetup {
  import opened Types
  import opened Text
  import opened App

  /** The names the four seats are pre-filled with. */
  const DefaultNames: seq<string> := ["Noord", "Oost", "Zuid", "West"]

  /** `p-${seat}-${time}`: the id given to the player in `seat`. */
  function PlayerIdFor(seat: nat, time: nat): PlayerId {
    "p-" + NatToString(seat) + "-" + NatToString(time)
  }

  /** The maximal run of decimal digits `s` starts with. */
  function LeadingDigits(s: string): (d: string)
    ensures |d| <= |s| && d == s[..|d|]
    ensures forall k :: 0 <= k < |d| ==> IsDigit(d[k])
  {
    if s != [] && IsDigit(s[0]) then [s[0]] + LeadingDigits(s[1..]) else []
  }

  /** Reads the seat number back out of a player id. */
  function SeatOf(id: PlayerId): nat {
    if |id| < 2 then 0 else DigitsValue(LeadingDigits(id[2..]))
  }

  lemma {:induction false} LeadingDigitsOf(d: string, rest: string)
    requires forall k :: 0 <= k < |d| ==> IsDigit(d[k])
    requires rest != [] && !IsDigit(rest[0])
    ensures LeadingDigits(d + rest) == d
  {
    if d != [] {
      assert (d + rest)[1..] == d[1..] + rest;
      LeadingDigitsOf(d[1..], rest);
    }
  }

  /** A player id records its seat: parsing it gives the seat back. */
  lemma {:induction false} SeatOfPlayerId(seat: nat, time: nat)
    ensures SeatOf(PlayerIdFor(seat, time)) == seat
  {
    var digits := NatToString(seat);
    var rest := "-" + NatToString(time);
    assert PlayerIdFor(seat, time)[2..] == digits + rest;
    LeadingDigitsOf(digits, rest);
  }

  /** Players in different seats get different ids, whatever the clock reads. */
  lemma PlayerIdsDiffer(i: nat, j: nat, ti: nat, tj: nat)
    requires i != j
    ensures PlayerIdFor(i, ti) != PlayerIdFor(j, tj)
  {
    SeatOfPlayerId(i, ti);
    SeatOfPlayerId(j, tj);
  }

  /** `name.trim() || `Speler ${seat + 1}``: the trimmed name, or a numbered
      placeholder when nothing but whitespace was entered. */
  function DisplayName(name: string, seat: nat): (shown: string)
    ensures shown != []
    ensures Trim(name) != [] ==> shown == Trim(name)
  {
    var trimmed := Trim(name);
    if trimmed != [] then trimmed else "Speler " + NatToString(seat + 1)
  }

  /** A name that is all whitespace (the empty name included) shows the
      placeholder; any other name shows its non-empty trimmed form. */
  lemma DisplayNameBlank(name: string, seat: nat)
    ensures (forall k :: 0 <= k < |name| ==> IsWhitespace(name[k])) ==>
              DisplayName(name, seat) == "Speler " + NatToString(seat + 1)
    ensures !(forall k :: 0 <= k < |name| ==> IsWhitespace(name[k])) ==>
              Trim(name) != [] && DisplayName(name, seat) == Trim(name)
  {
    TrimEmptyIffBlank(name);
  }

  /** `handleSubmit`'s player list: one player per seat, scoring 0, named by
      `DisplayName`, with an id built from the seat and the clock reading
      taken for that seat. The ids are pairwise distinct and each one parses
      back to its seat. */
  function CreatePlayers(names: seq<string>, clock: seq<nat>): (players: seq<Player>)
    requires |clock| == |names|
    ensures |players| == |names|
    ensures forall i :: 0 <= i < |names| ==>
              players[i].score == 0 && players[i].name == DisplayName(names[i], i)
              && players[i].id == PlayerIdFor(i, clock[i]) && SeatOf(players[i].id) == i
    ensures Distinct(Ids(players))
  {
    var players := seq(|names|, i requires 0 <= i < |names| =>
                         Player(PlayerIdFor(i, clock[i]), DisplayName(names[i], i), 0));
    forall i | 0 <= i < |names|
      ensures SeatOf(players[i].id) == i
    {
      SeatOfPlayerId(i, clock[i]);
    }
    players
  }

  /** The setup form's state: one name field per seat. */
  class Setup {
    var names: seq<string>

    ghost predicate Valid()
      reads this
    {
      |names| == |DefaultNames|
    }

    constructor ()
      ensures Valid() && names == DefaultNames
    {
      names := DefaultNames;
    }

    /** `handleNameChange`: only the edited seat's name changes. */
    method ChangeName(index: nat, value: string)
      requires Valid() && index < |names|
      modifies this
      ensures Valid()
      ensures names == old(names)[index := value]
    {
      names := names[index := value];
    }

    /** Submitting the form starts `game` with the created players: four
        distinct ids, zero scores, no rounds. */
    method Submit(game: Game, clock: seq<nat>)
      requires Valid() && |clock| == |names|
      modifies game
      ensures game.Valid() && game.Balanced()
      ensures game.State() == GameState(CreatePlayers(names, clock), [], 0, true, false, false)
      ensures |game.players| == 4 && Distinct(Ids(game.players))
      ensures forall k :: 0 <= k < |game.openingScores| ==> game.openingScores[k] == 0
    {
      var players := CreatePlayers(names, clock);
      game.StartGame(players);
    }
  }
}
