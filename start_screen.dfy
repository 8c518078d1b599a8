/**
 * The start screen of main.js: default colours, the `playersData` list the start button builds
 * from the form, and the check that names and colours are unique. The form's fields are given as
 * the values they hold; DOM building, alerts and the Phaser game construction are not modelled.
 */
module StartScreen {
  import opened Text
  import opened Players

  /** The palette `getDefaultColor` indexes. */
  const Palette: seq<string> := ["#ff4444", "#44ff44", "#4444ff", "#ffff44"]

  /** `getDefaultColor(index)`: the palette entry, or white when the index is past the palette. */
  function GetDefaultColor(index: int): (c: string)
    ensures 0 <= index < |Palette| ==> c == Palette[index]
    ensures !(0 <= index < |Palette|) ==> c == "#ffffff"
  {
    if 0 <= index < |Palette| then Palette[index] else "#ffffff"
  }

  /** Two players get the same default colour exactly when both are past the fourth. */
  lemma DefaultColorsClash(i: nat, j: nat)
    requires i != j
    ensures GetDefaultColor(i) == GetDefaultColor(j) <==> i >= 4 && j >= 4
  {
  }

  /** The name a player with an empty name field gets: `Player ${i + 1}`. */
  function DefaultName(i: nat): string
  {
    "Player " + NatToString(i + 1)
  }

  /** Default names are pairwise different. */
  lemma DefaultNamesDiffer(i: nat, j: nat)
    ensures DefaultName(i) == DefaultName(j) <==> i == j
  {
    if DefaultName(i) == DefaultName(j) {
      assert DefaultName(i)[7..] == NatToString(i + 1);
      assert DefaultName(j)[7..] == NatToString(j + 1);
      NatToStringInjective(i + 1, j + 1);
    }
  }

  /** `document.getElementById(`player${i}name`).value || `Player ${i + 1}``. */
  function NameOrDefault(value: string, i: nat): string
  {
    if value == "" then DefaultName(i) else value
  }

  /**
   * The `playersData` the start button builds: one `{ name, color }` per player, in order, for
   * `numPlayers` players (none when it is not positive).
   */
  function PlayersData(nameFields: seq<string>, colorFields: seq<string>, numPlayers: int): (data: seq<PlayerData>)
    requires numPlayers <= |nameFields| && numPlayers <= |colorFields|
  {
    seq(if numPlayers < 0 then 0 else numPlayers, i requires 0 <= i < numPlayers =>
      PlayerData(NameOrDefault(nameFields[i], i), colorFields[i]))
  }

  /** The start handler's `for` loop that pushes one entry per player. */
  method CollectPlayersData(nameFields: seq<string>, colorFields: seq<string>, numPlayers: int) returns (data: seq<PlayerData>)
    requires numPlayers <= |nameFields| && numPlayers <= |colorFields|
    ensures data == PlayersData(nameFields, colorFields, numPlayers)
  {
    data := [];
    var i := 0;
    while i < numPlayers
      invariant 0 <= i <= (if numPlayers < 0 then 0 else numPlayers) && |data| == i
      invariant forall j :: 0 <= j < i ==> data[j] == PlayerData(NameOrDefault(nameFields[j], j), colorFields[j])
    {
      var name := if nameFields[i] == "" then "Player " + NatToString(i + 1) else nameFields[i];
      var color := colorFields[i];
      data := data + [PlayerData(name, color)];
      i := i + 1;
    }
  }

  /** Every entry has a non-empty name, and the colours are the fields' own values. */
  lemma PlayersDataShape(nameFields: seq<string>, colorFields: seq<string>, numPlayers: int)
    requires numPlayers <= |nameFields| && numPlayers <= |colorFields|
    ensures var data := PlayersData(nameFields, colorFields, numPlayers);
      && |data| == (if numPlayers < 0 then 0 else numPlayers)
      && (forall i :: 0 <= i < |data| ==> data[i].name != "" && data[i].color == colorFields[i])
      && (forall i :: 0 <= i < |data| && nameFields[i] != "" ==> data[i].name == nameFields[i])
  {
  }

  /** `new Set(xs)`: the values of a list. */
  function Elements(xs: seq<string>): (r: set<string>)
    ensures forall x :: x in r <==> x in xs
    ensures |r| <= |xs|
  {
    if |xs| == 0 then {}
    else
      var init := xs[..|xs| - 1];
      assert xs == init + [xs[|xs| - 1]];
      Elements(init) + {xs[|xs| - 1]}
  }

  predicate Distinct(xs: seq<string>)
  {
    forall i, j :: 0 <= i < j < |xs| ==> xs[i] != xs[j]
  }

  /** Appending a value keeps a list free of repeats exactly when the value is new. */
  lemma DistinctSnoc(init: seq<string>, last: string)
    ensures Distinct(init + [last]) <==> Distinct(init) && last !in init
  {
    var xs := init + [last];
    if last in init {
      var k :| 0 <= k < |init| && init[k] == last;
      assert xs[k] == xs[|init|];
    }
    if Distinct(xs) {
      forall i, j | 0 <= i < j < |init| ensures init[i] != init[j] {
        assert xs[i] == init[i] && xs[j] == init[j];
      }
    }
    if Distinct(init) && last !in init {
      forall i, j | 0 <= i < j < |xs| ensures xs[i] != xs[j] {
        assert xs[i] == init[i];
        if j < |init| {
          assert xs[j] == init[j];
        }
      }
    }
  }

  /** A list's set is as large as the list exactly when no value repeats. */
  lemma {:induction false} SetSizeIsLengthIffDistinct(xs: seq<string>)
    ensures |Elements(xs)| == |xs| <==> Distinct(xs)
    decreases |xs|
  {
    if |xs| > 0 {
      var init := xs[..|xs| - 1];
      var last := xs[|xs| - 1];
      assert xs == init + [last];
      SetSizeIsLengthIffDistinct(init);
      DistinctSnoc(init, last);
      assert Elements(xs) == Elements(init) + {last};
      if last in init {
        assert Elements(xs) == Elements(init);
      }
    }
  }

  function Names(data: seq<PlayerData>): seq<string>
  {
    seq(|data|, i requires 0 <= i < |data| => data[i].name)
  }

  function Colors(data: seq<PlayerData>): seq<string>
  {
    seq(|data|, i requires 0 <= i < |data| => data[i].color)
  }

  /** The validation: some name or some colour set is smaller than the list. */
  predicate Rejected(data: seq<PlayerData>)
  {
    |Elements(Names(data))| != |data| || |Elements(Colors(data))| != |data|
  }

  /** The start is refused exactly when two players share a name or two share a colour. */
  lemma RejectedIffRepeat(data: seq<PlayerData>)
    ensures Rejected(data) <==> !Distinct(Names(data)) || !Distinct(Colors(data))
  {
    SetSizeIsLengthIffDistinct(Names(data));
    SetSizeIsLengthIffDistinct(Colors(data));
  }

  /** What the start button leads to: a refusal, or a game whose registry holds the grid size and the players. */
  datatype Start = Refused | Launched(gridSize: int, playersData: seq<PlayerData>)

  /**
   * The start button handler: builds `playersData`, refuses (before anything is created or stored)
   * when names or colours repeat, and otherwise launches with the grid size and the players.
   */
  method HandleStart(gridSize: int, numPlayers: int, nameFields: seq<string>, colorFields: seq<string>) returns (outcome: Start)
    requires numPlayers <= |nameFields| && numPlayers <= |colorFields|
    ensures var data := PlayersData(nameFields, colorFields, numPlayers);
      && (outcome.Refused? <==> !Distinct(Names(data)) || !Distinct(Colors(data)))
      && (outcome.Launched? ==> outcome == Launched(gridSize, data))
  {
    var playersData := CollectPlayersData(nameFields, colorFields, numPlayers);
    RejectedIffRepeat(playersData);
    if |Elements(Names(playersData))| != |playersData| || |Elements(Colors(playersData))| != |playersData| {
      return Refused;  // "Player names and colors must be unique!"
    }
    return Launched(gridSize, playersData);
  }

  /** A form left as it opens (empty names, default colours) starts a game of up to five players. */
  lemma UntouchedFormAcceptedUpToFive(n: nat)
    requires n <= 5
    ensures var data := PlayersData(seq(n, _ => ""), seq(n, i => GetDefaultColor(i)), n);
      !Rejected(data)
  {
    var data := PlayersData(seq(n, _ => ""), seq(n, i => GetDefaultColor(i)), n);
    forall i, j | 0 <= i < j < n ensures Names(data)[i] != Names(data)[j] {
      DefaultNamesDiffer(i, j);
    }
    forall i, j | 0 <= i < j < n ensures Colors(data)[i] != Colors(data)[j] {
      DefaultColorsClash(i, j);
    }
    RejectedIffRepeat(data);
  }

  /** With six or more players the untouched colours of players five and six are both white: refused. */
  lemma UntouchedColorsRefusedFromSix(n: nat, names: seq<string>)
    requires n >= 6 && |names| == n
    ensures Rejected(PlayersData(names, seq(n, i => GetDefaultColor(i)), n))
  {
    var data := PlayersData(names, seq(n, i => GetDefaultColor(i)), n);
    assert Colors(data)[4] == "#ffffff" == Colors(data)[5];
    RejectedIffRepeat(data);
  }
}
