/**
 * The HUD of ui.js: which buttons `updateButtonStates` disables, the undo flag that
 * `setUndoAvailable` keeps, and the last-roll label of `updateLastRoll`.
 */
module Interface {
  import opened Wrappers
  import opened Constants
  import opened Players
  import opened Text

  /** The `disabled` property of each action button. */
  datatype Disabled = Disabled(
    rollDice: bool,
    buildArmy: bool,
    buildSettlement: bool,
    expandTerritory: bool,
    moveArmy: bool,
    attack: bool,
    undo: bool,
    endTurn: bool)

  const AllEnabled: Disabled := Disabled(false, false, false, false, false, false, false, false)

  /** The phases in which the action buttons can be enabled at all. */
  predicate ButtonPhase(phase: Phase)
  {
    phase == Action || phase == ResourceCollection || phase == SetupSelection
  }

  /**
   * `updateButtonStates(phase, player, costs)`: outside ACTION, RESOURCE_COLLECTION and SETUP_SELECTION
   * every button but roll and undo is disabled; roll is enabled only in RESOURCE_COLLECTION; each build
   * button also needs its price to be affordable, move also needs the player not to have moved yet,
   * and undo follows the undo flag alone.
   */
  function ButtonStates(phase: Phase, player: PlayerState, costs: Costs, undoAvailable: bool): (d: Disabled)
    ensures !d.rollDice <==> phase == ResourceCollection
    ensures !d.attack <==> ButtonPhase(phase)
    ensures d.endTurn == d.attack
    ensures !d.buildArmy <==> ButtonPhase(phase) && CanAfford(player.resources, costs.army)
    ensures !d.buildSettlement <==> ButtonPhase(phase) && CanAfford(player.resources, costs.settlement)
    ensures !d.expandTerritory <==> ButtonPhase(phase) && CanAfford(player.resources, costs.territory)
    ensures !d.moveArmy <==> ButtonPhase(phase) && !player.hasMovedArmy
    ensures d.undo <==> !undoAvailable
  {
    var disableAll := phase != Action && phase != ResourceCollection && phase != SetupSelection;
    Disabled(
      phase != ResourceCollection,
      disableAll || !CanAfford(player.resources, costs.army),
      disableAll || !CanAfford(player.resources, costs.settlement),
      disableAll || !CanAfford(player.resources, costs.territory),
      disableAll || player.hasMovedArmy,
      disableAll,
      !undoAvailable,
      disableAll)
  }

  /** JavaScript truthiness of a die: set and not zero. */
  predicate Truthy(die: Option<int>)
  {
    die.Some? && die.value != 0
  }

  /** `updateLastRoll(die1, die2)`: "d1, d2" when both dice are truthy, "-" otherwise. */
  function LastRollText(die1: Option<int>, die2: Option<int>): (s: string)
    ensures s == "-" <==> !(Truthy(die1) && Truthy(die2))
    ensures Truthy(die1) && Truthy(die2) ==> ',' in s
  {
    if Truthy(die1) && Truthy(die2) then
      var s := IntToString(die1.value) + ", " + IntToString(die2.value);
      assert s[|IntToString(die1.value)|] == ',';
      s
    else "-"
  }

  /** The position of the first occurrence of `ch` in `s`, or `|s|` when there is none. */
  function IndexOf(s: string, ch: char): (n: nat)
    ensures n <= |s|
  {
    if |s| == 0 || s[0] == ch then 0 else 1 + IndexOf(s[1..], ch)
  }

  /** In `a + rest`, with no comma in `a` and a comma opening `rest`, the first comma is at `|a|`. */
  lemma {:induction false} FirstCommaAfter(a: string, rest: string)
    requires ',' !in a && |rest| > 0 && rest[0] == ','
    ensures IndexOf(a + rest, ',') == |a|
    decreases |a|
  {
    if |a| > 0 {
      assert (a + rest)[1..] == a[1..] + rest;
      FirstCommaAfter(a[1..], rest);
    }
  }

  /** Two texts joined by ", " can be split again when neither first part holds a comma. */
  lemma SplitAtComma(a: string, b: string, c: string, d: string)
    requires ',' !in a && ',' !in c
    requires a + ", " + b == c + ", " + d
    ensures a == c && b == d
  {
    var s := a + ", " + b;
    assert s == a + (", " + b);
    assert s == c + (", " + d);
    FirstCommaAfter(a, ", " + b);
    FirstCommaAfter(c, ", " + d);
    assert a == s[..|a|] && c == s[..|c|];
    assert b == s[|a| + 2..] && d == s[|c| + 2..];
  }

  /** The label shows the roll unambiguously: equal labels of two complete rolls mean equal dice. */
  lemma LastRollTextDeterminesDice(a1: int, a2: int, b1: int, b2: int)
    requires a1 != 0 && a2 != 0 && b1 != 0 && b2 != 0
    requires LastRollText(Some(a1), Some(a2)) == LastRollText(Some(b1), Some(b2))
    ensures a1 == b1 && a2 == b2
  {
    SplitAtComma(IntToString(a1), IntToString(a2), IntToString(b1), IntToString(b2));
    IntToStringInjective(a1, b1);
    IntToStringInjective(a2, b2);
  }

  /**
   * The `UI` object: the buttons' `disabled` properties, the last-roll label and the `undoAvailable`
   * field. The page's initial button states are not part of this model; the object starts with every
   * button enabled and, as in the source, with the undo flag unset.
   */
  class UI {
    var undoAvailable: bool
    var disabled: Disabled
    var lastRoll: string

    /** The undo button shows the undo flag. */
    predicate UndoShown()
      reads this
    {
      disabled.undo == !undoAvailable
    }

    constructor()
      ensures !undoAvailable && disabled == AllEnabled && lastRoll == "-"
    {
      undoAvailable := false;
      disabled := AllEnabled;
      lastRoll := "-";
    }

    /** `setUndoAvailable(available)`: sets the flag and the undo button together, nothing else. */
    method SetUndoAvailable(available: bool)
      modifies this
      ensures undoAvailable == available && UndoShown()
      ensures disabled == old(disabled).(undo := !available) && lastRoll == old(lastRoll)
    {
      undoAvailable := available;
      disabled := disabled.(undo := !available);
    }

    /** `updateButtonStates(phase, player, costs)`. */
    method UpdateButtonStates(phase: Phase, player: PlayerState, costs: Costs)
      modifies this
      ensures disabled == ButtonStates(phase, player, costs, undoAvailable) && UndoShown()
      ensures undoAvailable == old(undoAvailable) && lastRoll == old(lastRoll)
    {
      disabled := ButtonStates(phase, player, costs, undoAvailable);
    }

    /** `updateLastRoll(die1, die2)`. */
    method UpdateLastRoll(die1: Option<int>, die2: Option<int>)
      modifies this
      ensures lastRoll == LastRollText(die1, die2)
      ensures undoAvailable == old(undoAvailable) && disabled == old(disabled)
    {
      lastRoll := LastRollText(die1, die2);
    }
  }
}
