/** The phase names and the price table of constants.js. */
module Constants {

  /** The eight values of `PHASES`. */
  datatype Phase =
    | SetupSelection
    | ResourceCollection
    | Action
    | BuildArmy
    | BuildSettlement
    | ExpandTerritory
    | MoveArmy
    | Combat

  /** Every phase, in declaration order. */
  const AllPhases: seq<Phase> :=
    [SetupSelection, ResourceCollection, Action, BuildArmy, BuildSettlement, ExpandTerritory, MoveArmy, Combat]

  /** The string each `PHASES` entry holds: its own key. */
  function PhaseName(p: Phase): string
  {
    match p
    case SetupSelection => "SETUP_SELECTION"
    case ResourceCollection => "RESOURCE_COLLECTION"
    case Action => "ACTION"
    case BuildArmy => "BUILD_ARMY"
    case BuildSettlement => "BUILD_SETTLEMENT"
    case ExpandTerritory => "EXPAND_TERRITORY"
    case MoveArmy => "MOVE_ARMY"
    case Combat => "COMBAT"
  }

  /** There are exactly eight phases and their string values are pairwise distinct. */
  lemma PhasesAreEightDistinctNames(p: Phase, q: Phase)
    ensures |AllPhases| == 8 && p in AllPhases
    ensures forall i, j :: 0 <= i < j < |AllPhases| ==> AllPhases[i] != AllPhases[j]
    ensures PhaseName(p) == PhaseName(q) <==> p == q
  {
  }

  /** The three resources a wallet holds. */
  datatype Resource = Wood | Stone | Food

  /** A price: the resources it names and how much of each. Resources it does not name cost nothing. */
  type Cost = map<Resource, nat>

  /** The `COSTS` table. */
  datatype Costs = Costs(settlement: Cost, army: Cost, territory: Cost)

  const COSTS: Costs := Costs(
    map[Wood := 5, Stone := 5],
    map[Food := 10],
    map[Wood := 3, Stone := 2])

  /** What a price asks for one resource; zero when the price does not name it. */
  function Amount(cost: Cost, r: Resource): nat
  {
    if r in cost then cost[r] else 0
  }
}
