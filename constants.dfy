/** The fixed catalog of playable contracts. */
module Constants {
  import opened Types

  /** How the table splits: two against two, or one against three. */
  datatype Category = TwoVsTwo | OneVsThree

  /** One catalog entry: the trick count that makes the contract (`target`)
      and the trick range shown for it (`min`..`max`, never enforced). */
  datatype ContractDef = ContractDef(
    kind: ContractType,
    caption: string,
    target: int,
    min: int,
    max: int,
    category: Category)

  const ContractOptions: seq<ContractDef> := [
    ContractDef(Normal, "Vraag & Mee", 8, 0, 13, TwoVsTwo),
    ContractDef(Troel, "Troel", 8, 0, 13, TwoVsTwo),
    ContractDef(Alone, "Alleen Gaan", 5, 0, 13, OneVsThree),
    ContractDef(Piccolo, "Piccolo", 1, 0, 13, OneVsThree),
    ContractDef(Abondance, "Abondance", 9, 9, 12, OneVsThree),
    ContractDef(Miserie, "Miserie", 0, 0, 13, OneVsThree),
    ContractDef(MiserieTable, "Miserie op Tafel", 0, 0, 13, OneVsThree),
    ContractDef(Solo, "Solo (13)", 13, 13, 13, OneVsThree),
    ContractDef(SoloSlim, "Solo Slim", 13, 13, 13, OneVsThree)
  ]

  /** `defs.find(c => c.type === kind)`: the first entry of that kind, if any. */
  function FindIn(defs: seq<ContractDef>, kind: ContractType): (r: Option<ContractDef>)
    ensures r.Some? <==> exists i :: 0 <= i < |defs| && defs[i].kind == kind
    ensures r.Some? ==> r.value in defs && r.value.kind == kind
    ensures r.Some? ==> exists i :: 0 <= i < |defs| && defs[i] == r.value
                                    && forall j :: 0 <= j < i ==> defs[j].kind != kind
  {
    if defs == [] then None
    else if defs[0].kind == kind then Some(defs[0])
    else
      FindIn(defs[1..], kind)
  }

  /** Catalog lookup by contract kind: the entry at the position the catalog
      lists it, and none for Pass. */
  function Find(kind: ContractType): (r: Option<ContractDef>)
  {
    match kind
    case Normal => Some(ContractOptions[0])
    case Troel => Some(ContractOptions[1])
    case Alone => Some(ContractOptions[2])
    case Piccolo => Some(ContractOptions[3])
    case Abondance => Some(ContractOptions[4])
    case Miserie => Some(ContractOptions[5])
    case MiserieTable => Some(ContractOptions[6])
    case Solo => Some(ContractOptions[7])
    case SoloSlim => Some(ContractOptions[8])
    case Pass => None
  }

  /** `CONTRACT_OPTIONS.find(c => c.type === kind)` returns exactly that entry:
      the first (and only) entry of the kind, or nothing for Pass. */
  lemma {:induction false} FindIsFirstMatch(kind: ContractType)
    ensures Find(kind) == FindIn(ContractOptions, kind)
    ensures Find(kind).Some? <==> kind != Pass
    ensures Find(kind).Some? ==> Find(kind).value.kind == kind
  {
    var defs := ContractOptions;
    match kind {
      case Pass => assert forall i :: 0 <= i < |defs| ==> defs[i].kind != Pass;
      case Normal => FindInAt(defs, kind, 0);
      case Troel => FindInAt(defs, kind, 1);
      case Alone => FindInAt(defs, kind, 2);
      case Piccolo => FindInAt(defs, kind, 3);
      case Abondance => FindInAt(defs, kind, 4);
      case Miserie => FindInAt(defs, kind, 5);
      case MiserieTable => FindInAt(defs, kind, 6);
      case Solo => FindInAt(defs, kind, 7);
      case SoloSlim => FindInAt(defs, kind, 8);
    }
  }

  /** `find` stops at the first entry of the kind it looks for. */
  lemma {:induction false} FindInAt(defs: seq<ContractDef>, kind: ContractType, i: nat)
    requires i < |defs| && defs[i].kind == kind
    requires forall j :: 0 <= j < i ==> defs[j].kind != kind
    ensures FindIn(defs, kind) == Some(defs[i])
  {
    if i > 0 {
      FindInAt(defs[1..], kind, i - 1);
    }
  }

  /** The players a contract's attacking side needs: 2 for a team game, 1 otherwise. */
  function Seats(c: Category): (n: nat)
    ensures 1 <= n <= 2
  {
    match c
    case TwoVsTwo => 2
    case OneVsThree => 1
  }

  /** Every kind other than Pass has exactly one entry and Pass has none. */
  lemma CatalogOnePerKind()
    ensures forall i :: 0 <= i < |ContractOptions| ==> ContractOptions[i].kind != Pass
    ensures forall i, j :: 0 <= i < j < |ContractOptions| ==> ContractOptions[i].kind != ContractOptions[j].kind
  {
  }

  /** Normal and Troel are played two against two; every other contract is
      one against three. */
  lemma CatalogCategories(kind: ContractType)
    requires kind != Pass
    ensures Find(kind).Some?
    ensures Find(kind).value.category == TwoVsTwo <==> kind == Normal || kind == Troel
  {
  }

  /** Each entry's trick range is ordered and lies within the 13 tricks of a deal. */
  lemma CatalogBounds()
    ensures forall d :: d in ContractOptions ==> 0 <= d.min <= d.target <= d.max <= 13
  {
  }

  /** The trick count each contract must reach. */
  function Target(kind: ContractType): int {
    match kind
    case Normal => 8
    case Troel => 8
    case Alone => 5
    case Piccolo => 1
    case Abondance => 9
    case Miserie => 0
    case MiserieTable => 0
    case Solo => 13
    case SoloSlim => 13
    case Pass => 0
  }

  /** The catalog's targets: 8 for Normal and Troel, 5 for Alone, 1 for
      Piccolo, 9 for Abondance, 0 for both Miseries and 13 for both solos. */
  lemma CatalogTargets(kind: ContractType)
    requires kind != Pass
    ensures Find(kind).Some? && Find(kind).value.target == Target(kind)
  {
  }
}
