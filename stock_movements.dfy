/**
 * The stock movements page: the label and colour of a movement type, the signed quantity
 * display, the search-and-type filter, the page slice, and the page's state.
 */
module StockMovementsPage {
  import opened Text
  import opened Entities
  import opened Lists

  /** `getMovementTypeLabel`. */
  function MovementTypeLabel(t: MovementType): (name: string)
    ensures name in ["Stock In", "Stock Out", "Adjustment"]
  {
    match t
    case In => "Stock In"
    case Out => "Stock Out"
    case Adjust => "Adjustment"
  }

  /** The label map is injective: no two types share a label. */
  lemma MovementTypeLabelInjective(a: MovementType, b: MovementType)
    requires MovementTypeLabel(a) == MovementTypeLabel(b)
    ensures a == b
  {
  }

  /** `movementTypeColors`. */
  function MovementTypeColor(t: MovementType): (color: string)
    ensures color == "success" <==> t == In
    ensures color == "error" <==> t == Out
    ensures color == "warning" <==> t == Adjust
  {
    match t
    case In => "success"
    case Out => "error"
    case Adjust => "warning"
  }

  /** The quantity cell: a '-' before the quantity of an OUT movement, nothing before the others. */
  function QuantityText(m: StockMovement): (text: string)
    ensures m.movementType == Out ==> text == "-" + IntToString(m.quantity)
    ensures m.movementType != Out ==> text == IntToString(m.quantity)
  {
    (if m.movementType == Out then "-" else "") + IntToString(m.quantity)
  }

  /** For the non-negative quantities the server records, the cell starts with '-' iff the movement is an OUT. */
  lemma MinusSignIffOut(m: StockMovement)
    requires m.quantity >= 0
    ensures QuantityText(m)[0] == '-' <==> m.movementType == Out
  {
  }

  /** The select's values: `'ALL'` or one of the type codes. */
  const AllTypes := "ALL"

  /** `matchesSearch && matchesType`. */
  function MovementMatch(term: string, typeFilter: string): StockMovement -> bool {
    (m: StockMovement) => (MatchesIgnoreCase(m.productName, term) || MatchesIgnoreCase(m.referenceNumber, term)) &&
         (typeFilter == AllTypes || MovementCode(m.movementType) == typeFilter)
  }

  /** `filteredMovements`. */
  function FilteredMovements(movements: seq<StockMovement>, term: string, typeFilter: string): (r: seq<StockMovement>)
    ensures forall m :: m in r <==> m in movements && MovementMatch(term, typeFilter)(m)
    ensures IsSubsequence(r, movements)
    ensures forall m {:trigger multiset(r)[m]} :: multiset(r)[m] == if MovementMatch(term, typeFilter)(m) then multiset(movements)[m] else 0
  {
    FilterIsSubsequence(movements, MovementMatch(term, typeFilter));
    assert forall m ::
      multiset(Filter(movements, MovementMatch(term, typeFilter)))[m] ==
      (if MovementMatch(term, typeFilter)(m) then multiset(movements)[m] else 0) by {
      forall m { FilterMultiplicity(movements, MovementMatch(term, typeFilter), m); }
    }
    Filter(movements, MovementMatch(term, typeFilter))
  }

  /** 'ALL' keeps every search match; a type code keeps only the search matches of that type. */
  lemma TypeFilterMeaning(movements: seq<StockMovement>, term: string, t: MovementType)
    ensures forall m :: m in FilteredMovements(movements, term, AllTypes) <==>
      m in movements && (MatchesIgnoreCase(m.productName, term) || MatchesIgnoreCase(m.referenceNumber, term))
    ensures forall m :: m in FilteredMovements(movements, term, MovementCode(t)) <==>
      m in FilteredMovements(movements, term, AllTypes) && m.movementType == t
  {
    forall m: StockMovement ensures MovementCode(m.movementType) == MovementCode(t) <==> m.movementType == t {
      if MovementCode(m.movementType) == MovementCode(t) {
        MovementCodeInjective(m.movementType, t);
      }
    }
  }

  /** `paginatedMovements`. */
  function PaginatedMovements(movements: seq<StockMovement>, term: string, typeFilter: string, page: nat, rowsPerPage: nat): (r: seq<StockMovement>)
    ensures |r| <= rowsPerPage
    ensures |r| == PageLength(|FilteredMovements(movements, term, typeFilter)|, page, rowsPerPage)
    ensures forall k :: 0 <= k < |r| ==>
      page * rowsPerPage + k < |FilteredMovements(movements, term, typeFilter)| &&
      r[k] == FilteredMovements(movements, term, typeFilter)[page * rowsPerPage + k]
  {
    var f := FilteredMovements(movements, term, typeFilter);
    PageContents(f, page, rowsPerPage);
    PageOf(f, page, rowsPerPage)
  }

  class StockMovementsView {
    var page: nat
    var rowsPerPage: nat
    var searchTerm: string
    var movementTypeFilter: string

    constructor ()
      ensures page == 0 && rowsPerPage == 10 && searchTerm == "" && movementTypeFilter == AllTypes
    {
      page, rowsPerPage, searchTerm, movementTypeFilter := 0, 10, "", AllTypes;
    }

    function Visible(movements: seq<StockMovement>): seq<StockMovement>
      reads this
    {
      PaginatedMovements(movements, searchTerm, movementTypeFilter, page, rowsPerPage)
    }

    method ChangePage(newPage: nat)
      modifies this`page
      ensures page == newPage
    {
      page := newPage;
    }

    method ChangeRowsPerPage(n: nat)
      modifies this`rowsPerPage, this`page
      ensures rowsPerPage == n && page == 0
    {
      rowsPerPage := n;
      page := 0;
    }

    method Search(term: string)
      modifies this`searchTerm, this`page
      ensures searchTerm == term && page == 0
    {
      searchTerm := term;
      page := 0;
    }

    /** `handleMovementTypeFilter`: the new type, back to the first page. */
    method FilterByType(typeFilter: string)
      modifies this`movementTypeFilter, this`page
      ensures movementTypeFilter == typeFilter && page == 0
    {
      movementTypeFilter := typeFilter;
      page := 0;
    }
  }
}
