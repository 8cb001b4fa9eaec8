/** The per-column table filters and the highlight rule of the garden canvas
    (utils/filterHelpers.js). Each of the six columns holds a list of accepted
    cell texts; an empty list accepts everything and the lists are ANDed. Only
    trees have cells: once any list is non-empty, other items never match. */
module FilterHelpers {
  import opened Js
  import opened Items

  datatype Column = TypeColumn | SortColumn | YearColumn | AgeColumn | OwnerColumn | StatusColumn

  const Columns: seq<Column> := [TypeColumn, SortColumn, YearColumn, AgeColumn, OwnerColumn, StatusColumn]

  datatype Filters = Filters(
    types: seq<string>, sorts: seq<string>, years: seq<string>,
    ages: seq<string>, owners: seq<string>, statuses: seq<string>)

  const NoFilters := Filters([], [], [], [], [], [])

  /** `tableFilters[column]` */
  function ListOf(f: Filters, c: Column): seq<string> {
    match c
    case TypeColumn => f.types
    case SortColumn => f.sorts
    case YearColumn => f.years
    case AgeColumn => f.ages
    case OwnerColumn => f.owners
    case StatusColumn => f.statuses
  }

  /** `{...tableFilters, [column]: l}` */
  function WithList(f: Filters, c: Column, l: seq<string>): (g: Filters)
    ensures ListOf(g, c) == l
    ensures forall d :: d != c ==> ListOf(g, d) == ListOf(f, d)
  {
    match c
    case TypeColumn => f.(types := l)
    case SortColumn => f.(sorts := l)
    case YearColumn => f.(years := l)
    case AgeColumn => f.(ages := l)
    case OwnerColumn => f.(owners := l)
    case StatusColumn => f.(statuses := l)
  }

  /** `String(v)` */
  function ValueText(v: Value): string {
    match v
    case Null => "null"
    case Str(s) => s
    case Num(n) => IntToString(n)
    case NaN => "NaN"
  }

  /** `parseInt(yearPlanted)` for a year that is not null. */
  function PlantedYear(v: Value): (y: Option<int>)
    ensures v.Null? ==> y.None?
    ensures v.Num? ==> y == Some(v.n)
  {
    if v.Null? then None
    else
      assert v.Num? ==> ParseInt(ValueText(v)) == Some(v.n) by {
        if v.Num? { ParseIntOfIntToString(v.n); }
      }
      ParseInt(ValueText(v))
  }

  /** The age of an item in `currentYear`, when its year parses. */
  function Age(it: Item, currentYear: int): Option<int> {
    match PlantedYear(it.yearPlanted)
    case None => None
    case Some(y) => Some(currentYear - y)
  }

  /** The text a filter compares for a column: a missing sort, year, age or owner
      reads '-', a missing status reads 'Available', and the type is taken as it is. */
  function Cell(it: Item, c: Column, currentYear: int): Value {
    match c
    case TypeColumn => it.itemType
    case SortColumn => Or(it.sort, "-")
    case YearColumn => if Truthy(it.yearPlanted) then Str(ValueText(it.yearPlanted)) else Str("-")
    case AgeColumn =>
      (match Age(it, currentYear)
       case Some(a) => Str(IntToString(a))
       case None => Str("-"))
    case OwnerColumn => Or(it.owner, "-")
    case StatusColumn => Or(it.status, "Available")
  }

  /** `list.includes(v)` over a list of strings. */
  predicate Includes(l: seq<string>, v: Value) {
    v.Str? && v.s in l
  }

  /** The column imposes no constraint or accepts the item's cell. */
  predicate Accepts(f: Filters, c: Column, it: Item, currentYear: int) {
    ListOf(f, c) == [] || Includes(ListOf(f, c), Cell(it, c, currentYear))
  }

  predicate AnyFilter(f: Filters) {
    f.types != [] || f.sorts != [] || f.years != [] || f.ages != [] || f.owners != [] || f.statuses != []
  }

  /** `shouldHighlightItem(item, tableFilters, selectedTreeIds)`, with the clock's
      year as a parameter: the item matches the filters (trees only, once a filter
      is set) and, when something is selected, is selected. */
  function ShouldHighlight(it: Item, f: Filters, selected: seq<string>, currentYear: int): (r: bool)
    ensures r <==>
      (AnyFilter(f) ==> it.category == Tree && forall c :: Accepts(f, c, it, currentYear)) &&
      (selected != [] ==> it.id in selected)
  {
    var isTree := it.category == Tree;
    var matchesFilters := !AnyFilter(f) || (
      isTree &&
      Accepts(f, TypeColumn, it, currentYear) && Accepts(f, SortColumn, it, currentYear) &&
      Accepts(f, YearColumn, it, currentYear) && Accepts(f, AgeColumn, it, currentYear) &&
      Accepts(f, OwnerColumn, it, currentYear) && Accepts(f, StatusColumn, it, currentYear));
    var matchesSelection := selected == [] || it.id in selected;
    assert matchesFilters ==> (AnyFilter(f) ==> isTree && forall c :: Accepts(f, c, it, currentYear));
    matchesFilters && matchesSelection
  }

  /** With no filter and no selection, everything is highlighted. */
  lemma NothingSetHighlightsAll(it: Item, currentYear: int)
    ensures ShouldHighlight(it, NoFilters, [], currentYear)
  {
  }

  /** An active filter never highlights a building or another non-tree item. */
  lemma FilterExcludesNonTrees(it: Item, f: Filters, selected: seq<string>, currentYear: int)
    requires AnyFilter(f) && it.category != Tree
    ensures !ShouldHighlight(it, f, selected, currentYear)
  {
  }

  /** A set selection highlights only selected items, and among them exactly the
      ones the filters accept. */
  lemma SelectionNarrows(it: Item, f: Filters, selected: seq<string>, currentYear: int)
    requires selected != []
    ensures ShouldHighlight(it, f, selected, currentYear) <==>
      it.id in selected && ShouldHighlight(it, f, [], currentYear)
  {
  }

  /** The sentinels: a missing sort, owner or year reads '-', a missing status
      reads 'Available', and an item with no parseable year has age '-'. */
  lemma MissingValuesReadAsSentinels(it: Item, currentYear: int)
    ensures !Truthy(it.sort) ==> Cell(it, SortColumn, currentYear) == Str("-")
    ensures !Truthy(it.owner) ==> Cell(it, OwnerColumn, currentYear) == Str("-")
    ensures !Truthy(it.yearPlanted) ==> Cell(it, YearColumn, currentYear) == Str("-")
    ensures !Truthy(it.status) ==> Cell(it, StatusColumn, currentYear) == Str("Available")
    ensures it.yearPlanted.Null? ==> Cell(it, AgeColumn, currentYear) == Str("-")
  {
  }

  /** A numeric planting year gives the age `currentYear - year`, and the year
      and age cells are the decimal texts of year and age. */
  lemma NumericYearCells(it: Item, currentYear: int)
    requires it.yearPlanted.Num? && it.yearPlanted.n != 0
    ensures Age(it, currentYear) == Some(currentYear - it.yearPlanted.n)
    ensures Cell(it, YearColumn, currentYear) == Str(IntToString(it.yearPlanted.n))
    ensures Cell(it, AgeColumn, currentYear) == Str(IntToString(currentYear - it.yearPlanted.n))
  {
    AgeOfNumericYear(it, currentYear);
    AgeCellOfNumericYear(it, currentYear);
    assert Truthy(it.yearPlanted);
  }

  lemma AgeCellOfNumericYear(it: Item, currentYear: int)
    requires it.yearPlanted.Num?
    ensures Cell(it, AgeColumn, currentYear) == Str(IntToString(currentYear - it.yearPlanted.n))
  {
    AgeOfNumericYear(it, currentYear);
  }

  lemma AgeOfNumericYear(it: Item, currentYear: int)
    requires it.yearPlanted.Num?
    ensures Age(it, currentYear) == Some(currentYear - it.yearPlanted.n)
  {
    assert PlantedYear(it.yearPlanted) == Some(it.yearPlanted.n);
  }

  /** A tree whose year column accepts the printed year `n` and nothing else
      matches exactly when its year is `n`, as that text or as a number; the
      number 0 is falsy, so its cell is '-' and it never matches. */
  lemma YearFilterMatchesYear(it: Item, n: int, currentYear: int)
    requires it.category == Tree
    ensures ShouldHighlight(it, NoFilters.(years := [IntToString(n)]), [], currentYear) <==>
      (n != 0 && it.yearPlanted == Num(n)) || it.yearPlanted == Str(IntToString(n))
  {
    var f := NoFilters.(years := [IntToString(n)]);
    assert forall c :: c != YearColumn ==> ListOf(f, c) == [];
    if it.yearPlanted.Num? && it.yearPlanted != Num(n) {
      if IntToString(it.yearPlanted.n) == IntToString(n) {
        IntToStringInjective(it.yearPlanted.n, n);
      }
    }
    if it.yearPlanted == Num(n) && n != 0 {
      assert Accepts(f, YearColumn, it, currentYear);
    }
  }
}
