/** The table's sort and filter state (hooks/useTableFilters.js): the sorted
    column and its direction, the six accepted-value lists, and the column whose
    filter dropdown is open. */
module TableFilters {
  import opened Js
  import opened FilterHelpers

  datatype Direction = Asc | Desc

  /** `list.includes(v) ? list.filter(x => x !== v) : [...list, v]` */
  function Toggle(l: seq<string>, v: string): (r: seq<string>)
    ensures v in l ==> v !in r && forall x :: x in r <==> x in l && x != v
    ensures v in l ==> SubSeq(r, l) && multiset(r) == multiset(l)[v := 0]
    ensures v !in l ==> r == l + [v]
  {
    if v in l then Without(l, v) else l + [v]
  }

  /** `list.filter(x => x !== v)`: every entry other than `v`, each copy of it,
      in list order. */
  function Without(l: seq<string>, v: string): (r: seq<string>)
    ensures forall x :: x in r <==> x in l && x != v
    ensures |r| <= |l|
    ensures SubSeq(r, l)
    ensures multiset(r) == multiset(l)[v := 0]
  {
    if l == [] then []
    else
      var rest := Without(l[1..], v);
      assert l == [l[0]] + l[1..];
      if l[0] == v then rest
      else
        assert ([l[0]] + rest)[1..] == rest;
        [l[0]] + rest
  }

  /** Toggling a value twice gives back the same accepted values. */
  lemma {:induction false} ToggleTwice(l: seq<string>, v: string)
    ensures forall x :: x in Toggle(Toggle(l, v), v) <==> x in l
  {
    if v in l {
      assert v !in Toggle(l, v);
    } else {
      assert v in Toggle(l, v);
    }
  }

  /** Toggling a value that is absent from a list appends it; toggling it again
      gives back the list itself, in its order. */
  lemma {:induction false} ToggleAbsentTwice(l: seq<string>, v: string)
    requires v !in l
    ensures Toggle(Toggle(l, v), v) == l
  {
    WithoutAppended(l, v);
  }

  lemma {:induction false} WithoutAppended(l: seq<string>, v: string)
    requires v !in l
    ensures Without(l + [v], v) == l
    decreases |l|
  {
    if l == [] {
      assert Without([v][1..], v) == [];
    } else {
      assert (l + [v])[1..] == l[1..] + [v];
      WithoutAppended(l[1..], v);
      assert [l[0]] + l[1..] == l;
    }
  }

  class TableFilterState {
    var sortColumn: Option<Column>
    var direction: Direction
    var filters: Filters
    var dropdown: Option<Column>

    /** The initial state. */
    predicate Initial()
      reads this
    {
      sortColumn.None? && direction == Asc && filters == NoFilters && dropdown.None?
    }

    constructor()
      ensures Initial()
    {
      sortColumn, direction, filters, dropdown := None, Asc, NoFilters, None;
    }

    /** `handleSort(column)`: the sorted column flips direction; another column
        becomes the sorted one, ascending. */
    method HandleSort(c: Column)
      modifies this
      ensures old(sortColumn) == Some(c) ==> direction == (if old(direction) == Asc then Desc else Asc)
      ensures old(sortColumn) != Some(c) ==> direction == Asc
      ensures sortColumn == Some(c)
      ensures filters == old(filters) && dropdown == old(dropdown)
    {
      if sortColumn == Some(c) {
        direction := if direction == Asc then Desc else Asc;
      } else {
        sortColumn := Some(c);
        direction := Asc;
      }
    }

    /** `toggleFilterDropdown(column)` */
    method ToggleFilterDropdown(c: Column)
      modifies this
      ensures dropdown == if old(dropdown) == Some(c) then None else Some(c)
      ensures sortColumn == old(sortColumn) && direction == old(direction) && filters == old(filters)
    {
      dropdown := if dropdown == Some(c) then None else Some(c);
    }

    /** `toggleFilterValue(column, value)` */
    method ToggleFilterValue(c: Column, v: string)
      modifies this
      ensures filters == WithList(old(filters), c, Toggle(ListOf(old(filters), c), v))
      ensures sortColumn == old(sortColumn) && direction == old(direction) && dropdown == old(dropdown)
    {
      var current := ListOf(filters, c);
      if v in current {
        filters := WithList(filters, c, Without(current, v));
      } else {
        filters := WithList(filters, c, current + [v]);
      }
    }

    /** `selectAllFilters(column, allValues)` */
    method SelectAllFilters(c: Column, all: seq<string>)
      modifies this
      ensures ListOf(filters, c) == all && forall d :: d != c ==> ListOf(filters, d) == ListOf(old(filters), d)
      ensures sortColumn == old(sortColumn) && direction == old(direction) && dropdown == old(dropdown)
    {
      filters := WithList(filters, c, all);
    }

    /** `clearFilters(column)` */
    method ClearFilters(c: Column)
      modifies this
      ensures ListOf(filters, c) == [] && forall d :: d != c ==> ListOf(filters, d) == ListOf(old(filters), d)
      ensures sortColumn == old(sortColumn) && direction == old(direction) && dropdown == old(dropdown)
    {
      filters := WithList(filters, c, []);
    }

    /** `closeFilterDropdown()` */
    method CloseFilterDropdown()
      modifies this
      ensures dropdown.None?
      ensures sortColumn == old(sortColumn) && direction == old(direction) && filters == old(filters)
    {
      dropdown := None;
    }

    /** `resetAllFilters()`: back to the initial state. */
    method ResetAllFilters()
      modifies this
      ensures Initial()
    {
      filters := NoFilters;
      sortColumn := None;
      direction := Asc;
      dropdown := None;
    }
  }
}
