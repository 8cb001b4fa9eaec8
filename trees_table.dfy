/** The trees table (components/garden/TreesTable.js): the distinct values
    offered in a column's filter dropdown, the rows that pass the filters, their
    order under the sorted column, the header's select-all checkbox and the age
    label of a row. */
module TreesTable {
  import opened Js
  import opened Sorting
  import opened ItemCategories
  import opened Items
  import opened FilterHelpers
  import opened TableFilters

  // ---------------------------------------------------------------------------
  // Distinct values

  /** The item is a tree whose cell in the column is a non-empty text: the cells
      the dropdown offers. */
  predicate Contributes(it: Item, c: Column, currentYear: int) {
    it.category == Tree && Cell(it, c, currentYear).Str? && Cell(it, c, currentYear).s != ""
  }

  predicate IsCellOf(items: seq<Item>, c: Column, currentYear: int, v: string) {
    exists k :: 0 <= k < |items| && Contributes(items[k], c, currentYear) && Cell(items[k], c, currentYear).s == v
  }

  predicate NoDup(s: seq<string>) {
    forall i, j :: 0 <= i < j < |s| ==> s[i] != s[j]
  }

  /** `Array.prototype.sort`'s default order on strings. */
  function StrOrder(): (string, string) -> bool {
    (a: string, b: string) => StrLe(a, b)
  }

  lemma StrOrderIsPreorder()
    ensures TotalPreorder(StrOrder())
  {
    forall a, b ensures StrLe(a, b) || StrLe(b, a) {
      StrLeTotal(a, b);
    }
    forall a, b, c | StrLe(a, b) && StrLe(b, c) ensures StrLe(a, c) {
      StrLeTransitive(a, b, c);
    }
  }

  lemma {:induction false} NoDupCount(s: seq<string>, x: string)
    requires NoDup(s)
    ensures multiset(s)[x] <= 1
    decreases |s|
  {
    if s != [] {
      assert s == [s[0]] + s[1..];
      NoDupCount(s[1..], x);
      if s[0] == x {
        assert x !in s[1..];
      }
    }
  }

  lemma DupCount(s: seq<string>, i: nat, j: nat)
    requires i < j < |s| && s[i] == s[j]
    ensures multiset(s)[s[i]] >= 2
  {
    assert s == s[..j] + [s[j]] + s[j + 1..];
    assert s[i] in s[..j];
  }

  /** A permutation of a list without duplicates has none either. */
  lemma NoDupPermutation(a: seq<string>, b: seq<string>)
    requires multiset(a) == multiset(b) && NoDup(a)
    ensures NoDup(b)
  {
    forall i, j | 0 <= i < j < |b| ensures b[i] != b[j] {
      if b[i] == b[j] {
        DupCount(b, i, j);
        NoDupCount(a, b[i]);
      }
    }
  }

  /** One more item adds its cell, if it contributes one. */
  lemma CellsOfPrefix(items: seq<Item>, i: nat, c: Column, currentYear: int)
    requires i < |items|
    ensures forall v :: IsCellOf(items[..i + 1], c, currentYear, v) <==>
      IsCellOf(items[..i], c, currentYear, v) ||
      (Contributes(items[i], c, currentYear) && Cell(items[i], c, currentYear).s == v)
  {
    forall v ensures IsCellOf(items[..i + 1], c, currentYear, v) <==>
      IsCellOf(items[..i], c, currentYear, v) ||
      (Contributes(items[i], c, currentYear) && Cell(items[i], c, currentYear).s == v)
    {
      if IsCellOf(items[..i + 1], c, currentYear, v) {
        CellOfLongerPrefix(items, i, c, currentYear, v);
      }
      if IsCellOf(items[..i], c, currentYear, v) || (Contributes(items[i], c, currentYear) && Cell(items[i], c, currentYear).s == v) {
        CellOfShorterPrefix(items, i, c, currentYear, v);
      }
    }
  }

  lemma CellOfLongerPrefix(items: seq<Item>, i: nat, c: Column, currentYear: int, v: string)
    requires i < |items| && IsCellOf(items[..i + 1], c, currentYear, v)
    ensures IsCellOf(items[..i], c, currentYear, v) ||
      (Contributes(items[i], c, currentYear) && Cell(items[i], c, currentYear).s == v)
  {
    var k :| 0 <= k < i + 1 && Contributes(items[..i + 1][k], c, currentYear) && Cell(items[..i + 1][k], c, currentYear).s == v;
    if k < i {
      assert items[..i][k] == items[..i + 1][k];
    }
  }

  lemma CellOfShorterPrefix(items: seq<Item>, i: nat, c: Column, currentYear: int, v: string)
    requires i < |items|
    requires IsCellOf(items[..i], c, currentYear, v) ||
      (Contributes(items[i], c, currentYear) && Cell(items[i], c, currentYear).s == v)
    ensures IsCellOf(items[..i + 1], c, currentYear, v)
  {
    if IsCellOf(items[..i], c, currentYear, v) {
      var k :| 0 <= k < i && Contributes(items[..i][k], c, currentYear) && Cell(items[..i][k], c, currentYear).s == v;
      assert items[..i + 1][k] == items[..i][k];
    } else {
      assert items[..i + 1][i] == items[i];
    }
  }

  /** `getDistinctValues(column)`: the non-empty cells of the trees, each once,
      in ascending code-unit order. */
  method DistinctValues(items: seq<Item>, c: Column, currentYear: int) returns (r: seq<string>)
    ensures forall v :: v in r <==> IsCellOf(items, c, currentYear, v)
    ensures forall i, j :: 0 <= i < j < |r| ==> StrLe(r[i], r[j]) && r[i] != r[j]
  {
    var values: seq<string> := [];
    var i := 0;
    while i < |items|
      invariant 0 <= i <= |items|
      invariant NoDup(values)
      invariant forall v :: v in values <==> IsCellOf(items[..i], c, currentYear, v)
    {
      var it := items[i];
      if it.category == Tree {
        var value := Cell(it, c, currentYear);
        if value.Str? && value.s != "" && value.s !in values {
          values := values + [value.s];
        }
      }
      CellsOfPrefix(items, i, c, currentYear);
      i := i + 1;
    }
    assert items[..i] == items;
    StrOrderIsPreorder();
    ghost var p;
    r, p := SortBy(values, StrOrder());
    SortedValues(values, r);
  }

  /** Sorting the collected values keeps them, each once, and orders them. */
  lemma SortedValues(values: seq<string>, r: seq<string>)
    requires NoDup(values) && SortedBy(r, StrOrder()) && multiset(r) == multiset(values)
    ensures forall v :: v in r <==> v in values
    ensures forall i, j :: 0 <= i < j < |r| ==> StrLe(r[i], r[j]) && r[i] != r[j]
  {
    NoDupPermutation(values, r);
    forall v ensures v in r <==> v in values {
      assert v in r <==> v in multiset(r);
      assert v in values <==> v in multiset(values);
    }
    forall i, j | 0 <= i < j < |r| ensures StrLe(r[i], r[j]) {
      assert StrOrder()(r[i], r[j]);
    }
  }

  // ---------------------------------------------------------------------------
  // Filtered rows

  /** The row passes every column of the table's filters. */
  predicate PassesTable(it: Item, f: Filters, currentYear: int) {
    it.category == Tree && forall c :: Accepts(f, c, it, currentYear)
  }

  /** `filteredItems`: the trees that pass all six column filters, in list order. */
  function FilteredItems(items: seq<Item>, f: Filters, currentYear: int): (r: seq<Item>)
    ensures forall it :: it in r <==> it in items && PassesTable(it, f, currentYear)
    ensures SubSeq(r, items)
  {
    if items == [] then []
    else
      var rest := FilteredItems(items[1..], f, currentYear);
      assert forall it :: it in items <==> it == items[0] || it in items[1..];
      if PassesTable(items[0], f, currentYear) then [items[0]] + rest else rest
  }

  /** A tree is in the table exactly when the canvas would highlight it with no
      selection. */
  lemma TableAgreesWithHighlight(it: Item, f: Filters, currentYear: int)
    requires it.category == Tree
    ensures PassesTable(it, f, currentYear) <==> ShouldHighlight(it, f, [], currentYear)
  {
    if !AnyFilter(f) {
      forall c ensures Accepts(f, c, it, currentYear) {
        assert ListOf(f, c) == [];
      }
    }
  }

  // ---------------------------------------------------------------------------
  // Sorted rows

  /** The type is a predefined tree type. */
  predicate HasTreeType(it: Item) {
    it.itemType.Str? && IsTreeId(it.itemType.s)
  }

  /** The planting year as a number; a year that does not parse counts as 0. */
  function YearNumber(v: Value): int {
    match PlantedYear(v)
    case Some(y) => y
    case None => 0
  }

  predicate IsNumberColumn(c: Column) {
    c == YearColumn || c == AgeColumn
  }

  /** The sort key of a text column: type and sort with '' when missing; owner and
      status with their sentinels, and '' for an item without a tree type. */
  function TextKey(it: Item, c: Column): string {
    match c
    case TypeColumn => ValueText(Or(it.itemType, ""))
    case SortColumn => ValueText(Or(it.sort, ""))
    case OwnerColumn => if HasTreeType(it) then ValueText(Or(it.owner, "-")) else ""
    case StatusColumn => if HasTreeType(it) then ValueText(Or(it.status, "Available")) else ""
    case _ => ""
  }

  /** The sort key of the year and age columns: 0 unless the item has a tree type
      and a year. */
  function NumberKey(it: Item, c: Column, currentYear: int): int {
    if !HasTreeType(it) || !Truthy(it.yearPlanted) then 0
    else if c == YearColumn then YearNumber(it.yearPlanted)
    else currentYear - YearNumber(it.yearPlanted)
  }

  /** The comparator's "a may come before b": subtraction for numbers and the
      locale order `le` for texts, with the arguments swapped for 'desc'. */
  predicate RowLe(le: (string, string) -> bool, c: Column, dir: Direction, currentYear: int, a: Item, b: Item) {
    if IsNumberColumn(c) then
      (if dir == Asc then NumberKey(a, c, currentYear) <= NumberKey(b, c, currentYear)
       else NumberKey(b, c, currentYear) <= NumberKey(a, c, currentYear))
    else
      (if dir == Asc then le(TextKey(a, c), TextKey(b, c)) else le(TextKey(b, c), TextKey(a, c)))
  }

  function RowOrder(le: (string, string) -> bool, c: Column, dir: Direction, currentYear: int): (Item, Item) -> bool {
    (a: Item, b: Item) => RowLe(le, c, dir, currentYear, a, b)
  }

  lemma RowOrderIsPreorder(le: (string, string) -> bool, c: Column, dir: Direction, currentYear: int)
    requires TotalPreorder(le)
    ensures TotalPreorder(RowOrder(le, c, dir, currentYear))
  {
    var o := RowOrder(le, c, dir, currentYear);
    forall a, b ensures o(a, b) || o(b, a) {
      assert le(TextKey(a, c), TextKey(b, c)) || le(TextKey(b, c), TextKey(a, c));
    }
    forall a, b, d | o(a, b) && o(b, d) ensures o(a, d) {
      if !IsNumberColumn(c) {
        if dir == Asc {
          assert le(TextKey(a, c), TextKey(b, c)) && le(TextKey(b, c), TextKey(d, c));
        } else {
          assert le(TextKey(d, c), TextKey(b, c)) && le(TextKey(b, c), TextKey(a, c));
        }
      }
    }
  }

  /** 'desc' is 'asc' with the operands swapped. */
  lemma DescReversesAsc(le: (string, string) -> bool, c: Column, currentYear: int, a: Item, b: Item)
    ensures RowLe(le, c, Desc, currentYear, a, b) == RowLe(le, c, Asc, currentYear, b, a)
  {
  }

  /** Items without a predefined tree type sort as 0 by year and age, and as ''
      by owner and status. */
  lemma NonTreeTypeKeys(it: Item, currentYear: int)
    requires !HasTreeType(it)
    ensures NumberKey(it, YearColumn, currentYear) == 0 && NumberKey(it, AgeColumn, currentYear) == 0
    ensures TextKey(it, OwnerColumn) == "" && TextKey(it, StatusColumn) == ""
  {
  }

  /** For trees of predefined types with numeric years, ascending age is
      descending year. */
  lemma AgeAscIsYearDesc(le: (string, string) -> bool, currentYear: int, a: Item, b: Item)
    requires HasTreeType(a) && HasTreeType(b)
    requires a.yearPlanted.Num? && a.yearPlanted.n != 0 && b.yearPlanted.Num? && b.yearPlanted.n != 0
    ensures RowLe(le, AgeColumn, Asc, currentYear, a, b) <==> RowLe(le, YearColumn, Desc, currentYear, a, b)
    ensures RowLe(le, YearColumn, Asc, currentYear, a, b) <==> a.yearPlanted.n <= b.yearPlanted.n
  {
    NumberKeysOfYear(a, currentYear);
    NumberKeysOfYear(b, currentYear);
  }

  /** A tree with a numeric, non-zero year sorts by that year and by its age. */
  lemma NumberKeysOfYear(it: Item, currentYear: int)
    requires HasTreeType(it) && it.yearPlanted.Num? && it.yearPlanted.n != 0
    ensures NumberKey(it, YearColumn, currentYear) == it.yearPlanted.n
    ensures NumberKey(it, AgeColumn, currentYear) == currentYear - it.yearPlanted.n
  {
    assert Truthy(it.yearPlanted);
    assert YearNumber(it.yearPlanted) == it.yearPlanted.n;
  }

  /** The rows in the table's order: unchanged with no sorted column, otherwise a
      permutation ordered by the column's key in the chosen direction. */
  method SortRows(rows: seq<Item>, sortColumn: Option<Column>, dir: Direction,
                  le: (string, string) -> bool, currentYear: int) returns (r: seq<Item>, ghost p: seq<nat>)
    requires TotalPreorder(le)
    ensures multiset(r) == multiset(rows)
    ensures sortColumn.None? ==> r == rows
    ensures sortColumn.Some? ==> SortedBy(r, RowOrder(le, sortColumn.value, dir, currentYear))
    ensures IndexMap(r, rows, p, |rows|)
    ensures sortColumn.Some? ==> StableBy(r, p, RowOrder(le, sortColumn.value, dir, currentYear))
  {
    if sortColumn.None? {
      p := seq(|rows|, k requires 0 <= k < |rows| => k);
      return rows, p;
    }
    RowOrderIsPreorder(le, sortColumn.value, dir, currentYear);
    r, p := SortBy(rows, RowOrder(le, sortColumn.value, dir, currentYear));
  }

  // ---------------------------------------------------------------------------
  // Header checkbox and age label

  /** The tree entries of the list, in list order: every occurrence of a tree
      and nothing else. */
  function Trees(items: seq<Item>): (r: seq<Item>)
    ensures SubSeq(r, items)
    ensures forall it :: multiset(r)[it] == if it.category == Tree then multiset(items)[it] else 0
  {
    if items == [] then []
    else
      assert items == [items[0]] + items[1..];
      var rest := Trees(items[1..]);
      if items[0].category == Tree then
        assert ([items[0]] + rest)[1..] == rest;
        [items[0]] + rest
      else rest
  }

  /** Those two facts fix the trees: any in-order selection from the list that
      holds each tree as often as the list does, and no other entry, is `Trees`. */
  lemma {:induction false} TreesUnique(items: seq<Item>, r: seq<Item>)
    requires SubSeq(r, items)
    requires forall it :: multiset(r)[it] == if it.category == Tree then multiset(items)[it] else 0
    ensures r == Trees(items)
    decreases |items|
  {
    if items == [] {
      assert multiset(r) == multiset{};
    } else {
      var x := items[0];
      assert items == [x] + items[1..];
      var taken := r != [] && r[0] == x && SubSeq(r[1..], items[1..]);
      if x.category == Tree {
        // x must be taken: r skipping x would hold it one time too few.
        if !taken {
          assert SubSeq(r, items[1..]);
          SubSeqMultiset(r, items[1..]);
          assert false;
        }
        assert r == [x] + r[1..];
        TreesUnique(items[1..], r[1..]);
      } else {
        if taken {
          assert false;
        }
        assert SubSeq(r, items[1..]);
        TreesUnique(items[1..], r);
      }
    }
  }

  /** An in-order selection holds each entry at most as often as the list. */
  lemma {:induction false} SubSeqMultiset(r: seq<Item>, items: seq<Item>)
    requires SubSeq(r, items)
    ensures multiset(r) <= multiset(items)
    decreases |items|
  {
    if r != [] {
      assert items == [items[0]] + items[1..];
      if r[0] == items[0] && SubSeq(r[1..], items[1..]) {
        SubSeqMultiset(r[1..], items[1..]);
        assert r == [r[0]] + r[1..];
      } else {
        SubSeqMultiset(r, items[1..]);
      }
    }
  }

  /** The trees are no more than the entries, and an entry is among them exactly
      when it is a tree. */
  lemma TreesMembers(items: seq<Item>)
    ensures |Trees(items)| <= |items|
    ensures forall it :: it in Trees(items) <==> it in items && it.category == Tree
  {
    var trees := Trees(items);
    SubSeqMultiset(trees, items);
    assert |trees| == |multiset(trees)| <= |multiset(items)| == |items|;
    forall it ensures it in trees <==> it in items && it.category == Tree {
      assert it in trees <==> multiset(trees)[it] > 0;
      assert it in items <==> multiset(items)[it] > 0;
    }
  }

  /** The ids of the trees, in list order: one id per tree entry. */
  function TreeIds(items: seq<Item>): (ids: seq<string>)
    ensures |ids| <= |items|
    ensures |ids| == |Trees(items)|
    ensures forall k :: 0 <= k < |ids| ==> ids[k] == Trees(items)[k].id
    ensures forall id :: id in ids <==> exists it :: it in items && it.category == Tree && it.id == id
  {
    var trees := Trees(items);
    var ids := seq(|trees|, k requires 0 <= k < |trees| => trees[k].id);
    TreesMembers(items);
    IdsOf(trees, ids);
    ids
  }

  /** A list of ids taken entry by entry holds exactly the entries' ids. */
  lemma IdsOf(entries: seq<Item>, ids: seq<string>)
    requires |ids| == |entries|
    requires forall k :: 0 <= k < |ids| ==> ids[k] == entries[k].id
    ensures forall id :: id in ids <==> exists it :: it in entries && it.id == id
  {
    forall id | id in ids ensures exists it :: it in entries && it.id == id {
      var k :| 0 <= k < |ids| && ids[k] == id;
      assert entries[k] in entries;
    }
    forall it | it in entries ensures it.id in ids {
      var k :| 0 <= k < |entries| && entries[k] == it;
      assert ids[k] == it.id;
    }
  }

  /** The header checkbox: the new selection. As many selected ids as trees clears
      the selection; otherwise every tree is selected. */
  function HeaderToggle(items: seq<Item>, selected: seq<string>): (r: seq<string>)
    ensures |selected| == |TreeIds(items)| ==> r == []
    ensures |selected| != |TreeIds(items)| ==> r == TreeIds(items)
    ensures |selected| != |TreeIds(items)| ==> forall id :: id in r <==> exists it :: it in items && it.category == Tree && it.id == id
  {
    var all := TreeIds(items);
    if |selected| == |all| then [] else all
  }

  /** Pressing the checkbox twice from an empty selection ends with an empty
      selection, having selected every tree in between. */
  lemma HeaderToggleTwice(items: seq<Item>)
    ensures HeaderToggle(items, []) == TreeIds(items)
    ensures HeaderToggle(items, HeaderToggle(items, [])) == []
  {
  }

  /** A row's age cell: `${age} year` with an 's' unless the age is 1, and '-'
      without an age. */
  function AgeLabel(age: Option<int>): (text: string)
    ensures age.None? ==> text == "-"
    ensures age.Some? ==> |IntToString(age.value)| < |text| && text[..|IntToString(age.value)|] == IntToString(age.value)
    ensures age.Some? ==> (text[|text| - 1] == 's' <==> age.value != 1)
    ensures age.Some? ==> text == IntToString(age.value) + " year" || text == IntToString(age.value) + " years"
  {
    match age
    case None => "-"
    case Some(a) => IntToString(a) + " year" + (if a != 1 then "s" else "")
  }
}
