/** Garden items as the editor holds them, the database rows they are read from,
    and the writes the editor sends back (hooks/useTrees.js). Trees live in the
    `trees` table; buildings and other items in the `items` table. Every
    operation writes one table and then rebuilds the in-memory list with one of
    the list functions below. */
module Items {
  import opened Js
  import opened ItemCategories

  datatype Kind = Tree | Building | Other

  /** A placed item. Fields the source object may lack (a building has no owner,
      a freshly added tree no photo) hold Null; columns are kept as JavaScript
      values because the editor writes numbers, strings and null into them. */
  datatype Item = Item(
    id: string,
    name: Value,
    imageUrl: string,
    x: real,
    y: real,
    itemType: Value,
    category: Kind,
    sort: Value,
    yearPlanted: Value,
    owner: Value,
    status: Value,
    isCustomType: bool,
    photoUrl: Value,
    description: Value,
    customAvatar: Value)

  /** A row of the `trees` table as a query returns it. */
  datatype TreeRecord = TreeRecord(
    id: string, itemType: Value, x: real, y: real, sort: Value, yearPlanted: Value,
    owner: Value, status: Value, photoUrl: Value, customAvatar: Value)

  /** A row of the `items` table as a query returns it. */
  datatype ItemRecord = ItemRecord(
    id: string, itemType: Value, x: real, y: real, description: Value, customAvatar: Value)

  /** `v || null` */
  function OrNull(v: Value): (r: Value)
    ensures Truthy(v) ==> r == v
    ensures !Truthy(v) ==> r == Null
  {
    if Truthy(v) then v else Null
  }

  /** `v || d` for a string default */
  function Or(v: Value, d: string): (r: Value)
    ensures Truthy(v) ==> r == v
    ensures !Truthy(v) ==> r == Str(d)
  {
    if Truthy(v) then v else Str(d)
  }

  /** `allPredefinedTypes.includes(type)` */
  predicate Predefined(t: Value) {
    t.Str? && IsPredefined(t.s)
  }

  /** `list.find(c => c.id === type)` on a type that may be null. */
  function FindType(cs: seq<Category>, t: Value): Option<Category> {
    if t.Str? then Find(cs, t.s) else None
  }

  /** The icon of a tree: its own type's icon, else the 'other-tree' icon, else a
      fixed seedling; the last never applies because 'other-tree' is listed. */
  function TreeIcon(t: Value): string {
    match FindType(English.trees, t)
    case Some(c) => c.imageUrl
    case None =>
      match Find(English.trees, "other-tree")
      case Some(c) => c.imageUrl
      case None => Icon("1f333")
  }

  /** Mapping of a `trees` row to a display item (hooks/useTrees.js:63-88). */
  function MapTree(r: TreeRecord): (it: Item)
    ensures it.id == r.id && it.category == Tree
  {
    Item(r.id, r.itemType, TreeIcon(r.itemType), r.x, r.y, r.itemType, Tree,
      r.sort, r.yearPlanted, OrNull(r.owner), Or(r.status, "Available"),
      !Predefined(r.itemType), OrNull(r.photoUrl), Null, Null)
  }

  /** Mapping of an `items` row to a display item (hooks/useTrees.js:90-116). */
  function MapItem(r: ItemRecord): (it: Item)
    ensures it.id == r.id && it.category != Tree
  {
    var icon :=
      match FindType(English.buildings, r.itemType)
      case Some(c) => c.imageUrl
      case None =>
        match FindType(English.other, r.itemType)
        case Some(c) => c.imageUrl
        case None => Icon("2b50");
    var kind := if r.itemType.Str? && IsBuildingId(r.itemType.s) then Building else Other;
    Item(r.id, r.itemType, icon, r.x, r.y, r.itemType, kind,
      Null, Null, Null, Null, !Predefined(r.itemType), Null, r.description, Null)
  }

  lemma MapTreeSpec(r: TreeRecord)
    ensures var it := MapTree(r);
      it.id == r.id && it.x == r.x && it.y == r.y && it.itemType == r.itemType && it.name == r.itemType &&
      it.category == Tree &&
      (it.isCustomType <==> !Predefined(r.itemType)) &&
      Truthy(it.status) && (Truthy(r.status) ==> it.status == r.status) &&
      it.sort == r.sort && it.yearPlanted == r.yearPlanted &&
      it.customAvatar == Null &&
      (r.itemType.Str? && IsTreeId(r.itemType.s) ==> Find(English.trees, r.itemType.s).value.imageUrl == it.imageUrl) &&
      (!(r.itemType.Str? && IsTreeId(r.itemType.s)) ==> it.imageUrl == Icon("1f334"))
  {
    OtherTreePresent();
  }

  lemma MapItemSpec(r: ItemRecord)
    ensures var it := MapItem(r);
      it.id == r.id && it.x == r.x && it.y == r.y && it.itemType == r.itemType &&
      (it.category == Building <==> r.itemType.Str? && IsBuildingId(r.itemType.s)) &&
      it.category != Tree &&
      (it.isCustomType <==> !Predefined(r.itemType)) &&
      it.description == r.description && it.customAvatar == Null &&
      (!Predefined(r.itemType) ==> it.imageUrl == Icon("2b50"))
  {
    if !Predefined(r.itemType) && r.itemType.Str? {
      assert r.itemType.s !in Ids(English.buildings) && r.itemType.s !in Ids(English.other) by {
        var ids := AllIds();
        assert ids == Ids(English.trees) + Ids(English.buildings) + Ids(English.other);
      }
    }
  }

  function MapTrees(rs: seq<TreeRecord>): (items: seq<Item>)
    ensures |items| == |rs| && forall i :: 0 <= i < |rs| ==> items[i] == MapTree(rs[i])
  {
    if rs == [] then [] else [MapTree(rs[0])] + MapTrees(rs[1..])
  }

  function MapItems(rs: seq<ItemRecord>): (items: seq<Item>)
    ensures |items| == |rs| && forall i :: 0 <= i < |rs| ==> items[i] == MapItem(rs[i])
  {
    if rs == [] then [] else [MapItem(rs[0])] + MapItems(rs[1..])
  }

  /** The list `fetchTrees` builds: the trees in query order, then the other items
      in query order. */
  function FetchedItems(trees: seq<TreeRecord>, others: seq<ItemRecord>): (items: seq<Item>)
    ensures |items| == |trees| + |others|
  {
    MapTrees(trees) + MapItems(others)
  }

  /** The fetched list holds the trees first, then the other items, each in the
      order the query returned them. */
  lemma FetchedItemsOrder(trees: seq<TreeRecord>, others: seq<ItemRecord>)
    ensures var items := FetchedItems(trees, others);
      (forall i :: 0 <= i < |items| ==> (items[i].category == Tree <==> i < |trees|)) &&
      (forall i :: 0 <= i < |trees| ==> items[i].id == trees[i].id) &&
      (forall i :: 0 <= i < |others| ==> items[|trees| + i].id == others[i].id)
  {
    var items := FetchedItems(trees, others);
    var ts, os := MapTrees(trees), MapItems(others);
    assert items == ts + os;
    forall i | 0 <= i < |items| ensures items[i].category == Tree <==> i < |trees| {
      if i >= |trees| {
        assert items[i] == os[i - |trees|];
      }
    }
  }

  // ---------------------------------------------------------------------------
  // Editable fields

  /** The field names the edit card passes to `updateItemField`. */
  datatype Field = TypeField | SortField | YearPlantedField | OwnerField | StatusField | DescriptionField

  /** The name the field travels under: the UI's name, and the column of the
      `trees` table. */
  function FieldName(f: Field): string {
    match f
    case TypeField => "type"
    case SortField => "sort"
    case YearPlantedField => "year_planted"
    case OwnerField => "owner"
    case StatusField => "status"
    case DescriptionField => "description"
  }

  datatype Table = Trees | ItemsTable | Gardens

  /** `category === 'tree' ? 'trees' : 'items'` */
  function TableOf(k: Kind): (t: Table)
    ensures t == Trees <==> k == Tree
  {
    if k == Tree then Trees else ItemsTable
  }

  /** The column a field edit writes: on the `items` table a 'sort' edit goes to
      the description column; every other field keeps its name. */
  function Column(t: Table, f: Field): (c: string)
    ensures c == "description" <==> f == DescriptionField || (t == ItemsTable && f == SortField)
  {
    if t == ItemsTable && f == SortField then "description" else FieldName(f)
  }

  /** `item[fieldName]`, where 'year_planted' is read as `yearPlanted`. */
  function Get(it: Item, f: Field): Value {
    match f
    case TypeField => it.itemType
    case SortField => it.sort
    case YearPlantedField => it.yearPlanted
    case OwnerField => it.owner
    case StatusField => it.status
    case DescriptionField => it.description
  }

  /** `{ ...item, [fieldName]: v }` */
  function Set(it: Item, f: Field, v: Value): (r: Item)
    ensures Get(r, f) == v
    ensures forall g :: g != f ==> Get(r, g) == Get(it, g)
    ensures r.id == it.id && r.x == it.x && r.y == it.y && r.category == it.category
    ensures r.imageUrl == it.imageUrl && r.customAvatar == it.customAvatar && r.photoUrl == it.photoUrl
    ensures r.name == it.name && r.isCustomType == it.isCustomType
  {
    match f
    case TypeField => it.(itemType := v)
    case SortField => it.(sort := v)
    case YearPlantedField => it.(yearPlanted := v)
    case OwnerField => it.(owner := v)
    case StatusField => it.(status := v)
    case DescriptionField => it.(description := v)
  }

  // ---------------------------------------------------------------------------
  // The list operations behind every local update

  /** `items.map(it => it.id === id ? f(it) : it)` */
  function UpdateById(items: seq<Item>, id: string, f: Item -> Item): (r: seq<Item>)
    ensures |r| == |items|
    ensures forall i :: 0 <= i < |items| ==> r[i] == (if items[i].id == id then f(items[i]) else items[i])
  {
    if items == [] then [] else [if items[0].id == id then f(items[0]) else items[0]] + UpdateById(items[1..], id, f)
  }

  /** `items.filter(it => it.id !== id)`: the other entries, in list order. */
  function WithoutId(items: seq<Item>, id: string): (r: seq<Item>)
    ensures forall it :: it in r <==> it in items && it.id != id
    ensures |r| == |items| - Count(items, id)
    ensures SubSeq(r, items)
  {
    if items == [] then []
    else if items[0].id == id then WithoutId(items[1..], id)
    else
      var rest := WithoutId(items[1..], id);
      assert ([items[0]] + rest)[1..] == rest;
      [items[0]] + rest
  }

  /** How many entries carry the id. */
  function Count(items: seq<Item>, id: string): (n: nat)
    ensures n <= |items|
    ensures n == 0 <==> forall it :: it in items ==> it.id != id
  {
    if items == [] then 0 else (if items[0].id == id then 1 else 0) + Count(items[1..], id)
  }

  /** Index i holds the first entry with the id. */
  predicate FirstWith(items: seq<Item>, id: string, i: int) {
    0 <= i < |items| && items[i].id == id && forall j :: 0 <= j < i ==> items[j].id != id
  }

  /** `items.find(it => it.id === id)`: the first entry with the id. */
  function FindById(items: seq<Item>, id: string): (r: Option<Item>)
    ensures r.None? <==> forall it :: it in items ==> it.id != id
    ensures r.Some? ==> exists i :: FirstWith(items, id, i) && items[i] == r.value
    ensures r.Some? ==> r.value.id == id && r.value in items
  {
    if items == [] then None
    else if items[0].id == id then
      assert FirstWith(items, id, 0);
      Some(items[0])
    else
      var r := FindById(items[1..], id);
      if r.Some? then
        var i :| FirstWith(items[1..], id, i) && items[1..][i] == r.value;
        assert FirstWith(items, id, i + 1);
        r
      else r
  }

  function ItemIds(items: seq<Item>): (ids: seq<string>)
    ensures |ids| == |items| && forall i :: 0 <= i < |items| ==> ids[i] == items[i].id
  {
    if items == [] then [] else [items[0].id] + ItemIds(items[1..])
  }

  /** Removing an id leaves the lookup of every other id as it was: what undoing
      a delete after a refresh relies on. */
  lemma {:induction false} WithoutIdKeepsOthers(items: seq<Item>, id: string, other: string)
    requires other != id
    ensures FindById(WithoutId(items, id), other) == FindById(items, other)
  {
    if items != [] {
      WithoutIdKeepsOthers(items[1..], id, other);
    }
  }

  /** Updating one id leaves the list's ids, and the entries with other ids, as
      they were, when the update keeps the id. */
  lemma UpdateByIdFrame(items: seq<Item>, id: string, f: Item -> Item)
    requires forall it :: f(it).id == it.id
    ensures ItemIds(UpdateById(items, id, f)) == ItemIds(items)
    ensures forall it :: it in items && it.id != id ==> it in UpdateById(items, id, f)
  {
    var r := UpdateById(items, id, f);
    forall it | it in items && it.id != id ensures it in r {
      var i :| 0 <= i < |items| && items[i] == it;
      assert r[i] == it;
    }
  }

  // ---------------------------------------------------------------------------
  // Writes to the database

  datatype Change = SetActive(active: bool) | SetPosition(px: real, py: real) | SetColumn(column: string, value: Value)

  /** A new `trees` or `items` row; columns an insert leaves out are Null. */
  datatype NewRow = NewRow(
    gardenId: string, itemType: Value, sort: Value, yearPlanted: Value, owner: Value,
    status: Value, x: real, y: real)

  datatype Write =
    | Update(table: Table, ids: seq<string>, change: Change)
    | Insert(into: Table, rows: seq<NewRow>, setsActive: bool)

  /** A stored row, as far as the editor's writes reach it. */
  datatype Row = Row(active: bool, x: real, y: real, columns: map<string, Value>)

  function Apply(row: Row, c: Change): (r: Row)
    ensures c.SetActive? ==> r == row.(active := c.active)
    ensures c.SetPosition? ==> r == row.(x := c.px, y := c.py)
    ensures c.SetColumn? ==>
              r.active == row.active && r.x == row.x && r.y == row.y && r.columns == row.columns[c.column := c.value]
  {
    match c
    case SetActive(a) => row.(active := a)
    case SetPosition(x, y) => row.(x := x, y := y)
    case SetColumn(col, v) => row.(columns := row.columns[col := v])
  }
}
