/** The handlers of the garden carousel screen (screens/GardensListScreen.js)
    that tie the hooks together: paging between gardens, the per-garden resets,
    the "available only" toggle, the tree selection, and the drop, move, remove,
    avatar, generate, field-edit and undo handlers, each of which records what it
    did on the undo stack only after its writes succeeded. Every database outcome
    (a write's success, an inserted id, a refetch's rows) is a parameter. */
module GardensList {
  import opened Js
  import opened Items
  import opened ItemCategories
  import opened ItemStore
  import opened Undo
  import opened Viewport
  import FH = FilterHelpers
  import TF = TableFilters
  import TG = TreeGenerator
  import GL = Gardens
  import Carousel

  /** `value && value.trim() !== '' ? value : null`: a blank owner is no owner.
      (The owner input always sends text.) */
  function OwnerValue(v: Value): (r: Value)
    ensures Truthy(r) <==> v.Str? && Trim(v.s) != ""
    ensures Truthy(r) ==> r == v
    ensures !Truthy(r) ==> r == Null
  {
    if v.Str? && v.s != "" && Trim(v.s) != "" then v else Null
  }

  /** The status an owner edit writes: unavailable exactly when the trimmed
      owner text is not empty. */
  lemma OwnerEditStatus(v: Value)
    ensures StatusFor(OwnerValue(v)) == "Unavailable" <==> v.Str? && Trim(v.s) != ""
    ensures StatusFor(OwnerValue(v)) == "Available" <==> !(v.Str? && Trim(v.s) != "")
  {
  }

  /** The action a field edit records: the old value read from the item and, for
      a tree's owner, the normalised owner. */
  function EditFor(it: Item, f: Field, value: Value): (a: Action)
    ensures a.EditAction? && a.item == it && a.field == f && a.oldValue == Get(it, f)
  {
    EditAction(it, f, Get(it, f), if f == OwnerField && it.category == Tree then OwnerValue(value) else value)
  }

  /** The list after an edit's store writes: for a tree's owner, the owner write
      and then the status write, each applied when it succeeds; for any other
      edit, the one `value || null` write when it succeeds. */
  function Edited(items: seq<Item>, it: Item, f: Field, value: Value, firstOk: bool, secondOk: bool): seq<Item> {
    if f == OwnerField && it.category == Tree then
      var ownerValue := OwnerValue(value);
      var afterOwner := if firstOk then WithField(items, it.id, OwnerField, ownerValue) else items;
      if secondOk then WithField(afterOwner, it.id, StatusField, Str(StatusFor(ownerValue))) else afterOwner
    else if firstOk then WithField(items, it.id, f, OrNull(value)) else items
  }

  /** The two writes of a tree's owner edit are the ones the store sends for
      the owner column and then the status column. */
  lemma OwnerEditWrites(it: Item, v: Value)
    requires it.category == Tree
    ensures var t := TableOf(it.category);
      Forward(EditAction(it, OwnerField, Get(it, OwnerField), v)) ==
        [ Update(t, [it.id], SetColumn(Column(t, OwnerField), OrNull(v))),
          Update(t, [it.id], SetColumn(Column(t, StatusField), OrNull(Str(StatusFor(v))))) ]
  {
    assert Truthy(Str(StatusFor(v)));
  }

  /** The forward write of an avatar change is the avatar write the store sends. */
  lemma AvatarEditWrite(it: Item, oldAvatar: Value, url: string)
    ensures var a := AvatarAction(it, oldAvatar, it.imageUrl, OrNull(Str(url)), if url != "" then url else it.imageUrl);
      Forward(a) == [Update(TableOf(it.category), [it.id], SetColumn("custom_avatar", TextValue(TextOrNull(Some(url)))))]
  {
    assert TextValue(TextOrNull(Some(url))) == OrNull(Str(url));
  }

  /** `currentGarden?.id` */
  function GardenIdOf(g: Option<GL.Garden>): (id: Option<string>)
    ensures id.Some? <==> g.Some?
    ensures id.Some? ==> id.value == g.value.id
  {
    if g.Some? then Some(g.value.id) else None
  }

  /** The garden's defaults that `addItem` applies. */
  function GardenDefaults(g: GL.Garden): Defaults {
    Defaults(g.defaultOwner, g.defaultYearPlanted, g.defaultSort)
  }

  /** The defaults a generated batch takes from the garden: the olive type, and
      a status that is unavailable exactly when the garden has a default owner. */
  function GenerateDefaults(g: GL.Garden): (d: TG.GenDefaults)
    ensures d.itemType == Str("olive") && d.sort == Or(g.defaultSort, "")
    ensures d.yearPlanted == OrNull(g.defaultYearPlanted) && d.owner == OrNull(g.defaultOwner)
    ensures d.status == Str("Unavailable") <==> Truthy(g.defaultOwner)
    ensures d.status == Str("Available") <==> !Truthy(g.defaultOwner)
  {
    TG.GenDefaults(Str("olive"), Or(g.defaultSort, ""), OrNull(g.defaultYearPlanted), OrNull(g.defaultOwner),
      Str(StatusFor(g.defaultOwner)))
  }

  /** Every generated tree is an olive, unavailable exactly when the garden has
      a default owner. */
  lemma GeneratedRows(count: nat, g: GL.Garden, rows: seq<NewRow>)
    requires count >= 1 && |rows| == count
    requires forall k :: 0 <= k < count ==> rows[k] == TG.GridRecord(count, g.id, GenerateDefaults(g), k)
    ensures forall k :: 0 <= k < count ==>
      rows[k].itemType == Str("olive") && (rows[k].status == Str("Unavailable") <==> Truthy(g.defaultOwner))
  {
    var d := GenerateDefaults(g);
    forall k | 0 <= k < count
      ensures rows[k].itemType == Str("olive") && (rows[k].status == Str("Unavailable") <==> Truthy(g.defaultOwner))
    {
      assert rows[k] == TG.GridRecord(count, g.id, d, k);
    }
  }

  /** The list and the cache entries after a forced refetch of the garden `id`
      (`if (id) fetchTrees(id, true)`) by a store showing the garden `shown`: the
      rows the refetch returned, cached under the id and shown when the id is the
      store's own; nothing changes without an id, with a fetch of it in flight,
      or when the refetch fails. */
  function Refetched(items: seq<Item>, entries: map<string, seq<Item>>, fetching: set<string>, shown: Option<string>,
                     id: Option<string>, refetch: Refetch): (r: (seq<Item>, map<string, seq<Item>>))
    ensures !TruthyText(id) || id.value in fetching || refetch.None? ==> r == (items, entries)
    ensures TruthyText(id) && id.value !in fetching && refetch.Some? ==>
      var fetched := FetchedItems(refetch.value.0, refetch.value.1);
      r.1 == entries[id.value := fetched] && id.value in r.1 &&
      r.0 == if shown == id then fetched else items
  {
    if !TruthyText(id) || id.value in fetching || refetch.None? then (items, entries)
    else
      var fetched := FetchedItems(refetch.value.0, refetch.value.1);
      (if shown == id then fetched else items, entries[id.value := fetched])
  }

  /** A second forced refetch with the same outcome changes nothing more: the
      refresh inside the undo hook and the one after it leave what one leaves. */
  lemma RefetchedTwice(items: seq<Item>, entries: map<string, seq<Item>>, fetching: set<string>, shown: Option<string>,
                       id: Option<string>, refetch: Refetch)
    ensures var once := Refetched(items, entries, fetching, shown, id, refetch);
      Refetched(once.0, once.1, fetching, shown, id, refetch) == once
  {
    var once := Refetched(items, entries, fetching, shown, id, refetch);
    if TruthyText(id) && id.value !in fetching && refetch.Some? {
      var fetched := FetchedItems(refetch.value.0, refetch.value.1);
      assert once.1[id.value := fetched] == once.1;
    }
  }

  /** What is being dragged onto the canvas: an item already on it, or a
      template from the palette. */
  datatype Dragged = Repositioning(item: Item) | FromPalette(template: Category)

  type Refetch = Option<(seq<TreeRecord>, seq<ItemRecord>)>

  class Screen {
    const isAdmin: bool
    const gardens: GL.GardenStore
    const store: ItemStore
    const undo: UndoStack
    const table: TF.TableFilterState
    const view: CardView
    var selectedTreeIds: seq<string>
    var showAvailableOnly: bool
    var editingTreeId: Option<string>

    constructor(isAdmin: bool, gardens: GL.GardenStore, store: ItemStore, undo: UndoStack,
                table: TF.TableFilterState, view: CardView)
      ensures this.isAdmin == isAdmin && this.gardens == gardens && this.store == store
      ensures this.undo == undo && this.table == table && this.view == view
      ensures selectedTreeIds == [] && !showAvailableOnly && editingTreeId.None?
    {
      this.isAdmin := isAdmin;
      this.gardens := gardens;
      this.store := store;
      this.undo := undo;
      this.table := table;
      this.view := view;
      selectedTreeIds := [];
      showAvailableOnly := false;
      editingTreeId := None;
    }

    // -------------------------------------------------------------------------
    // Effects

    /** The effect on the status filter: the toggle shows whether the status
        filter is exactly ['Available']. */
    method SyncAvailableOnly()
      modifies this
      ensures showAvailableOnly <==> FH.ListOf(table.filters, FH.StatusColumn) == ["Available"]
      ensures selectedTreeIds == old(selectedTreeIds) && editingTreeId == old(editingTreeId)
    {
      var status := FH.ListOf(table.filters, FH.StatusColumn);
      var onlyAvailable := |status| == 1 && status[0] == "Available";
      if onlyAvailable && !showAvailableOnly {
        showAvailableOnly := true;
      } else if !onlyAvailable && showAvailableOnly {
        showAvailableOnly := false;
      }
    }

    /** The effect on `currentIndex`: another garden starts with an empty undo
        stack, no selection and no table filters (and so the toggle off). */
    method GardenChanged()
      modifies this, undo, table
      ensures undo.stack == [] && selectedTreeIds == [] && table.Initial() && !showAvailableOnly
      ensures editingTreeId == old(editingTreeId)
    {
      undo.ClearUndoStack();
      selectedTreeIds := [];
      table.ResetAllFilters();
      SyncAvailableOnly();
    }

    // -------------------------------------------------------------------------
    // Paging

    /** `goToNext` (forward) and `goToPrevious`: the view returns to zoom 1 with
        no pan, the index moves round the carousel, a changed index resets the
        garden's state, and the garden one further step on is preloaded when it
        exists. `preload` is the id asked for; afterwards it is cached or in
        flight. */
    method Navigate(forward: bool) returns (preload: Option<string>)
      modifies this, gardens, view, undo, table, store
      ensures var i, n := old(gardens.currentIndex), |old(gardens.gardens)|;
        gardens.currentIndex == if forward then Carousel.Next(isAdmin, i, n) else Carousel.Prev(isAdmin, i, n)
      ensures gardens.gardens == old(gardens.gardens) && gardens.loading == old(gardens.loading)
      ensures gardens.navigateToNewGarden == old(gardens.navigateToNewGarden)
      ensures view.Valid() && view.Synced() && view.Current() == View(1.0, 0.0, 0.0)
      ensures gardens.currentIndex != old(gardens.currentIndex) ==>
        undo.stack == [] && selectedTreeIds == [] && table.Initial() && !showAvailableOnly
      ensures gardens.currentIndex == old(gardens.currentIndex) ==>
        unchanged(undo, table) && selectedTreeIds == old(selectedTreeIds) && showAvailableOnly == old(showAvailableOnly)
      ensures editingTreeId == old(editingTreeId)
      ensures var t := Carousel.PreloadIndex(isAdmin, forward, gardens.currentIndex, |gardens.gardens|);
        preload == if t.Some? && gardens.gardens[t.value].id != "" then Some(gardens.gardens[t.value].id) else None
      ensures preload.Some? ==> preload.value in store.fetching || preload.value in store.cache.entries
      ensures gardens.currentIndex == old(gardens.currentIndex) ==>
        store.items == old(store.items) && store.gardenId == old(store.gardenId)
      ensures gardens.currentIndex != old(gardens.currentIndex) ==>
        var id := GardenIdOf(gardens.CurrentGarden());
        store.gardenId == id &&
        (!TruthyText(id) ==> store.items == []) &&
        (TruthyText(id) && id.value in store.cache.entries ==> store.items == store.cache.entries[id.value]) &&
        (TruthyText(id) ==> id.value in store.fetching || id.value in store.cache.entries)
    {
      view.ResetView();
      var n := |gardens.gardens|;
      var previous := gardens.currentIndex;
      var newIndex := if forward then Carousel.Next(isAdmin, previous, n) else Carousel.Prev(isAdmin, previous, n);
      gardens.SetCurrentIndex(newIndex);
      if newIndex != previous {
        GardenChanged();
      }
      var t := Carousel.PreloadIndex(isAdmin, forward, newIndex, n);
      preload := if t.Some? && gardens.gardens[t.value].id != "" then Some(gardens.gardens[t.value].id) else None;
      FollowGarden(preload, newIndex != previous, GardenIdOf(gardens.CurrentGarden()));
    }

    /** The store's side of a navigation: the preload of the garden one step
        further on, then, when the index `changed`, the switch of the item list
        to the garden `id` now shown. */
    method FollowGarden(preload: Option<string>, changed: bool, id: Option<string>)
      modifies store
      ensures preload.Some? ==> preload.value in store.fetching || preload.value in store.cache.entries
      ensures !changed ==> store.items == old(store.items) && store.gardenId == old(store.gardenId)
      ensures changed ==>
        store.gardenId == id &&
        (!TruthyText(id) ==> store.items == []) &&
        (TruthyText(id) && id.value in store.cache.entries ==> store.items == store.cache.entries[id.value]) &&
        (TruthyText(id) ==> id.value in store.fetching || id.value in store.cache.entries)
    {
      if preload.Some? {
        var _ := store.PreloadGarden(preload.value);
      }
      if changed {
        var _ := store.SwitchGarden(id);
      }
    }

    // -------------------------------------------------------------------------
    // Selection and the status toggle

    /** `handleToggleTreeSelection(id)` */
    method ToggleTreeSelection(id: string)
      modifies this
      ensures selectedTreeIds == TF.Toggle(old(selectedTreeIds), id)
      ensures id in selectedTreeIds <==> id !in old(selectedTreeIds)
      ensures showAvailableOnly == old(showAvailableOnly) && editingTreeId == old(editingTreeId)
    {
      selectedTreeIds := TF.Toggle(selectedTreeIds, id);
    }

    /** `handleTreeClick(item)`: clicking the item being edited closes its card,
        clicking another opens it. */
    method TreeClick(id: string)
      modifies this
      ensures editingTreeId == if old(editingTreeId) == Some(id) then None else Some(id)
      ensures selectedTreeIds == old(selectedTreeIds) && showAvailableOnly == old(showAvailableOnly)
    {
      editingTreeId := if editingTreeId == Some(id) then None else Some(id);
    }

    /** The header's "available only" switch: switching off clears the status
        filter, switching on makes it exactly ['Available']; the sync effect then
        flips the switch. The other filters stay. */
    method ToggleAvailableOnly()
      modifies this, table
      ensures FH.ListOf(table.filters, FH.StatusColumn) == if old(showAvailableOnly) then [] else ["Available"]
      ensures forall c :: c != FH.StatusColumn ==> FH.ListOf(table.filters, c) == FH.ListOf(old(table.filters), c)
      ensures showAvailableOnly == !old(showAvailableOnly)
      ensures table.sortColumn == old(table.sortColumn) && table.direction == old(table.direction)
      ensures selectedTreeIds == old(selectedTreeIds) && editingTreeId == old(editingTreeId)
    {
      if showAvailableOnly {
        table.ClearFilters(FH.StatusColumn);
      } else {
        table.SelectAllFilters(FH.StatusColumn, ["Available"]);
      }
      SyncAvailableOnly();
    }

    // -------------------------------------------------------------------------
    // Adding and moving items

    /** `addItem` at (x, y) with the current garden's defaults, and an 'add'
        record when the insert returned an id. */
    method AddAt(template: Category, x: real, y: real, newId: Option<string>) returns (write: Write)
      requires gardens.CurrentGarden().Some?
      modifies store, store.cache, undo
      ensures var g := gardens.CurrentGarden().value;
        write == AddWrite(g.id, template, x, y, GardenDefaults(g)) &&
        (newId.Some? ==>
          var it := AddedItem(newId.value, template, x, y, GardenDefaults(g));
          store.items == old(store.items) + [it] && store.cache.entries == old(store.cache.entries)[g.id := store.items] &&
          undo.stack == Push(old(undo.stack), AddAction(it), undo.maxStackSize)) &&
        (newId.None? ==> store.items == old(store.items) && store.cache.entries == old(store.cache.entries) && undo.stack == old(undo.stack))
      ensures store.gardenId == old(store.gardenId) && store.fetching == old(store.fetching)
    {
      var g := gardens.CurrentGarden().value;
      var added;
      added, write := store.AddItem(g.id, template, x, y, GardenDefaults(g), newId);
      if added.Some? {
        undo.AddToUndoStack(AddAction(added.value));
      }
      assert gardens.CurrentGarden() == Some(g);
    }

    /** The move of an existing item to (x, y): the write goes to the table of
        the listed item with that id (the items table when none is listed), and a
        'move' record from its listed position is kept when the write succeeded
        and the item was listed. */
    method MoveExisting(dragged: Item, x: real, y: real, ok: bool) returns (write: Write)
      modifies store, store.cache, undo
      ensures var current := FindById(old(store.items), dragged.id);
        write == Update(TableOf(if current.Some? then current.value.category else Other), [dragged.id], SetPosition(x, y)) &&
        store.items == (if ok then MoveTo(old(store.items), dragged.id, x, y) else old(store.items)) &&
        undo.stack == if ok && current.Some? then
          Push(old(undo.stack), MoveAction(dragged, current.value.x, current.value.y, x, y), undo.maxStackSize)
        else old(undo.stack)
      ensures store.cache.entries ==
        if ok && TruthyText(store.gardenId) then old(store.cache.entries)[store.gardenId.value := store.items] else old(store.cache.entries)
      ensures store.gardenId == old(store.gardenId) && store.fetching == old(store.fetching)
    {
      var current := FindById(store.items, dragged.id);
      var category := if current.Some? then current.value.category else Other;
      write := store.UpdateItemPosition(dragged.id, x, y, category, ok);
      if ok && current.Some? {
        undo.AddToUndoStack(MoveAction(dragged, current.value.x, current.value.y, x, y));
      }
    }

    /** `handleDrop`: a palette item lands at the plain percentage of the card. */
    method Drop(template: Category, clientX: real, clientY: real, card: Rect, newId: Option<string>) returns (write: Write)
      requires gardens.CurrentGarden().Some? && card.width != 0.0 && card.height != 0.0
      modifies store, store.cache, undo
      ensures var g := gardens.CurrentGarden().value;
        write == AddWrite(g.id, template, LinearPercent(clientX, card.left, card.width),
          LinearPercent(clientY, card.top, card.height), GardenDefaults(g))
      ensures var g, x, y := gardens.CurrentGarden().value, LinearPercent(clientX, card.left, card.width),
          LinearPercent(clientY, card.top, card.height);
        newId.Some? ==>
          var it := AddedItem(newId.value, template, x, y, GardenDefaults(g));
          store.items == old(store.items) + [it] && store.cache.entries == old(store.cache.entries)[g.id := store.items] &&
          undo.stack == Push(old(undo.stack), AddAction(it), undo.maxStackSize)
      ensures newId.None? ==>
        store.items == old(store.items) && store.cache.entries == old(store.cache.entries) && undo.stack == old(undo.stack)
    {
      write := AddAt(template, LinearPercent(clientX, card.left, card.width), LinearPercent(clientY, card.top, card.height), newId);
    }

    /** `handleTouchEnd` for a palette item: it is placed only when the release
        point lies on the card, edges included. */
    method TouchEnd(template: Category, touchX: real, touchY: real, card: Option<Rect>, newId: Option<string>)
      returns (write: Option<Write>)
      requires gardens.CurrentGarden().Some?
      requires card.Some? ==> card.value.width != 0.0 && card.value.height != 0.0
      modifies store, store.cache, undo
      ensures write.Some? <==> card.Some? && InCard(touchX, touchY, card.value)
      ensures write.Some? ==>
        var g, x, y := gardens.CurrentGarden().value, LinearPercent(touchX, card.value.left, card.value.width),
          LinearPercent(touchY, card.value.top, card.value.height);
        write.value == AddWrite(g.id, template, x, y, GardenDefaults(g)) &&
        (newId.Some? ==>
          var it := AddedItem(newId.value, template, x, y, GardenDefaults(g));
          store.items == old(store.items) + [it] && store.cache.entries == old(store.cache.entries)[g.id := store.items] &&
          undo.stack == Push(old(undo.stack), AddAction(it), undo.maxStackSize)) &&
        (newId.None? ==> store.items == old(store.items) && store.cache.entries == old(store.cache.entries) && undo.stack == old(undo.stack))
      ensures write.None? ==> unchanged(store, store.cache, undo)
    {
      write := None;
      if card.Some? && InCard(touchX, touchY, card.value) {
        var r := card.value;
        var w := AddAt(template, LinearPercent(touchX, r.left, r.width), LinearPercent(touchY, r.top, r.height), newId);
        write := Some(w);
      }
    }

    /** `handleDroppedItemTouchEnd`: an item moved by touch lands where the
        inverse of the zoom and pan transform puts the release point, clamped to
        [2, 98] on each axis. */
    method DroppedItemTouchEnd(dragged: Item, touchX: real, touchY: real, card: Option<Rect>, ok: bool)
      returns (write: Option<Write>)
      requires view.Valid()
      requires card.Some? ==> card.value.width != 0.0 && card.value.height != 0.0
      modifies store, store.cache, undo
      ensures write.Some? <==> card.Some?
      ensures write.Some? ==>
        var r, v := card.value, view.Current();
        var x, y := RepositionPercent(touchX, r.left, r.width, v, v.panX), RepositionPercent(touchY, r.top, r.height, v, v.panY);
        var current := FindById(old(store.items), dragged.id);
        write.value == Update(TableOf(if current.Some? then current.value.category else Other), [dragged.id], SetPosition(x, y)) &&
        2.0 <= x <= 98.0 && 2.0 <= y <= 98.0 &&
        store.items == (if ok then MoveTo(old(store.items), dragged.id, x, y) else old(store.items)) &&
        store.cache.entries ==
          (if ok && TruthyText(store.gardenId) then old(store.cache.entries)[store.gardenId.value := store.items] else old(store.cache.entries)) &&
        undo.stack == if ok && current.Some? then
          Push(old(undo.stack), MoveAction(dragged, current.value.x, current.value.y, x, y), undo.maxStackSize)
        else old(undo.stack)
      ensures write.None? ==> unchanged(store, store.cache, undo)
    {
      write := None;
      if card.Some? {
        var r, v := card.value, view.Current();
        var x := RepositionPercent(touchX, r.left, r.width, v, v.panX);
        var y := RepositionPercent(touchY, r.top, r.height, v, v.panY);
        var w := MoveExisting(dragged, x, y, ok);
        write := Some(w);
      }
    }

    /** `handleRepositionDrop`: a mouse drop, at the plain percentage of the
        card, moves an item already on it or adds a palette item. */
    method RepositionDrop(d: Dragged, clientX: real, clientY: real, card: Rect, ok: bool, newId: Option<string>)
      returns (write: Write)
      requires gardens.CurrentGarden().Some? && card.width != 0.0 && card.height != 0.0
      modifies store, store.cache, undo
      ensures d.Repositioning? ==>
        var x, y := LinearPercent(clientX, card.left, card.width), LinearPercent(clientY, card.top, card.height);
        var current := FindById(old(store.items), d.item.id);
        write == Update(TableOf(if current.Some? then current.value.category else Other), [d.item.id], SetPosition(x, y)) &&
        store.items == (if ok then MoveTo(old(store.items), d.item.id, x, y) else old(store.items)) &&
        store.cache.entries ==
          (if ok && TruthyText(store.gardenId) then old(store.cache.entries)[store.gardenId.value := store.items] else old(store.cache.entries)) &&
        undo.stack == if ok && current.Some? then
          Push(old(undo.stack), MoveAction(d.item, current.value.x, current.value.y, x, y), undo.maxStackSize)
        else old(undo.stack)
      ensures d.FromPalette? ==>
        var g, x, y := gardens.CurrentGarden().value, LinearPercent(clientX, card.left, card.width),
          LinearPercent(clientY, card.top, card.height);
        write == AddWrite(g.id, d.template, x, y, GardenDefaults(g)) &&
        (newId.Some? ==>
          var it := AddedItem(newId.value, d.template, x, y, GardenDefaults(g));
          store.items == old(store.items) + [it] && store.cache.entries == old(store.cache.entries)[g.id := store.items] &&
          undo.stack == Push(old(undo.stack), AddAction(it), undo.maxStackSize)) &&
        (newId.None? ==> store.items == old(store.items) && store.cache.entries == old(store.cache.entries) && undo.stack == old(undo.stack))
    {
      var x := LinearPercent(clientX, card.left, card.width);
      var y := LinearPercent(clientY, card.top, card.height);
      if d.Repositioning? {
        write := MoveExisting(d.item, x, y, ok);
      } else {
        write := AddAt(d.template, x, y, newId);
      }
    }

    // -------------------------------------------------------------------------
    // Removing, avatars, generation

    /** `handleRemoveItem(id)`: nothing for an id that is not listed; otherwise
        the soft delete, and on success the card closes and a 'delete' record
        of the listed item is kept, whose forward write is the one sent. */
    method RemoveItem(id: string, ok: bool) returns (write: Option<Write>)
      modifies this, store, store.cache, undo
      ensures var current := FindById(old(store.items), id);
        (current.None? ==> write.None? && unchanged(store, store.cache, undo) && editingTreeId == old(editingTreeId)) &&
        (current.Some? ==>
          write == Some(Update(TableOf(current.value.category), [id], SetActive(false))) &&
          store.items == (if ok then WithoutId(old(store.items), id) else old(store.items)) &&
          (store.cache.entries == if ok && TruthyText(store.gardenId) then old(store.cache.entries)[store.gardenId.value := store.items] else old(store.cache.entries)) &&
          undo.stack == (if ok then Push(old(undo.stack), DeleteAction(current.value), undo.maxStackSize) else old(undo.stack)) &&
          editingTreeId == (if ok then None else old(editingTreeId)) &&
          Forward(DeleteAction(current.value)) == [write.value])
      ensures selectedTreeIds == old(selectedTreeIds) && showAvailableOnly == old(showAvailableOnly)
      ensures store.gardenId == old(store.gardenId) && store.fetching == old(store.fetching)
    {
      var current := FindById(store.items, id);
      if current.None? {
        return None;
      }
      var success, deleted, w := store.DeleteItem(id, current.value.category, ok);
      write := Some(w);
      if success {
        editingTreeId := None;
        undo.AddToUndoStack(DeleteAction(deleted.value));
      }
    }

    /** `handleSaveAvatar`: nothing without a listed item, and no write when the
        avatar (`|| null`) is unchanged; otherwise the avatar write, and on
        success an 'avatar' record whose forward write is the one sent. */
    method SaveAvatar(editingAvatarId: Option<string>, url: string, ok: bool) returns (write: Option<Write>)
      modifies store, store.cache, undo
      ensures var current := if TruthyText(editingAvatarId) then FindById(old(store.items), editingAvatarId.value) else None;
        ((current.None? || StrictEquals(OrNull(current.value.customAvatar), OrNull(Str(url)))) ==>
          write.None? && unchanged(store, store.cache, undo)) &&
        (current.Some? && !StrictEquals(OrNull(current.value.customAvatar), OrNull(Str(url))) ==>
          var it := current.value;
          var a := AvatarAction(it, OrNull(it.customAvatar), it.imageUrl, OrNull(Str(url)), if url != "" then url else it.imageUrl);
          write.Some? && [write.value] == Forward(a) &&
          store.items == (if ok then WithAvatar(old(store.items), it.id, Some(url)) else old(store.items)) &&
          (store.cache.entries == if ok && TruthyText(store.gardenId) then old(store.cache.entries)[store.gardenId.value := store.items] else old(store.cache.entries)) &&
          undo.stack == if ok then Push(old(undo.stack), a, undo.maxStackSize) else old(undo.stack))
      ensures store.gardenId == old(store.gardenId) && store.fetching == old(store.fetching)
    {
      write := None;
      if !TruthyText(editingAvatarId) {
        return;
      }
      var current := FindById(store.items, editingAvatarId.value);
      if current.None? {
        return;
      }
      var it := current.value;
      var oldAvatar := OrNull(it.customAvatar);
      if StrictEquals(oldAvatar, OrNull(Str(url))) {
        return;
      }
      var a := AvatarAction(it, oldAvatar, it.imageUrl, OrNull(Str(url)), if url != "" then url else it.imageUrl);
      AvatarEditWrite(it, oldAvatar, url);
      assert it.id == editingAvatarId.value;
      var w := store.UpdateItemAvatar(editingAvatarId.value, Some(url), it.category, ok);
      write := Some(w);
      if ok {
        undo.AddToUndoStack(a);
      }
    }

    /** `fetchTrees(gId, true)`: a forced refetch, unless one is in flight. */
    method ForceFetch(gId: string, result: Refetch)
      modifies store, store.cache
      ensures gId !in old(store.fetching) && result.Some? ==>
        var fetched := FetchedItems(result.value.0, result.value.1);
        store.cache.entries == old(store.cache.entries)[gId := fetched] &&
        store.items == if store.gardenId == Some(gId) then fetched else old(store.items)
      ensures gId in old(store.fetching) || result.None? ==>
        store.items == old(store.items) && store.cache.entries == old(store.cache.entries)
      ensures store.fetching == old(store.fetching) && store.gardenId == old(store.gardenId)
    {
      var started := store.BeginFetch(gId, true);
      if started {
        store.CompleteFetch(gId, result);
      }
    }

    /** What follows a batch insert that returned `ids`: the forced refetch of
        the garden, then one 'generate' record of the batch. */
    method RecordBatch(gId: string, ids: seq<string>, refetch: Refetch)
      modifies store, store.cache, undo
      ensures undo.stack == Push(old(undo.stack), GenerateAction(ids, |ids|), undo.maxStackSize)
      ensures gId !in old(store.fetching) && refetch.Some? ==>
        var fetched := FetchedItems(refetch.value.0, refetch.value.1);
        store.cache.entries == old(store.cache.entries)[gId := fetched] &&
        store.items == if store.gardenId == Some(gId) then fetched else old(store.items)
      ensures gId in old(store.fetching) || refetch.None? ==>
        store.items == old(store.items) && store.cache.entries == old(store.cache.entries)
    {
      ForceFetch(gId, refetch);
      undo.AddToUndoStack(GenerateAction(ids, |ids|));
    }

    /** `handleGenerateTrees`: a count text that does not parse to 1..1000 is
        rejected before anything is written; otherwise one batch of trees with the
        garden's defaults, and once the insert has returned the new ids, a
        refetch and one 'generate' record of them. */
    method GenerateTrees(countText: string, insertedIds: Option<seq<string>>, refetch: Refetch)
      returns (write: Option<Write>)
      requires gardens.CurrentGarden().Some?
      modifies store, store.cache, undo
      ensures write.None? <==> ParseInt(countText).None? || !TG.ValidCount(ParseInt(countText).value)
      ensures write.Some? ==> var g, count := gardens.CurrentGarden().value, ParseInt(countText).value;
        write.value.Insert? && write.value.into == Trees && |write.value.rows| == count &&
        (forall k :: 0 <= k < count ==>
          write.value.rows[k] == TG.GridRecord(count, g.id, GenerateDefaults(g), k) &&
          write.value.rows[k].itemType == Str("olive") &&
          (write.value.rows[k].status == Str("Unavailable") <==> Truthy(g.defaultOwner)))
      ensures write.Some? && insertedIds.Some? ==>
        undo.stack == Push(old(undo.stack), GenerateAction(insertedIds.value, |insertedIds.value|), undo.maxStackSize)
      ensures write.Some? && insertedIds.Some? ==>
        var id := gardens.CurrentGarden().value.id;
        (id !in old(store.fetching) && refetch.Some? ==>
          var fetched := FetchedItems(refetch.value.0, refetch.value.1);
          store.cache.entries == old(store.cache.entries)[id := fetched] &&
          store.items == if store.gardenId == Some(id) then fetched else old(store.items)) &&
        (id in old(store.fetching) || refetch.None? ==>
          store.items == old(store.items) && store.cache.entries == old(store.cache.entries))
      ensures write.None? || insertedIds.None? ==> unchanged(store, store.cache, undo)
    {
      var count := ParseInt(countText);
      if count.None? || count.value == 0 || count.value < 1 || count.value > 1000 {
        return None;
      }
      var g := gardens.CurrentGarden().value;
      write := TG.GenerateTrees(count.value, g.id, GenerateDefaults(g));
      GeneratedRows(count.value, g, write.value.rows);
      if insertedIds.Some? {
        RecordBatch(g.id, insertedIds.value, refetch);
      }
    }

    // -------------------------------------------------------------------------
    // Undo and field edits

    /** `handleUndo`: the undo hook's reversal (whose refresh, after a delete or a
        generate, refetches the current garden), then on success the card closes
        and the garden is refetched once more. */
    method UndoLast(writeOk: bool, refetch: Refetch) returns (success: bool, writes: seq<Write>)
      modifies this, undo, store, store.cache
      ensures old(undo.stack) == [] ==> !success && writes == [] && undo.stack == []
      ensures old(undo.stack) != [] ==> writes == Inverse(old(undo.stack)[0])
      ensures success <==> old(undo.stack) != [] && writeOk
      ensures undo.stack == if success then old(undo.stack)[1..] else old(undo.stack)
      ensures editingTreeId == if success then None else old(editingTreeId)
      ensures !success ==> unchanged(store, store.cache)
      ensures success ==>
        (store.items, store.cache.entries) == Refetched(old(store.items), old(store.cache.entries), old(store.fetching), old(store.gardenId), GardenIdOf(gardens.CurrentGarden()), refetch)
      ensures selectedTreeIds == old(selectedTreeIds)
    {
      var action, refresh;
      success, action, writes, refresh := undo.UndoLast(writeOk);
      if refresh {
        RefreshCurrent(refetch);
      }
      if success {
        editingTreeId := None;
        RefreshCurrent(refetch);
        if refresh {
          RefetchedTwice(old(store.items), old(store.cache.entries), old(store.fetching), old(store.gardenId), GardenIdOf(gardens.CurrentGarden()), refetch);
        }
      }
    }

    /** `if (currentGarden?.id) await fetchTrees(currentGarden.id, true)` */
    method RefreshCurrent(refetch: Refetch)
      modifies store, store.cache
      ensures (store.items, store.cache.entries) ==
        Refetched(old(store.items), old(store.cache.entries), old(store.fetching), old(store.gardenId), GardenIdOf(gardens.CurrentGarden()), refetch)
      ensures store.fetching == old(store.fetching) && store.gardenId == old(store.gardenId)
    {
      var g := gardens.CurrentGarden();
      if g.Some? && g.value.id != "" {
        ForceFetch(g.value.id, refetch);
      }
    }

    /** `handleUpdateTreeField(field, value)` for the item being edited: nothing
        when no listed item is being edited or the value is strictly equal to the
        item's; otherwise the writes of `EditOwner` or `EditField`. */
    method UpdateTreeField(f: Field, value: Value, firstOk: bool, secondOk: bool) returns (writes: seq<Write>)
      modifies store, store.cache, undo
      ensures var current := if TruthyText(editingTreeId) then FindById(old(store.items), editingTreeId.value) else None;
        ((current.None? || StrictEquals(Get(current.value, f), value)) ==>
          writes == [] && unchanged(store, store.cache, undo)) &&
        (current.Some? && !StrictEquals(Get(current.value, f), value) ==>
          var a := EditFor(current.value, f, value);
          var stored := firstOk || (f == OwnerField && current.value.category == Tree && secondOk);
          writes == Forward(a) &&
          store.items == Edited(old(store.items), current.value, f, value, firstOk, secondOk) &&
          (store.cache.entries == if stored && TruthyText(store.gardenId) then old(store.cache.entries)[store.gardenId.value := store.items] else old(store.cache.entries)) &&
          undo.stack == if firstOk && (secondOk || |writes| == 1) then Push(old(undo.stack), a, undo.maxStackSize) else old(undo.stack))
      ensures store.gardenId == old(store.gardenId) && store.fetching == old(store.fetching)
    {
      writes := [];
      if !TruthyText(editingTreeId) {
        return;
      }
      var current := FindById(store.items, editingTreeId.value);
      if current.None? {
        return;
      }
      if StrictEquals(Get(current.value, f), value) {
        return;
      }
      if f == OwnerField && current.value.category == Tree {
        writes := EditOwner(current.value, value, firstOk, secondOk);
      } else {
        writes := EditField(current.value, f, value, firstOk);
      }
    }

    /** An owner edit on a tree: the owner write of the normalised owner, then the
        status write of the status it implies; the edit is recorded only when both
        succeed, and the two writes are its forward writes. */
    method EditOwner(it: Item, value: Value, ownerOk: bool, statusOk: bool) returns (writes: seq<Write>)
      requires it.category == Tree
      modifies store, store.cache, undo
      ensures var ownerValue := OwnerValue(value);
        var afterOwner := if ownerOk then WithField(old(store.items), it.id, OwnerField, ownerValue) else old(store.items);
        store.items == if statusOk then WithField(afterOwner, it.id, StatusField, Str(StatusFor(ownerValue))) else afterOwner
      ensures store.cache.entries == if (ownerOk || statusOk) && TruthyText(store.gardenId) then old(store.cache.entries)[store.gardenId.value := store.items] else old(store.cache.entries)
      ensures store.gardenId == old(store.gardenId) && store.fetching == old(store.fetching)
      ensures writes == Forward(EditFor(it, OwnerField, value)) && |writes| == 2
      ensures undo.stack == if ownerOk && statusOk then Push(old(undo.stack), EditFor(it, OwnerField, value), undo.maxStackSize) else old(undo.stack)
    {
      var ownerValue := OwnerValue(value);
      var a := EditFor(it, OwnerField, value);
      assert a == EditAction(it, OwnerField, Get(it, OwnerField), ownerValue);
      OwnerEditWrites(it, ownerValue);
      assert OrNull(ownerValue) == ownerValue && OrNull(Str(StatusFor(ownerValue))) == Str(StatusFor(ownerValue));
      var w1, w2 := StoreOwner(it.id, ownerValue, ownerOk, statusOk);
      writes := [w1, w2];
      if ownerOk && statusOk {
        undo.AddToUndoStack(a);
      }
    }

    /** The two store writes of a tree's owner edit: the owner column, then the
        status column with the status the owner implies. */
    method StoreOwner(id: string, ownerValue: Value, ownerOk: bool, statusOk: bool) returns (w1: Write, w2: Write)
      modifies store, store.cache
      ensures var t := TableOf(Tree);
        w1 == Update(t, [id], SetColumn(Column(t, OwnerField), OrNull(ownerValue))) &&
        w2 == Update(t, [id], SetColumn(Column(t, StatusField), OrNull(Str(StatusFor(ownerValue)))))
      ensures var afterOwner := if ownerOk then WithField(old(store.items), id, OwnerField, OrNull(ownerValue)) else old(store.items);
        store.items == if statusOk then WithField(afterOwner, id, StatusField, OrNull(Str(StatusFor(ownerValue)))) else afterOwner
      ensures store.cache.entries == if (ownerOk || statusOk) && TruthyText(store.gardenId) then old(store.cache.entries)[store.gardenId.value := store.items] else old(store.cache.entries)
      ensures store.gardenId == old(store.gardenId) && store.fetching == old(store.fetching)
    {
      ghost var entries0 := store.cache.entries;
      w1 := store.UpdateItemField(id, OwnerField, ownerValue, Tree, ownerOk);
      ghost var items1, entries1 := store.items, store.cache.entries;
      w2 := store.UpdateItemField(id, StatusField, Str(StatusFor(ownerValue)), Tree, statusOk);
      if ownerOk && statusOk && TruthyText(store.gardenId) {
        var k := store.gardenId.value;
        assert entries0[k := items1][k := store.items] == entries0[k := store.items];
      }
    }

    /** Any other edit: `value || null` in the field's column, recorded on
        success; the write is the edit's forward write. */
    method EditField(it: Item, f: Field, value: Value, ok: bool) returns (writes: seq<Write>)
      requires !(f == OwnerField && it.category == Tree)
      modifies store, store.cache, undo
      ensures store.items == if ok then WithField(old(store.items), it.id, f, OrNull(value)) else old(store.items)
      ensures store.cache.entries == if ok && TruthyText(store.gardenId) then old(store.cache.entries)[store.gardenId.value := store.items] else old(store.cache.entries)
      ensures store.gardenId == old(store.gardenId) && store.fetching == old(store.fetching)
      ensures writes == Forward(EditFor(it, f, value)) && |writes| == 1
      ensures undo.stack == if ok then Push(old(undo.stack), EditFor(it, f, value), undo.maxStackSize) else old(undo.stack)
    {
      var w := store.UpdateItemField(it.id, f, value, it.category, ok);
      writes := [w];
      if ok {
        undo.AddToUndoStack(EditAction(it, f, Get(it, f), value));
      }
    }
  }
}
