/** The item store of the garden screen (hooks/useTrees.js): the list of placed
    items, a cache of each garden's list shared by every store, the set of
    gardens being fetched, and the add, move, field, delete, avatar and photo
    operations. Each operation sends one write and changes the list only when the
    write succeeds; the outcome of the write is a parameter. */
module ItemStore {
  import opened Js
  import opened ItemCategories
  import opened Items

  /** The module-level `gardenCache`: garden id to that garden's item list. */
  class GardenCache {
    var entries: map<string, seq<Item>>

    constructor()
      ensures entries == map[]
    {
      entries := map[];
    }
  }

  /** A garden's defaults for new trees (`default_owner`, `default_year_planted`,
      `default_sort`). */
  datatype Defaults = Defaults(owner: Value, yearPlanted: Value, sort: Value)

  /** The kind an added template becomes: a building id gives a building, an
      other-item id an other item, anything else a tree. */
  function TemplateKind(templateId: string): (k: Kind)
    ensures k == Building <==> IsBuildingId(templateId)
    ensures k == Other <==> !IsBuildingId(templateId) && templateId in Ids(English.other)
  {
    if IsBuildingId(templateId) then Building
    else if templateId in Ids(English.other) then Other
    else Tree
  }

  /** `owner ? 'Unavailable' : 'Available'` */
  function StatusFor(owner: Value): (s: string)
    ensures s == "Unavailable" <==> Truthy(owner)
    ensures s == "Available" <==> !Truthy(owner)
  {
    if Truthy(owner) then "Unavailable" else "Available"
  }

  /** The row `addItem` inserts for a template dropped at (x, y). */
  function AddRow(gardenId: string, template: Category, x: real, y: real, d: Defaults): NewRow {
    if TemplateKind(template.id) == Tree then
      NewRow(gardenId, Str(template.id), OrNull(d.sort), OrNull(d.yearPlanted), OrNull(d.owner),
        Str(StatusFor(OrNull(d.owner))), x, y)
    else
      NewRow(gardenId, Str(template.id), Null, Null, Null, Null, x, y)
  }

  /** The item `addItem` appends once the row is stored under `newId`. */
  function AddedItem(newId: string, template: Category, x: real, y: real, d: Defaults): Item {
    var row := AddRow("", template, x, y, d);
    Item(newId, Str(template.name), template.imageUrl, x, y, Str(template.id), TemplateKind(template.id),
      row.sort, row.yearPlanted, row.owner, row.status, false, Null, Null, Null)
  }

  /** A tree takes the garden's defaults, each only when set, and is unavailable
      exactly when it gets an owner; buildings and other items take none. */
  lemma AddedItemDefaults(newId: string, template: Category, x: real, y: real, d: Defaults)
    ensures var it := AddedItem(newId, template, x, y, d);
      it.id == newId && it.x == x && it.y == y && it.itemType == Str(template.id) &&
      (it.category == Tree ==>
        it.owner == OrNull(d.owner) && it.yearPlanted == OrNull(d.yearPlanted) && it.sort == OrNull(d.sort) &&
        (it.status == Str("Unavailable") <==> Truthy(d.owner)) &&
        (it.status == Str("Available") <==> !Truthy(d.owner))) &&
      (it.category != Tree ==> it.owner == Null && it.yearPlanted == Null && it.sort == Null && it.status == Null)
  {
  }

  /** The write goes to the table of the template's kind. */
  function AddWrite(gardenId: string, template: Category, x: real, y: real, d: Defaults): (w: Write)
    ensures w.Insert? && |w.rows| == 1 && w.rows[0].gardenId == gardenId && !w.setsActive
    ensures w.into == TableOf(TemplateKind(template.id))
  {
    Insert(TableOf(TemplateKind(template.id)), [AddRow(gardenId, template, x, y, d)], false)
  }

  /** `it => ({ ...it, x, y })` */
  function MoveTo(items: seq<Item>, id: string, x: real, y: real): (r: seq<Item>)
    ensures |r| == |items|
  {
    UpdateById(items, id, (it: Item) => it.(x := x, y := y))
  }

  function WithField(items: seq<Item>, id: string, f: Field, v: Value): (r: seq<Item>)
    ensures |r| == |items|
  {
    UpdateById(items, id, it => Set(it, f, v))
  }

  /** The image an avatar change gives the item: the avatar when there is one,
      otherwise the image the first item with the id already shows. */
  function AvatarImage(items: seq<Item>, id: string, avatarUrl: Option<string>): string {
    if TruthyText(avatarUrl) then avatarUrl.value
    else match FindById(items, id)
      case Some(it) => it.imageUrl
      case None => ""
  }

  function WithAvatar(items: seq<Item>, id: string, avatarUrl: Option<string>): (r: seq<Item>)
    ensures |r| == |items|
  {
    var image := AvatarImage(items, id, avatarUrl);
    UpdateById(items, id, (it: Item) => it.(customAvatar := TextValue(TextOrNull(avatarUrl)), imageUrl := image))
  }

  function WithPhoto(items: seq<Item>, id: string, photoUrl: Value): (r: seq<Item>)
    ensures |r| == |items|
  {
    UpdateById(items, id, (it: Item) => it.(photoUrl := OrNull(photoUrl)))
  }

  /** Moving an item changes its position and nothing else, and no other item. */
  lemma MoveToSpec(items: seq<Item>, id: string, x: real, y: real)
    ensures var r := MoveTo(items, id, x, y);
      forall i :: 0 <= i < |items| ==>
        if items[i].id == id then r[i].x == x && r[i].y == y && r[i].(x := items[i].x, y := items[i].y) == items[i]
        else r[i] == items[i]
  {
  }

  /** A field edit sets that field of the item with the id, keeps its other
      fields, and leaves the other items as they were. */
  lemma WithFieldSpec(items: seq<Item>, id: string, f: Field, v: Value)
    ensures var r := WithField(items, id, f, v);
      forall i :: 0 <= i < |items| ==>
        if items[i].id == id then Get(r[i], f) == v && r[i] == Set(items[i], f, v) && r[i].id == id
        else r[i] == items[i]
  {
  }

  /** With one item per id, clearing the avatar keeps the image every item shows,
      and setting one shows it on that item only. */
  lemma WithAvatarSpec(items: seq<Item>, id: string, avatarUrl: Option<string>)
    requires forall i, j :: 0 <= i < j < |items| ==> items[i].id != items[j].id
    ensures var r := WithAvatar(items, id, avatarUrl);
      forall i :: 0 <= i < |items| ==>
        if items[i].id == id then
          r[i].customAvatar == (if TruthyText(avatarUrl) then Str(avatarUrl.value) else Null) &&
          r[i].imageUrl == (if TruthyText(avatarUrl) then avatarUrl.value else items[i].imageUrl) &&
          r[i].(customAvatar := items[i].customAvatar, imageUrl := items[i].imageUrl) == items[i]
        else r[i] == items[i]
  {
    var r := WithAvatar(items, id, avatarUrl);
    forall i | 0 <= i < |items| && items[i].id == id && !TruthyText(avatarUrl)
      ensures r[i].imageUrl == items[i].imageUrl
    {
      var found := FindById(items, id);
      var k :| FirstWith(items, id, k) && items[k] == found.value;
      assert k == i;
    }
  }

  class ItemStore {
    /** The garden the hook was created for (`useTrees(gardenId)`), if any. */
    var gardenId: Option<string>
    /** `droppedItems` */
    var items: seq<Item>
    var loading: bool
    /** `fetchingRef.current`: gardens whose fetch is in flight. */
    var fetching: set<string>
    const cache: GardenCache

    constructor(gardenId: Option<string>, cache: GardenCache)
      ensures this.gardenId == gardenId && this.cache == cache
      ensures items == [] && !loading && fetching == {}
    {
      this.gardenId := gardenId;
      this.cache := cache;
      items := [];
      loading := false;
      fetching := {};
    }

    /** `if (gardenId) gardenCache.set(gardenId, items)` after a local update. */
    method WriteThrough()
      modifies cache
      ensures cache.entries == if TruthyText(gardenId) then old(cache.entries)[gardenId.value := items] else old(cache.entries)
      ensures ShowsCurrent()
    {
      if TruthyText(gardenId) {
        cache.entries := cache.entries[gardenId.value := items];
      }
    }

    /** The hook is given another garden (`useTrees(currentGarden?.id)` with a new
        id): its effect starts a non-forced fetch of that garden, or empties the
        list when there is no garden. */
    method SwitchGarden(gId: Option<string>) returns (started: bool)
      modifies this
      ensures gardenId == gId
      ensures !TruthyText(gId) ==>
        !started && items == [] && fetching == old(fetching) && loading == old(loading)
      ensures TruthyText(gId) && gId.value in cache.entries ==>
        !started && items == cache.entries[gId.value] && fetching == old(fetching) && loading == old(loading)
      ensures TruthyText(gId) && gId.value !in cache.entries && gId.value in old(fetching) ==>
        !started && items == old(items) && fetching == old(fetching) && loading == old(loading)
      ensures TruthyText(gId) && gId.value !in cache.entries && gId.value !in old(fetching) ==>
        started && items == old(items) && fetching == old(fetching) + {gId.value} && loading
      ensures ShowsCurrent()
    {
      gardenId := gId;
      if TruthyText(gId) {
        started := BeginFetch(gId.value, false);
      } else {
        items := [];
        started := false;
      }
    }

    /** The synchronous start of `fetchTrees(gId, force)`: a cached list is shown at
        once unless a refresh is forced; a garden already being fetched is left
        alone; otherwise the fetch starts. */
    method BeginFetch(gId: string, force: bool) returns (started: bool)
      modifies this
      ensures gardenId == old(gardenId)
      ensures !force && gId in cache.entries ==>
        !started && items == cache.entries[gId] && fetching == old(fetching) && loading == old(loading)
      ensures (force || gId !in cache.entries) && gId in old(fetching) ==>
        !started && items == old(items) && fetching == old(fetching) && loading == old(loading)
      ensures (force || gId !in cache.entries) && gId !in old(fetching) ==>
        started && items == old(items) && fetching == old(fetching) + {gId} && loading
    {
      if !force && gId in cache.entries {
        items := cache.entries[gId];
        return false;
      }
      if gId in fetching {
        return false;
      }
      fetching := fetching + {gId};
      loading := true;
      return true;
    }

    /** The shown list is the current garden's: when the hook's garden has a
        cached list, that list is the one shown. */
    predicate ShowsCurrent()
      reads this, cache
    {
      TruthyText(gardenId) && gardenId.value in cache.entries ==> items == cache.entries[gardenId.value]
    }

    /** The end of a started fetch as the hook writes it: on success (both
        queries answered) the mapped list is cached and shown, whichever garden
        the fetch was for; in every case the garden leaves the in-flight set and
        loading stops. */
    method CompleteFetchAsWritten(gId: string, result: Option<(seq<TreeRecord>, seq<ItemRecord>)>)
      modifies this, cache
      ensures gardenId == old(gardenId)
      ensures result.Some? ==>
        items == FetchedItems(result.value.0, result.value.1) &&
        cache.entries == old(cache.entries)[gId := items]
      ensures result.None? ==> items == old(items) && cache.entries == old(cache.entries)
      ensures !loading && fetching == old(fetching) - {gId}
    {
      if result.Some? {
        var all := FetchedItems(result.value.0, result.value.1);
        cache.entries := cache.entries[gId := all];
        items := all;
      }
      loading := false;
      fetching := fetching - {gId};
    }

    /** The end of a started fetch: on success the mapped list is cached under
        the fetched garden and shown only when that garden is the hook's own, so
        a preload of a neighbour never replaces the list on the card. */
    method CompleteFetch(gId: string, result: Option<(seq<TreeRecord>, seq<ItemRecord>)>)
      modifies this, cache
      ensures gardenId == old(gardenId)
      ensures result.Some? ==>
        cache.entries == old(cache.entries)[gId := FetchedItems(result.value.0, result.value.1)] &&
        items == if gardenId == Some(gId) then FetchedItems(result.value.0, result.value.1) else old(items)
      ensures result.None? ==> items == old(items) && cache.entries == old(cache.entries)
      ensures !loading && fetching == old(fetching) - {gId}
      ensures old(ShowsCurrent()) ==> ShowsCurrent()
    {
      if result.Some? {
        var all := FetchedItems(result.value.0, result.value.1);
        cache.entries := cache.entries[gId := all];
        if gardenId == Some(gId) {
          items := all;
        }
      }
      loading := false;
      fetching := fetching - {gId};
    }

    method InvalidateCache(gId: string)
      modifies cache
      ensures cache.entries == old(cache.entries) - {gId}
    {
      cache.entries := cache.entries - {gId};
    }

    /** `preloadGarden`: fetch a garden that is neither cached nor in flight. */
    method PreloadGarden(gId: string) returns (started: bool)
      modifies this
      ensures started <==> gId !in cache.entries && gId !in old(fetching)
      ensures items == old(items) && gardenId == old(gardenId)
      ensures fetching == if started then old(fetching) + {gId} else old(fetching)
      ensures loading == if started then true else old(loading)
    {
      started := false;
      if gId !in cache.entries && gId !in fetching {
        started := BeginFetch(gId, false);
      }
    }

    /** `addItem(gId, template, position, defaults)`; `newId` is the id the insert
        returned, None when it failed. The new item is appended and the list cached
        under `gId`. */
    method AddItem(gId: string, template: Category, x: real, y: real, d: Defaults, newId: Option<string>)
      returns (added: Option<Item>, write: Write)
      modifies this, cache
      ensures write == AddWrite(gId, template, x, y, d)
      ensures newId.None? ==> added.None? && items == old(items) && cache.entries == old(cache.entries)
      ensures newId.Some? ==>
        added == Some(AddedItem(newId.value, template, x, y, d)) &&
        items == old(items) + [added.value] && cache.entries == old(cache.entries)[gId := items]
      ensures gardenId == old(gardenId) && fetching == old(fetching) && loading == old(loading)
    {
      write := AddWrite(gId, template, x, y, d);
      added := None;
      if newId.Some? {
        var it := AddedItem(newId.value, template, x, y, d);
        var all := items + [it];
        items := all;
        cache.entries := cache.entries[gId := all];
        added := Some(it);
      }
    }

    method UpdateItemPosition(id: string, x: real, y: real, category: Kind, ok: bool) returns (write: Write)
      modifies this, cache
      ensures write == Update(TableOf(category), [id], SetPosition(x, y))
      ensures items == if ok then MoveTo(old(items), id, x, y) else old(items)
      ensures cache.entries == if ok && TruthyText(gardenId) then old(cache.entries)[gardenId.value := items] else old(cache.entries)
      ensures gardenId == old(gardenId) && fetching == old(fetching) && loading == old(loading)
    {
      write := Update(TableOf(category), [id], SetPosition(x, y));
      if ok {
        items := MoveTo(items, id, x, y);
        WriteThrough();
      }
    }

    /** `updateItemField(id, field, value, category)`: the column is the field's,
        except that 'sort' on the items table is written to description; the value
        written, and kept locally, is `value || null`. */
    method UpdateItemField(id: string, f: Field, value: Value, category: Kind, ok: bool) returns (write: Write)
      modifies this, cache
      ensures write == Update(TableOf(category), [id], SetColumn(Column(TableOf(category), f), OrNull(value)))
      ensures items == if ok then WithField(old(items), id, f, OrNull(value)) else old(items)
      ensures cache.entries == if ok && TruthyText(gardenId) then old(cache.entries)[gardenId.value := items] else old(cache.entries)
      ensures gardenId == old(gardenId) && fetching == old(fetching) && loading == old(loading)
    {
      var table := TableOf(category);
      write := Update(table, [id], SetColumn(Column(table, f), OrNull(value)));
      if ok {
        items := WithField(items, id, f, OrNull(value));
        WriteThrough();
      }
    }

    /** `deleteItem(id, category)`: a soft delete; the first item with the id is
        returned and every item with the id leaves the list. */
    method DeleteItem(id: string, category: Kind, ok: bool) returns (success: bool, deleted: Option<Item>, write: Write)
      modifies this, cache
      ensures write == Update(TableOf(category), [id], SetActive(false))
      ensures success == ok
      ensures ok ==> deleted == FindById(old(items), id) && items == WithoutId(old(items), id)
      ensures !ok ==> deleted.None? && items == old(items)
      ensures cache.entries == if ok && TruthyText(gardenId) then old(cache.entries)[gardenId.value := items] else old(cache.entries)
      ensures gardenId == old(gardenId) && fetching == old(fetching) && loading == old(loading)
    {
      write := Update(TableOf(category), [id], SetActive(false));
      success := ok;
      deleted := None;
      if ok {
        deleted := FindById(items, id);
        items := WithoutId(items, id);
        WriteThrough();
      }
    }

    /** `updateItemAvatar(id, avatarUrl, category)` */
    method UpdateItemAvatar(id: string, avatarUrl: Option<string>, category: Kind, ok: bool) returns (write: Write)
      modifies this, cache
      ensures write == Update(TableOf(category), [id], SetColumn("custom_avatar", TextValue(TextOrNull(avatarUrl))))
      ensures items == if ok then WithAvatar(old(items), id, avatarUrl) else old(items)
      ensures cache.entries == if ok && TruthyText(gardenId) then old(cache.entries)[gardenId.value := items] else old(cache.entries)
      ensures gardenId == old(gardenId) && fetching == old(fetching) && loading == old(loading)
    {
      write := Update(TableOf(category), [id], SetColumn("custom_avatar", TextValue(TextOrNull(avatarUrl))));
      if ok {
        items := WithAvatar(items, id, avatarUrl);
        WriteThrough();
      }
    }

    /** `updateTreePhoto(id, photoUrl)`: photos belong to trees only. */
    method UpdateTreePhoto(id: string, photoUrl: Value, ok: bool) returns (write: Write)
      modifies this, cache
      ensures write == Update(Trees, [id], SetColumn("photo_url", OrNull(photoUrl)))
      ensures items == if ok then WithPhoto(old(items), id, photoUrl) else old(items)
      ensures cache.entries == if ok && TruthyText(gardenId) then old(cache.entries)[gardenId.value := items] else old(cache.entries)
      ensures gardenId == old(gardenId) && fetching == old(fetching) && loading == old(loading)
    {
      write := Update(Trees, [id], SetColumn("photo_url", OrNull(photoUrl)));
      if ok {
        items := WithPhoto(items, id, photoUrl);
        WriteThrough();
      }
    }
  }

  /** The hook's completion as written shows a preloaded neighbour: with garden
      "g1" shown (its empty list fetched and cached) and "g2" preloaded, the end
      of the "g2" fetch puts g2's tree on the card while "g1" is still the
      current garden, whose cached list is empty. */
  method PreloadShownAsWritten(t: TreeRecord) returns (s: ItemStore)
    ensures s.gardenId == Some("g1") && "g1" in s.cache.entries && s.cache.entries["g1"] == []
    ensures s.items == FetchedItems([t], []) && |s.items| == 1
    ensures !s.ShowsCurrent()
  {
    var c := new GardenCache();
    s := new ItemStore(None, c);
    var _ := s.SwitchGarden(Some("g1"));
    s.CompleteFetchAsWritten("g1", Some(([], [])));
    var _ := s.PreloadGarden("g2");
    s.CompleteFetchAsWritten("g2", Some(([t], [])));
  }

  /** The same steps with the corrected completion: the preloaded list is
      cached for "g2" and the card keeps showing the list of "g1". */
  method PreloadCachedOnly(t: TreeRecord) returns (s: ItemStore)
    ensures s.gardenId == Some("g1") && s.items == [] && s.ShowsCurrent()
    ensures "g2" in s.cache.entries && s.cache.entries["g2"] == FetchedItems([t], [])
  {
    var c := new GardenCache();
    s := new ItemStore(None, c);
    var _ := s.SwitchGarden(Some("g1"));
    s.CompleteFetch("g1", Some(([], [])));
    var _ := s.PreloadGarden("g2");
    s.CompleteFetch("g2", Some(([t], [])));
  }
}
