/** The catalogue of predefined item types (constants/itemCategories.js): six
    tree types, six building types and three other types, each with an id, a
    display name and a twemoji icon. `getItemCategories(t)` builds the same lists
    with names from a translation function; `itemCategories` is the English copy
    kept for older callers. */
module ItemCategories {
  import opened Js
  import opened Translations

  datatype Category = Category(id: string, name: string, imageUrl: string)

  datatype Catalogue = Catalogue(trees: seq<Category>, buildings: seq<Category>, other: seq<Category>)

  /** The twemoji 72x72 PNG of a code point. */
  function Icon(code: string): string {
    "https://raw.githubusercontent.com/twitter/twemoji/master/assets/72x72/" + code + ".png"
  }

  function Ids(cs: seq<Category>): (ids: seq<string>)
    ensures |ids| == |cs| && forall i :: 0 <= i < |cs| ==> ids[i] == cs[i].id
  {
    if cs == [] then [] else [cs[0].id] + Ids(cs[1..])
  }

  /** `list.find(c => c.id === id)`: the first entry with that id. */
  function Find(cs: seq<Category>, id: string): (r: Option<Category>)
    ensures r.Some? <==> id in Ids(cs)
    ensures r.Some? ==> r.value in cs && r.value.id == id
  {
    if cs == [] then None else if cs[0].id == id then Some(cs[0]) else Find(cs[1..], id)
  }

  /** `itemCategories.trees` */
  const TreeTypes: seq<Category> :=
    [ Category("olive", "Olive Tree", Icon("1fad2")),
      Category("orange", "Orange Tree", Icon("1f34a")),
      Category("lemon", "Lemon Tree", Icon("1f34b")),
      Category("fig", "Fig Tree", Icon("1f96d")),
      Category("herbs", "Herbs", Icon("1f33f")),
      Category("other-tree", "Other Tree", Icon("1f334")) ]

  /** `itemCategories.buildings` */
  const BuildingTypes: seq<Category> :=
    [ Category("trullo", "Trullo", Icon("1f6d6")),
      Category("kitchen", "Kitchen", Icon("1f373")),
      Category("campfire", "Campfire", Icon("1f525")),
      Category("toilet", "Toilet", Icon("1f6be")),
      Category("storage", "Storage", Icon("1f4e6")),
      Category("custom-building", "Custom", Icon("1f3d7")) ]

  /** `itemCategories.other` */
  const OtherTypes: seq<Category> :=
    [ Category("entrance", "Entrance", Icon("1f6a7")),
      Category("hammock", "Hammock", Icon("1f6cf")),
      Category("custom", "Custom", Icon("2b50")) ]

  /** `itemCategories`: the English catalogue. */
  const English: Catalogue := Catalogue(TreeTypes, BuildingTypes, OtherTypes)

  /** Every predefined id, trees first, then buildings, then other items. */
  function AllIds(): (ids: seq<string>)
    ensures |ids| == 15
  {
    Ids(English.trees) + Ids(English.buildings) + Ids(English.other)
  }

  predicate IsTreeId(id: string) {
    id in Ids(English.trees)
  }

  predicate IsBuildingId(id: string) {
    id in Ids(English.buildings)
  }

  predicate IsPredefined(id: string) {
    id in AllIds()
  }

  /** `getItemCategories(t)`: the catalogue with every name given by `t`. */
  function GetItemCategories(t: string -> string): (c: Catalogue)
    ensures |c.trees| == |English.trees| && |c.buildings| == |English.buildings| && |c.other| == |English.other|
    ensures forall i :: 0 <= i < |c.trees| ==>
      c.trees[i] == English.trees[i].(name := t(English.trees[i].id))
    ensures forall i :: 0 <= i < |c.buildings| ==>
      c.buildings[i] == English.buildings[i].(name := t(English.buildings[i].id))
    ensures forall i :: 0 <= i < |c.other| ==>
      c.other[i] == English.other[i].(name := t(English.other[i].id))
  {
    Catalogue(TreeCategories(t), BuildingCategories(t), OtherCategories(t))
  }

  /** The `trees` list of `getItemCategories(t)`. */
  function TreeCategories(t: string -> string): (cs: seq<Category>)
    ensures |cs| == |TreeTypes| && forall i :: 0 <= i < |cs| ==> cs[i] == TreeTypes[i].(name := t(TreeTypes[i].id))
  {
    [ Category("olive", t("olive"), Icon("1fad2")),
      Category("orange", t("orange"), Icon("1f34a")),
      Category("lemon", t("lemon"), Icon("1f34b")),
      Category("fig", t("fig"), Icon("1f96d")),
      Category("herbs", t("herbs"), Icon("1f33f")),
      Category("other-tree", t("other-tree"), Icon("1f334")) ]
  }

  /** The `buildings` list of `getItemCategories(t)`. */
  function BuildingCategories(t: string -> string): (cs: seq<Category>)
    ensures |cs| == |BuildingTypes| && forall i :: 0 <= i < |cs| ==> cs[i] == BuildingTypes[i].(name := t(BuildingTypes[i].id))
  {
    [ Category("trullo", t("trullo"), Icon("1f6d6")),
      Category("kitchen", t("kitchen"), Icon("1f373")),
      Category("campfire", t("campfire"), Icon("1f525")),
      Category("toilet", t("toilet"), Icon("1f6be")),
      Category("storage", t("storage"), Icon("1f4e6")),
      Category("custom-building", t("custom-building"), Icon("1f3d7")) ]
  }

  /** The `other` list of `getItemCategories(t)`. */
  function OtherCategories(t: string -> string): (cs: seq<Category>)
    ensures |cs| == |OtherTypes| && forall i :: 0 <= i < |cs| ==> cs[i] == OtherTypes[i].(name := t(OtherTypes[i].id))
  {
    [ Category("entrance", t("entrance"), Icon("1f6a7")),
      Category("hammock", t("hammock"), Icon("1f6cf")),
      Category("custom", t("custom"), Icon("2b50")) ]
  }

  /** The ids written out, in catalogue order. */
  const IdList: seq<string> := ["olive", "orange", "lemon", "fig", "herbs", "other-tree",
    "trullo", "kitchen", "campfire", "toilet", "storage", "custom-building",
    "entrance", "hammock", "custom"]

  lemma IdListDistinct()
    ensures forall i, j :: 0 <= i < j < |IdList| ==> IdList[i] != IdList[j]
  {
  }

  lemma TreeIds() ensures Ids(English.trees) == IdList[0..6] {}
  lemma BuildingIds() ensures Ids(English.buildings) == IdList[6..12] {}
  lemma OtherIds() ensures Ids(English.other) == IdList[12..15] {}

  lemma AllIdsAt(i: nat)
    requires i < 15
    ensures AllIds()[i] == IdList[i]
  {
    TreeIds();
    BuildingIds();
    OtherIds();
    var t, b, o := Ids(English.trees), Ids(English.buildings), Ids(English.other);
    if i < 6 {
      assert AllIds()[i] == t[i];
    } else if i < 12 {
      assert AllIds()[i] == b[i - 6];
    } else {
      assert AllIds()[i] == o[i - 12];
    }
  }

  /** No id is used twice, within a group or across groups; classifying a type by
      the group its id belongs to is therefore unambiguous. */
  lemma IdsDistinct()
    ensures forall i, j :: 0 <= i < j < |AllIds()| ==> AllIds()[i] != AllIds()[j]
  {
    IdListDistinct();
    forall i, j | 0 <= i < j < |AllIds()|
      ensures AllIds()[i] != AllIds()[j]
    {
      AllIdsAt(i);
      AllIdsAt(j);
    }
  }

  /** An id in one group is in neither of the others: the tree, building and other
      classifications are disjoint. */
  lemma GroupsDisjoint(id: string)
    ensures IsTreeId(id) ==> !IsBuildingId(id) && id !in Ids(English.other)
    ensures IsBuildingId(id) ==> id !in Ids(English.other)
  {
    IdListDistinct();
    TreeIds();
    BuildingIds();
    OtherIds();
    DisjointSlices(IdList, 0, 6, 6, 12, id);
    DisjointSlices(IdList, 0, 6, 12, 15, id);
    DisjointSlices(IdList, 6, 12, 12, 15, id);
  }

  /** In a list without repeats, two slices that do not overlap share no element. */
  lemma DisjointSlices(s: seq<string>, a: nat, b: nat, c: nat, d: nat, x: string)
    requires a <= b <= c <= d <= |s|
    requires forall i, j :: 0 <= i < j < |s| ==> s[i] != s[j]
    ensures x in s[a..b] ==> x !in s[c..d]
  {
    if x in s[a..b] {
      var i :| 0 <= i < b - a && s[a..b][i] == x;
      forall k | 0 <= k < d - c
        ensures s[c..d][k] != x
      {
        assert s[a + i] != s[c + k];
      }
    }
  }

  /** 'other-tree' is a tree type; its icon stands in for unknown tree types. */
  lemma OtherTreePresent()
    ensures Find(English.trees, "other-tree") == Some(Category("other-tree", "Other Tree", Icon("1f334")))
  {
    assert Ids(English.trees)[5] == "other-tree";
  }

  /** Each English name is the English translation of its id. */
  lemma EnglishNamesTranslated()
    ensures forall c :: c in English.trees + English.buildings + English.other ==> Translate(c.id) == c.name
  {
    forall c | c in English.trees + English.buildings + English.other
      ensures Translate(c.id) == c.name
    {
      EnglishEntry(c);
      ItemTypeTranslation(c.id);
    }
  }

  lemma EnglishEntry(c: Category)
    requires c in English.trees + English.buildings + English.other
    ensures ItemTypeEntry(c.id) == Some(c.name)
  {
    var all := TreeTypes + BuildingTypes + OtherTypes;
    var i :| 0 <= i < |all| && all[i] == c;
    if i < 3 {
      FirstTreeEntries();
      assert c == TreeTypes[i];
    } else if i < 6 {
      LastTreeEntries();
      assert c == TreeTypes[i];
    } else if i < 9 {
      FirstBuildingEntries();
      assert c == BuildingTypes[i - 6];
    } else if i < 12 {
      LastBuildingEntries();
      assert c == BuildingTypes[i - 6];
    } else {
      OtherEntries();
      assert c == OtherTypes[i - 12];
    }
  }

  /** Each entry's name is the English item-type entry of its id (three entries
      at a time). */
  predicate NamedByTable(cs: seq<Category>, lo: nat, hi: nat)
    requires lo <= hi <= |cs|
  {
    forall i :: lo <= i < hi ==> ItemTypeEntry(cs[i].id) == Some(cs[i].name)
  }

  lemma FirstTreeEntries() ensures NamedByTable(TreeTypes, 0, 3) {}
  lemma LastTreeEntries() ensures NamedByTable(TreeTypes, 3, 6) {}
  lemma FirstBuildingEntries() ensures NamedByTable(BuildingTypes, 0, 3) {}
  lemma LastBuildingEntries() ensures NamedByTable(BuildingTypes, 3, 6) {}
  lemma OtherEntries() ensures NamedByTable(OtherTypes, 0, 3) {}

  /** The English catalogue is `getItemCategories` applied to the English
      translation function. */
  lemma EnglishIsTranslated()
    ensures GetItemCategories(GetTranslation("en")) == English
  {
    FirstTreeEntries();
    LastTreeEntries();
    FirstBuildingEntries();
    LastBuildingEntries();
    OtherEntries();
    GroupTranslated(TreeTypes);
    GroupTranslated(BuildingTypes);
    GroupTranslated(OtherTypes);
    RenamedByOwnNames(GetTranslation("en"));
  }

  /** A group whose names are the English item-type entries of its ids names each
      entry by the English translation of its id. */
  lemma GroupTranslated(cs: seq<Category>)
    requires NamedByTable(cs, 0, |cs|)
    ensures forall i :: 0 <= i < |cs| ==> Translate(cs[i].id) == cs[i].name
  {
    forall i | 0 <= i < |cs| ensures Translate(cs[i].id) == cs[i].name {
      ItemTypeTranslation(cs[i].id);
    }
  }

  /** A naming function that gives every entry its English name rebuilds the
      English catalogue. */
  lemma RenamedByOwnNames(t: string -> string)
    requires forall i :: 0 <= i < |TreeTypes| ==> t(TreeTypes[i].id) == TreeTypes[i].name
    requires forall i :: 0 <= i < |BuildingTypes| ==> t(BuildingTypes[i].id) == BuildingTypes[i].name
    requires forall i :: 0 <= i < |OtherTypes| ==> t(OtherTypes[i].id) == OtherTypes[i].name
    ensures GetItemCategories(t) == English
  {
    assert TreeCategories(t) == TreeTypes;
    assert BuildingCategories(t) == BuildingTypes;
    assert OtherCategories(t) == OtherTypes;
  }
}
