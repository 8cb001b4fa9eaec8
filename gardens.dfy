/** The list of gardens and the carousel position (hooks/useGardens.js): the
    active gardens oldest first, the index of the card on show (one past the last
    garden is the admin's "add new" card), and the create, update, delete and
    defaults operations. Each database call is an outcome parameter: whether the
    write succeeded and what the refetch of the list returned. */
module Gardens {
  import opened Js

  datatype Garden = Garden(
    id: string, name: string, description: Option<string>, location: Option<string>,
    backgroundImage: Option<string>, defaultSort: Value, defaultYearPlanted: Value, defaultOwner: Value)

  /** What the garden form hands over; a missing name makes `name.trim()` throw. */
  datatype GardenInput = GardenInput(
    name: Option<string>, description: Option<string>, location: Option<string>, backgroundImage: Option<string>)

  /** The columns a create or update writes. */
  datatype GardenFields = GardenFields(
    name: string, description: Option<string>, location: Option<string>, backgroundImage: Option<string>)

  /** `s?.trim() || null` */
  function TrimOrNull(s: Option<string>): (r: Option<string>)
    ensures r.Some? ==> s.Some? && r.value == Trim(s.value) && r.value != ""
    ensures r.None? ==> s.None? || Trim(s.value) == ""
  {
    if s.Some? && Trim(s.value) != "" then Some(Trim(s.value)) else None
  }

  /** The normalised columns, or None when there is no name. */
  function Normalise(input: GardenInput): (r: Option<GardenFields>)
    ensures r.Some? <==> input.name.Some?
    ensures r.Some? ==> r.value.name == Trim(input.name.value)
  {
    if input.name.None? then None
    else Some(GardenFields(Trim(input.name.value), TrimOrNull(input.description),
      TrimOrNull(input.location), TrimOrNull(input.backgroundImage)))
  }

  /** Saving the form again with the values it was saved with writes the same
      columns: normalising is idempotent. */
  lemma NormaliseIdempotent(input: GardenInput)
    requires input.name.Some?
    ensures var f := Normalise(input).value;
      Normalise(GardenInput(Some(f.name), f.description, f.location, f.backgroundImage)) == Some(f)
  {
    TrimIdempotent(input.name.value);
    TrimOrNullIdempotent(input.description);
    TrimOrNullIdempotent(input.location);
    TrimOrNullIdempotent(input.backgroundImage);
  }

  lemma TrimOrNullIdempotent(s: Option<string>)
    ensures TrimOrNull(TrimOrNull(s)) == TrimOrNull(s)
  {
    if s.Some? {
      TrimIdempotent(s.value);
    }
  }

  /** The defaults form's texts. */
  datatype DefaultsInput = DefaultsInput(sort: string, yearPlanted: string, owner: string)

  /** `{...g, default_sort, default_year_planted, default_owner}` */
  function WithDefaults(g: Garden, d: DefaultsInput): Garden {
    g.(defaultSort := if d.sort != "" then Str(d.sort) else Null,
       defaultYearPlanted := ParseIntOrNull(d.yearPlanted),
       defaultOwner := if d.owner != "" then Str(d.owner) else Null)
  }

  /** `gardens.map(g => g.id === id ? WithDefaults(g, d) : g)` */
  function UpdateDefaults(gardens: seq<Garden>, id: string, d: DefaultsInput): (r: seq<Garden>)
    ensures |r| == |gardens|
    ensures forall i :: 0 <= i < |r| ==> r[i] == if gardens[i].id == id then WithDefaults(gardens[i], d) else gardens[i]
  {
    if gardens == [] then [] else [if gardens[0].id == id then WithDefaults(gardens[0], d) else gardens[0]] + UpdateDefaults(gardens[1..], id, d)
  }

  /** Only the garden with the id changes, and only in its three defaults; an
      empty sort or owner becomes null. */
  lemma UpdateDefaultsFrame(gardens: seq<Garden>, id: string, d: DefaultsInput, i: nat)
    requires i < |gardens|
    ensures var g, g' := gardens[i], UpdateDefaults(gardens, id, d)[i];
      g'.id == g.id && g'.name == g.name && g'.description == g.description &&
      g'.location == g.location && g'.backgroundImage == g.backgroundImage &&
      (g.id != id ==> g' == g) &&
      (g.id == id ==>
        (g'.defaultSort == Null <==> d.sort == "") && (g'.defaultOwner == Null <==> d.owner == "") &&
        (g'.defaultYearPlanted == Null <==> d.yearPlanted == ""))
  {
  }

  class GardenStore {
    var gardens: seq<Garden>
    var loading: bool
    var currentIndex: int
    var navigateToNewGarden: bool

    constructor()
      ensures gardens == [] && loading && currentIndex == 0 && !navigateToNewGarden
    {
      gardens := [];
      loading := true;
      currentIndex := 0;
      navigateToNewGarden := false;
    }

    /** `gardens[currentIndex]` */
    function CurrentGarden(): (g: Option<Garden>)
      reads this
      ensures g.Some? <==> 0 <= currentIndex < |gardens|
      ensures g.Some? ==> g.value == gardens[currentIndex]
    {
      if 0 <= currentIndex < |gardens| then Some(gardens[currentIndex]) else None
    }

    /** `currentIndex === gardens.length` */
    function IsAddNewCard(): (b: bool)
      reads this
      ensures b ==> CurrentGarden().None?
    {
      currentIndex == |gardens|
    }

    /** `setCurrentIndex(i)` */
    method SetCurrentIndex(i: int)
      modifies this
      ensures currentIndex == i
      ensures gardens == old(gardens) && loading == old(loading) && navigateToNewGarden == old(navigateToNewGarden)
    {
      currentIndex := i;
    }

    /** `fetchGardens()`: the active gardens when the query succeeds; the list
        is kept when it fails. */
    method FetchGardens(result: Option<seq<Garden>>)
      modifies this
      ensures gardens == if result.Some? then result.value else old(gardens)
      ensures !loading && currentIndex == old(currentIndex) && navigateToNewGarden == old(navigateToNewGarden)
    {
      if result.Some? {
        gardens := result.value;
      }
      loading := false;
    }

    /** The effect on `[gardens, navigateToNewGarden]`: after a create, once
        there is a garden, show the last one. */
    method NavigateEffect()
      modifies this
      ensures old(navigateToNewGarden) && |gardens| > 0 ==>
        currentIndex == |gardens| - 1 && !navigateToNewGarden && CurrentGarden() == Some(gardens[|gardens| - 1])
      ensures !(old(navigateToNewGarden) && |gardens| > 0) ==>
        currentIndex == old(currentIndex) && navigateToNewGarden == old(navigateToNewGarden)
      ensures gardens == old(gardens) && loading == old(loading)
    {
      if navigateToNewGarden && |gardens| > 0 {
        currentIndex := |gardens| - 1;
        navigateToNewGarden := false;
      }
    }

    /** `createGarden(data)`: the normalised insert; after a successful insert the
        list is refetched and the new (last) garden is shown. */
    method CreateGarden(input: GardenInput, insertOk: bool, refetch: Option<seq<Garden>>)
      returns (success: bool, inserted: Option<GardenFields>)
      modifies this
      ensures inserted == Normalise(input)
      ensures success <==> input.name.Some? && insertOk
      ensures !success ==>
        gardens == old(gardens) && currentIndex == old(currentIndex) &&
        navigateToNewGarden == old(navigateToNewGarden) && loading == old(loading)
      ensures success ==> gardens == (if refetch.Some? then refetch.value else old(gardens)) && !loading
      ensures success && |gardens| > 0 ==> currentIndex == |gardens| - 1 && !navigateToNewGarden && !IsAddNewCard()
      ensures success && |gardens| == 0 ==> navigateToNewGarden && currentIndex == old(currentIndex)
    {
      inserted := Normalise(input);
      success := inserted.Some? && insertOk;
      if success {
        ShowNewGarden(refetch);
      }
    }

    /** After a successful insert: refetch, raise the navigation flag and let the
        effect move to the last garden. */
    method ShowNewGarden(refetch: Option<seq<Garden>>)
      modifies this
      ensures gardens == (if refetch.Some? then refetch.value else old(gardens)) && !loading
      ensures |gardens| > 0 ==> currentIndex == |gardens| - 1 && !navigateToNewGarden && !IsAddNewCard()
      ensures |gardens| == 0 ==> navigateToNewGarden && currentIndex == old(currentIndex)
    {
      FetchGardens(refetch);
      navigateToNewGarden := true;
      NavigateEffect();
    }

    /** `updateGarden(id, data)`: the normalised update, then a refetch. */
    method UpdateGarden(id: string, input: GardenInput, ok: bool, refetch: Option<seq<Garden>>)
      returns (success: bool, written: Option<GardenFields>)
      modifies this
      ensures written == Normalise(input)
      ensures success <==> input.name.Some? && ok
      ensures gardens == (if success && refetch.Some? then refetch.value else old(gardens))
      ensures currentIndex == old(currentIndex) && navigateToNewGarden == old(navigateToNewGarden)
      ensures loading == (if success then false else old(loading))
    {
      written := Normalise(input);
      if written.None? || !ok {
        return false, written;
      }
      FetchGardens(refetch);
      success := true;
    }

    /** `deleteGarden(id)`: a soft delete (`is_active = false`) and a refetch.
        The index is left as it was: the source's index update sets it to its own
        value. */
    method DeleteGarden(id: string, ok: bool, refetch: Option<seq<Garden>>) returns (success: bool)
      modifies this
      ensures success == ok
      ensures gardens == (if ok && refetch.Some? then refetch.value else old(gardens))
      ensures currentIndex == old(currentIndex) && navigateToNewGarden == old(navigateToNewGarden)
      ensures loading == (if ok then false else old(loading))
    {
      if !ok {
        return false;
      }
      FetchGardens(refetch);
      return true;
    }

    /** `updateGardenDefaults(id, defaults)`: on success only the garden with the
        id takes the new defaults locally. */
    method UpdateGardenDefaults(id: string, d: DefaultsInput, ok: bool) returns (success: bool)
      modifies this
      ensures success == ok
      ensures gardens == if ok then UpdateDefaults(old(gardens), id, d) else old(gardens)
      ensures currentIndex == old(currentIndex) && navigateToNewGarden == old(navigateToNewGarden) && loading == old(loading)
    {
      if ok {
        gardens := UpdateDefaults(gardens, id, d);
      }
      success := ok;
    }
  }
}
