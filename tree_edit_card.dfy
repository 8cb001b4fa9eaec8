/** The edit card shown beside a selected item (components/garden/TreeEditCard.js):
    which buttons it offers, where their tooltips go, the age it shows, and which
    field and value each of its inputs sends when it is left. */
module TreeEditCard {
  import opened Js
  import opened Items
  import opened FilterHelpers

  datatype TooltipSide = Top | Bottom

  /** `item.y > 75 ? 'top' : 'bottom'`: items low on the canvas get their
      tooltips above. */
  function TooltipPosition(y: real): (side: TooltipSide)
    ensures side == Top <==> y > 75.0
  {
    if y > 75.0 then Top else Bottom
  }

  datatype Buttons = Buttons(buy: bool, viewPhoto: bool, editPhoto: bool)

  /** The buy button and the two photo buttons. `editedStatus` is the card's
      status field and `storedStatus` the item's. */
  function CardButtons(isTree: bool, readOnly: bool, editedStatus: Value, storedStatus: Value): (b: Buttons)
    ensures b.buy <==> isTree && readOnly && (editedStatus == Str("Available") || storedStatus == Str("Available"))
    ensures !(b.viewPhoto && b.editPhoto)
    ensures b.viewPhoto || b.editPhoto <==> isTree
    ensures b.viewPhoto <==> isTree && readOnly
    ensures b.buy ==> b.viewPhoto
  {
    Buttons(
      isTree && readOnly && (StrictEquals(editedStatus, Str("Available")) || StrictEquals(storedStatus, Str("Available"))),
      isTree && readOnly,
      isTree && !readOnly)
  }

  /** The year the age is counted from: the card's year text when it is not
      blank and parses, otherwise the item's stored year when that parses. */
  function CardYear(editedYear: string, storedYear: Value): (y: Option<int>)
    ensures Trim(editedYear) != "" && ParseInt(editedYear).Some? ==> y == ParseInt(editedYear)
    ensures (Trim(editedYear) == "" || ParseInt(editedYear).None?) ==> y == PlantedYear(storedYear)
  {
    if editedYear != "" && Trim(editedYear) != "" && ParseInt(editedYear).Some? then ParseInt(editedYear)
    else PlantedYear(storedYear)
  }

  /** `${currentYear - year} ${t('years')}`, or '-' when there is no year. */
  function AgeText(year: Option<int>, currentYear: int, yearsWord: string): (text: string)
    ensures year.None? <==> text == "-"
    ensures year.Some? ==> text == IntToString(currentYear - year.value) + " " + yearsWord
  {
    if year.None? then "-" else IntToString(currentYear - year.value) + " " + yearsWord
  }

  /** With no year typed in, the card shows the age the table's age column
      filters on. */
  lemma CardAgeMatchesTable(it: Item, editedYear: string, currentYear: int)
    requires Trim(editedYear) == ""
    ensures var y := CardYear(editedYear, it.yearPlanted);
      (y.Some? <==> Age(it, currentYear).Some?) &&
      (y.Some? ==> currentYear - y.value == Age(it, currentYear).value)
  {
  }

  /** The year the card was opened with (the stored year as text) gives the age
      of the stored year; a typed year overrides it. */
  lemma {:induction false} CardYearOfStoredYear(n: int, storedYear: Value, m: int)
    ensures CardYear(IntToString(n), Num(n)) == Some(n)
    ensures CardYear(IntToString(m), storedYear) == Some(m)
  {
    PrintedIntReadsBack(n);
    PrintedIntReadsBack(m);
  }

  /** The card's inputs. */
  datatype CardInput = TypeInput | SortInput | YearInput | OwnerInput | StatusInput

  /** The field and value the card sends when an input is left (or the status
      is chosen), or None where the card shows text instead of an input. On a
      tree every field but the type is an input; the type is an input only for a
      custom type; the second field of any other item is its description; a
      read-only card has no inputs. */
  function BlurUpdate(isTree: bool, isCustomType: bool, readOnly: bool, input: CardInput, text: string): (r: Option<(Field, Value)>)
    ensures r.Some? ==> !readOnly
    ensures input == TypeInput ==> (r.Some? <==> !readOnly && isCustomType) && (r.Some? ==> r.value == (TypeField, Str(text)))
    ensures input == SortInput && !readOnly ==> r == Some((if isTree then SortField else DescriptionField, Str(text)))
    ensures input == YearInput && isTree && !readOnly ==> r == Some((YearPlantedField, ParseIntOrNull(text)))
    ensures (input == OwnerInput || input == StatusInput) && isTree && !readOnly ==>
      r == Some((if input == OwnerInput then OwnerField else StatusField, Str(text)))
    ensures !isTree && r.Some? ==> r.value.0 == TypeField || r.value.0 == DescriptionField
  {
    if readOnly then None
    else match input
      case TypeInput => if isCustomType then Some((TypeField, Str(text))) else None
      case SortInput => Some((if isTree then SortField else DescriptionField, Str(text)))
      case YearInput => if isTree then Some((YearPlantedField, ParseIntOrNull(text))) else None
      case OwnerInput => if isTree then Some((OwnerField, Str(text))) else None
      case StatusInput => if isTree then Some((StatusField, Str(text))) else None
  }

  /** A year typed as digits is sent as that number. */
  lemma YearSentAsNumber(isCustomType: bool, n: int)
    ensures BlurUpdate(true, isCustomType, false, YearInput, IntToString(n)) == Some((YearPlantedField, Num(n)))
  {
    PrintedIntReadsBack(n);
  }
}
