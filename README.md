# Garden planner — a verified model of the editor core

The garden planner is a React Native / web app for laying out gardens. A user
pages through a carousel of gardens. On each garden card they place trees,
buildings and other items by dragging them from a palette. Trees carry a type,
a sort, a planting year, an owner and an availability status. A table below
the card lists the trees with per-column filters and sorting, and the canvas
highlights the items the filters and the checkbox selection keep. Admins can
edit items, generate a grid of trees, change avatars and photos, and undo their
recent changes. Everything is stored in a hosted Postgres database.

This project models that core in Dafny, one module per source file:

| module | models |
|---|---|
| `Js` | the JavaScript value semantics the app relies on: null and truthiness, `trim`, `parseInt`, `toString`, the default string order of `sort` |
| `Sorting` | `[...list].sort(cmp)` as a verified insertion sort on a copy |
| `Translations` | `constants/translations.js`: the English, Ukrainian and Italian tables and the lookup with fallback |
| `ItemCategories` | `constants/itemCategories.js`: the catalogue of 15 predefined item types |
| `LanguageContext` | `contexts/LanguageContext.js`: the current language and its toggle |
| `Items` | the item and row types and the list operations of `hooks/useTrees.js` |
| `ItemStore` | `hooks/useTrees.js`: the item list, the garden cache, the in-flight fetch set and every write |
| `Undo` | `hooks/useUndo.js`: the bounded undo stack and the reversal of each action |
| `FilterHelpers` | `utils/filterHelpers.js`: the highlight rule |
| `TableFilters` | `hooks/useTableFilters.js`: the sort column, direction, filter lists and open dropdown |
| `TreesTable` | `components/garden/TreesTable.js`: distinct filter values, the filtered and sorted rows, the header checkbox |
| `TreeGenerator` | `utils/treeGenerator.js`: the grid of generated trees |
| `TreeCardPosition` | `utils/treeCardPosition.js`: where the edit card opens |
| `TreeEditCard` | `components/garden/TreeEditCard.js`: the buttons, the age, the field each input writes |
| `Gardens` | `hooks/useGardens.js`: the garden list, the carousel index, create, update, delete and defaults |
| `Carousel` | the paging arithmetic of `goToNext` and `goToPrevious` |
| `Viewport` | the zoom and pan state of the garden card and the coordinate transforms |
| `GardensList` | `screens/GardensListScreen.js`: the handlers that tie the stores together |

Each database call is replaced by an outcome parameter: `ok: bool` for a write,
`Option<id>` for an insert, `Option<rows>` for a query. The current year is the
parameter `currentYear`. `Write` values describe the writes sent, so contracts
can state which table, row and column each handler writes. Stateful hooks are
classes whose methods change their fields. Pure helpers are functions.

Where the code does something a reader may not expect, the model follows the
code:
- A failed undo write keeps the action on the stack (`hooks/useUndo.js:94-97`).
- Clearing an avatar keeps the item's current image instead of falling back to the type icon (`hooks/useTrees.js:351`).
- Fetching ignores the `custom_avatar` column when it builds an item's image (`hooks/useTrees.js:63-88`).
- `deleteGarden` leaves the carousel index where it was. Its index update sets the index to its own value (`hooks/useGardens.js:92-94`).
- The header checkbox compares only the number of selected ids with the number of trees (`components/garden/TreesTable.js:238`).
- An owner is stored untrimmed. Only its blankness is decided on the trimmed text (`screens/GardensListScreen.js:813-835`).

Three defects are modelled both as written and corrected, and the screen uses the corrected form (see Findings): the undo of a tree's owner edit, the pan ref that a garden change leaves stale, and the end of a preload, which shows the preloaded garden's list on the card of the current one. The card view keeps the pan drawn (`panOffset`) and the pan ref (`panOffsetRef`) as two pairs of fields, since zoom steps and the start of a pan read the ref.

## Model

| member | source | states |
|---|---|---|
| Js.TrimSpec | hooks/useGardens.js:43-46 | `trim` returns the contiguous slice of its input between the leading and trailing white space, and that slice neither starts nor ends with white space |
| Js.TrimIdempotent | hooks/useGardens.js:43-46 | trimming twice is trimming once |
| Js.ParseIntOfDigits | utils/filterHelpers.js:13-17 | a text made only of decimal digits parses to the value of those digits |
| Js.ParseIntNegative | utils/filterHelpers.js:13-17 | a minus sign before text whose unsigned part parses to m makes the whole text parse to -m |
| Js.ParseIntOfIntToString | components/garden/TreesTable.js:135-145 | `parseInt(n.toString()) == n` for every integer: the printed year or age reads back as itself |
| Js.IntToStringInjective | components/garden/TreesTable.js:144-145 | distinct integers print differently, so a year or age filter value names exactly one number |
| Js.ParseIntOrNull | components/garden/TreeEditCard.js:147 | null exactly for empty text; a number exactly when the text is non-empty and `parseInt` succeeds, and then `parseInt`'s value; NaN otherwise |
| Js.PrintedIntReadsBack | components/garden/TreeEditCard.js:147 | a printed integer has nothing to trim and `ParseIntOrNull` reads it back as that number |
| Js.StrLeTotal | components/garden/TreesTable.js:124 | the default string order relates every two strings |
| Js.StrLeTransitive | components/garden/TreesTable.js:124 | the default string order is transitive |
| Js.StrLeAntisymmetric | components/garden/TreesTable.js:124 | two strings ordered both ways are equal |
| Sorting.SortBy | components/garden/TreesTable.js:153-196 | the result is sorted by the comparator and is a permutation of the input; it is stable: the ghost index map places each output element at an input position, and two elements that tie keep their input order |
| Sorting.InsertKeepsIndexMap | components/garden/TreesTable.js:153-196 | inserting the next input element keeps every output element tied to a distinct input position holding it |
| Sorting.InsertKeepsStable | components/garden/TreesTable.js:153-196 | inserting the next input element before the first element above it keeps the index map and the input order of ties |
| Translations.GetTranslation | constants/translations.js:344-348 | the function returned maps every key to the lookup of that key in that language, with fallback |
| Translations.UseTranslation | constants/translations.js:351-354 | returns the translation function of the language together with the language |
| Translations.TablesComplete | constants/translations.js:1-341 | the Ukrainian and Italian tables list exactly the English keys in the English order, and no entry of the three tables is empty |
| Translations.UkParallel | constants/translations.js:115-227 | each group of the Ukrainian table has the keys of the English group, in order, with non-empty texts |
| Translations.ItParallel | constants/translations.js:228-340 | each group of the Italian table has the keys of the English group, in order, with non-empty texts |
| Translations.NoFallThrough | constants/translations.js:344-348 | a key of the English table, looked up in English, Ukrainian or Italian, gives that language's own non-empty entry |
| Translations.UnknownKeyEchoed | constants/translations.js:344-348 | a key that no table defines is shown as the key itself, in every language |
| Translations.UnknownLanguageIsEnglish | constants/translations.js:344-348 | an unsupported language code reads the English table |
| Translations.ItemTypeTranslation | constants/translations.js:94-113 | an item-type id translates in English to its entry in the tree, building or other groups |
| ItemCategories.AllIds | constants/itemCategories.js:26-47 | there are 15 predefined ids |
| ItemCategories.GetItemCategories | constants/itemCategories.js:1-24 | the catalogue keeps the groups' lengths, ids and icons, and each name is `t` of the id |
| ItemCategories.TreeCategories | constants/itemCategories.js:2-9 | the translated tree list is the English tree list, entry for entry, with each name given by `t` of the id |
| ItemCategories.BuildingCategories | constants/itemCategories.js:10-17 | the translated building list is the English building list with each name given by `t` of the id |
| ItemCategories.OtherCategories | constants/itemCategories.js:18-22 | the translated list of other items is the English one with each name given by `t` of the id |
| ItemCategories.Find | hooks/useTrees.js:64-70 | finds an entry exactly when the id is in the group, and the entry found carries that id |
| ItemCategories.IdsDistinct | constants/itemCategories.js:26-47 | no id appears twice, within a group or across groups |
| ItemCategories.GroupsDisjoint | constants/itemCategories.js:26-47 | a tree id is neither a building id nor an other-item id, and a building id is not an other-item id |
| ItemCategories.OtherTreePresent | hooks/useTrees.js:68-70 | 'other-tree' is a tree type with its own icon, the fallback icon of unknown trees |
| ItemCategories.EnglishNamesTranslated | constants/itemCategories.js:26-47 | every English name is the English translation of its id |
| ItemCategories.EnglishIsTranslated | constants/itemCategories.js:1-47 | the fixed English catalogue equals `getItemCategories` applied to the English translation |
| ItemCategories.RenamedByOwnNames | constants/itemCategories.js:1-47 | any naming function that gives each entry its English name rebuilds the English catalogue |
| LanguageContext.NextLanguage | contexts/LanguageContext.js:11-17 | the next language is always supported and differs from the current one |
| LanguageContext.ToggleCycle | contexts/LanguageContext.js:11-17 | three toggles bring a supported language back |
| LanguageContext.ToggleIsPermutation | contexts/LanguageContext.js:11-17 | on the supported languages the toggle is injective, so it visits all three |
| LanguageContext.LanguageProvider.constructor | contexts/LanguageContext.js:7 | the language starts as English |
| LanguageContext.LanguageProvider.SetLanguage | contexts/LanguageContext.js:21 | the language becomes the one given |
| LanguageContext.LanguageProvider.ToggleLanguage | contexts/LanguageContext.js:11-17 | the language becomes the next one in the en, uk, it cycle |
| LanguageContext.LanguageProvider.T | contexts/LanguageContext.js:9 | `t(key)` is the translation of the key in the current language, for every key |
| Items.OrNull | hooks/useTrees.js:278-282 | a truthy value is kept; a falsy one becomes null |
| Items.Or | hooks/useTrees.js:73-88 | a truthy value is kept; a falsy one becomes the default text |
| Items.MapTreeSpec | hooks/useTrees.js:63-88 | a fetched tree row keeps its id, position, type, sort and year, becomes a tree, is custom exactly when its type is not predefined, always has a status (the stored one when set), has no custom avatar, and shows its type's icon or else the 'other-tree' icon |
| Items.MapItemSpec | hooks/useTrees.js:90-116 | a fetched item row keeps its id, position, type and description, is never a tree, becomes a building exactly when its type is a building id, is custom exactly when its type is not predefined, and then shows the star icon |
| Items.MapTree | hooks/useTrees.js:63-88 | a fetched tree row keeps its id and becomes a tree |
| Items.MapItem | hooks/useTrees.js:90-116 | a fetched item row keeps its id and never becomes a tree |
| Items.MapTrees | hooks/useTrees.js:63 | maps each tree row in order |
| Items.MapItems | hooks/useTrees.js:90 | maps each item row in order |
| Items.FetchedItems | hooks/useTrees.js:118 | the fetched list has one entry per tree row and per item row |
| Items.FetchedItemsOrder | hooks/useTrees.js:118 | the trees come first, then the other items, each in query order, and an entry is a tree exactly when it comes from the trees query |
| Items.TableOf | hooks/useTrees.js:241 | the table is 'trees' exactly for a tree |
| Items.Column | hooks/useTrees.js:273-276 | the column written is 'description' exactly for a description edit or a sort edit on the items table |
| Items.Set | hooks/useTrees.js:296-299 | the edited field reads back the new value, and every other field, the id, position and images are unchanged |
| Items.UpdateById | hooks/useTrees.js:254-257 | the same length, and exactly the entries with the id are replaced by the update of them |
| Items.WithoutId | hooks/useTrees.js:325 | keeps exactly the entries whose id differs, in their list order (a subsequence of the list), so the length drops by the number of entries with the id |
| Items.FindById | hooks/useTrees.js:324 | None exactly when no entry has the id; otherwise the first entry with the id |
| Items.WithoutIdKeepsOthers | hooks/useTrees.js:324-325 | removing one id does not change what a lookup of any other id finds |
| Items.UpdateByIdFrame | hooks/useTrees.js:254-257 | an id-preserving update keeps the list of ids and every entry with another id |
| Items.Apply | hooks/useTrees.js:243-252 | a write sets the active flag, the position or the named column of a stored row and nothing else |
| ItemStore.GardenCache.constructor | hooks/useTrees.js:6 | the module-level cache starts empty |
| ItemStore.TemplateKind | hooks/useTrees.js:149-157 | a building id gives a building, an id of the other group gives an other item, and any other id gives a tree |
| ItemStore.StatusFor | hooks/useTrees.js:165 | 'Unavailable' exactly when the owner is truthy, 'Available' exactly when it is not |
| ItemStore.AddedItemDefaults | hooks/useTrees.js:157-198 | an added tree takes the garden's default owner, year and sort, each only when set, and is unavailable exactly when it has an owner; other items have no tree fields |
| ItemStore.AddWrite | hooks/useTrees.js:142-216 | one row is inserted, for the garden, into the table of the template's kind |
| ItemStore.MoveToSpec | hooks/useTrees.js:254-257 | a move changes only the position of the entries with the id |
| ItemStore.WithFieldSpec | hooks/useTrees.js:292-303 | a field edit changes only that field of the entries with the id |
| ItemStore.WithAvatarSpec | hooks/useTrees.js:351-358 | the entry with the id takes the avatar, and shows it when it is set; clearing the avatar keeps the image the entry showed; other entries are unchanged |
| ItemStore.ItemStore.constructor | hooks/useTrees.js:8-11 | the list is empty, nothing is loading and no fetch is in flight |
| ItemStore.ItemStore.WriteThrough | hooks/useTrees.js:259 | the cache entry of the hook's garden becomes the list, when there is a garden, so the shown list is the current garden's cached list (`ShowsCurrent`) |
| ItemStore.ItemStore.BeginFetch | hooks/useTrees.js:21-43 | a cached list is shown without a fetch unless forced; a garden already in flight is not fetched again; otherwise the fetch starts and the garden joins the in-flight set |
| ItemStore.ItemStore.CompleteFetch | hooks/useTrees.js:44-130 | corrected (see Findings): on success the fetched garden's cache entry becomes the trees then the items, and the shown list becomes them only when that garden is the hook's own; on failure both stay; the garden leaves the in-flight set, loading ends, and a shown list that was the current garden's cached list still is |
| ItemStore.ItemStore.CompleteFetchAsWritten | hooks/useTrees.js:44-130 | as written: on success the list and the cache entry of the fetched garden become the trees then the items, whichever garden the hook shows; on failure both stay; the garden leaves the in-flight set and loading ends |
| ItemStore.ItemStore.InvalidateCache | hooks/useTrees.js:132-134 | the garden's cache entry is removed and no other |
| ItemStore.ItemStore.PreloadGarden | hooks/useTrees.js:136-140 | a fetch starts exactly when the garden is neither cached nor in flight, and loading is then set; the shown list is untouched until that fetch completes, when the corrected `CompleteFetch` only caches it (the code shows it, see Findings) |
| ItemStore.PreloadShownAsWritten | hooks/useTrees.js:119-123 | with garden "g1" shown and its empty list cached, completing a preload of "g2" as written shows g2's tree while "g1" is still current, so the shown list is no longer the current garden's |
| ItemStore.PreloadCachedOnly | hooks/useTrees.js:136-140 | the same steps with the corrected completion cache g2's tree under "g2" and keep g1's empty list on the card |
| ItemStore.ItemStore.AddItem | hooks/useTrees.js:142-237 | the insert is written; on success the added item is appended and cached, otherwise nothing changes |
| ItemStore.ItemStore.UpdateItemPosition | hooks/useTrees.js:239-266 | the new position is written to the item's table; on success the list and the cache move the item, otherwise they stay |
| ItemStore.ItemStore.UpdateItemField | hooks/useTrees.js:268-311 | `value \|\| null` is written to the field's column; on success the list and the cache hold it, otherwise they stay |
| ItemStore.ItemStore.DeleteItem | hooks/useTrees.js:313-335 | a soft delete is written; on success the first entry with the id is returned and every entry with the id leaves the list and the cache |
| ItemStore.ItemStore.UpdateItemAvatar | hooks/useTrees.js:337-367 | the avatar, or null, is written to `custom_avatar`; on success the list and the cache take it |
| ItemStore.ItemStore.UpdateTreePhoto | hooks/useTrees.js:369-395 | `photo_url` of the tree is written; on success the list and the cache take it |
| Undo.Push | hooks/useUndo.js:7-12 | the new action is on top, the old stack follows, and the length is capped at the maximum |
| Undo.PushAllKeepsNewest | hooks/useUndo.js:7-12 | recording actions one by one keeps the newest `maxStackSize` of them, newest first |
| Undo.Inverse | hooks/useUndo.js:18-98 | the reversal writes of an action: those of the source, plus the old status after an owner edit of a tree |
| Undo.InverseRestores | hooks/useUndo.js:18-98 | the action's writes followed by its reversal give back a row that matched the recorded snapshot; an undone add or generated batch leaves its rows inactive |
| Undo.OwnerEditRestores | hooks/useUndo.js:68-78 | the owner and status writes of a tree's owner edit, then the corrected reversal, give back the row that matched the snapshot |
| Undo.SingleWriteRestores | hooks/useUndo.js:18-98 | for a delete, a move, an avatar change and any other field edit, the one forward write and its reversal give back the matching row |
| Undo.OwnerUndoAsWrittenKeepsStatus | hooks/useUndo.js:68-78 | under the source's reversal an undone owner edit leaves the status it wrote (see Findings) |
| Undo.UndoStack.constructor | hooks/useUndo.js:4-5 | an empty stack with the given maximum, 10 by default |
| Undo.UndoStack.AddToUndoStack | hooks/useUndo.js:7-12 | the stack becomes the push of the action, capped at the maximum |
| Undo.UndoStack.ClearUndoStack | hooks/useUndo.js:14-16 | the stack becomes empty |
| Undo.UndoStack.CanUndo | hooks/useUndo.js:105 | true exactly when the stack is not empty |
| Undo.InverseAsWritten | hooks/useUndo.js:27-89 | the source's reversal: one update of the action's own row (all generated rows for a batch) that puts back `is_active`, the old position, the old value of the edited column or the old avatar |
| Undo.UndoStack.UndoLast | hooks/useUndo.js:18-98 | an empty stack fails with no write; otherwise the corrected reversal (`Inverse`, see Findings) of the newest action is written, and only on success is that action popped and reported, with a refresh after a delete or a generated batch |
| FilterHelpers.WithList | hooks/useTableFilters.js:29-41 | replaces one column's list and keeps the other five |
| FilterHelpers.PlantedYear | utils/filterHelpers.js:13-17 | no year for null; the number itself for a numeric year |
| FilterHelpers.ShouldHighlight | utils/filterHelpers.js:8-45 | highlighted exactly when every active column accepts the tree's cell (a non-tree fails any active filter) and, when ids are selected, the item is one of them |
| FilterHelpers.NothingSetHighlightsAll | utils/filterHelpers.js:20-29 | with no filter and no selection every item is highlighted |
| FilterHelpers.FilterExcludesNonTrees | utils/filterHelpers.js:29-31 | an active filter never highlights a non-tree item |
| FilterHelpers.SelectionNarrows | utils/filterHelpers.js:41-44 | with a selection, highlighted means selected and passing the filters |
| FilterHelpers.MissingValuesReadAsSentinels | utils/filterHelpers.js:31-37 | a missing sort, owner or year reads '-', a missing status reads 'Available', a missing year gives the age '-' |
| FilterHelpers.NumericYearCells | utils/filterHelpers.js:13-35 | a numeric year gives the age `currentYear - year`, and the year and age cells are their printed numbers |
| FilterHelpers.YearFilterMatchesYear | utils/filterHelpers.js:33 | a year filter holding only the printed year n highlights a tree exactly when its year is n, as that text or as a nonzero number; the number 0 is falsy and never matches |
| TableFilters.Toggle | hooks/useTableFilters.js:29-42 | a listed value is removed (every copy) and the other entries keep their copies and their order; an absent value is appended |
| TableFilters.Without | hooks/useTableFilters.js:33-35 | the in-order subsequence of the list holding every copy of every other value and no copy of the removed one |
| TableFilters.ToggleTwice | hooks/useTableFilters.js:29-42 | toggling a value twice gives back the same accepted values |
| TableFilters.ToggleAbsentTwice | hooks/useTableFilters.js:29-42 | toggling an absent value twice gives back the same list |
| TableFilters.TableFilterState.constructor | hooks/useTableFilters.js:4-14 | no sort column, ascending, empty filters, no dropdown |
| TableFilters.TableFilterState.HandleSort | hooks/useTableFilters.js:16-23 | the sorted column flips direction; another column becomes sorted ascending; filters and dropdown stay |
| TableFilters.TableFilterState.ToggleFilterDropdown | hooks/useTableFilters.js:25-27 | the column's dropdown opens, or closes when it was the open one |
| TableFilters.TableFilterState.ToggleFilterValue | hooks/useTableFilters.js:29-42 | the column's list becomes its toggle by the value; the other lists stay |
| TableFilters.TableFilterState.SelectAllFilters | hooks/useTableFilters.js:44-49 | the column's list becomes all the values; the other lists stay |
| TableFilters.TableFilterState.ClearFilters | hooks/useTableFilters.js:51-56 | the column's list becomes empty; the other lists stay |
| TableFilters.TableFilterState.CloseFilterDropdown | hooks/useTableFilters.js:58-60 | no dropdown is open; everything else stays |
| TableFilters.TableFilterState.ResetAllFilters | hooks/useTableFilters.js:62-74 | back to the initial state |
| TreesTable.StrOrderIsPreorder | components/garden/TreesTable.js:124 | the default string order is a total preorder, so sorting by it is well defined |
| TreesTable.NoDupPermutation | components/garden/TreesTable.js:124 | sorting a duplicate-free list keeps it duplicate-free |
| TreesTable.DistinctValues | components/garden/TreesTable.js:81-125 | exactly the non-empty cells of the trees in the column, each once, in ascending string order |
| TreesTable.SortedValues | components/garden/TreesTable.js:124 | sorting a list without repeats keeps the same values, each once, in ascending order |
| TreesTable.FilteredItems | components/garden/TreesTable.js:128-150 | exactly the trees that pass every column filter, in list order |
| TreesTable.TableAgreesWithHighlight | components/garden/TreesTable.js:128-150 | a tree is in the table exactly when the canvas highlights it with no selection |
| TreesTable.RowOrderIsPreorder | components/garden/TreesTable.js:154-196 | the row comparator for any column and direction is a total preorder |
| TreesTable.DescReversesAsc | components/garden/TreesTable.js:189-193 | 'desc' is 'asc' with the operands swapped |
| TreesTable.NonTreeTypeKeys | components/garden/TreesTable.js:156-183 | rows without a predefined tree type sort as 0 by year and age and as '' by owner and status |
| TreesTable.AgeAscIsYearDesc | components/garden/TreesTable.js:168-175 | ascending age is descending year, and ascending year is numeric order |
| TreesTable.SortRows | components/garden/TreesTable.js:153-196 | a permutation of the rows, unchanged without a sorted column, otherwise sorted by the column's comparator, with rows that tie kept in their filtered order |
| TreesTable.Trees | components/garden/TreesTable.js:235-236 | the trees of the list as `filter` keeps them: an in-order selection that holds every tree entry as often as the list does and no other entry |
| TreesTable.TreesUnique | components/garden/TreesTable.js:235-236 | those two facts determine the result: any in-order selection holding each tree as often as the list, and nothing else, equals `Trees` |
| TreesTable.TreesMembers | components/garden/TreesTable.js:235-236 | there are no more trees than entries, and an entry is among them exactly when it is a tree |
| TreesTable.TreeIds | components/garden/TreesTable.js:235-237 | one id per tree entry, in list order (the k-th id is the k-th tree's), so there are as many ids as trees; an id appears exactly when some tree has it |
| TreesTable.HeaderToggle | components/garden/TreesTable.js:235-243 | when as many ids are selected as there are tree entries (`TreeIds` has one per tree) the selection becomes empty; otherwise it becomes the ids of all trees, each tree's id and no other |
| TreesTable.HeaderToggleTwice | components/garden/TreesTable.js:235-243 | from an empty selection the checkbox selects all trees, and a second press clears them |
| TreesTable.AgeLabel | components/garden/TreesTable.js:33 | '-' without an age; otherwise the printed age followed by " year" when the age is 1 and " years" otherwise |
| TreeGenerator.GridCols | utils/treeGenerator.js:17-18 | the least number of columns c with c² ≥ 4·count/3 |
| TreeGenerator.GridRows | utils/treeGenerator.js:19 | at least one row for a non-empty batch |
| TreeGenerator.RowsCover | utils/treeGenerator.js:19 | the rows hold every tree, and one row fewer would not |
| TreeGenerator.Spacing | utils/treeGenerator.js:26-27 | the spacing is positive |
| TreeGenerator.PositionsWithinMargins | utils/treeGenerator.js:22-37 | every tree of a valid batch, for any garden and any defaults, lies within [3, 97] on both axes |
| TreeGenerator.FirstAtBottomLeft | utils/treeGenerator.js:36-37 | the first tree is at (3, 97), the bottom-left corner |
| TreeGenerator.DistinctCells | utils/treeGenerator.js:32-37 | distinct indices get distinct positions, and a later row lies higher up |
| TreeGenerator.DistinctPositions | utils/treeGenerator.js:30-37 | no two trees of a batch share a position |
| TreeGenerator.TwelveTrees | utils/treeGenerator.js:17-19 | an example of the grid rule: twelve trees make four columns and three rows |
| TreeGenerator.GenerateTrees | utils/treeGenerator.js:11-60 | nothing is written exactly when the count is missing or outside 1..1000; otherwise one insert into the trees table of exactly `count` records, record i at grid cell i |
| TreeGenerator.RecordDefaults | utils/treeGenerator.js:39-49 | every record belongs to the garden and takes each default only when it is set: the olive type, an empty sort, no year, no owner and 'Available' otherwise |
| TreeCardPosition.CardPosition | utils/treeCardPosition.js:7-33 | the left offset is one of 35, 25, -240 and the top one of 0, -60, -120, -180 |
| TreeCardPosition.CardSide | utils/treeCardPosition.js:12-30 | the card opens to the right exactly when x ≤ 70, never below the item, and level with it exactly when y < 25 |
| TreeCardPosition.CardMonotone | utils/treeCardPosition.js:12-30 | moving the item right or down never moves its card right or down |
| TreeCardPosition.AdminCardHigher | utils/treeCardPosition.js:21-30 | the role leaves the horizontal offset alone and raises the card only when y > 75 |
| TreeEditCard.TooltipPosition | components/garden/TreeEditCard.js:31 | tooltips go on top exactly when y > 75 |
| TreeEditCard.CardButtons | components/garden/TreeEditCard.js:37-39 | buy shows exactly for a read-only tree whose edited or stored status is 'Available'; view-photo and edit-photo are exclusive and exactly one shows on a tree; buy implies view-photo |
| TreeEditCard.CardYear | components/garden/TreeEditCard.js:158-172 | a non-blank typed year that parses wins; otherwise the stored year |
| TreeEditCard.AgeText | components/garden/TreeEditCard.js:158-172 | '-' exactly without a year; otherwise `currentYear - year` printed, then the translated word |
| TreeEditCard.CardAgeMatchesTable | components/garden/TreeEditCard.js:158-172 | with no typed year the card shows the age the table filters on |
| TreeEditCard.CardYearOfStoredYear | components/garden/TreeEditCard.js:147-172 | the stored year as text gives the stored year, and any printed year overrides the stored one |
| TreeEditCard.BlurUpdate | components/garden/TreeEditCard.js:105-246 | a read-only card sends nothing; the type is sent only for a custom type; the second field is sort on a tree and description otherwise; the year is sent as `parseInt` or null; owner and status only on trees |
| TreeEditCard.YearSentAsNumber | components/garden/TreeEditCard.js:147 | a year typed as digits is sent as that number |
| Gardens.TrimOrNull | hooks/useGardens.js:44-46 | the trimmed text when it is non-empty, else null |
| Gardens.Normalise | hooks/useGardens.js:43-46 | defined exactly when there is a name, and the name is trimmed |
| Gardens.NormaliseIdempotent | hooks/useGardens.js:43-46 | saving the normalised columns again writes the same columns |
| Gardens.UpdateDefaults | hooks/useGardens.js:117-126 | the same length; exactly the gardens with the id take the defaults |
| Gardens.UpdateDefaultsFrame | hooks/useGardens.js:107-126 | only the garden with the id changes, only in its defaults, and an empty sort, year or owner becomes null |
| Gardens.GardenStore.constructor | hooks/useGardens.js:5-8 | no gardens, loading, index 0, no pending navigation |
| Gardens.GardenStore.CurrentGarden | hooks/useGardens.js:135 | the garden at the index when the index is in range, else none |
| Gardens.GardenStore.IsAddNewCard | hooks/useGardens.js:136 | the "add new" card shows no garden |
| Gardens.GardenStore.SetCurrentIndex | hooks/useGardens.js:7 | the index becomes the one given and nothing else changes |
| Gardens.GardenStore.FetchGardens | hooks/useGardens.js:21-36 | the list becomes the query's result, or stays on failure; loading ends |
| Gardens.GardenStore.NavigateEffect | hooks/useGardens.js:14-19 | a pending navigation with gardens shows the last garden and ends; otherwise nothing changes |
| Gardens.GardenStore.CreateGarden | hooks/useGardens.js:38-58 | the normalised insert; success exactly with a name and a stored row; on success the list is refetched and the last garden shown |
| Gardens.GardenStore.ShowNewGarden | hooks/useGardens.js:51-52 | after the refetch the last garden is shown; with an empty list the navigation request stays pending |
| Gardens.GardenStore.UpdateGarden | hooks/useGardens.js:60-80 | the normalised update; success exactly with a name and a stored row, then a refetch; the index stays |
| Gardens.GardenStore.DeleteGarden | hooks/useGardens.js:82-101 | a soft delete and a refetch on success; the index stays |
| Gardens.GardenStore.UpdateGardenDefaults | hooks/useGardens.js:103-133 | on success exactly the garden with the id takes the defaults locally; otherwise nothing changes |
| Carousel.PrevNextInverse | screens/GardensListScreen.js:305-385 | each step stays on a card, "next" moves one card on and wraps from the last to the first, and "previous" and "next" undo each other |
| Carousel.NextStepsWithin | screens/GardensListScreen.js:346-385 | before the wrap, k presses of "next" move k cards on |
| Carousel.NextStepsAdd | screens/GardensListScreen.js:346-385 | a presses then b presses are a + b presses |
| Carousel.EveryCardReached | screens/GardensListScreen.js:346-385 | every card is reached from every card, and a full round returns to the start |
| Carousel.PreloadIndex | screens/GardensListScreen.js:321-343 | a preloaded garden is a garden, one step on in the direction of travel; a viewer always preloads; an admin preloads forward exactly when a garden follows and back exactly from a garden other than the first |
| Viewport.Clamp | screens/GardensListScreen.js:883-884 | the result is within the bounds and is the value itself when that is within them |
| Viewport.CursorStaysPut | screens/GardensListScreen.js:873-881 | zooming towards the cursor keeps the content point under it |
| Viewport.ZoomView | screens/GardensListScreen.js:861-889 | the zoom is clamped to [1, 3]; zoom 1 has no pan; the pan stays within the bounds of the new zoom |
| Viewport.NoPanAtZoomOne | screens/GardensListScreen.js:864-866 | at zoom 1 the only pan within the bounds is none |
| Viewport.ZoomKeepsCursor | screens/GardensListScreen.js:873-889 | a zoom step that needs no clamping keeps the content point under the cursor |
| Viewport.InCardPercent | screens/GardensListScreen.js:664-671 | a release on the card lands within [0, 100] percent on both axes |
| Viewport.RenderInverse | screens/GardensListScreen.js:1273 | the inverse transform used by touch repositioning undoes the card's render transform, both ways |
| Viewport.RepositionPercent | screens/GardensListScreen.js:726-743 | the touch-moved position is clamped to [2, 98] percent |
| Viewport.RepositionIsInverseTransform | screens/GardensListScreen.js:726-743 | without zoom and pan the transformed position is the plain percentage, clamped |
| Viewport.CardView.constructor | screens/GardensListScreen.js:169-177 | zoom 1, no pan drawn and none in the pan ref, not panning, no pinch |
| Viewport.CardView.ResetViewAsWritten | screens/GardensListScreen.js:316-318 | zoom 1 and no pan drawn, while the pan ref keeps its old offset (see Findings) |
| Viewport.ZoomAfterStaleReset | screens/GardensListScreen.js:861-889 | after that reset from pan 50 on a 400 wide card, a wheel step at the centre pans to 75 where the view drawn would give 0 (see Findings) |
| Viewport.CardView.ResetView | screens/GardensListScreen.js:316-318 | the corrected reset: zoom 1, no pan, and the pan ref cleared with it, so ref and view agree (see Findings) |
| Viewport.CardView.ZoomAt | screens/GardensListScreen.js:861-889 | the view becomes the zoom step towards the cursor taken from the pan ref, and the ref and the drawn pan both take the result; when they agreed before, that is the step from the view drawn |
| Viewport.CardView.Wheel | screens/GardensListScreen.js:852-893 | the wheel zooms, from the pan ref, only with Ctrl or Meta held; otherwise neither the view nor the ref changes |
| Viewport.CardView.PinchMove | screens/GardensListScreen.js:991-1039 | from the second pinch event on the view zooms about the pinch centre, from the pan ref; the distance is remembered |
| Viewport.CardView.PinchEnd | screens/GardensListScreen.js:1041-1043 | the pinch distance is forgotten |
| Viewport.CardView.StartPan | screens/GardensListScreen.js:896-951 | panning starts only when zoomed in and not on an item, remembering the grab offset against the pan ref |
| Viewport.CardView.MovePan | screens/GardensListScreen.js:907-979 | while panning the pan follows the cursor, clamped within the bounds, and the ref takes it too; otherwise nothing moves |
| Viewport.CardView.EndPan | screens/GardensListScreen.js:932-990 | panning stops and the view stays |
| GardensList.OwnerValue | screens/GardensListScreen.js:813-815 | a text with non-blank trimmed content is kept as it is; anything else becomes null |
| GardensList.OwnerEditStatus | screens/GardensListScreen.js:813-835 | an owner edit writes 'Unavailable' exactly when the owner text is non-blank |
| GardensList.EditFor | screens/GardensListScreen.js:826-845 | the recorded edit carries the item, the field and the field's old value |
| GardensList.GenerateDefaults | screens/GardensListScreen.js:586-592 | a generated batch is of olives with the garden's sort, year and owner, and unavailable exactly when the garden has a default owner |
| GardensList.Screen.constructor | screens/GardensListScreen.js:119-156 | no selection, available-only off, no edit card |
| GardensList.Screen.SyncAvailableOnly | screens/GardensListScreen.js:186-197 | the switch is on exactly when the status filter is exactly ['Available'] |
| GardensList.Screen.GardenChanged | screens/GardensListScreen.js:180-184 | a new garden starts with an empty undo stack, no selection and the initial table state |
| GardensList.Screen.Navigate | screens/GardensListScreen.js:305-385 | the index moves to `Next` or `Prev`, the view resets to zoom 1 with the corrected reset (see Findings), and the garden one step further on is preloaded when `PreloadIndex` names one; when the index changed the item list switches to the new garden: empty without one, its cached list when cached, otherwise a fetch of it is under way |
| GardensList.Screen.FollowGarden | screens/GardensListScreen.js:199-207 | after the preload, a changed index points the store at the garden now shown: no garden empties the list, a cached one shows its list, otherwise its fetch is under way; an unchanged index leaves the list and its garden as they were |
| GardensList.GardenIdOf | screens/GardensListScreen.js:77 | the id of the current garden, absent exactly when there is no garden |
| ItemStore.ItemStore.SwitchGarden | hooks/useTrees.js:13-35 | the store follows the new garden id: no id empties the list, a cached garden shows its list, an uncached garden not already being fetched starts a fetch; afterwards the shown list is the current garden's cached list whenever it has one |
| GardensList.Screen.ToggleTreeSelection | screens/GardensListScreen.js:782-790 | the id's selection flips and the rest stays |
| GardensList.Screen.TreeClick | screens/GardensListScreen.js:767-780 | clicking the item being edited closes its card, any other item opens it |
| GardensList.Screen.ToggleAvailableOnly | screens/GardensListScreen.js:1198-1206 | switching on sets the status filter to ['Available'] and off clears it; the other filters stay |
| GardensList.Screen.AddAt | screens/GardensListScreen.js:452-459 | the item is added with the current garden's defaults; on success the list gains it, the garden's cache entry becomes the new list and an 'add' is recorded; on failure all three stay |
| GardensList.Screen.MoveExisting | screens/GardensListScreen.js:1103-1115 | the move is written to the table of the listed item; on success the list and the cache entry move it, and it is recorded with its old position when the item is listed |
| GardensList.Screen.Drop | screens/GardensListScreen.js:436-461 | a palette item lands at the plain percentage of the card, with the list, cache and undo stack of `AddAt`; no element of the card is given this handler (its `onDrop` is `handleRepositionDrop`, line 1269), so it is kept only as the plain form of that drop |
| GardensList.Screen.TouchEnd | screens/GardensListScreen.js:654-687 | a palette item is placed exactly when released on the card, at the plain percentage: the insert, then on success the new item in the list and the cache and an 'add' record; off the card nothing changes |
| GardensList.Screen.DroppedItemTouchEnd | screens/GardensListScreen.js:710-765 | a moved item lands at the inverse-transformed percentage clamped to [2, 98], written to the listed item's table; on success the list and cache move it and a 'move' from its listed position is recorded |
| GardensList.Screen.RepositionDrop | screens/GardensListScreen.js:1086-1128 | a mouse drop at the plain percentage moves an existing item (write, list, cache and 'move' record as `MoveExisting`) or adds a palette item (as `AddAt`) |
| GardensList.Screen.RemoveItem | screens/GardensListScreen.js:463-475 | nothing for an unlisted id; otherwise the soft delete is the recorded action's forward write and, on success, the item leaves the list, the garden's cache entry becomes the new list, the card closes and a 'delete' is recorded; on failure the list, cache and stack stay; the shown garden and the in-flight set never change |
| GardensList.Screen.SaveAvatar | screens/GardensListScreen.js:486-519 | nothing without a listed item or with the avatar unchanged; otherwise the avatar write is the recorded action's forward write and, on success, the item takes the avatar, the garden's cache entry becomes the new list and an 'avatar' is recorded; on failure the list, cache and stack stay; the shown garden and the in-flight set never change |
| GardensList.AvatarEditWrite | screens/GardensListScreen.js:486-519 | the forward write of an avatar change is the avatar write the store sends |
| GardensList.Screen.ForceFetch | screens/GardensListScreen.js:602 | a forced refetch caches the fetched rows under the garden and shows them when that garden is the store's own, unless a fetch is in flight or it fails, when list and cache stay |
| GardensList.GeneratedRows | screens/GardensListScreen.js:586-592 | every row of a generated grid is an olive, unavailable exactly when the garden has a default owner |
| GardensList.Screen.RecordBatch | screens/GardensListScreen.js:601-609 | after a batch insert the garden's cache entry becomes the refetched rows, shown when it is the store's garden (list and cache unchanged with a fetch in flight or a failed refetch), and one 'generate' record of the returned ids is pushed |
| GardensList.Screen.GenerateTrees | screens/GardensListScreen.js:575-619 | nothing is written unless the count parses to 1..1000; otherwise the grid is inserted with the garden's defaults and, once the ids are back, the garden's cache entry becomes the refetched rows, shown when it is the store's garden (unchanged when a fetch is in flight or the refetch fails), and the batch is recorded |
| GardensList.Refetched | hooks/useTrees.js:21-130 | after a forced refetch the cache entry of the garden is the fetched rows and the list is them when the garden is the one shown; nothing changes without an id, with a fetch in flight or when the refetch fails |
| GardensList.RefetchedTwice | screens/GardensListScreen.js:622-638 | a second refetch with the same outcome leaves what the first left, so the hook's refresh and the screen's refresh end in the same list and cache |
| GardensList.Screen.RefreshCurrent | screens/GardensListScreen.js:623-627 | the current garden, when it has an id, is refetched: list and cache as `Refetched` states |
| GardensList.Screen.UndoLast | screens/GardensListScreen.js:622-638 | the corrected reversal (`Inverse`, see Findings) of the newest action is written; on success it is popped, the card closes, and the current garden's cache entry becomes the refetched rows, which the list shows when it is the store's garden (unchanged without a garden id, with a fetch in flight or a failed refetch); on failure nothing else changes |
| GardensList.Screen.UpdateTreeField | screens/GardensListScreen.js:800-847 | nothing without a listed item being edited or with a strictly equal value; otherwise the writes sent are the forward writes of the recorded edit, the list is `Edited` (owner then status for a tree's owner, each on success; otherwise `value \|\| null` on success), the garden's cache entry follows the list whenever a write succeeded, and the edit is recorded when every write succeeded; the shown garden and the in-flight set never change |
| GardensList.Screen.EditOwner | screens/GardensListScreen.js:813-835 | the owner and then the derived status are written, each applied to the list when it succeeds, the garden's cache entry follows the list when either succeeded, and the edit is recorded only when both succeed |
| GardensList.Screen.StoreOwner | screens/GardensListScreen.js:814-819 | the owner write and then the status write the owner implies are sent, each applied to the list on success, with the garden's cache entry following the list when either succeeded |
| GardensList.OwnerEditWrites | screens/GardensListScreen.js:813-835 | the forward writes of a tree's owner edit are the store's owner write and then its status write |
| GardensList.Screen.EditField | screens/GardensListScreen.js:836-846 | `value \|\| null` is written to the field's column; on success the list takes it, the garden's cache entry follows and the edit is recorded; the shown garden and the in-flight set never change |

## Left out

- Network and database: every query and write is an outcome parameter. Error messages, alerts and the `updated_at` timestamps are not modelled.
- Concurrency: the model runs each handler to completion. Interleavings of awaits, React's batched state updates and stale closures are not modelled. The exception is the in-flight fetch set, which is modelled through `BeginFetch` and `CompleteFetch`.
- The clock: the current year is a parameter.
- Floating point: positions, zoom and pan are exact reals.
- Touch-drag and drag-over bookkeeping, modals, the card flip, loading spinners and the edit-form texts the screen sets when a card opens are not modelled. They decide what is drawn, not what is stored.
- The screen's photo-save handler is not modelled. The store operation it calls, `UpdateTreePhoto`, is modelled.
- Opening a garden's location in a maps app is left out. It is a call into the platform.
- Styling, theme, the login screen, the auth context and the garden detail and tree detail screens are not part of this model.
- Viewport.ZoomView: the wheel delta `-deltaY * 0.015` and the pinch delta `(distance - last) * 0.015` are taken as a given `delta`. The finger distance from `Math.hypot` is a parameter.
- TreeGenerator.GridCols: `Math.ceil(Math.sqrt(count * 4 / 3))` is modelled as the least integer c with 3c² ≥ 4·count. This ignores floating-point rounding of the square root.
- TreesTable.SortRows: string comparison through `localeCompare` is a comparator parameter, required to be a total preorder. Text columns are assumed to hold strings. A planting year that does not parse gives the year key 0 and the age key `currentYear` (`NumberKey`). In the source `parseInt` gives NaN there, so both keys are NaN and every comparison with that row is NaN, which `Array.prototype.sort` reads as a tie; that comparator is not a consistent order, and the order it produces depends on the engine. The model replaces NaN by 0 so that the order stays a total preorder.
- Js.StrLeTotal: the default order of `Array.prototype.sort` compares UTF-16 code units; the model compares Dafny characters.
- Undo.UndoStack.constructor: `maxStackSize` is a natural number. A negative size, which would make `slice` count from the end, is not modelled.
- ItemStore.ItemStore.CompleteFetch: the end of a fetch of a garden other than the hook's own (a preload) caches the rows without showing them; `hooks/useTrees.js:123` shows them (see Findings).
- GardensList.Screen.ForceFetch: the refetched rows are shown only when the garden is the store's own, as the corrected `CompleteFetch` does; the screen only force-fetches the current garden, which is the hook's.
- Undo.UndoStack.UndoLast: an owner edit of a tree is undone with the corrected reversal, which also writes back the old status; `hooks/useUndo.js:68-78` writes only the owner (see Findings).
- GardensList.Screen.UndoLast: an owner edit of a tree is undone with the corrected reversal, owner and old status; the source writes only the owner (see Findings).
- GardensList.Screen.UndoLast: the refresh after undoing a delete or a generated batch and the refresh that follows every successful undo use the same refetch outcome.
- GardensList.Screen.Drop: a card with zero width or height is excluded by a precondition. In the app such a card gives Infinity or NaN positions.
- GardensList.Screen.TouchEnd: a card with zero width or height is excluded by a precondition, for the same reason.
- GardensList.Screen.DroppedItemTouchEnd: a card with zero width or height is excluded by a precondition, for the same reason.
- GardensList.Screen.RepositionDrop: a card with zero width or height is excluded by a precondition, for the same reason.
- Viewport.CardView.ResetView: also clears the pan ref, where `screens/GardensListScreen.js:317-318` and `:358-359` reset only the drawn zoom and pan (see Findings).
- GardensList.Screen.Navigate: uses the corrected reset, so the pan ref is cleared on a garden change; the source leaves it stale (see Findings).
- Carousel.PrevNextInverse: the lemmas require a non-empty carousel. With no gardens a viewer's "next" moves to index 1 and "previous" to -1, outside the carousel.
- The translated status text shown in the table and on the card is not modelled. Filters compare the stored status.

## Findings

| source | as written | input that shows it | evidently intended | confidence | as-written member | corrected member |
|---|---|---|---|---|---|---|
| hooks/useUndo.js:68-78 with screens/GardensListScreen.js:813-835 | An owner edit of a tree writes the owner and then a status derived from it, but the undo of that edit writes back only the old owner. | Tree t1 has owner null and status 'Available'. Edit its owner to "Ann": the owner becomes "Ann" and the status 'Unavailable'. Undo: the owner is null again but the status stays 'Unavailable'. | Undoing an owner edit also restores the status the tree had before. | not executed | Undo.InverseAsWritten, Undo.OwnerUndoAsWrittenKeepsStatus | Undo.Inverse, Undo.InverseRestores |
| screens/GardensListScreen.js:317-318 with screens/GardensListScreen.js:878-879 | Changing garden resets the drawn zoom and pan with `setZoomLevel(1); setPanOffset({x: 0, y: 0})` but not `panOffsetRef`, which the next zoom step and the next pan start read. | On a 400 wide card at zoom 2 with pan x 50, go to the next garden, then wheel-zoom by 0.5 at x 200: the content offset is taken as (200 - 200 - 50) / 1 = -50 and the new pan is 75, though the card shows zoom 1 and no pan, where the step from the view drawn gives pan 0. | Resetting the view also clears the pan ref, so the first zoom or pan after a garden change starts from the view drawn. | not executed | Viewport.CardView.ResetViewAsWritten, Viewport.ZoomAfterStaleReset | Viewport.CardView.ResetView, Viewport.CardView.ZoomAt |
| hooks/useTrees.js:119-123 with screens/GardensListScreen.js:328 | `preloadGarden` runs the same `fetchTrees` as the hook's own garden, and its end calls `setDroppedItems` with the fetched list whichever garden was fetched. Each carousel step preloads the garden one further on. | Garden "g1" is shown and its empty list is cached. A preload of "g2" completes with one tree: the card now shows g2's tree, though "g1" is still the current garden and its cached list is empty. | The end of a fetch caches the rows under their garden and shows them only when that garden is the one the hook was given. | not executed | ItemStore.ItemStore.CompleteFetchAsWritten, ItemStore.PreloadShownAsWritten | ItemStore.ItemStore.CompleteFetch, ItemStore.PreloadCachedOnly |
