/** The three-language string table of the app and its lookup with fallback
    (constants/translations.js). A table is an object literal: its properties in
    the order they are written, grouped as the source groups them (common words,
    garden list, garden form, tree edit card, placeholders, modals, table,
    categories, tooltips, and the three groups of item types). */
module Translations {
  import opened Js

  /** The own properties of an object literal, in source order. */
  datatype Entries = Nil | Cons(key: string, text: string, rest: Entries)

  function Keys(e: Entries): (ks: seq<string>)
    ensures |ks| == Length(e)
  {
    match e
    case Nil => []
    case Cons(k, _, r) => [k] + Keys(r)
  }

  function Length(e: Entries): nat {
    match e
    case Nil => 0
    case Cons(_, _, r) => 1 + Length(r)
  }

  /** The object literal `{...a, ...b}` written out: the properties of a, then those of b. */
  function Append(a: Entries, b: Entries): (r: Entries)
  {
    match a
    case Nil => b
    case Cons(k, v, rest) => Cons(k, v, Append(rest, b))
  }

  /** `obj[key]` for an own property: when a key is written twice, the later
      definition is the one the object holds. */
  function Lookup(e: Entries, key: string): (r: Option<string>)
    ensures r.Some? <==> key in Keys(e)
  {
    match e
    case Nil => None
    case Cons(k, v, rest) =>
      var later := Lookup(rest, key);
      if later.Some? then later else if k == key then Some(v) else None
  }

  lemma {:induction false} LookupAppend(a: Entries, b: Entries, key: string)
    ensures Lookup(Append(a, b), key) == if Lookup(b, key).Some? then Lookup(b, key) else Lookup(a, key)
  {
    match a
    case Nil =>
    case Cons(k, v, rest) => LookupAppend(rest, b, key);
  }

  /** No entry is the empty string. */
  predicate NonEmptyTexts(e: Entries) {
    match e
    case Nil => true
    case Cons(_, v, rest) => v != "" && NonEmptyTexts(rest)
  }

  /** Two tables that list the same keys in the same order, with no empty entry. */
  predicate Parallel(a: Entries, b: Entries) {
    match a
    case Nil => b.Nil?
    case Cons(k, v, rest) => b.Cons? && b.key == k && v != "" && b.text != "" && Parallel(rest, b.rest)
  }

  lemma {:induction false} ParallelMeans(a: Entries, b: Entries)
    requires Parallel(a, b)
    ensures Keys(a) == Keys(b) && NonEmptyTexts(a) && NonEmptyTexts(b)
  {
    match a
    case Nil =>
    case Cons(k, v, rest) => ParallelMeans(rest, b.rest);
  }

  lemma {:induction false} ParallelAppend(a: Entries, b: Entries, c: Entries, d: Entries)
    requires Parallel(a, b) && Parallel(c, d)
    ensures Parallel(Append(a, c), Append(b, d))
  {
    match a
    case Nil =>
    case Cons(k, v, rest) => ParallelAppend(rest, b.rest, c, d);
  }

  lemma {:induction false} NonEmptyLookup(e: Entries, key: string)
    requires NonEmptyTexts(e) && Lookup(e, key).Some?
    ensures Lookup(e, key).value != ""
  {
    match e
    case Nil =>
    case Cons(k, v, rest) =>
      if Lookup(rest, key).Some? {
        NonEmptyLookup(rest, key);
      }
  }

  const EnCommon: Entries :=
    Cons("save", "Save",
    Cons("cancel", "Cancel",
    Cons("delete", "Delete",
    Cons("edit", "Edit",
    Cons("undo", "Undo",
    Cons("login", "Login",
    Cons("logout", "Logout",
    Cons("admin", "Admin",
    Cons("viewer", "Viewer",
    Nil)))))))))

  const EnGardenList: Entries :=
    Cons("myGardens", "My Gardens",
    Cons("noGardens", "No gardens available",
    Cons("addFirstGarden", "Add Your First Garden",
    Cons("addNewGarden", "Add New Garden",
    Cons("noMoreGardens", "No more gardens",
    Cons("dropHere", "Drop here",
    Cons("gardenItems", "Garden Items",
    Cons("showAvailableOnly", "Show Available Only",
    Nil))))))))

  const EnGardenForm: Entries :=
    Cons("newGarden", "New Garden",
    Cons("editGarden", "Edit Garden",
    Cons("gardenName", "Garden Name",
    Cons("description", "Description",
    Cons("location", "Location (URL or coordinates)",
    Cons("backgroundImageUrl", "Background Image URL",
    Cons("saving", "Saving...",
    Nil)))))))

  const EnTreeEditCard: Entries :=
    Cons("type", "Type",
    Cons("sort", "Sort",
    Cons("year", "Year",
    Cons("age", "Age",
    Cons("owner", "Owner",
    Cons("status", "Status",
    Cons("years", "years",
    Cons("available", "Available",
    Cons("unavailable", "Unavailable",
    Cons("reserved", "Reserved",
    Nil))))))))))

  const EnPlaceholders: Entries :=
    Cons("placeholderGardenName", "e.g., My Garden",
    Cons("placeholderDescription", "Describe your garden...",
    Cons("placeholderLocation", "41.112124, 16.871091",
    Cons("placeholderBackgroundUrl", "https://...",
    Cons("placeholderType", "e.g. Olive",
    Cons("placeholderSort", "e.g. Koroneiki",
    Cons("placeholderYear", "e.g. 2020",
    Cons("placeholderOwner", "e.g. John",
    Cons("placeholderShed", "e.g. Shed",
    Cons("placeholderToolStorage", "e.g. Tool storage",
    Nil))))))))))

  const EnModals: Entries :=
    Cons("deleteGardenTitle", "Delete Garden",
    Cons("deleteGardenMessage", "Are you sure you want to delete",
    Cons("deleteGardenWarning", "This action cannot be undone.",
    Cons("customAvatarTitle", "Custom Avatar",
    Cons("customAvatarMessage", "Enter a URL for a custom avatar image:",
    Cons("avatarUrl", "Avatar URL",
    Cons("defaultValuesTitle", "Default Tree Values",
    Cons("defaultValuesMessage", "Set default values for new trees in this garden:",
    Cons("defaultSort", "Default Sort/Variety",
    Cons("defaultYearPlanted", "Default Year Planted",
    Cons("defaultOwner", "Default Owner",
    Nil)))))))))))

  const EnTable: Entries :=
    Cons("trees", "Trees",
    Cons("selectAll", "Select All",
    Cons("clearAll", "Clear All",
    Cons("clearSelection", "Clear Selection",
    Cons("noTrees", "No trees in this garden",
    Cons("photo", "Photo",
    Nil))))))

  const EnCategories: Entries :=
    Cons("categoryTrees", "🌳 TREES",
    Cons("categoryBuildings", "🏗️ BUILDINGS",
    Cons("categoryOther", "✨ OTHER",
    Nil)))

  const EnTooltips: Entries :=
    Cons("tooltipEdit", "Edit garden",
    Cons("tooltipDefaults", "Set default values",
    Cons("tooltipDelete", "Delete garden",
    Cons("tooltipLocation", "Open location",
    Cons("tooltipBuy", "Buy this tree",
    Cons("tooltipViewPhoto", "View photo",
    Cons("tooltipNoPhoto", "No photo",
    Cons("tooltipEditPhoto", "Edit photo",
    Cons("tooltipAddPhoto", "Add photo",
    Nil)))))))))

  const EnTreeTypes: Entries :=
    Cons("olive", "Olive Tree",
    Cons("orange", "Orange Tree",
    Cons("lemon", "Lemon Tree",
    Cons("fig", "Fig Tree",
    Cons("herbs", "Herbs",
    Cons("other-tree", "Other Tree",
    Nil))))))

  const EnBuildingTypes: Entries :=
    Cons("trullo", "Trullo",
    Cons("kitchen", "Kitchen",
    Cons("campfire", "Campfire",
    Cons("toilet", "Toilet",
    Cons("storage", "Storage",
    Cons("custom-building", "Custom",
    Nil))))))

  const EnOtherTypes: Entries :=
    Cons("entrance", "Entrance",
    Cons("hammock", "Hammock",
    Cons("custom", "Custom",
    Nil)))

  const UkCommon: Entries :=
    Cons("save", "Зберегти",
    Cons("cancel", "Скасувати",
    Cons("delete", "Видалити",
    Cons("edit", "Редагувати",
    Cons("undo", "Скасувати",
    Cons("login", "Увійти",
    Cons("logout", "Вийти",
    Cons("admin", "Адмін",
    Cons("viewer", "Глядач",
    Nil)))))))))

  const UkGardenList: Entries :=
    Cons("myGardens", "Мої Сади",
    Cons("noGardens", "Немає доступних садів",
    Cons("addFirstGarden", "Додати Перший Сад",
    Cons("addNewGarden", "Додати Новий Сад",
    Cons("noMoreGardens", "Більше немає садів",
    Cons("dropHere", "Перетягніть сюди",
    Cons("gardenItems", "Елементи Саду",
    Cons("showAvailableOnly", "Показати Тільки Доступні",
    Nil))))))))

  const UkGardenForm: Entries :=
    Cons("newGarden", "Новий Сад",
    Cons("editGarden", "Редагувати Сад",
    Cons("gardenName", "Назва Саду",
    Cons("description", "Опис",
    Cons("location", "Місцезнаходження (URL або координати)",
    Cons("backgroundImageUrl", "URL Фонового Зображення",
    Cons("saving", "Збереження...",
    Nil)))))))

  const UkTreeEditCard: Entries :=
    Cons("type", "Тип",
    Cons("sort", "Сорт",
    Cons("year", "Рік",
    Cons("age", "Вік",
    Cons("owner", "Власник",
    Cons("status", "Статус",
    Cons("years", "років",
    Cons("available", "Доступно",
    Cons("unavailable", "Недоступно",
    Cons("reserved", "Зарезервовано",
    Nil))))))))))

  const UkPlaceholders: Entries :=
    Cons("placeholderGardenName", "напр., Мій Сад",
    Cons("placeholderDescription", "Опишіть ваш сад...",
    Cons("placeholderLocation", "41.112124, 16.871091",
    Cons("placeholderBackgroundUrl", "https://...",
    Cons("placeholderType", "напр. Олива",
    Cons("placeholderSort", "напр. Коронейкі",
    Cons("placeholderYear", "напр. 2020",
    Cons("placeholderOwner", "напр. Іван",
    Cons("placeholderShed", "напр. Сарай",
    Cons("placeholderToolStorage", "напр. Зберігання інструментів",
    Nil))))))))))

  const UkModals: Entries :=
    Cons("deleteGardenTitle", "Видалити Сад",
    Cons("deleteGardenMessage", "Ви впевнені, що хочете видалити",
    Cons("deleteGardenWarning", "Цю дію неможливо скасувати.",
    Cons("customAvatarTitle", "Власний Аватар",
    Cons("customAvatarMessage", "Введіть URL для власного зображення аватара:",
    Cons("avatarUrl", "URL Аватара",
    Cons("defaultValuesTitle", "Значення за Замовчуванням",
    Cons("defaultValuesMessage", "Встановіть значення за замовчуванням для нових дерев у цьому саду:",
    Cons("defaultSort", "Сорт за Замовчуванням",
    Cons("defaultYearPlanted", "Рік Посадки за Замовчуванням",
    Cons("defaultOwner", "Власник за Замовчуванням",
    Nil)))))))))))

  const UkTable: Entries :=
    Cons("trees", "Дерева",
    Cons("selectAll", "Вибрати Все",
    Cons("clearAll", "Очистити Все",
    Cons("clearSelection", "Очистити Вибір",
    Cons("noTrees", "Немає дерев у цьому саду",
    Cons("photo", "Фото",
    Nil))))))

  const UkCategories: Entries :=
    Cons("categoryTrees", "🌳 ДЕРЕВА",
    Cons("categoryBuildings", "🏗️ БУДІВЛІ",
    Cons("categoryOther", "✨ ІНШЕ",
    Nil)))

  const UkTooltips: Entries :=
    Cons("tooltipEdit", "Редагувати сад",
    Cons("tooltipDefaults", "Встановити значення за замовчуванням",
    Cons("tooltipDelete", "Видалити сад",
    Cons("tooltipLocation", "Відкрити місцезнаходження",
    Cons("tooltipBuy", "Купити це дерево",
    Cons("tooltipViewPhoto", "Переглянути фото",
    Cons("tooltipNoPhoto", "Немає фото",
    Cons("tooltipEditPhoto", "Редагувати фото",
    Cons("tooltipAddPhoto", "Додати фото",
    Nil)))))))))

  const UkTreeTypes: Entries :=
    Cons("olive", "Оливкове Дерево",
    Cons("orange", "Апельсинове Дерево",
    Cons("lemon", "Лимонне Дерево",
    Cons("fig", "Фігове Дерево",
    Cons("herbs", "Трави",
    Cons("other-tree", "Інше Дерево",
    Nil))))))

  const UkBuildingTypes: Entries :=
    Cons("trullo", "Трулло",
    Cons("kitchen", "Кухня",
    Cons("campfire", "Вогнище",
    Cons("toilet", "Туалет",
    Cons("storage", "Сховище",
    Cons("custom-building", "Власне",
    Nil))))))

  const UkOtherTypes: Entries :=
    Cons("entrance", "Вхід",
    Cons("hammock", "Гамак",
    Cons("custom", "Власне",
    Nil)))

  const ItCommon: Entries :=
    Cons("save", "Salva",
    Cons("cancel", "Annulla",
    Cons("delete", "Elimina",
    Cons("edit", "Modifica",
    Cons("undo", "Annulla",
    Cons("login", "Accedi",
    Cons("logout", "Esci",
    Cons("admin", "Admin",
    Cons("viewer", "Visualizzatore",
    Nil)))))))))

  const ItGardenList: Entries :=
    Cons("myGardens", "I Miei Giardini",
    Cons("noGardens", "Nessun giardino disponibile",
    Cons("addFirstGarden", "Aggiungi il Primo Giardino",
    Cons("addNewGarden", "Aggiungi Nuovo Giardino",
    Cons("noMoreGardens", "Non ci sono altri giardini",
    Cons("dropHere", "Rilascia qui",
    Cons("gardenItems", "Elementi del Giardino",
    Cons("showAvailableOnly", "Mostra Solo Disponibili",
    Nil))))))))

  const ItGardenForm: Entries :=
    Cons("newGarden", "Nuovo Giardino",
    Cons("editGarden", "Modifica Giardino",
    Cons("gardenName", "Nome del Giardino",
    Cons("description", "Descrizione",
    Cons("location", "Posizione (URL o coordinate)",
    Cons("backgroundImageUrl", "URL Immagine di Sfondo",
    Cons("saving", "Salvataggio...",
    Nil)))))))

  const ItTreeEditCard: Entries :=
    Cons("type", "Tipo",
    Cons("sort", "Varietà",
    Cons("year", "Anno",
    Cons("age", "Età",
    Cons("owner", "Proprietario",
    Cons("status", "Stato",
    Cons("years", "anni",
    Cons("available", "Disponibile",
    Cons("unavailable", "Non Disponibile",
    Cons("reserved", "Riservato",
    Nil))))))))))

  const ItPlaceholders: Entries :=
    Cons("placeholderGardenName", "es., Il Mio Giardino",
    Cons("placeholderDescription", "Descrivi il tuo giardino...",
    Cons("placeholderLocation", "41.112124, 16.871091",
    Cons("placeholderBackgroundUrl", "https://...",
    Cons("placeholderType", "es. Olivo",
    Cons("placeholderSort", "es. Coratina",
    Cons("placeholderYear", "es. 2020",
    Cons("placeholderOwner", "es. Mario",
    Cons("placeholderShed", "es. Capanno",
    Cons("placeholderToolStorage", "es. Deposito attrezzi",
    Nil))))))))))

  const ItModals: Entries :=
    Cons("deleteGardenTitle", "Elimina Giardino",
    Cons("deleteGardenMessage", "Sei sicuro di voler eliminare",
    Cons("deleteGardenWarning", "Questa azione non può essere annullata.",
    Cons("customAvatarTitle", "Avatar Personalizzato",
    Cons("customAvatarMessage", "Inserisci un URL per un'immagine avatar personalizzata:",
    Cons("avatarUrl", "URL Avatar",
    Cons("defaultValuesTitle", "Valori Predefiniti",
    Cons("defaultValuesMessage", "Imposta i valori predefiniti per i nuovi alberi in questo giardino:",
    Cons("defaultSort", "Varietà Predefinita",
    Cons("defaultYearPlanted", "Anno di Piantagione Predefinito",
    Cons("defaultOwner", "Proprietario Predefinito",
    Nil)))))))))))

  const ItTable: Entries :=
    Cons("trees", "Alberi",
    Cons("selectAll", "Seleziona Tutto",
    Cons("clearAll", "Cancella Tutto",
    Cons("clearSelection", "Cancella Selezione",
    Cons("noTrees", "Nessun albero in questo giardino",
    Cons("photo", "Foto",
    Nil))))))

  const ItCategories: Entries :=
    Cons("categoryTrees", "🌳 ALBERI",
    Cons("categoryBuildings", "🏗️ EDIFICI",
    Cons("categoryOther", "✨ ALTRO",
    Nil)))

  const ItTooltips: Entries :=
    Cons("tooltipEdit", "Modifica giardino",
    Cons("tooltipDefaults", "Imposta valori predefiniti",
    Cons("tooltipDelete", "Elimina giardino",
    Cons("tooltipLocation", "Apri posizione",
    Cons("tooltipBuy", "Acquista questo albero",
    Cons("tooltipViewPhoto", "Visualizza foto",
    Cons("tooltipNoPhoto", "Nessuna foto",
    Cons("tooltipEditPhoto", "Modifica foto",
    Cons("tooltipAddPhoto", "Aggiungi foto",
    Nil)))))))))

  const ItTreeTypes: Entries :=
    Cons("olive", "Olivo",
    Cons("orange", "Arancio",
    Cons("lemon", "Limone",
    Cons("fig", "Fico",
    Cons("herbs", "Erbe",
    Cons("other-tree", "Altro Albero",
    Nil))))))

  const ItBuildingTypes: Entries :=
    Cons("trullo", "Trullo",
    Cons("kitchen", "Cucina",
    Cons("campfire", "Falò",
    Cons("toilet", "Bagno",
    Cons("storage", "Deposito",
    Cons("custom-building", "Personalizzato",
    Nil))))))

  const ItOtherTypes: Entries :=
    Cons("entrance", "Ingresso",
    Cons("hammock", "Amaca",
    Cons("custom", "Personalizzato",
    Nil)))

  const En: Entries :=
    Append(EnCommon, Append(EnGardenList, Append(EnGardenForm, Append(EnTreeEditCard, Append(EnPlaceholders, Append(EnModals, Append(EnTable, Append(EnCategories, Append(EnTooltips, Append(EnTreeTypes, Append(EnBuildingTypes, EnOtherTypes)))))))))))

  const Uk: Entries :=
    Append(UkCommon, Append(UkGardenList, Append(UkGardenForm, Append(UkTreeEditCard, Append(UkPlaceholders, Append(UkModals, Append(UkTable, Append(UkCategories, Append(UkTooltips, Append(UkTreeTypes, Append(UkBuildingTypes, UkOtherTypes)))))))))))

  const It: Entries :=
    Append(ItCommon, Append(ItGardenList, Append(ItGardenForm, Append(ItTreeEditCard, Append(ItPlaceholders, Append(ItModals, Append(ItTable, Append(ItCategories, Append(ItTooltips, Append(ItTreeTypes, Append(ItBuildingTypes, ItOtherTypes)))))))))))

  /** `translations[lang]`: the table of a supported language code. */
  function Table(lang: string): Option<Entries> {
    if lang == "en" then Some(En)
    else if lang == "uk" then Some(Uk)
    else if lang == "it" then Some(It)
    else None
  }

  /** The language codes the table has: 'en', 'uk' and 'it'. */
  predicate Supported(lang: string) {
    lang == "en" || lang == "uk" || lang == "it"
  }

  lemma TableOfSupported(lang: string)
    ensures Table(lang).Some? <==> Supported(lang)
  {
  }

  /** `translations[lang]?.[key]`, None when the language or the key is missing. */
  function Entry(lang: string, key: string): Option<string> {
    match Table(lang)
    case Some(table) => Lookup(table, key)
    case None => None
  }

  /** `getTranslation(lang)(key)`: the entry of the language when it is non-empty,
      else the English entry when that is non-empty, else the key itself. */
  function Translate(key: string, lang: string := "en"): string {
    var own := Entry(lang, key);
    var english := Entry("en", key);
    if TruthyText(own) then own.value
    else if TruthyText(english) then english.value
    else key
  }

  /** `getTranslation(lang)`: the translation function of one language. */
  function GetTranslation(lang: string := "en"): (t: string -> string)
    ensures forall key :: t(key) == Translate(key, lang)
  {
    key => Translate(key, lang)
  }

  /** `useTranslation(lang)`: the translation function together with the language. */
  function UseTranslation(lang: string := "en"): (r: (string -> string, string))
    ensures r.1 == lang
    ensures forall key :: r.0(key) == Translate(key, lang)
  {
    (GetTranslation(lang), lang)
  }

  lemma CommonParallel()
    ensures Parallel(EnCommon, UkCommon) && Parallel(EnCommon, ItCommon)
  {
  }

  lemma GardenListParallel()
    ensures Parallel(EnGardenList, UkGardenList) && Parallel(EnGardenList, ItGardenList)
  {
  }

  lemma GardenFormParallel()
    ensures Parallel(EnGardenForm, UkGardenForm) && Parallel(EnGardenForm, ItGardenForm)
  {
  }

  lemma TreeEditCardParallel()
    ensures Parallel(EnTreeEditCard, UkTreeEditCard) && Parallel(EnTreeEditCard, ItTreeEditCard)
  {
  }

  lemma PlaceholdersParallel()
    ensures Parallel(EnPlaceholders, UkPlaceholders) && Parallel(EnPlaceholders, ItPlaceholders)
  {
  }

  lemma ModalsParallel()
    ensures Parallel(EnModals, UkModals) && Parallel(EnModals, ItModals)
  {
  }

  lemma TableParallel()
    ensures Parallel(EnTable, UkTable) && Parallel(EnTable, ItTable)
  {
  }

  lemma CategoriesParallel()
    ensures Parallel(EnCategories, UkCategories) && Parallel(EnCategories, ItCategories)
  {
  }

  lemma TooltipsParallel()
    ensures Parallel(EnTooltips, UkTooltips) && Parallel(EnTooltips, ItTooltips)
  {
  }

  lemma TreeTypesParallel()
    ensures Parallel(EnTreeTypes, UkTreeTypes) && Parallel(EnTreeTypes, ItTreeTypes)
  {
  }

  lemma BuildingTypesParallel()
    ensures Parallel(EnBuildingTypes, UkBuildingTypes) && Parallel(EnBuildingTypes, ItBuildingTypes)
  {
  }

  lemma OtherTypesParallel()
    ensures Parallel(EnOtherTypes, UkOtherTypes) && Parallel(EnOtherTypes, ItOtherTypes)
  {
  }

  lemma {:induction false} UkParallel()
    ensures Parallel(En, Uk)
  {
    CommonParallel();
    GardenListParallel();
    GardenFormParallel();
    TreeEditCardParallel();
    PlaceholdersParallel();
    ModalsParallel();
    TableParallel();
    CategoriesParallel();
    TooltipsParallel();
    TreeTypesParallel();
    BuildingTypesParallel();
    OtherTypesParallel();
    ParallelAppend(EnBuildingTypes, UkBuildingTypes, EnOtherTypes, UkOtherTypes);
    ParallelAppend(EnTreeTypes, UkTreeTypes, Append(EnBuildingTypes, EnOtherTypes), Append(UkBuildingTypes, UkOtherTypes));
    ParallelAppend(EnTooltips, UkTooltips, Append(EnTreeTypes, Append(EnBuildingTypes, EnOtherTypes)), Append(UkTreeTypes, Append(UkBuildingTypes, UkOtherTypes)));
    ParallelAppend(EnCategories, UkCategories, Append(EnTooltips, Append(EnTreeTypes, Append(EnBuildingTypes, EnOtherTypes))), Append(UkTooltips, Append(UkTreeTypes, Append(UkBuildingTypes, UkOtherTypes))));
    ParallelAppend(EnTable, UkTable, Append(EnCategories, Append(EnTooltips, Append(EnTreeTypes, Append(EnBuildingTypes, EnOtherTypes)))), Append(UkCategories, Append(UkTooltips, Append(UkTreeTypes, Append(UkBuildingTypes, UkOtherTypes)))));
    ParallelAppend(EnModals, UkModals, Append(EnTable, Append(EnCategories, Append(EnTooltips, Append(EnTreeTypes, Append(EnBuildingTypes, EnOtherTypes))))), Append(UkTable, Append(UkCategories, Append(UkTooltips, Append(UkTreeTypes, Append(UkBuildingTypes, UkOtherTypes))))));
    ParallelAppend(EnPlaceholders, UkPlaceholders, Append(EnModals, Append(EnTable, Append(EnCategories, Append(EnTooltips, Append(EnTreeTypes, Append(EnBuildingTypes, EnOtherTypes)))))), Append(UkModals, Append(UkTable, Append(UkCategories, Append(UkTooltips, Append(UkTreeTypes, Append(UkBuildingTypes, UkOtherTypes)))))));
    ParallelAppend(EnTreeEditCard, UkTreeEditCard, Append(EnPlaceholders, Append(EnModals, Append(EnTable, Append(EnCategories, Append(EnTooltips, Append(EnTreeTypes, Append(EnBuildingTypes, EnOtherTypes))))))), Append(UkPlaceholders, Append(UkModals, Append(UkTable, Append(UkCategories, Append(UkTooltips, Append(UkTreeTypes, Append(UkBuildingTypes, UkOtherTypes))))))));
    ParallelAppend(EnGardenForm, UkGardenForm, Append(EnTreeEditCard, Append(EnPlaceholders, Append(EnModals, Append(EnTable, Append(EnCategories, Append(EnTooltips, Append(EnTreeTypes, Append(EnBuildingTypes, EnOtherTypes)))))))), Append(UkTreeEditCard, Append(UkPlaceholders, Append(UkModals, Append(UkTable, Append(UkCategories, Append(UkTooltips, Append(UkTreeTypes, Append(UkBuildingTypes, UkOtherTypes)))))))));
    ParallelAppend(EnGardenList, UkGardenList, Append(EnGardenForm, Append(EnTreeEditCard, Append(EnPlaceholders, Append(EnModals, Append(EnTable, Append(EnCategories, Append(EnTooltips, Append(EnTreeTypes, Append(EnBuildingTypes, EnOtherTypes))))))))), Append(UkGardenForm, Append(UkTreeEditCard, Append(UkPlaceholders, Append(UkModals, Append(UkTable, Append(UkCategories, Append(UkTooltips, Append(UkTreeTypes, Append(UkBuildingTypes, UkOtherTypes))))))))));
    ParallelAppend(EnCommon, UkCommon, Append(EnGardenList, Append(EnGardenForm, Append(EnTreeEditCard, Append(EnPlaceholders, Append(EnModals, Append(EnTable, Append(EnCategories, Append(EnTooltips, Append(EnTreeTypes, Append(EnBuildingTypes, EnOtherTypes)))))))))), Append(UkGardenList, Append(UkGardenForm, Append(UkTreeEditCard, Append(UkPlaceholders, Append(UkModals, Append(UkTable, Append(UkCategories, Append(UkTooltips, Append(UkTreeTypes, Append(UkBuildingTypes, UkOtherTypes)))))))))));
  }

  lemma {:induction false} ItParallel()
    ensures Parallel(En, It)
  {
    CommonParallel();
    GardenListParallel();
    GardenFormParallel();
    TreeEditCardParallel();
    PlaceholdersParallel();
    ModalsParallel();
    TableParallel();
    CategoriesParallel();
    TooltipsParallel();
    TreeTypesParallel();
    BuildingTypesParallel();
    OtherTypesParallel();
    ParallelAppend(EnBuildingTypes, ItBuildingTypes, EnOtherTypes, ItOtherTypes);
    ParallelAppend(EnTreeTypes, ItTreeTypes, Append(EnBuildingTypes, EnOtherTypes), Append(ItBuildingTypes, ItOtherTypes));
    ParallelAppend(EnTooltips, ItTooltips, Append(EnTreeTypes, Append(EnBuildingTypes, EnOtherTypes)), Append(ItTreeTypes, Append(ItBuildingTypes, ItOtherTypes)));
    ParallelAppend(EnCategories, ItCategories, Append(EnTooltips, Append(EnTreeTypes, Append(EnBuildingTypes, EnOtherTypes))), Append(ItTooltips, Append(ItTreeTypes, Append(ItBuildingTypes, ItOtherTypes))));
    ParallelAppend(EnTable, ItTable, Append(EnCategories, Append(EnTooltips, Append(EnTreeTypes, Append(EnBuildingTypes, EnOtherTypes)))), Append(ItCategories, Append(ItTooltips, Append(ItTreeTypes, Append(ItBuildingTypes, ItOtherTypes)))));
    ParallelAppend(EnModals, ItModals, Append(EnTable, Append(EnCategories, Append(EnTooltips, Append(EnTreeTypes, Append(EnBuildingTypes, EnOtherTypes))))), Append(ItTable, Append(ItCategories, Append(ItTooltips, Append(ItTreeTypes, Append(ItBuildingTypes, ItOtherTypes))))));
    ParallelAppend(EnPlaceholders, ItPlaceholders, Append(EnModals, Append(EnTable, Append(EnCategories, Append(EnTooltips, Append(EnTreeTypes, Append(EnBuildingTypes, EnOtherTypes)))))), Append(ItModals, Append(ItTable, Append(ItCategories, Append(ItTooltips, Append(ItTreeTypes, Append(ItBuildingTypes, ItOtherTypes)))))));
    ParallelAppend(EnTreeEditCard, ItTreeEditCard, Append(EnPlaceholders, Append(EnModals, Append(EnTable, Append(EnCategories, Append(EnTooltips, Append(EnTreeTypes, Append(EnBuildingTypes, EnOtherTypes))))))), Append(ItPlaceholders, Append(ItModals, Append(ItTable, Append(ItCategories, Append(ItTooltips, Append(ItTreeTypes, Append(ItBuildingTypes, ItOtherTypes))))))));
    ParallelAppend(EnGardenForm, ItGardenForm, Append(EnTreeEditCard, Append(EnPlaceholders, Append(EnModals, Append(EnTable, Append(EnCategories, Append(EnTooltips, Append(EnTreeTypes, Append(EnBuildingTypes, EnOtherTypes)))))))), Append(ItTreeEditCard, Append(ItPlaceholders, Append(ItModals, Append(ItTable, Append(ItCategories, Append(ItTooltips, Append(ItTreeTypes, Append(ItBuildingTypes, ItOtherTypes)))))))));
    ParallelAppend(EnGardenList, ItGardenList, Append(EnGardenForm, Append(EnTreeEditCard, Append(EnPlaceholders, Append(EnModals, Append(EnTable, Append(EnCategories, Append(EnTooltips, Append(EnTreeTypes, Append(EnBuildingTypes, EnOtherTypes))))))))), Append(ItGardenForm, Append(ItTreeEditCard, Append(ItPlaceholders, Append(ItModals, Append(ItTable, Append(ItCategories, Append(ItTooltips, Append(ItTreeTypes, Append(ItBuildingTypes, ItOtherTypes))))))))));
    ParallelAppend(EnCommon, ItCommon, Append(EnGardenList, Append(EnGardenForm, Append(EnTreeEditCard, Append(EnPlaceholders, Append(EnModals, Append(EnTable, Append(EnCategories, Append(EnTooltips, Append(EnTreeTypes, Append(EnBuildingTypes, EnOtherTypes)))))))))), Append(ItGardenList, Append(ItGardenForm, Append(ItTreeEditCard, Append(ItPlaceholders, Append(ItModals, Append(ItTable, Append(ItCategories, Append(ItTooltips, Append(ItTreeTypes, Append(ItBuildingTypes, ItOtherTypes)))))))))));
  }

  /** The Ukrainian and Italian tables list the English keys in the English
      order, and no entry of any of the three tables is empty. */
  lemma {:induction false} TablesComplete()
    ensures Keys(Uk) == Keys(En) && Keys(It) == Keys(En)
    ensures NonEmptyTexts(En) && NonEmptyTexts(Uk) && NonEmptyTexts(It)
  {
    UkParallel();
    ItParallel();
    ParallelMeans(En, Uk);
    ParallelMeans(En, It);
  }

  /** A key of the English table, looked up in any of the three languages, finds
      that language's own non-empty entry: nothing falls through to English. */
  lemma NoFallThrough(key: string, lang: string)
    requires key in Keys(En) && Table(lang).Some?
    ensures Lookup(Table(lang).value, key).Some?
    ensures Translate(key, lang) == Lookup(Table(lang).value, key).value != ""
  {
    TablesComplete();
    NonEmptyLookup(Table(lang).value, key);
  }

  /** A key no table defines is shown as the key itself, whatever the language. */
  lemma UnknownKeyEchoed(key: string, lang: string)
    requires key !in Keys(En)
    ensures Translate(key, lang) == key
  {
    TablesComplete();
  }

  /** An unsupported language code reads the English table. */
  lemma UnknownLanguageIsEnglish(key: string, lang: string)
    requires Table(lang).None?
    ensures Translate(key, lang) == Translate(key)
  {
    if key in Keys(En) {
      TablesComplete();
      NonEmptyLookup(En, key);
    }
  }

  /** The English entry of an item-type id. The tree, building and other item
      types are the last three groups of the table, so their entries are read from
      them alone, the later groups first. */
  function ItemTypeEntry(key: string): Option<string> {
    var other := Lookup(EnOtherTypes, key);
    var building := Lookup(EnBuildingTypes, key);
    if other.Some? then other else if building.Some? then building else Lookup(EnTreeTypes, key)
  }

  lemma {:induction false} ItemTypeGroups(key: string)
    ensures Lookup(Append(EnTreeTypes, Append(EnBuildingTypes, EnOtherTypes)), key) == ItemTypeEntry(key)
  {
    LookupAppend(EnTreeTypes, Append(EnBuildingTypes, EnOtherTypes), key);
    LookupAppend(EnBuildingTypes, EnOtherTypes, key);
  }

  lemma {:induction false} EnglishItemType(key: string)
    requires ItemTypeEntry(key).Some?
    ensures Lookup(En, key) == ItemTypeEntry(key)
  {
    ItemTypeGroups(key);
    LookupAppend(EnCommon, Append(EnGardenList, Append(EnGardenForm, Append(EnTreeEditCard, Append(EnPlaceholders, Append(EnModals, Append(EnTable, Append(EnCategories, Append(EnTooltips, Append(EnTreeTypes, Append(EnBuildingTypes, EnOtherTypes)))))))))), key);
    LookupAppend(EnGardenList, Append(EnGardenForm, Append(EnTreeEditCard, Append(EnPlaceholders, Append(EnModals, Append(EnTable, Append(EnCategories, Append(EnTooltips, Append(EnTreeTypes, Append(EnBuildingTypes, EnOtherTypes))))))))), key);
    LookupAppend(EnGardenForm, Append(EnTreeEditCard, Append(EnPlaceholders, Append(EnModals, Append(EnTable, Append(EnCategories, Append(EnTooltips, Append(EnTreeTypes, Append(EnBuildingTypes, EnOtherTypes)))))))), key);
    LookupAppend(EnTreeEditCard, Append(EnPlaceholders, Append(EnModals, Append(EnTable, Append(EnCategories, Append(EnTooltips, Append(EnTreeTypes, Append(EnBuildingTypes, EnOtherTypes))))))), key);
    LookupAppend(EnPlaceholders, Append(EnModals, Append(EnTable, Append(EnCategories, Append(EnTooltips, Append(EnTreeTypes, Append(EnBuildingTypes, EnOtherTypes)))))), key);
    LookupAppend(EnModals, Append(EnTable, Append(EnCategories, Append(EnTooltips, Append(EnTreeTypes, Append(EnBuildingTypes, EnOtherTypes))))), key);
    LookupAppend(EnTable, Append(EnCategories, Append(EnTooltips, Append(EnTreeTypes, Append(EnBuildingTypes, EnOtherTypes)))), key);
    LookupAppend(EnCategories, Append(EnTooltips, Append(EnTreeTypes, Append(EnBuildingTypes, EnOtherTypes))), key);
    LookupAppend(EnTooltips, Append(EnTreeTypes, Append(EnBuildingTypes, EnOtherTypes)), key);
  }

  /** An item-type id translates, in English, to its entry in the item-type groups. */
  lemma ItemTypeTranslation(key: string)
    requires ItemTypeEntry(key).Some?
    ensures Translate(key) == ItemTypeEntry(key).value
  {
    EnglishItemType(key);
    TablesComplete();
    NonEmptyLookup(En, key);
  }
}
