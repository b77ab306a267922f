# PC Component Viewer — a Dafny model of its catalog logic

PC Component Viewer is a small Android catalog of PC hardware. It keeps a fixed,
in-memory list of ten components. Each component is a RAM module, a drive or a
graphics card. The home screen lists the components, and four chips ("Wszystkie",
"RAM", "Dyski", "Karty graficzne") filter the list by category. Tapping a component
navigates to `detail/<id>`, looks the id up again and shows a detail screen: the
name, an image, an ordered list of labelled specification rows, and a video section
when the component names a video.

This project models that logic in five Dafny modules and proves what the app relies on.

- `Primitives` (`primitives.dfy`) holds `Option` and the 32-bit `Int32` used for Kotlin's `Int`.
- `Decimal` (`decimal.dfy`) renders integers the way string templates do. `ParseInt` reads
  them back the way the `IntType` route argument parses them. They form a proved round trip.
- `Catalog` (`catalog.dfy`) holds the component data model and the ten seed entries.
  `getComponentById` is modelled as a first-match lookup that returns `None` where
  Kotlin's `first` would throw.
- `ComponentList` (`component_list.dfy`) holds the home screen's logic:
  - the category filter;
  - the four chips and which one is selected;
  - the click → route → lookup round trip.
- `Detail` (`detail.dfy`) holds the detail screen's logic: the rows chosen by variant
  and drive type, and whether a video section is shown.

Points where the code does something a reader might not expect:

- Each component carries a `componentType` field that reads as its category, but the
  list filter never looks at it: it tests the runtime class (`it is RAM`).
  `FilterByClassAgreesWithTag` shows that the two agree whenever every entry keeps
  its default tag. `FilterIgnoresTag` exhibits an entry on which they disagree.
- The seed list holds four RAM modules (ids 1, 2, 6, 7), four drives (ids 3, 4, 8, 9)
  and two graphics cards (ids 5, 10). Two of the drives are NVMe SSDs and two are hard disks.
- A string template renders a `null` `Int?` as `null`. `DetailRows` does the same, so it
  needs no precondition. `ConventionalStorageShowsNumbers` proves that no "null" appears
  for a drive that follows the usual HDD/SSD field convention.

## Model

| member | source | states |
|---|---|---|
| Catalog.Category | app/src/main/java/com/example/pccomponentviewer/data/PCComponent.kt:7-21 | the sealed `PCComponent` (the `PCComponent` datatype) has exactly three variants, and each belongs to one of the three categories, never to `ALL` |
| Catalog.DefaultTypesMatchVariant | app/src/main/java/com/example/pccomponentviewer/data/PCComponent.kt:24-68 | for any field values, each constructor left with its default `componentType` is tagged with its own category (`RAM`, `STORAGE`, `GRAPHICS_CARD`), never `ALL` |
| Catalog.IndexOfId | app/src/main/java/com/example/pccomponentviewer/data/PCComponent.kt:176 | a found position holds the id and no earlier position does; no position holds the id when none is found |
| Catalog.FirstWithId | app/src/main/java/com/example/pccomponentviewer/data/PCComponent.kt:175-177 | a found component has the requested id and is in the list; the lookup fails exactly when no component has the id (where `first` throws) |
| Catalog.GetComponentById | app/src/main/java/com/example/pccomponentviewer/data/PCComponent.kt:175-177 | on the seed catalog: a result has the requested id and is a seed entry; it fails exactly when no seed entry has the id |
| Catalog.FirstMatchWins | app/src/main/java/com/example/pccomponentviewer/data/PCComponent.kt:176 | when several components share an id, the lookup returns the first one in list order |
| Catalog.LookupOwnId | app/src/main/java/com/example/pccomponentviewer/data/PCComponent.kt:175-177 | with distinct ids, looking up a listed component's id returns that component |
| Catalog.SeedIds | app/src/main/java/com/example/pccomponentviewer/data/PCComponent.kt:71-173 | the seed list has ten entries whose ids are 1..10 in list order, so they are distinct and strictly increasing |
| Catalog.SeedComposition | app/src/main/java/com/example/pccomponentviewer/data/PCComponent.kt:71-173 | the seed list `Components` holds RAM modules at positions 0, 1, 5, 6, drives at 2, 3, 7, 8 (NVMe SSD, HDD, NVMe SSD, HDD) and graphics cards at 4 and 9 |
| Catalog.SeedLookup | app/src/main/java/com/example/pccomponentviewer/data/PCComponent.kt:71-177 | seed lookup succeeds exactly for ids 1..10, and id `k` returns the `k`-th entry |
| Catalog.SeedWellFormed | app/src/main/java/com/example/pccomponentviewer/data/PCComponent.kt:71-173 | every seed entry keeps its default tag, and every seed drive follows the convention "HDD ⇔ rpm set and both speeds null" |
| Catalog.SeedEntry4 | app/src/main/java/com/example/pccomponentviewer/data/PCComponent.kt:104-114 | id 4 is the "Seagate Barracuda" HDD by "Seagate": capacity 2000, rpm 7200, no speeds |
| Catalog.SeedVideos | app/src/main/java/com/example/pccomponentviewer/data/PCComponent.kt:72-82 | only entry 1 has a video ("testvideo"); every other entry keeps the null default |
| ComponentList.Matches | app/src/main/java/com/example/pccomponentviewer/MainActivity.kt:134-139 | the filter predicate keeps an entry exactly when the selector is `ALL` or the entry's category |
| ComponentList.VisibleComponents | app/src/main/java/com/example/pccomponentviewer/MainActivity.kt:133 | the list shown for a selector holds only seed entries matching it, is no longer than the seed list, and is the whole seed list for `ALL` |
| ComponentList.FilterByType | app/src/main/java/com/example/pccomponentviewer/MainActivity.kt:133-139 | the filtered list is no longer than the catalog and every kept entry matches the selector |
| ComponentList.FilterKeepsMatchingInOrder | app/src/main/java/com/example/pccomponentviewer/MainActivity.kt:133-139 | the result is the catalog's matching entries at strictly increasing positions; a position is kept exactly when its entry matches, so the result is an order-preserving subsequence holding every match |
| ComponentList.FilterAllIsIdentity | app/src/main/java/com/example/pccomponentviewer/MainActivity.kt:133-135 | filtering with `ALL` returns the catalog unchanged |
| ComponentList.FilterIdempotent | app/src/main/java/com/example/pccomponentviewer/MainActivity.kt:133-139 | filtering a filtered list with the same selector changes nothing |
| ComponentList.CategoryFiltersPartition | app/src/main/java/com/example/pccomponentviewer/MainActivity.kt:136-138 | the lengths of the RAM, storage and graphics-card results add up to the catalog length |
| ComponentList.FilterByClassAgreesWithTag | app/src/main/java/com/example/pccomponentviewer/MainActivity.kt:133-139 | when every entry carries its own category as tag, the class-based filter equals the filter on the `componentType` field |
| ComponentList.FilterIgnoresTag | app/src/main/java/com/example/pccomponentviewer/MainActivity.kt:136 | a RAM entry tagged `STORAGE` is still listed under RAM, and the tag filter would drop it |
| ComponentList.SeedRamFilter | app/src/main/java/com/example/pccomponentviewer/MainActivity.kt:136 | on the seed catalog, the RAM filter yields ids 1, 2, 6, 7 in that order |
| ComponentList.FilterChips | app/src/main/java/com/example/pccomponentviewer/MainActivity.kt:166-185 | there are exactly four chips |
| ComponentList.ExactlyOneChipSelected | app/src/main/java/com/example/pccomponentviewer/MainActivity.kt:167-182 | for any selector, exactly one chip is selected: the one whose click selects that selector |
| ComponentList.ClickingChipSelectsIt | app/src/main/java/com/example/pccomponentviewer/MainActivity.kt:166-185 | after chip `i` is clicked, chip `i` and no other is marked selected |
| ComponentList.OpenDetail | app/src/main/java/com/example/pccomponentviewer/MainActivity.kt:102-105 | a route without a readable argument shows nothing; a readable id that no entry has is a failed lookup, and only then; otherwise the screen shows the first catalog entry with that id |
| ComponentList.RouteComponentId | app/src/main/java/com/example/pccomponentviewer/MainActivity.kt:89 | only a route under `detail/` yields a component id |
| ComponentList.RouteRoundTrip | app/src/main/java/com/example/pccomponentviewer/MainActivity.kt:84 | the route a click builds (`DetailRoute`, `detail/<id>`) gives back exactly the clicked id when its argument is read |
| ComponentList.ClickOpensClickedComponent | app/src/main/java/com/example/pccomponentviewer/MainActivity.kt:84-105 | with distinct ids, clicking a listed component opens the detail screen of that same component |
| ComponentList.SeedClickRoundTrip | app/src/main/java/com/example/pccomponentviewer/MainActivity.kt:84-105 | on the seed catalog, clicking any entry opens its own detail screen |
| Decimal.NatToString | app/src/main/java/com/example/pccomponentviewer/DetailScreen.kt:91 | the rendering is a non-empty digit string without a leading zero |
| Decimal.IntToStringShape | app/src/main/java/com/example/pccomponentviewer/DetailScreen.kt:91 | the template rendering of an `Int` (`IntToString`) is its canonical decimal text: a non-empty digit string without leading zeros, preceded by "-" exactly when the value is negative |
| Decimal.DigitsValueOfNatToString | app/src/main/java/com/example/pccomponentviewer/DetailScreen.kt:91 | reading a rendered natural number's digits gives that number back |
| Decimal.ParseIntOfIntToString | app/src/main/java/com/example/pccomponentviewer/MainActivity.kt:84-104 | parsing the rendering of any 32-bit `Int` gives that `Int` back |
| Decimal.IntToStringInjective | app/src/main/java/com/example/pccomponentviewer/MainActivity.kt:84 | distinct ids render to distinct strings |
| Decimal.ParseIntAcceptsOnlyDigits | app/src/main/java/com/example/pccomponentviewer/MainActivity.kt:102 | the `Int` argument (`ParseInt`) is read only from a sign or digit followed by digits, so text such as "null" never parses; a negative result has a leading "-" |
| Detail.DetailRows | app/src/main/java/com/example/pccomponentviewer/DetailScreen.kt:88-118 | the dispatch is total; the first row is always ("Producent", manufacturer); there are 5 rows for RAM, 4 for a hard disk, 5 for other drives and 3 for a graphics card |
| Detail.ReadQuantityOf | app/src/main/java/com/example/pccomponentviewer/DetailScreen.kt:91 | a value rendered as "<n> <unit>" (`Quantity`) reads back as `n` |
| Detail.ReadNullableQuantity | app/src/main/java/com/example/pccomponentviewer/DetailScreen.kt:103 | a nullable field rendered with its unit (`NullableQuantity`) reads back as the field, a null field as no number |
| Detail.RAMTypeNamesDistinct | app/src/main/java/com/example/pccomponentviewer/DetailScreen.kt:92 | each memory type shows its own enum name (`type.name`): "DDR2", "DDR3", "DDR4", "DDR5"; so every name is "DDR" and the generation, and different types show different names |
| Detail.RamRows | app/src/main/java/com/example/pccomponentviewer/DetailScreen.kt:89-95 | RAM shows exactly Producent, Rozmiar, Typ, Taktowanie, Opóźnienia in that order: the maker, "<size> GB", the type name, "<frequency> MHz" and the timing, each number in its template rendering and reading back as its field |
| Detail.StorageRows | app/src/main/java/com/example/pccomponentviewer/DetailScreen.kt:97-100 | every drive starts with maker, type name with "_" replaced by " ", then "<capacity> GB" in its template rendering, which reads back as the capacity |
| Detail.HardDiskRows | app/src/main/java/com/example/pccomponentviewer/DetailScreen.kt:101-104 | a hard disk then shows only Obroty with the text "<rpm> RPM" ("null RPM" for a null rpm), which reads back as `rpm`: exactly four rows, with no speed rows |
| Detail.SolidStateRows | app/src/main/java/com/example/pccomponentviewer/DetailScreen.kt:106-109 | any other drive then shows only "<readSpeed> MB/s" and "<writeSpeed> MB/s" (a null speed shown as "null"), each reading back as its field: exactly five rows, with no Obroty row |
| Detail.ConventionalStorageShowsNumbers | app/src/main/java/com/example/pccomponentviewer/DetailScreen.kt:101-109 | for a drive that follows the HDD/SSD field convention, the rotation or speed rows hold numbers, never "null" |
| Detail.GraphicsCardRows | app/src/main/java/com/example/pccomponentviewer/DetailScreen.kt:113-117 | a graphics card shows exactly Producent, Pamięć VRAM, Taktowanie: the maker, "<vramSize> GB" and "<clockSpeed> MHz", each number in its template rendering and reading back as its field |
| Detail.StorageTypeLabels | app/src/main/java/com/example/pccomponentviewer/DetailScreen.kt:99 | the drive type as displayed (`StorageTypeLabel`, the enum name with "_" replaced by " ") is "SSD NVME", "SSD SATA" or "HDD" |
| Detail.SeedEntry4Rows | app/src/main/java/com/example/pccomponentviewer/DetailScreen.kt:97-104 | seed entry 4 shows exactly ("Producent","Seagate"), ("Typ","HDD"), ("Pojemność","2000 GB"), ("Obroty","7200 RPM") |
| Detail.DetailScreen | app/src/main/java/com/example/pccomponentviewer/DetailScreen.kt:55-121 | the screen's title is the name and its rows are the variant's rows; a video section is shown exactly when `videoUrl` is non-null, and it plays that URL |
| Detail.SeedVideoSections | app/src/main/java/com/example/pccomponentviewer/DetailScreen.kt:119-121 | in the seed catalog, only entry 1 shows a video section ("testvideo") |

## Left out

- The Jetpack Compose presentation is not modelled: scaffolds, cards, the lazy list, text
  styles, padding, the top bars, the placeholder text, and the float styling values
  (alpha, aspect ratio). It only draws through UI libraries.
- Navigation host wiring and the slide transitions are not modelled. Only the id round trip is.
  `OpenDetail` takes the route string directly. The navigation library's matching of the
  `detail/{componentId}` pattern is not part of this model.
- OpenDetail: `NoArgument` stands for the `return@composable` branch, taken when the entry
  has no arguments bundle. A route whose argument does not parse as an `Int` is treated the
  same way; how the navigation library itself reacts to such a route is not modelled. A
  bundle without the key would give `getInt`'s default 0, which no seed entry has, so that
  case is a failed lookup.
- ParseInt: reads ASCII decimal digits with an optional sign, in the 32-bit range. The
  hexadecimal `0x` form that the `IntType` argument also accepts is not modelled, nor are
  non-ASCII digits.
- The video player is not modelled: player construction, `prepare`/`release` and the
  embedded Android view. Only the decision to show it is. The `DetailScreen` activity
  class and the unimplemented `Int.toDp` stub are left out.
- Image resource ids are opaque integers. The two placeholder drawables are stand-in
  constants, not the values of the generated resource class.
- The `selectedType` Compose state is not modelled. The selector is a plain argument of
  the filter and the chips, and clicking a chip is modelled as computing the chips for the
  clicked chip's selector.
- A failed lookup throws `NoSuchElementException` in the app. Here it returns `None`, and
  `OpenDetail` turns that into `NotFound`.
