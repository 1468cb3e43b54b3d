# Atomic Guru: a verified model of the app's core

Atomic Guru is an Android periodic-table browser. This Dafny project models the
parts of it that decide things, rather than draw them:

- the element records read from the bundled catalog;
- the favourite-id store, with its toggle and catalog lookup;
- the two-key preference store (first launch, language), whose language is
  written as an enum name and parsed back;
- the view model's single state record and every operation that replaces it,
  including the order-preserving search filter;
- the navigation routes, the share link built on the detail screen, and the
  deep-link resolution in the main activity that turns that link back into the
  element's detail link;
- the ordered, case-insensitive category colour classifier;
- the pan/zoom state of the classic table view, whose gestures clamp scale and
  offset.

Each Kotlin file becomes one module (`element.dfy`, `repository.dfy`,
`preferences.dfy`, `view_model.dfy`, `screen.dfy`, `main_activity.dfy`,
`detail_screen.dfy`, `category_colors.dfy`, `classic_table.dfy`). `AppEnums`
holds the two enums the app shares, `Language` and `TableView`, with `name`,
`valueOf` and the table-view toggle. Three support modules hold what the Kotlin
standard library provides: `Wrappers` (Option/Result), `Text` (ASCII
lower-casing, substring search, `isBlank`, decimal `toString`) and `Lists`
(`filter`, `find`, subsequences). Objects whose
state changes in place become classes: `ElementRepository` (stored favourite
set), `UserPreferences` (key-value map), `MainViewModel` (the state record) and
`TableViewport` (scale and offset). Their methods state the whole new state
through pure functions, and lemmas prove the properties of those functions.

## Model

| member | source | states |
|---|---|---|
| Elements.AtomicNumberFieldsIndependent | app/src/main/java/com/sandeep/atomicguru/data/Element.kt:11-45 | an element whose integer atomic number and the text atomic number of its detail block disagree is a valid value: nothing ties the two fields together |
| Text.Lower | app/src/main/java/com/sandeep/atomicguru/ui/theme/CategoryColors.kt:13 | `lowercase()` keeps the length and maps each ASCII capital to its own small letter (code point plus 32), leaving every other character as it is |
| Text.Decimal | app/src/main/java/com/sandeep/atomicguru/data/ElementRepository.kt:33 | `Int.toString()`: non-empty, a leading minus exactly for negatives, digits everywhere else, and no leading zero (a lone "0" only for zero) |
| Text.DecimalInjective | app/src/main/java/com/sandeep/atomicguru/navigation/Screen.kt:10 | distinct integers have distinct decimal strings |
| Text.DigitsRoundTrip | app/src/main/java/com/sandeep/atomicguru/data/ElementRepository.kt:33 | reading back the digits of a natural number gives the number |
| Text.DecimalRoundTrip | app/src/main/java/com/sandeep/atomicguru/data/ElementRepository.kt:33 | parsing `toString()` of any integer, negative ones included, gives the integer back |
| Lists.Find | app/src/main/java/com/sandeep/atomicguru/data/ElementRepository.kt:22 | `find`: `None` exactly when no element satisfies the test; otherwise the first element that does |
| Lists.Filter | app/src/main/java/com/sandeep/atomicguru/viewmodel/MainViewModel.kt:89-91 | `filter`: an element is kept iff it is in the input and satisfies the test; never longer than the input |
| Lists.FilterCounts | app/src/main/java/com/sandeep/atomicguru/viewmodel/MainViewModel.kt:89-91 | as multisets the result is the satisfying part of the input: each satisfying element keeps all its occurrences, every other element has none |
| Lists.FilterIsSubsequence | app/src/main/java/com/sandeep/atomicguru/viewmodel/MainViewModel.kt:89-91 | a filtered list is a subsequence of its input, in the same order |
| AppEnums.ValueOf | app/src/main/java/com/sandeep/atomicguru/data/UserPreferences.kt:29 | `Language.valueOf`: succeeds exactly on "EN" and "OD"; any other string gives the no-such-constant error that carries that string |
| AppEnums.NameRoundTrip | app/src/main/java/com/sandeep/atomicguru/viewmodel/MainViewModel.kt:15 | `valueOf(l.name) == l` for both constants, and any name `valueOf` accepts is that constant's own name |
| AppEnums.Toggled | app/src/main/java/com/sandeep/atomicguru/viewmodel/MainViewModel.kt:95 | the new table view always differs from the old one |
| AppEnums.ToggleTwice | app/src/main/java/com/sandeep/atomicguru/viewmodel/MainViewModel.kt:94-97 | switching the table view twice returns to the original view |
| Repository.FindByNumber | app/src/main/java/com/sandeep/atomicguru/data/ElementRepository.kt:21-23 | `None` iff no catalog element has that atomic number; otherwise the result has that number and no earlier element does |
| Repository.Toggle | app/src/main/java/com/sandeep/atomicguru/data/ElementRepository.kt:34-38 | the id is in the result iff it was not in the input; every other id keeps its membership |
| Repository.ToggleTwice | app/src/main/java/com/sandeep/atomicguru/data/ElementRepository.kt:31-40 | flipping the same id twice gives back the original set |
| Repository.ElementRepository.constructor | app/src/main/java/com/sandeep/atomicguru/data/ElementRepository.kt:7-11 | the catalog and the stored favourites entry are the given ones |
| Repository.ElementRepository.GetElementByNumber | app/src/main/java/com/sandeep/atomicguru/data/ElementRepository.kt:21-23 | the first element of the repository's catalog with that number, as `FindByNumber` characterises it |
| Repository.ElementRepository.GetFavoriteElementIds | app/src/main/java/com/sandeep/atomicguru/data/ElementRepository.kt:27-29 | the stored set when one is stored, the empty set otherwise |
| Repository.ElementRepository.ToggleFavorite | app/src/main/java/com/sandeep/atomicguru/data/ElementRepository.kt:31-40 | the store now holds the old visible set with the decimal id flipped: that id is present iff it was absent, all other ids are unchanged, and any integer is accepted |
| Repository.ToggleFavoriteTwice | app/src/main/java/com/sandeep/atomicguru/data/ElementRepository.kt:31-40 | two toggles of the same number leave the visible favourite set as it was |
| Preferences.FirstLaunchFlag | app/src/main/java/com/sandeep/atomicguru/data/UserPreferences.kt:14-16 | the flag reads true when the key is absent or holds true |
| Preferences.StoredLanguage | app/src/main/java/com/sandeep/atomicguru/data/UserPreferences.kt:26-30 | an absent key reads as OD; a stored name parses iff it is "EN" or "OD", and a successful parse returns the language whose name is stored |
| Preferences.UserPreferences.constructor | app/src/main/java/com/sandeep/atomicguru/data/UserPreferences.kt:6-7 | the store starts with the given well-typed entries |
| Preferences.UserPreferences.IsFirstLaunch | app/src/main/java/com/sandeep/atomicguru/data/UserPreferences.kt:14-16 | true on an empty store; in general the first-launch flag of the current store |
| Preferences.UserPreferences.SetFirstLaunchCompleted | app/src/main/java/com/sandeep/atomicguru/data/UserPreferences.kt:18-20 | only the first-launch key changes, to false: afterwards `IsFirstLaunch()` is false and the language reads as before |
| Preferences.UserPreferences.SaveLanguage | app/src/main/java/com/sandeep/atomicguru/data/UserPreferences.kt:22-24 | only the language key changes, to the enum name: afterwards `GetLanguage()` returns that language and the first-launch flag is as before |
| Preferences.UserPreferences.GetLanguage | app/src/main/java/com/sandeep/atomicguru/data/UserPreferences.kt:26-30 | the language parsed from the current store, with its default and error case |
| Preferences.LanguageDefaultsAndErrors | app/src/main/java/com/sandeep/atomicguru/data/UserPreferences.kt:26-30 | no stored language reads as OD; a stored name other than "EN"/"OD" is the no-such-constant error for that name |
| Preferences.LanguageRoundTrip | app/src/main/java/com/sandeep/atomicguru/data/UserPreferences.kt:22-30 | saving a language and reading it back gives that language, whatever the store held |
| Preferences.KeysIndependent | app/src/main/java/com/sandeep/atomicguru/data/UserPreferences.kt:10-24 | writing the language leaves the first-launch flag unchanged, and writing the flag leaves the language unchanged |
| Screen.CreateRoute | app/src/main/java/com/sandeep/atomicguru/navigation/Screen.kt:9-10 | the detail template is "detail/" plus the placeholder, and the route is "detail/" followed by the decimal of the number, i.e. the template with the placeholder filled |
| Screen.RoutesDistinct | app/src/main/java/com/sandeep/atomicguru/navigation/Screen.kt:4-9 | the six route strings are pairwise distinct |
| Screen.CreateRouteInjective | app/src/main/java/com/sandeep/atomicguru/navigation/Screen.kt:10 | equal detail routes come from equal atomic numbers |
| Screen.CreateRouteIsNotFixed | app/src/main/java/com/sandeep/atomicguru/navigation/Screen.kt:4-10 | no detail route equals a fixed route or the unfilled template |
| ViewModel.FilterCatalog | app/src/main/java/com/sandeep/atomicguru/viewmodel/MainViewModel.kt:99-111 | a blank query keeps the whole catalog; otherwise an element is kept iff it is in the catalog and one of its name fields, its present transliteration or its symbol contains the query ignoring case, or its decimal number contains it |
| ViewModel.FilterCatalogIsSubsequence | app/src/main/java/com/sandeep/atomicguru/viewmodel/MainViewModel.kt:99-112 | the filtered list is a subsequence of the catalog in catalog order |
| ViewModel.FavoriteElements | app/src/main/java/com/sandeep/atomicguru/viewmodel/MainViewModel.kt:88-92 | exactly the catalog elements whose decimal number is a favourite id |
| ViewModel.FavoriteElementsIsSubsequence | app/src/main/java/com/sandeep/atomicguru/viewmodel/MainViewModel.kt:88-92 | the favourites list keeps catalog order |
| ViewModel.SearchFindsOxygen | app/src/main/java/com/sandeep/atomicguru/viewmodel/MainViewModel.kt:103-110 | a query equal to "ox" in any letter case keeps an element named "Oxygen" |
| ViewModel.MainViewModel.constructor | app/src/main/java/com/sandeep/atomicguru/viewmodel/MainViewModel.kt:30-37 | the default state with the repository's stored favourites; the filtered list is a subsequence of the catalog |
| ViewModel.MainViewModel.LoadElements | app/src/main/java/com/sandeep/atomicguru/viewmodel/MainViewModel.kt:39-44 | the catalog and the filtered list both become the repository's catalog; nothing else changes |
| ViewModel.MainViewModel.LoadFavorites | app/src/main/java/com/sandeep/atomicguru/viewmodel/MainViewModel.kt:46-49 | only the favourite ids change, to the repository's visible set |
| ViewModel.MainViewModel.OnSearchQueryChanged | app/src/main/java/com/sandeep/atomicguru/viewmodel/MainViewModel.kt:67-70 | only the query (set to the argument) and the filtered list (the filter of the catalog) change |
| ViewModel.MainViewModel.FilterElements | app/src/main/java/com/sandeep/atomicguru/viewmodel/MainViewModel.kt:99-113 | only the filtered list changes, to the filter of the catalog by the query, and it stays a subsequence of the catalog |
| ViewModel.MainViewModel.SetLanguage | app/src/main/java/com/sandeep/atomicguru/viewmodel/MainViewModel.kt:72-75 | only the current language changes in the state; the preference store gets the language name and reads it back |
| ViewModel.MainViewModel.ToggleFavorite | app/src/main/java/com/sandeep/atomicguru/viewmodel/MainViewModel.kt:77-80 | the repository stores, and the state shows, the old visible favourite set with the id flipped |
| ViewModel.MainViewModel.GetElementByNumber | app/src/main/java/com/sandeep/atomicguru/viewmodel/MainViewModel.kt:84-86 | the same answer as the repository lookup `FindByNumber` on the loaded catalog: `None` iff no loaded element has the number, otherwise a loaded element with it |
| ViewModel.MainViewModel.GetFavoriteElements | app/src/main/java/com/sandeep/atomicguru/viewmodel/MainViewModel.kt:88-92 | exactly `FavoriteElements` of the loaded catalog: an element is listed iff it is loaded and its decimal number is a favourite id, in catalog order (a subsequence of the catalog) |
| ViewModel.MainViewModel.ToggleTableView | app/src/main/java/com/sandeep/atomicguru/viewmodel/MainViewModel.kt:94-97 | only the table view changes, and it changes to the other view |
| ViewModel.ToggleTableViewTwice | app/src/main/java/com/sandeep/atomicguru/viewmodel/MainViewModel.kt:94-97 | two toggles leave the whole state as it was |
| MainActivity.NameEnd | app/src/main/java/com/sandeep/atomicguru/MainActivity.kt:93 | the first query name ends at the first '&' or '=', or at the end of the query |
| MainActivity.FirstQueryName | app/src/main/java/com/sandeep/atomicguru/MainActivity.kt:93 | a name exists iff there is a query; it is the query up to its first '&' or '=', so a prefix containing neither |
| MainActivity.FirstQueryNameOfPlainQuery | app/src/main/java/com/sandeep/atomicguru/MainActivity.kt:93 | a query with neither '&' nor '=' is its own first name |
| MainActivity.DetailUri | app/src/main/java/com/sandeep/atomicguru/MainActivity.kt:101 | "atomicguru://detail/" followed by the decimal atomic number |
| MainActivity.DetailUriFitsPattern | app/src/main/java/com/sandeep/atomicguru/navigation/AppNavigation.kt:57 | the registered pattern is that prefix plus the placeholder, and the link is the detail route under the app scheme |
| MainActivity.LinkSymbol | app/src/main/java/com/sandeep/atomicguru/MainActivity.kt:92-95 | a symbol exists iff the host is "atomicguru.netlify.app", the path is "/open" and there is a query; it is the first query name |
| MainActivity.ResolveDeepLink | app/src/main/java/com/sandeep/atomicguru/MainActivity.kt:92-107 | a target exists only for a valid link; it is the detail link of the first element whose symbol equals the link's symbol ignoring case, and no target with a symbol means no element matches |
| MainActivity.HandleIntent | app/src/main/java/com/sandeep/atomicguru/MainActivity.kt:87-118 | returns true iff a target was built; then it starts the main activity and the target, otherwise it starts nothing |
| MainActivity.OnNewIntent | app/src/main/java/com/sandeep/atomicguru/MainActivity.kt:82-85 | the same activities as `handleIntent`, with its result ignored |
| MainActivity.StartDestinationFollowsOnboarding | app/src/main/java/com/sandeep/atomicguru/MainActivity.kt:44-50 | an empty store starts at language selection; once the flag is cleared the start is the splash screen |
| MainActivity.OnCreate | app/src/main/java/com/sandeep/atomicguru/MainActivity.kt:29-52 | finishes iff the link resolves, changing nothing and starting the main screen followed by the resolved element's detail deep link; otherwise it starts no activity; on success it takes the start destination from the first-launch flag, applies the stored language to the view model and writes it back to the store; an unparsable stored language is the error `valueOf` throws and changes nothing |
| DetailScreen.DetailsFollowStoredLanguage | app/src/main/java/com/sandeep/atomicguru/ui/screens/DetailScreen.kt:89 | after a language is saved the screen shows that language's block (English for EN, Odia for OD); a store that never held a language shows the Odia block |
| DetailScreen.ToastMatchesNewState | app/src/main/java/com/sandeep/atomicguru/ui/screens/DetailScreen.kt:70-77 | the toast says "added" exactly when the element is a favourite after the toggle |
| DetailScreen.ShareLink | app/src/main/java/com/sandeep/atomicguru/ui/screens/DetailScreen.kt:171 | the share endpoint URL followed by the symbol as the whole query |
| DetailScreen.ShareUri | app/src/main/java/com/sandeep/atomicguru/ui/screens/DetailScreen.kt:171 | the parts of the share link: the accepted host and path, and the symbol as the query |
| DetailScreen.ShareLinkIsShareUri | app/src/main/java/com/sandeep/atomicguru/ui/screens/DetailScreen.kt:171 | the share link text is exactly the text of those parts |
| DetailScreen.ShareTextNamesElement | app/src/main/java/com/sandeep/atomicguru/ui/screens/DetailScreen.kt:170-171 | the share text contains the element's name and its symbol |
| DetailScreen.ShareTextLinkResolves | app/src/main/java/com/sandeep/atomicguru/ui/screens/DetailScreen.kt:170-171 | the share text ends in the link whose URI parts resolve back to that element's detail deep link, under the same conditions as the link round trip |
| DetailScreen.ShareSubjectAndTitleInjective | app/src/main/java/com/sandeep/atomicguru/ui/screens/DetailScreen.kt:175-181 | elements with different names get different share subjects and different chooser titles |
| DetailScreen.ShareLinkResolves | app/src/main/java/com/sandeep/atomicguru/ui/screens/DetailScreen.kt:169-171 | round trip: when no earlier entry has the same symbol ignoring case and the symbol has no '&' or '=', the shared link resolves to that element's detail deep link |
| CategoryColors.GetCategoryColor | app/src/main/java/com/sandeep/atomicguru/ui/theme/CategoryColors.kt:12-27 | the theme colour iff no key occurs in the lower-cased category; "alkali metal" wins over everything; "nonmetal" or "halogen" always gives an ARGB colour |
| CategoryColors.CategoryColorIgnoresCase | app/src/main/java/com/sandeep/atomicguru/ui/theme/CategoryColors.kt:13 | categories equal after lower-casing get the same colour |
| CategoryColors.PostTransitionContainsTransition | app/src/main/java/com/sandeep/atomicguru/ui/theme/CategoryColors.kt:19-20 | a text containing "post-transition metal" contains "transition metal" |
| CategoryColors.PostTransitionBranchUnreachable | app/src/main/java/com/sandeep/atomicguru/ui/theme/CategoryColors.kt:19-20 | no category gets 0xFFB5EAD7 |
| CategoryColors.PostTransitionMetalGetsTransitionColor | app/src/main/java/com/sandeep/atomicguru/ui/theme/CategoryColors.kt:19-20 | "post-transition metal", in any case, gets the transition colour 0xFFE0BBE4 |
| CategoryColors.AlkalineEarthMetalNotAlkali | app/src/main/java/com/sandeep/atomicguru/ui/theme/CategoryColors.kt:15-16 | "alkaline earth metal", in any case, gets 0xFFFFADAD, not the alkali colour |
| CategoryColors.NonmetalColorOf | app/src/main/java/com/sandeep/atomicguru/ui/theme/CategoryColors.kt:23 | "nonmetal", in any case, gets 0xFFC9F0FF |
| CategoryColors.HalogenColorOf | app/src/main/java/com/sandeep/atomicguru/ui/theme/CategoryColors.kt:23 | "halogen", in any case, gets 0xFFC9F0FF |
| CategoryColors.IntendedAgreesWithWritten | app/src/main/java/com/sandeep/atomicguru/ui/theme/CategoryColors.kt:14-26 | the corrected classifier agrees with the written one on every category without "post-transition metal", and both fall back to the theme colour on the same categories |
| CategoryColors.IntendedPostTransitionColor | app/src/main/java/com/sandeep/atomicguru/ui/theme/CategoryColors.kt:19-20 | in the corrected order "post-transition metal" gets 0xFFB5EAD7, unlike the written classifier |
| CategoryColors.IntendedTransitionColor | app/src/main/java/com/sandeep/atomicguru/ui/theme/CategoryColors.kt:19 | in the corrected order "transition metal" still gets 0xFFE0BBE4 |
| ClassicTable.CoerceIn | app/src/main/java/com/sandeep/atomicguru/ui/screens/ClassicPeriodicTableView.kt:83-84 | the result lies in the range, equals the value when it is inside, and the nearer end otherwise |
| ClassicTable.CoerceAtLeast | app/src/main/java/com/sandeep/atomicguru/ui/screens/ClassicPeriodicTableView.kt:71 | the result is at least the bound, and is the value whenever the value is |
| ClassicTable.AxisRange | app/src/main/java/com/sandeep/atomicguru/ui/screens/ClassicPeriodicTableView.kt:71-79 | min bound <= max bound; the range is centred on (lead - trail)/2 and exactly as wide as the non-negative overhang |
| ClassicTable.HorizontalRange | app/src/main/java/com/sandeep/atomicguru/ui/screens/ClassicPeriodicTableView.kt:71-74 | the horizontal bounds are ordered, so `coerceIn` never throws |
| ClassicTable.VerticalRange | app/src/main/java/com/sandeep/atomicguru/ui/screens/ClassicPeriodicTableView.kt:76-79 | the vertical bounds are ordered, so `coerceIn` never throws |
| ClassicTable.Transformed | app/src/main/java/com/sandeep/atomicguru/ui/screens/ClassicPeriodicTableView.kt:66-88 | the new scale is the zoomed scale clamped to [0.5, 5]; each new offset is the panned offset clamped to the range of the NEW scale; so the result is in bounds, and an in-limit zoom and an in-bounds pan are applied unchanged |
| ClassicTable.TransformAtRestIsIdentity | app/src/main/java/com/sandeep/atomicguru/ui/screens/ClassicPeriodicTableView.kt:81-85 | a gesture with no zoom and no pan leaves an in-bounds view unchanged |
| ClassicTable.PinnedWithoutOverhang | app/src/main/java/com/sandeep/atomicguru/ui/screens/ClassicPeriodicTableView.kt:72-84 | when the scaled table fits in the padded viewport, the offset is pinned to the padding shift |
| ClassicTable.InitialScale | app/src/main/java/com/sandeep/atomicguru/ui/screens/ClassicPeriodicTableView.kt:91-92 | the reset scale is at least 0.5 and at least the fit-width scale, and is one of the two |
| ClassicTable.InitialScaleCanExceedMax | app/src/main/java/com/sandeep/atomicguru/ui/screens/ClassicPeriodicTableView.kt:91-92 | the reset scale is not capped: a 14400 px wide view resets above 5 |
| ClassicTable.ResetCanLeaveBounds | app/src/main/java/com/sandeep/atomicguru/ui/screens/ClassicPeriodicTableView.kt:94-97 | the reset offset is not clamped: on a 1440 x 2000 px view it lies outside the vertical bounds |
| ClassicTable.TableViewport.constructor | app/src/main/java/com/sandeep/atomicguru/ui/screens/ClassicPeriodicTableView.kt:40-41 | scale 1 and offset zero |
| ClassicTable.TableViewport.OnTransform | app/src/main/java/com/sandeep/atomicguru/ui/screens/ClassicPeriodicTableView.kt:66-89 | the stored view becomes the transformed view, which is within bounds |
| ClassicTable.TableViewport.Reset | app/src/main/java/com/sandeep/atomicguru/ui/screens/ClassicPeriodicTableView.kt:94-97 | the scale becomes the reset scale and the offset zero |
| ClassicTable.CellInsideTable | app/src/main/java/com/sandeep/atomicguru/ui/screens/ClassicPeriodicTableView.kt:126-127 | a cell lies inside the 18 x 10 cell table iff its column is in 1..18 and its row in 1..10 |

## Left out

- Loading the catalog from the JSON asset with Gson (ElementRepository.kt:13-19) is I/O. The catalog is a constructor argument.
- The SharedPreferences back ends are modelled as in-memory fields: an optional set for "favorite_ids" and a map for "app_prefs".
- `fetchPromotion` (MainViewModel.kt:51-65) is a network call with random selection. `promotionToShow` is kept only as an opaque optional field that nothing writes.
- Coroutines and StateFlow are left out. `loadElements` is a separate method standing for its coroutine body, and the state is a plain field updated in sequence.
- Android `Uri` parsing is not modelled. A URI arrives as scheme, host, path and raw query; only the split of the first query-parameter name at '&' or '=' is modelled, without percent-decoding.
- DetailScreen.ShareUri: assumes the platform takes everything after '?' as the query. A symbol holding '#' would start a fragment and one holding '%' would be percent-decoded; for such symbols the proved link round trip says more than the platform would do.
- Intents, TaskStackBuilder, toasts, the clipboard, the share sheet and string resources are left out. Started activities are a list of intent values, and a toast is "added"/"removed" plus the element name.
- `lowercase()` and `ignoreCase` comparisons fold ASCII letters only; full Unicode case folding is not modelled.
- All composable rendering is left out: layouts, dialogs, which bulleted detail sections are drawn, the footer legend's drawing, theme and typography. The theme's surfaceVariant colour is a marker value.
- Text.Decimal: does not model 32-bit `Int` wrap-around; atomic numbers are unbounded integers.
- ClassicTable.Transformed: computes over exact reals, not 32-bit floats, so float rounding and dp-to-px conversion rounding are not modelled. Density and the view size are inputs.
- ClassicTable.InitialScale: requires a positive density, as Android always provides. Division by a zero-width table is not modelled.
- The gesture state has no centroid or rotation: the transform callback ignores them.
- Locale switching, crash handling, the navigation graph wiring and the view-model factory are platform glue. Only the deep-link pattern string is taken from the navigation graph.

## Findings

| source | as written | input that shows it | evidently intended | confidence | as-written member | corrected member |
|---|---|---|---|---|---|---|
| app/src/main/java/com/sandeep/atomicguru/ui/theme/CategoryColors.kt:19-20 | "transition metal" is tested before "post-transition metal", so the post-transition branch can never be taken | the category "post-transition metal", which the footer legend itself uses (ClassicPeriodicTableView.kt:162), gets the transition colour 0xFFE0BBE4 | the longer key is tested first, so post-transition metals get 0xFFB5EAD7 | not executed | CategoryColors.PostTransitionMetalGetsTransitionColor | CategoryColors.IntendedPostTransitionColor |
