/**
 * MainViewModel: one AppState value, replaced as a whole on every update.
 * The promotion fetch is not modelled; its slot stays an optional value.
 */
module ViewModel {
  import opened Wrappers
  import opened Text
  import opened Lists
  import opened Elements
  import opened AppEnums
  import opened Repository
  import opened Preferences

  /** The remote promotion, kept only as an opaque optional value of the state. */
  datatype Promotion = Promotion(id: int, imageUrl: string, destinationUrl: string, altText: string)

  datatype AppState = AppState(
    allElements: seq<Element>,
    filteredElements: seq<Element>,
    searchQuery: string,
    currentLanguage: Language,
    favoriteIds: set<string>,
    tableView: TableView,
    promotionToShow: Option<Promotion>)

  /** `AppState()` with its default arguments. */
  const InitialState: AppState := AppState([], [], "", OD, {}, GRID, None)

  /**
   * The search test for a non-blank query: a name field, the Odia name, the
   * optional transliteration or the symbol contains the query ignoring case, or
   * the decimal atomic number contains it exactly. A missing transliteration
   * simply does not match.
   */
  predicate Matches(e: Element, query: string)
  {
    || ContainsIgnoreCase(e.name, query)
    || ContainsIgnoreCase(e.detailsOdia.generalInfo.elementName, query)
    || (e.nameOe.Some? && ContainsIgnoreCase(e.nameOe.value, query))
    || ContainsIgnoreCase(e.symbol, query)
    || Contains(Decimal(e.atomicNumber), query)
  }

  /** The list `filterElements` computes from the catalog and the query. */
  function FilterCatalog(all: seq<Element>, query: string): (r: seq<Element>)
    ensures IsBlank(query) ==> r == all
    ensures !IsBlank(query) ==> forall e :: e in r <==> e in all && Matches(e, query)
    ensures |r| <= |all|
  {
    if IsBlank(query) then all else Filter(all, (e: Element) => Matches(e, query))
  }

  /** The filtered list keeps the catalog's order and never invents elements. */
  lemma FilterCatalogIsSubsequence(all: seq<Element>, query: string)
    ensures IsSubsequence(FilterCatalog(all, query), all)
  {
    if IsBlank(query) {
      SubsequenceReflexive(all);
    } else {
      FilterIsSubsequence(all, (e: Element) => Matches(e, query));
    }
  }

  /** The list `getFavoriteElements` computes: the favourites in catalog order. */
  function FavoriteElements(all: seq<Element>, favoriteIds: set<string>): (r: seq<Element>)
    ensures forall e :: e in r <==> e in all && Decimal(e.atomicNumber) in favoriteIds
    ensures |r| <= |all|
  {
    Filter(all, (e: Element) => Decimal(e.atomicNumber) in favoriteIds)
  }

  lemma FavoriteElementsIsSubsequence(all: seq<Element>, favoriteIds: set<string>)
    ensures IsSubsequence(FavoriteElements(all, favoriteIds), all)
  {
    FilterIsSubsequence(all, (e: Element) => Decimal(e.atomicNumber) in favoriteIds);
  }

  /** Searching "ox" in any case finds oxygen by its English name. */
  lemma SearchFindsOxygen(oxygen: Element, query: string)
    requires oxygen.name == "Oxygen" && Lower(query) == "ox"
    ensures oxygen in FilterCatalog([oxygen], query)
  {
    assert !IsWhitespace(query[0]);
    assert Lower(oxygen.name) == "oxygen";
    assert Contains(Lower(oxygen.name), Lower(query));
  }

  class MainViewModel {
    const repository: ElementRepository
    var state: AppState

    /** The filtered list is always an ordered selection from the catalog. */
    ghost predicate Valid()
      reads this
    {
      IsSubsequence(state.filteredElements, state.allElements)
    }

    /** The synchronous part of `init`: the default state, then the stored favourites. */
    constructor (repository: ElementRepository)
      ensures this.repository == repository
      ensures state == InitialState.(favoriteIds := repository.GetFavoriteElementIds())
      ensures Valid()
    {
      this.repository := repository;
      state := InitialState;
      new;
      LoadFavorites();
    }

    /** The effect of the `loadElements` coroutine once it runs. */
    method LoadElements()
      modifies this
      ensures Valid()
      ensures state == old(state).(allElements := repository.allElements, filteredElements := repository.allElements)
    {
      var elements := repository.allElements;
      state := state.(allElements := elements, filteredElements := elements);
      SubsequenceReflexive(elements);
    }

    method LoadFavorites()
      requires Valid()
      modifies this
      ensures Valid()
      ensures state == old(state).(favoriteIds := repository.GetFavoriteElementIds())
    {
      var favIds := repository.GetFavoriteElementIds();
      state := state.(favoriteIds := favIds);
    }

    method OnSearchQueryChanged(query: string)
      requires Valid()
      modifies this
      ensures Valid()
      ensures state == old(state).(searchQuery := query, filteredElements := FilterCatalog(old(state).allElements, query))
    {
      state := state.(searchQuery := query);
      FilterElements(query);
    }

    method FilterElements(query: string)
      modifies this
      ensures Valid()
      ensures state == old(state).(filteredElements := FilterCatalog(old(state).allElements, query))
    {
      var filtered := FilterCatalog(state.allElements, query);
      FilterCatalogIsSubsequence(state.allElements, query);
      state := state.(filteredElements := filtered);
    }

    method SetLanguage(newLanguage: Language, userPreferences: UserPreferences)
      requires Valid() && userPreferences.Valid()
      modifies this, userPreferences
      ensures Valid() && userPreferences.Valid()
      ensures state == old(state).(currentLanguage := newLanguage)
      ensures userPreferences.prefs == old(userPreferences.prefs)[KeyLanguage := StringPref(Name(newLanguage))]
      ensures userPreferences.GetLanguage() == Ok(newLanguage)
    {
      state := state.(currentLanguage := newLanguage);
      userPreferences.SaveLanguage(newLanguage);
    }

    method ToggleFavorite(atomicNumber: int)
      requires Valid()
      modifies this, repository
      ensures Valid()
      ensures repository.storedFavorites == Some(Toggle(old(repository.GetFavoriteElementIds()), Decimal(atomicNumber)))
      ensures state == old(state).(favoriteIds := Toggle(old(repository.GetFavoriteElementIds()), Decimal(atomicNumber)))
    {
      repository.ToggleFavorite(atomicNumber);
      LoadFavorites();
    }

    /** `find` on the loaded catalog. */
    function GetElementByNumber(atomicNumber: int): (r: Option<Element>)
      reads this
      ensures r.None? <==> forall e :: e in state.allElements ==> e.atomicNumber != atomicNumber
      ensures r.Some? ==> r.value in state.allElements && r.value.atomicNumber == atomicNumber
      ensures r == FindByNumber(state.allElements, atomicNumber)
    {
      FindByNumber(state.allElements, atomicNumber)
    }

    function GetFavoriteElements(): (r: seq<Element>)
      reads this
      ensures forall e :: e in r <==> e in state.allElements && Decimal(e.atomicNumber) in state.favoriteIds
      ensures r == FavoriteElements(state.allElements, state.favoriteIds)
      ensures IsSubsequence(r, state.allElements)
    {
      FavoriteElementsIsSubsequence(state.allElements, state.favoriteIds);
      FavoriteElements(state.allElements, state.favoriteIds)
    }

    method ToggleTableView()
      requires Valid()
      modifies this
      ensures Valid()
      ensures state == old(state).(tableView := Toggled(old(state).tableView))
      ensures state.tableView != old(state).tableView
    {
      state := state.(tableView := Toggled(state.tableView));
    }
  }

  /** Two table-view toggles give back the state the view model started from. */
  method ToggleTableViewTwice(viewModel: MainViewModel)
    requires viewModel.Valid()
    modifies viewModel
    ensures viewModel.state == old(viewModel.state)
  {
    viewModel.ToggleTableView();
    viewModel.ToggleTableView();
  }
}
