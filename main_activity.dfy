/**
 * MainActivity: resolving a shared web link to the in-app detail deep link, and
 * the start destination chosen when the activity shows its content.
 * A URI arrives already split into its parts; only the first query-parameter
 * name is extracted here, as the platform does, without percent-decoding.
 */
module MainActivity {
  import opened Wrappers
  import opened Text
  import opened Lists
  import opened Elements
  import opened AppEnums
  import opened Preferences
  import opened ViewModel
  import Screen

  const ShareHost: string := "atomicguru.netlify.app"
  const SharePath: string := "/open"
  const DetailUriPrefix: string := "atomicguru://detail/"
  /** The deep-link pattern the detail destination registers. */
  const DeepLinkPattern: string := "atomicguru://detail/{atomicNumber}"

  /** The parts of an incoming URI; `query` is absent when there is no '?'. */
  datatype Uri = Uri(scheme: string, host: string, path: string, query: Option<string>)

  /** Length of the first query parameter's name: up to the first '&' or '='. */
  function NameEnd(query: string): (k: nat)
    ensures k <= |query|
    ensures forall i :: 0 <= i < k ==> query[i] != '&' && query[i] != '='
    ensures k < |query| ==> query[k] == '&' || query[k] == '='
  {
    if query == [] || query[0] == '&' || query[0] == '=' then 0 else NameEnd(query[1..]) + 1
  }

  /** `queryParameterNames.firstOrNull()`: none without a query, otherwise the first name (possibly empty). */
  function FirstQueryName(query: Option<string>): (r: Option<string>)
    ensures r.Some? <==> query.Some?
    ensures r.Some? ==> r.value <= query.value && '&' !in r.value && '=' !in r.value
    ensures r.Some? ==> r.value == query.value[..NameEnd(query.value)]
  {
    match query
    case None => None
    case Some(q) => Some(q[..NameEnd(q)])
  }

  /** A query with neither '&' nor '=' is its own first parameter name. */
  lemma FirstQueryNameOfPlainQuery(q: string)
    requires '&' !in q && '=' !in q
    ensures FirstQueryName(Some(q)) == Some(q)
  {
    assert q[..|q|] == q;
  }

  /** The in-app deep link to an element's detail screen. */
  function DetailUri(atomicNumber: int): (r: string)
    ensures DetailUriPrefix <= r && r[|DetailUriPrefix|..] == Decimal(atomicNumber)
  {
    DetailUriPrefix + Decimal(atomicNumber)
  }

  /** The deep link fills the registered pattern and is the detail route under the app's scheme. */
  lemma DetailUriFitsPattern(atomicNumber: int)
    ensures DeepLinkPattern == DetailUriPrefix + Screen.AtomicNumberPlaceholder
    ensures DetailUri(atomicNumber) == "atomicguru://" + Screen.CreateRoute(atomicNumber)
  {
  }

  /** The symbol a shared link names, when its host and path are the share endpoint's. */
  function LinkSymbol(data: Option<Uri>): (r: Option<string>)
    ensures r.Some? <==> data.Some? && data.value.host == ShareHost && data.value.path == SharePath && data.value.query.Some?
    ensures r.Some? ==> r == FirstQueryName(data.value.query)
  {
    if data.Some? && data.value.host == ShareHost && data.value.path == SharePath
    then FirstQueryName(data.value.query)
    else None
  }

  /** Catalog entry `i` is the first whose symbol equals `symbol`, ignoring case. */
  predicate FirstSymbolMatch(catalog: seq<Element>, symbol: string, i: int)
  {
    && 0 <= i < |catalog|
    && EqualsIgnoreCase(catalog[i].symbol, symbol)
    && forall j :: 0 <= j < i ==> !EqualsIgnoreCase(catalog[j].symbol, symbol)
  }

  /** The target `handleIntent` builds: the detail link of the first element whose symbol equals the link's, ignoring case. */
  function ResolveDeepLink(data: Option<Uri>, catalog: seq<Element>): (r: Option<string>)
    ensures r.None? && LinkSymbol(data).Some? ==>
              forall i :: 0 <= i < |catalog| ==> !EqualsIgnoreCase(catalog[i].symbol, LinkSymbol(data).value)
    ensures r.Some? ==> LinkSymbol(data).Some?
    ensures r.Some? ==>
              exists i :: FirstSymbolMatch(catalog, LinkSymbol(data).value, i) && r.value == DetailUri(catalog[i].atomicNumber)
  {
    match LinkSymbol(data)
    case None => None
    case Some(symbol) =>
      match Find(catalog, (e: Element) => EqualsIgnoreCase(e.symbol, symbol))
      case None => None
      case Some(element) => Some(DetailUri(element.atomicNumber))
  }

  /** An intent placed on the task stack. */
  datatype ActivityIntent = LaunchMain | ViewUri(uri: string)

  /**
   * `handleIntent`: builds the target intent when the link resolves and then
   * starts the main activity with the detail intent on top of it.
   */
  method HandleIntent(data: Option<Uri>, catalog: seq<Element>) returns (handled: bool, started: seq<ActivityIntent>)
    ensures handled <==> ResolveDeepLink(data, catalog).Some?
    ensures handled ==> started == [LaunchMain, ViewUri(ResolveDeepLink(data, catalog).value)]
    ensures !handled ==> started == []
  {
    var targetIntent: Option<ActivityIntent> := None;
    if data.Some? && data.value.host == ShareHost && data.value.path == SharePath {
      var symbol := FirstQueryName(data.value.query);
      if symbol.Some? {
        var element := Find(catalog, (e: Element) => EqualsIgnoreCase(e.symbol, symbol.value));
        if element.Some? {
          targetIntent := Some(ViewUri(DetailUri(element.value.atomicNumber)));
        }
      }
    }
    if targetIntent.Some? {
      started := [LaunchMain, targetIntent.value];
      return true, started;
    }
    return false, [];
  }

  /** `onNewIntent`: the same link handling for an activity that is already running; the result is ignored. */
  method OnNewIntent(data: Option<Uri>, catalog: seq<Element>) returns (started: seq<ActivityIntent>)
    ensures ResolveDeepLink(data, catalog).Some? ==> started == [LaunchMain, ViewUri(ResolveDeepLink(data, catalog).value)]
    ensures ResolveDeepLink(data, catalog).None? ==> started == []
  {
    var _, s := HandleIntent(data, catalog);
    started := s;
  }

  /** The route the navigation graph starts from. */
  function StartDestination(isFirstLaunch: bool): (r: string)
    ensures r == Screen.LanguageSelection <==> isFirstLaunch
    ensures r == Screen.Splash <==> !isFirstLaunch
  {
    if isFirstLaunch then Screen.LanguageSelection else Screen.Splash
  }

  /** A fresh install starts at language selection; once onboarding is recorded, at the splash screen. */
  lemma StartDestinationFollowsOnboarding(store: map<string, PrefValue>)
    requires WellTyped(store)
    ensures StartDestination(FirstLaunchFlag(map[])) == Screen.LanguageSelection
    ensures StartDestination(FirstLaunchFlag(store[KeyIsFirstLaunch := BoolPref(false)])) == Screen.Splash
  {
  }

  /** What `onCreate` ends with. */
  datatype CreateOutcome =
    | Finished
    | Content(startDestination: string, language: Language)
    | Crashed(error: EnumError)

  /**
   * `onCreate`: a resolved link finishes the activity without content; otherwise
   * the start destination is chosen and the stored language is applied to the
   * view model (and written back). An unreadable stored language throws.
   */
  method OnCreate(data: Option<Uri>, catalog: seq<Element>, userPreferences: UserPreferences, viewModel: MainViewModel)
    returns (outcome: CreateOutcome, started: seq<ActivityIntent>)
    requires userPreferences.Valid() && viewModel.Valid()
    modifies userPreferences, viewModel
    ensures userPreferences.Valid() && viewModel.Valid()
    ensures outcome == Finished <==> ResolveDeepLink(data, catalog).Some?
    ensures outcome == Finished ==> unchanged(userPreferences, viewModel)
    ensures outcome == Finished ==> started == [LaunchMain, ViewUri(ResolveDeepLink(data, catalog).value)]
    ensures outcome != Finished ==> started == []
    ensures outcome.Content? ==>
      && old(userPreferences.GetLanguage()) == Ok(outcome.language)
      && outcome.startDestination == StartDestination(old(userPreferences.IsFirstLaunch()))
      && viewModel.state == old(viewModel.state).(currentLanguage := outcome.language)
      && userPreferences.prefs == old(userPreferences.prefs)[KeyLanguage := StringPref(Name(outcome.language))]
    ensures outcome.Crashed? ==> old(userPreferences.GetLanguage()) == Err(outcome.error)
    ensures outcome.Crashed? ==> unchanged(userPreferences, viewModel)
  {
    var handled;
    handled, started := HandleIntent(data, catalog);
    if handled {
      return Finished, started;
    }
    var isFirstLaunch := userPreferences.IsFirstLaunch();
    var startDestination := StartDestination(isFirstLaunch);
    var language := userPreferences.GetLanguage();
    match language
    case Err(error) =>
      outcome := Crashed(error);
    case Ok(l) =>
      viewModel.SetLanguage(l, userPreferences);
      outcome := Content(startDestination, l);
  }
}
