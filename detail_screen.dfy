/**
 * The decisions the detail screen makes: whether the element is a favourite,
 * which language's block it shows, the toast after a bookmark tap and the
 * share texts.
 */
module DetailScreen {
  import opened Wrappers
  import opened Text
  import opened Elements
  import opened AppEnums
  import opened Repository
  import opened MainActivity
  import opened Preferences

  /** `favoriteIds.contains(atomicNumber.toString())`. */
  function IsFavorite(favoriteIds: set<string>, atomicNumber: int): (r: bool)
    ensures r <==> Decimal(atomicNumber) in favoriteIds
  {
    Decimal(atomicNumber) in favoriteIds
  }

  /** The detail block shown: English for EN, Odia for every other language. */
  function DetailsFor(language: Language, element: Element): (r: ElementDetails)
    ensures language == EN ==> r == element.detailsEn
    ensures language != EN ==> r == element.detailsOdia
  {
    if language == EN then element.detailsEn else element.detailsOdia
  }

  /**
   * The block shown follows the stored language: after saving a language the
   * screen shows that language's block, and a store that never held one shows
   * the Odia block.
   */
  lemma DetailsFollowStoredLanguage(store: map<string, PrefValue>, language: Language, element: Element)
    requires WellTyped(store)
    ensures var saved := StoredLanguage(store[KeyLanguage := StringPref(Name(language))]);
      saved.Ok? && DetailsFor(saved.value, element) == (if language == EN then element.detailsEn else element.detailsOdia)
    ensures KeyLanguage !in store ==> DetailsFor(StoredLanguage(store).value, element) == element.detailsOdia
  {
    LanguageRoundTrip(store, language);
  }

  /** The bookmark toast, carrying the element's name when the element was found. */
  datatype FavoriteToast = AddedToFavorites(name: Option<string>) | RemovedFromFavorites(name: Option<string>)

  /** The toast is chosen from the favourite state read before the tap. */
  function ToastMessage(wasFavorite: bool, element: Option<Element>): (r: FavoriteToast)
    ensures r.AddedToFavorites? <==> !wasFavorite
    ensures r.name == (if element.Some? then Some(element.value.name) else None)
  {
    var name := if element.Some? then Some(element.value.name) else None;
    if !wasFavorite then AddedToFavorites(name) else RemovedFromFavorites(name)
  }

  /** The toast names the state the tap leads to: "added" exactly when the element is a favourite afterwards. */
  lemma ToastMatchesNewState(favoriteIds: set<string>, atomicNumber: int, element: Option<Element>)
    ensures ToastMessage(IsFavorite(favoriteIds, atomicNumber), element).AddedToFavorites?
        <==> IsFavorite(Toggle(favoriteIds, Decimal(atomicNumber)), atomicNumber)
  {
  }

  /** "https://atomicguru.netlify.app/open?": the host and path the deep-link handler accepts. */
  const ShareLinkPrefix: string := "https" + "://" + ShareHost + SharePath + "?"

  /** The web link placed in the share text: the symbol is the whole query. */
  function ShareLink(symbol: string): (r: string)
    ensures ShareLinkPrefix <= r && r[|ShareLinkPrefix|..] == symbol
  {
    ShareLinkPrefix + symbol
  }

  /** The URI parts of the share link, as the platform splits it. */
  function ShareUri(symbol: string): (u: Uri)
    ensures u.host == ShareHost && u.path == SharePath && u.query == Some(symbol)
  {
    Uri("https", ShareHost, SharePath, Some(symbol))
  }

  /** A URI written back as text. */
  function UriText(u: Uri): string
  {
    u.scheme + "://" + u.host + u.path + (if u.query.Some? then "?" + u.query.value else "")
  }

  /** The share link is exactly the text of its URI parts. */
  lemma ShareLinkIsShareUri(symbol: string)
    ensures ShareLink(symbol) == UriText(ShareUri(symbol))
  {
  }

  /** The share text: the element's name and symbol, a fixed sentence, then the share link. */
  function ShareText(element: Element): (r: string)
    ensures "Check out " + element.name + " (" + element.symbol + ")" <= r
    ensures |ShareLink(element.symbol)| <= |r| && r[|r| - |ShareLink(element.symbol)|..] == ShareLink(element.symbol)
    ensures |r| == |"Check out " + element.name + " (" + element.symbol + ")"| + 34 + |ShareLink(element.symbol)|
    ensures r[|"Check out " + element.name + " (" + element.symbol + ")"|..|r| - |ShareLink(element.symbol)|]
         == " on Atomic Guru! Learn more here: "
  {
    var head := "Check out " + element.name + " (" + element.symbol;
    assert ") on Atomic Guru! " == ")" + " on Atomic Guru! ";
    head + ") on Atomic Guru! " + "Learn more here: " + ShareLink(element.symbol)
  }

  /** The share subject: a fixed lead-in, then the element's name. */
  function ShareSubject(element: Element): (r: string)
    ensures |r| == 12 + |element.name|
    ensures r[..12] == "Learn about " && r[12..] == element.name
  {
    "Learn about " + element.name
  }

  /** The chooser title: the element's name framed by "Share " and " via...". */
  function ChooserTitle(element: Element): (r: string)
    ensures |r| == 6 + |element.name| + 7
    ensures r[..6] == "Share " && r[6..6 + |element.name|] == element.name && r[6 + |element.name|..] == " via..."
  {
    "Share " + element.name + " via..."
  }

  /** Elements with different names get different share subjects and chooser titles. */
  lemma ShareSubjectAndTitleInjective(a: Element, b: Element)
    requires a.name != b.name
    ensures ShareSubject(a) != ShareSubject(b)
    ensures ChooserTitle(a) != ChooserTitle(b)
  {
  }

  /**
   * Round trip: the link shared for catalog entry `i` resolves to that entry's
   * detail deep link, provided no earlier entry has the same symbol ignoring
   * case (a catalog with case-insensitively unique symbols) and the symbol
   * holds neither '&' nor '='.
   */
  lemma {:induction false} ShareLinkResolves(catalog: seq<Element>, i: nat)
    requires i < |catalog|
    requires forall j :: 0 <= j < i ==> !EqualsIgnoreCase(catalog[j].symbol, catalog[i].symbol)
    requires '&' !in catalog[i].symbol && '=' !in catalog[i].symbol
    ensures ResolveDeepLink(Some(ShareUri(catalog[i].symbol)), catalog) == Some(DetailUri(catalog[i].atomicNumber))
  {
    var symbol := catalog[i].symbol;
    FirstQueryNameOfPlainQuery(symbol);
    assert LinkSymbol(Some(ShareUri(symbol))) == Some(symbol);
    assert FirstSymbolMatch(catalog, symbol, i);
    var r := ResolveDeepLink(Some(ShareUri(symbol)), catalog);
    assert r.Some?;
    var k :| FirstSymbolMatch(catalog, symbol, k) && r.value == DetailUri(catalog[k].atomicNumber);
    assert k == i;
  }

  /** The share text names the element and its symbol. */
  lemma ShareTextNamesElement(element: Element)
    ensures Contains(ShareText(element), element.name)
    ensures Contains(ShareText(element), element.symbol)
  {
    var text := ShareText(element);
    assert text[10..10 + |element.name|] == element.name;
    ContainsAt(text, element.name, 10);
    assert text[12 + |element.name|..12 + |element.name| + |element.symbol|] == element.symbol;
    ContainsAt(text, element.symbol, 12 + |element.name|);
  }

  /**
   * The text shared for catalog entry `i` ends in a link that resolves back to
   * that entry's detail screen (same conditions on the catalog and symbol as
   * the link round trip).
   */
  lemma ShareTextLinkResolves(catalog: seq<Element>, i: nat)
    requires i < |catalog|
    requires forall j :: 0 <= j < i ==> !EqualsIgnoreCase(catalog[j].symbol, catalog[i].symbol)
    requires '&' !in catalog[i].symbol && '=' !in catalog[i].symbol
    ensures var text := ShareText(catalog[i]);
      var link := UriText(ShareUri(catalog[i].symbol));
      && |link| <= |text| && text[|text| - |link|..] == link
      && ResolveDeepLink(Some(ShareUri(catalog[i].symbol)), catalog) == Some(DetailUri(catalog[i].atomicNumber))
  {
    ShareLinkIsShareUri(catalog[i].symbol);
    ShareLinkResolves(catalog, i);
  }
}
