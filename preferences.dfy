/**
 * UserPreferences over the "app_prefs" key-value store: a first-launch flag and
 * the language, stored under its enum name.
 */
module Preferences {
  import opened Wrappers
  import opened AppEnums

  const KeyIsFirstLaunch: string := "is_first_launch"
  const KeyLanguage: string := "language"

  /** A stored value: the store keeps booleans and strings. */
  datatype PrefValue = BoolPref(b: bool) | StringPref(s: string)

  /** Each key holds the kind of value its accessor reads. */
  predicate WellTyped(store: map<string, PrefValue>)
  {
    && (KeyIsFirstLaunch in store ==> store[KeyIsFirstLaunch].BoolPref?)
    && (KeyLanguage in store ==> store[KeyLanguage].StringPref?)
  }

  /** `getBoolean("is_first_launch", true)`. */
  function FirstLaunchFlag(store: map<string, PrefValue>): (r: bool)
    requires WellTyped(store)
    ensures r <==> KeyIsFirstLaunch !in store || store[KeyIsFirstLaunch] == BoolPref(true)
  {
    if KeyIsFirstLaunch in store then store[KeyIsFirstLaunch].b else true
  }

  /** `Language.valueOf(getString("language", "OD"))`. */
  function StoredLanguage(store: map<string, PrefValue>): (r: Result<Language, EnumError>)
    requires WellTyped(store)
    ensures KeyLanguage !in store ==> r == Ok(OD)
    ensures KeyLanguage in store ==> (r.Ok? <==> store[KeyLanguage].s in {"EN", "OD"})
    ensures r.Ok? ==> KeyLanguage !in store || store[KeyLanguage] == StringPref(Name(r.value))
  {
    var langName := if KeyLanguage in store then store[KeyLanguage].s else Name(OD);
    ValueOf(langName)
  }

  class UserPreferences {
    var prefs: map<string, PrefValue>

    predicate Valid()
      reads this
    {
      WellTyped(prefs)
    }

    constructor (stored: map<string, PrefValue>)
      requires WellTyped(stored)
      ensures Valid() && prefs == stored
    {
      prefs := stored;
    }

    function IsFirstLaunch(): (r: bool)
      reads this
      requires Valid()
      ensures prefs == map[] ==> r
      ensures r == FirstLaunchFlag(prefs)
    {
      FirstLaunchFlag(prefs)
    }

    method SetFirstLaunchCompleted()
      requires Valid()
      modifies this
      ensures Valid() && prefs == old(prefs)[KeyIsFirstLaunch := BoolPref(false)]
      ensures !IsFirstLaunch()
      ensures GetLanguage() == old(GetLanguage())
    {
      prefs := prefs[KeyIsFirstLaunch := BoolPref(false)];
    }

    method SaveLanguage(language: Language)
      requires Valid()
      modifies this
      ensures Valid() && prefs == old(prefs)[KeyLanguage := StringPref(Name(language))]
      ensures GetLanguage() == Ok(language)
      ensures IsFirstLaunch() == old(IsFirstLaunch())
    {
      prefs := prefs[KeyLanguage := StringPref(Name(language))];
    }

    function GetLanguage(): (r: Result<Language, EnumError>)
      reads this
      requires Valid()
      ensures r == StoredLanguage(prefs)
    {
      StoredLanguage(prefs)
    }
  }

  /** A store that never held a language reads as Odia; an unknown name is an error. */
  lemma LanguageDefaultsAndErrors(store: map<string, PrefValue>, name: string)
    requires WellTyped(store)
    ensures KeyLanguage !in store ==> StoredLanguage(store) == Ok(OD)
    ensures name != "EN" && name != "OD" ==>
      StoredLanguage(store[KeyLanguage := StringPref(name)]) == Err(NoEnumConstant(name))
  {
  }

  /** Saving a language and reading it back gives the same language, whatever was stored before. */
  lemma LanguageRoundTrip(store: map<string, PrefValue>, language: Language)
    requires WellTyped(store)
    ensures StoredLanguage(store[KeyLanguage := StringPref(Name(language))]) == Ok(language)
  {
    NameRoundTrip(language, Name(language));
  }

  /** Writing one key never changes what the other key reads. */
  lemma KeysIndependent(store: map<string, PrefValue>, language: Language)
    requires WellTyped(store)
    ensures FirstLaunchFlag(store[KeyLanguage := StringPref(Name(language))]) == FirstLaunchFlag(store)
    ensures StoredLanguage(store[KeyIsFirstLaunch := BoolPref(false)]) == StoredLanguage(store)
  {
  }
}
