/** The two enums of the view model and the enum-name serialisation Kotlin gives them. */
module AppEnums {
  import opened Wrappers

  /** The display language: English or Odia. */
  datatype Language = EN | OD

  /** Home screen layout: the scrolling grid or the classic periodic table. */
  datatype TableView = GRID | CLASSIC

  /** The exception `Language.valueOf` throws for a name that is not a constant. */
  datatype EnumError = NoEnumConstant(name: string)

  /** `language.name`. */
  function Name(l: Language): (r: string)
    ensures |r| == 2
  {
    match l
    case EN => "EN"
    case OD => "OD"
  }

  /** `Language.valueOf(s)`: exact, case-sensitive match of a constant's name, otherwise it throws. */
  function ValueOf(s: string): (r: Result<Language, EnumError>)
    ensures r.Ok? <==> s == "EN" || s == "OD"
    ensures r.Err? ==> r.error == NoEnumConstant(s)
  {
    if s == "EN" then Ok(EN)
    else if s == "OD" then Ok(OD)
    else Err(NoEnumConstant(s))
  }

  /** Both directions of the name round trip. */
  lemma NameRoundTrip(l: Language, s: string)
    ensures ValueOf(Name(l)) == Ok(l)
    ensures ValueOf(s).Ok? ==> Name(ValueOf(s).value) == s
  {
  }

  /** The grid/classic switch. */
  function Toggled(v: TableView): (r: TableView)
    ensures r != v
  {
    if v == GRID then CLASSIC else GRID
  }

  lemma ToggleTwice(v: TableView)
    ensures Toggled(Toggled(v)) == v
  {
  }
}
