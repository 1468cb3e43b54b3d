/**
 * The catalog's records. Every Kotlin `data class` with `val` fields becomes a
 * datatype: an element is an immutable value compared field by field.
 */
module Elements {
  import opened Wrappers
  import opened Text

  /** The "physical_properties" block: all free text, none of it numeric. */
  datatype PhysicalProperties = PhysicalProperties(
    meltingPoint: string,
    boilingPoint: string,
    density: string,
    malleabilityDuctility: string,
    conductivity: string)

  /** The "general_info" block; its atomic number is text. */
  datatype GeneralInfo = GeneralInfo(
    elementName: string,
    symbol: string,
    atomicNumber: string,
    atomicMass: string,
    category: string,
    groupPeriod: string,
    appearance: string)

  /** One language's detail block ("details_en" or "details_odia"). */
  datatype ElementDetails = ElementDetails(
    generalInfo: GeneralInfo,
    physicalProperties: PhysicalProperties,
    chemicalProperties: seq<string>,
    occurrence: seq<string>,
    uses: seq<string>,
    detailedDescription: string)

  /** One element of the catalog; `nameOe` (JSON "name_oe") is the only optional field. */
  datatype Element = Element(
    atomicNumber: int,
    symbol: string,
    name: string,
    source: string,
    xpos: int,
    ypos: int,
    nameOe: Option<string>,
    detailsEn: ElementDetails,
    detailsOdia: ElementDetails)

  /** The document root: an object holding the single "elements" list. */
  datatype ElementsDocument = ElementsDocument(elements: seq<Element>)

  /**
   * Nothing ties the integer atomic number of an element to the text one in its
   * detail blocks: a record where they disagree is a well-formed value.
   */
  lemma AtomicNumberFieldsIndependent()
    ensures exists e: Element :: e.detailsEn.generalInfo.atomicNumber != Decimal(e.atomicNumber)
  {
    var props := PhysicalProperties("", "", "", "", "");
    var info := GeneralInfo("Oxygen", "O", "9", "15.999", "nonmetal", "16 / 2", "");
    var details := ElementDetails(info, props, [], [], [], "");
    var e := Element(8, "O", "Oxygen", "", 16, 2, None, details, details);
    assert Decimal(8) == "8";
    assert e.detailsEn.generalInfo.atomicNumber != Decimal(e.atomicNumber);
  }
}
