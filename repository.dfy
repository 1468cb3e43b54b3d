/**
 * ElementRepository: the loaded catalog and the persisted favourite-id set.
 * The "favorites_prefs" store is an in-memory field; `None` means that nothing
 * has been stored under "favorite_ids" yet.
 */
module Repository {
  import opened Wrappers
  import opened Text
  import opened Lists
  import opened Elements

  /** `getElementByNumber`: the first element of the list with that atomic number. */
  function FindByNumber(catalog: seq<Element>, atomicNumber: int): (r: Option<Element>)
    ensures r.None? <==> forall i :: 0 <= i < |catalog| ==> catalog[i].atomicNumber != atomicNumber
    ensures r.Some? ==> r.value.atomicNumber == atomicNumber
    ensures r.Some? ==> exists i :: 0 <= i < |catalog| && catalog[i] == r.value &&
                          forall j :: 0 <= j < i ==> catalog[j].atomicNumber != atomicNumber
  {
    Find(catalog, (e: Element) => e.atomicNumber == atomicNumber)
  }

  /** The favourite set with one id's membership flipped. */
  function Toggle(favorites: set<string>, id: string): (r: set<string>)
    ensures id in r <==> id !in favorites
    ensures forall other :: other != id ==> (other in r <==> other in favorites)
  {
    if id in favorites then favorites - {id} else favorites + {id}
  }

  /** Flipping the same id twice restores the set. */
  lemma ToggleTwice(favorites: set<string>, id: string)
    ensures Toggle(Toggle(favorites, id), id) == favorites
  {
  }

  class ElementRepository {
    /** The catalog, read once from the bundled asset. */
    const allElements: seq<Element>
    /** The persisted "favorite_ids" entry. */
    var storedFavorites: Option<set<string>>

    constructor (catalog: seq<Element>, stored: Option<set<string>>)
      ensures allElements == catalog && storedFavorites == stored
    {
      allElements := catalog;
      storedFavorites := stored;
    }

    function GetElementByNumber(atomicNumber: int): (r: Option<Element>)
      ensures r == FindByNumber(allElements, atomicNumber)
    {
      FindByNumber(allElements, atomicNumber)
    }

    /** The stored set, or the empty set when nothing is stored. */
    function GetFavoriteElementIds(): (r: set<string>)
      reads this
      ensures storedFavorites.Some? ==> r == storedFavorites.value
      ensures storedFavorites.None? ==> r == {}
    {
      match storedFavorites
      case Some(ids) => ids
      case None => {}
    }

    /**
     * Copies the stored set, removes or adds the decimal id, and writes the copy back.
     * Any integer is accepted: the id is not checked against the catalog.
     */
    method ToggleFavorite(atomicNumber: int)
      modifies this
      ensures storedFavorites == Some(Toggle(old(GetFavoriteElementIds()), Decimal(atomicNumber)))
      ensures Decimal(atomicNumber) in GetFavoriteElementIds() <==> Decimal(atomicNumber) !in old(GetFavoriteElementIds())
      ensures forall id :: id != Decimal(atomicNumber) ==> (id in GetFavoriteElementIds() <==> id in old(GetFavoriteElementIds()))
    {
      var currentFavorites := GetFavoriteElementIds();
      var idString := Decimal(atomicNumber);
      if idString in currentFavorites {
        currentFavorites := currentFavorites - {idString};
      } else {
        currentFavorites := currentFavorites + {idString};
      }
      storedFavorites := Some(currentFavorites);
    }
  }

  /** Two toggles of the same number leave the visible favourite set as it was. */
  method ToggleFavoriteTwice(repository: ElementRepository, atomicNumber: int)
    modifies repository
    ensures repository.GetFavoriteElementIds() == old(repository.GetFavoriteElementIds())
  {
    repository.ToggleFavorite(atomicNumber);
    repository.ToggleFavorite(atomicNumber);
    ToggleTwice(old(repository.GetFavoriteElementIds()), Decimal(atomicNumber));
  }
}
