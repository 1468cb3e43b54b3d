/**
 * `getCategoryColor`: an ordered, first-match classifier on the lower-cased
 * category text. Each branch asks whether a key occurs in the category.
 */
module CategoryColors {
  import opened Text

  /** An ARGB colour, or the theme's surfaceVariant colour for unknown categories. */
  datatype CategoryColor = Argb(argb: int) | ThemeSurfaceVariant

  const AlkaliMetalColor: int := 0xFFA0C4FF
  const AlkalineEarthMetalColor: int := 0xFFFFADAD
  const LanthanideColor: int := 0xFFD4F0C9
  const ActinideColor: int := 0xFFFFB3A7
  const TransitionMetalColor: int := 0xFFE0BBE4
  const PostTransitionMetalColor: int := 0xFFB5EAD7
  const MetalloidColor: int := 0xFFFFD6A5
  const NobleGasColor: int := 0xFFFFC6FF
  const NonmetalColor: int := 0xFFC9F0FF
  const UnknownColor: int := 0xFFE0E0E0

  /** None of the keys the branches test occurs in the lower-cased category. */
  predicate NoKeyOccurs(lowerCategory: string)
  {
    && !Contains(lowerCategory, "alkali metal")
    && !Contains(lowerCategory, "alkaline earth metal")
    && !Contains(lowerCategory, "lanthanide")
    && !Contains(lowerCategory, "actinide")
    && !Contains(lowerCategory, "transition metal")
    && !Contains(lowerCategory, "post-transition metal")
    && !Contains(lowerCategory, "metalloid")
    && !Contains(lowerCategory, "noble gas")
    && !Contains(lowerCategory, "nonmetal")
    && !Contains(lowerCategory, "halogen")
    && !Contains(lowerCategory, "unknown")
  }

  /** The classifier as written: branches tried in source order, first hit wins. */
  function GetCategoryColor(category: string): (r: CategoryColor)
    ensures r == ThemeSurfaceVariant <==> NoKeyOccurs(Lower(category))
    ensures Contains(Lower(category), "alkali metal") ==> r == Argb(AlkaliMetalColor)
    ensures Contains(Lower(category), "nonmetal") || Contains(Lower(category), "halogen") ==> r.Argb?
  {
    var lowerCategory := Lower(category);
    if Contains(lowerCategory, "alkali metal") then Argb(AlkaliMetalColor)
    else if Contains(lowerCategory, "alkaline earth metal") then Argb(AlkalineEarthMetalColor)
    else if Contains(lowerCategory, "lanthanide") then Argb(LanthanideColor)
    else if Contains(lowerCategory, "actinide") then Argb(ActinideColor)
    else if Contains(lowerCategory, "transition metal") then Argb(TransitionMetalColor)
    else if Contains(lowerCategory, "post-transition metal") then Argb(PostTransitionMetalColor)
    else if Contains(lowerCategory, "metalloid") then Argb(MetalloidColor)
    else if Contains(lowerCategory, "noble gas") then Argb(NobleGasColor)
    else if Contains(lowerCategory, "nonmetal") || Contains(lowerCategory, "halogen") then Argb(NonmetalColor)
    else if Contains(lowerCategory, "unknown") then Argb(UnknownColor)
    else ThemeSurfaceVariant
  }

  /** Categories that differ only in letter case get the same colour. */
  lemma CategoryColorIgnoresCase(a: string, b: string)
    requires Lower(a) == Lower(b)
    ensures GetCategoryColor(a) == GetCategoryColor(b)
  {
  }

  /** "transition metal" occurs in "post-transition metal". */
  lemma PostTransitionContainsTransition(category: string)
    requires Contains(category, "post-transition metal")
    ensures Contains(category, "transition metal")
  {
    var post := "post-transition metal";
    assert post[5..5 + |"transition metal"|] == "transition metal";
    ContainsAt(post, "transition metal", 5);
    ContainsTransitive(category, post, "transition metal");
  }

  /** The post-transition-metal branch is dead: no category ever gets its colour. */
  lemma PostTransitionBranchUnreachable(category: string)
    ensures GetCategoryColor(category) != Argb(PostTransitionMetalColor)
  {
    if Contains(Lower(category), "post-transition metal") {
      PostTransitionContainsTransition(Lower(category));
    }
  }

  /** Every character of `s` is one of `letters`. */
  predicate Within(s: string, letters: set<char>)
  {
    forall i :: 0 <= i < |s| ==> s[i] in letters
  }

  /** `key` cannot occur in a text written with letters that lack one of its characters. */
  lemma Missing(s: string, letters: set<char>, key: string, j: nat)
    requires Within(s, letters) && j < |key| && key[j] !in letters
    ensures !Contains(s, key)
  {
    if Contains(s, key) {
      ContainsChar(s, key, key[j]);
    }
  }

  /** No key tested before the transition-metal branch is written with "post-transition metal"'s letters. */
  lemma PostTransitionLettersMissEarlierKeys(lc: string)
    requires Within(lc, {'p', 'o', 's', 't', '-', 'r', 'a', 'n', 'i', ' ', 'm', 'e', 'l'})
    ensures !Contains(lc, "alkali metal") && !Contains(lc, "alkaline earth metal")
    ensures !Contains(lc, "lanthanide") && !Contains(lc, "actinide")
  {
    var letters := {'p', 'o', 's', 't', '-', 'r', 'a', 'n', 'i', ' ', 'm', 'e', 'l'};
    Missing(lc, letters, "alkali metal", 2);
    Missing(lc, letters, "alkaline earth metal", 2);
    Missing(lc, letters, "lanthanide", 8);
    Missing(lc, letters, "actinide", 1);
  }

  /** Nor with "transition metal"'s letters, which also lack the 'p' of "post-transition metal". */
  lemma TransitionLettersMissEarlierKeys(lc: string)
    requires Within(lc, {'t', 'r', 'a', 'n', 's', 'i', 'o', ' ', 'm', 'e', 'l'})
    ensures !Contains(lc, "alkali metal") && !Contains(lc, "alkaline earth metal")
    ensures !Contains(lc, "lanthanide") && !Contains(lc, "actinide")
    ensures !Contains(lc, "post-transition metal")
  {
    var letters := {'t', 'r', 'a', 'n', 's', 'i', 'o', ' ', 'm', 'e', 'l'};
    Missing(lc, letters, "alkali metal", 2);
    Missing(lc, letters, "alkaline earth metal", 2);
    Missing(lc, letters, "lanthanide", 8);
    Missing(lc, letters, "actinide", 1);
    Missing(lc, letters, "post-transition metal", 0);
  }

  /**
   * A category spelled with the letters of "post-transition metal" that contains
   * that key falls through to the transition-metal branch as written, and to its
   * own branch in the intended order.
   * The letter set is a proof device, not a condition of the Kotlin code: it
   * lets the proof rule out every earlier key; the lemmas about actual category
   * names below apply it.
   */
  lemma SpelledAsPostTransition(category: string)
    requires Within(Lower(category), {'p', 'o', 's', 't', '-', 'r', 'a', 'n', 'i', ' ', 'm', 'e', 'l'})
    requires Contains(Lower(category), "post-transition metal")
    ensures GetCategoryColor(category) == Argb(TransitionMetalColor)
    ensures IntendedCategoryColor(category) == Argb(PostTransitionMetalColor)
  {
    PostTransitionLettersMissEarlierKeys(Lower(category));
    PostTransitionContainsTransition(Lower(category));
  }

  /**
   * A category spelled with the letters of "transition metal" that contains it
   * gets the transition-metal colour in either order.
   * The letter set is a proof device, not a condition of the Kotlin code: it
   * lets the proof rule out every earlier key; the lemmas about actual category
   * names below apply it.
   */
  lemma SpelledAsTransition(category: string)
    requires Within(Lower(category), {'t', 'r', 'a', 'n', 's', 'i', 'o', ' ', 'm', 'e', 'l'})
    requires Contains(Lower(category), "transition metal")
    ensures GetCategoryColor(category) == Argb(TransitionMetalColor)
    ensures IntendedCategoryColor(category) == Argb(TransitionMetalColor)
  {
    TransitionLettersMissEarlierKeys(Lower(category));
  }

  /**
   * A category spelled with the letters of "nonmetal" that contains it gets the
   * non-metal colour.
   * The letter set is a proof device, not a condition of the Kotlin code: it
   * lets the proof rule out every earlier key; the lemmas about actual category
   * names below apply it.
   */
  lemma SpelledAsNonmetal(category: string)
    requires Within(Lower(category), {'n', 'o', 'm', 'e', 't', 'a', 'l'})
    requires Contains(Lower(category), "nonmetal")
    ensures GetCategoryColor(category) == Argb(NonmetalColor)
  {
    var lc, letters := Lower(category), {'n', 'o', 'm', 'e', 't', 'a', 'l'};
    Missing(lc, letters, "alkali metal", 2);
    Missing(lc, letters, "alkaline earth metal", 2);
    Missing(lc, letters, "lanthanide", 8);
    Missing(lc, letters, "actinide", 1);
    Missing(lc, letters, "transition metal", 1);
    Missing(lc, letters, "post-transition metal", 0);
    Missing(lc, letters, "metalloid", 8);
    Missing(lc, letters, "noble gas", 2);
  }

  /**
   * A category spelled with the letters of "halogen" that contains it gets the
   * non-metal colour too.
   * The letter set is a proof device, not a condition of the Kotlin code: it
   * lets the proof rule out every earlier key; the lemmas about actual category
   * names below apply it.
   */
  lemma SpelledAsHalogen(category: string)
    requires Within(Lower(category), {'h', 'a', 'l', 'o', 'g', 'e', 'n'})
    requires Contains(Lower(category), "halogen")
    ensures GetCategoryColor(category) == Argb(NonmetalColor)
  {
    var lc, letters := Lower(category), {'h', 'a', 'l', 'o', 'g', 'e', 'n'};
    Missing(lc, letters, "alkali metal", 2);
    Missing(lc, letters, "alkaline earth metal", 2);
    Missing(lc, letters, "lanthanide", 8);
    Missing(lc, letters, "actinide", 1);
    Missing(lc, letters, "transition metal", 1);
    Missing(lc, letters, "post-transition metal", 0);
    Missing(lc, letters, "metalloid", 8);
    Missing(lc, letters, "noble gas", 2);
    Missing(lc, letters, "nonmetal", 3);
  }

  /** A post-transition metal is coloured as a transition metal. */
  lemma PostTransitionMetalGetsTransitionColor(category: string)
    requires Lower(category) == "post-transition metal"
    ensures GetCategoryColor(category) == Argb(TransitionMetalColor)
  {
    var lc := Lower(category);
    assert Within(lc, {'p', 'o', 's', 't', '-', 'r', 'a', 'n', 'i', ' ', 'm', 'e', 'l'});
    ContainsAt(lc, "post-transition metal", 0);
    SpelledAsPostTransition(category);
  }

  /**
   * A category that contains "alkaline earth metal", whose only possible start of
   * "alkali metal" is its first character, and which reads "alkalin" rather than
   * "alkali " there, gets the alkaline-earth colour. These conditions are a
   * proof device, not conditions of the Kotlin code; the lemma about the actual
   * category name below applies it.
   */
  lemma SpelledAsAlkalineEarth(category: string)
    requires 6 < |Lower(category)|
    requires Lower(category)[1] != 'a' && Lower(category)[2] != 'a' && Lower(category)[6] != ' '
    requires Within(Lower(category)[3..], {'a', 'l', 'i', 'n', 'e', ' ', 'r', 't', 'h', 'm'})
    requires Contains(Lower(category), "alkaline earth metal")
    ensures GetCategoryColor(category) == Argb(AlkalineEarthMetalColor)
  {
    var s, key := Lower(category), "alkali metal";
    Missing(s[3..], {'a', 'l', 'i', 'n', 'e', ' ', 'r', 't', 'h', 'm'}, key, 2);
    assert s[2..][1..] == s[3..];
    assert !(key <= s[2..]) by { assert s[2] != key[0]; }
    assert !Contains(s[2..], key);
    assert s[1..][1..] == s[2..];
    assert !(key <= s[1..]) by { assert s[1] != key[0]; }
    assert !Contains(s[1..], key);
    assert !(key <= s) by { assert s[6] != key[6]; }
  }

  /** "alkaline earth metal" does not contain "alkali metal", so alkaline earth metals get their own colour. */
  lemma AlkalineEarthMetalNotAlkali(category: string)
    requires Lower(category) == "alkaline earth metal"
    ensures GetCategoryColor(category) == Argb(AlkalineEarthMetalColor)
  {
    var lc := Lower(category);
    assert Within(lc[3..], {'a', 'l', 'i', 'n', 'e', ' ', 'r', 't', 'h', 'm'});
    ContainsAt(lc, "alkaline earth metal", 0);
    SpelledAsAlkalineEarth(category);
  }

  /** Non-metals get the shared non-metal/halogen colour. */
  lemma NonmetalColorOf(category: string)
    requires Lower(category) == "nonmetal"
    ensures GetCategoryColor(category) == Argb(NonmetalColor)
  {
    var lc := Lower(category);
    assert Within(lc, {'n', 'o', 'm', 'e', 't', 'a', 'l'});
    ContainsAt(lc, "nonmetal", 0);
    SpelledAsNonmetal(category);
  }

  /** Halogens get the same colour as non-metals. */
  lemma HalogenColorOf(category: string)
    requires Lower(category) == "halogen"
    ensures GetCategoryColor(category) == Argb(NonmetalColor)
  {
    var lc := Lower(category);
    assert Within(lc, {'h', 'a', 'l', 'o', 'g', 'e', 'n'});
    ContainsAt(lc, "halogen", 0);
    SpelledAsHalogen(category);
  }

  /**
   * The classifier as evidently intended: the longer key "post-transition metal"
   * is tested before "transition metal", which it contains.
   */
  function IntendedCategoryColor(category: string): CategoryColor
  {
    var lowerCategory := Lower(category);
    if Contains(lowerCategory, "alkali metal") then Argb(AlkaliMetalColor)
    else if Contains(lowerCategory, "alkaline earth metal") then Argb(AlkalineEarthMetalColor)
    else if Contains(lowerCategory, "lanthanide") then Argb(LanthanideColor)
    else if Contains(lowerCategory, "actinide") then Argb(ActinideColor)
    else if Contains(lowerCategory, "post-transition metal") then Argb(PostTransitionMetalColor)
    else if Contains(lowerCategory, "transition metal") then Argb(TransitionMetalColor)
    else if Contains(lowerCategory, "metalloid") then Argb(MetalloidColor)
    else if Contains(lowerCategory, "noble gas") then Argb(NobleGasColor)
    else if Contains(lowerCategory, "nonmetal") || Contains(lowerCategory, "halogen") then Argb(NonmetalColor)
    else if Contains(lowerCategory, "unknown") then Argb(UnknownColor)
    else ThemeSurfaceVariant
  }

  /**
   * The intended classifier differs from the written one only on categories
   * naming a post-transition metal, and both fall back to the theme colour on
   * exactly the same categories.
   */
  lemma IntendedAgreesWithWritten(category: string)
    ensures !Contains(Lower(category), "post-transition metal") ==> IntendedCategoryColor(category) == GetCategoryColor(category)
    ensures IntendedCategoryColor(category) == ThemeSurfaceVariant <==> GetCategoryColor(category) == ThemeSurfaceVariant
  {
  }

  /** With the intended order, post-transition metals get their own colour... */
  lemma IntendedPostTransitionColor(category: string)
    requires Lower(category) == "post-transition metal"
    ensures IntendedCategoryColor(category) == Argb(PostTransitionMetalColor)
    ensures IntendedCategoryColor(category) != GetCategoryColor(category)
  {
    var lc := Lower(category);
    assert Within(lc, {'p', 'o', 's', 't', '-', 'r', 'a', 'n', 'i', ' ', 'm', 'e', 'l'});
    ContainsAt(lc, "post-transition metal", 0);
    SpelledAsPostTransition(category);
  }

  /** ...while transition metals keep theirs. */
  lemma IntendedTransitionColor(category: string)
    requires Lower(category) == "transition metal"
    ensures IntendedCategoryColor(category) == Argb(TransitionMetalColor)
  {
    var lc := Lower(category);
    assert Within(lc, {'t', 'r', 'a', 'n', 's', 'i', 'o', ' ', 'm', 'e', 'l'});
    ContainsAt(lc, "transition metal", 0);
    SpelledAsTransition(category);
  }
}
