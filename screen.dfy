/** The navigation routes and the detail-route builder. */
module Screen {
  import opened Text

  const Splash: string := "splash"
  const LanguageSelection: string := "language_selection"
  const Home: string := "home"
  const Favorites: string := "favorites"
  const Settings: string := "settings"
  /** The detail route template, with its one argument placeholder. */
  const Detail: string := "detail/{atomicNumber}"

  const DetailPrefix: string := "detail/"
  const AtomicNumberPlaceholder: string := "{atomicNumber}"

  /** `Detail.createRoute(n)`: the template with the placeholder filled by the decimal of `n`. */
  function CreateRoute(atomicNumber: int): (r: string)
    ensures Detail == DetailPrefix + AtomicNumberPlaceholder
    ensures DetailPrefix <= r && r[|DetailPrefix|..] == Decimal(atomicNumber)
  {
    DetailPrefix + Decimal(atomicNumber)
  }

  /** The six route strings are pairwise distinct. */
  lemma RoutesDistinct()
    ensures |{Splash, LanguageSelection, Home, Favorites, Settings, Detail}| == 6
  {
    var routes := [Splash, LanguageSelection, Home, Favorites, Settings, Detail];
    assert forall i, j :: 0 <= i < j < 6 ==> routes[i] != routes[j];
    assert {Splash, LanguageSelection, Home, Favorites, Settings, Detail}
      == {Splash, LanguageSelection, Home, Favorites, Settings} + {Detail};
    assert |{Splash, LanguageSelection, Home, Favorites, Settings}| == 5 by {
      assert {Splash, LanguageSelection, Home, Favorites, Settings}
        == {Splash, LanguageSelection, Home, Favorites} + {Settings};
      assert |{Splash, LanguageSelection, Home, Favorites}| == 4 by {
        assert {Splash, LanguageSelection, Home, Favorites} == {Splash, LanguageSelection, Home} + {Favorites};
        assert |{Splash, LanguageSelection, Home}| == 3 by {
          assert {Splash, LanguageSelection, Home} == {Splash, LanguageSelection} + {Home};
        }
      }
    }
  }

  /** Distinct atomic numbers give distinct detail routes. */
  lemma CreateRouteInjective(a: int, b: int)
    requires CreateRoute(a) == CreateRoute(b)
    ensures a == b
  {
    assert CreateRoute(a)[|DetailPrefix|..] == Decimal(a);
    assert CreateRoute(b)[|DetailPrefix|..] == Decimal(b);
    DecimalInjective(a, b);
  }

  /** No detail route is one of the fixed routes, nor the unfilled template. */
  lemma CreateRouteIsNotFixed(atomicNumber: int)
    ensures CreateRoute(atomicNumber) !in {Splash, LanguageSelection, Home, Favorites, Settings, Detail}
  {
    var r := CreateRoute(atomicNumber);
    assert r[0] == 'd' && r[6] == '/';
    assert r[7] == Decimal(atomicNumber)[0];
    assert r != Detail by {
      assert Detail[7] == '{';
    }
  }
}
