/**
 * The score-category decision of the location service: validity, the two
 * distance thresholds, then the reverse-geocoded country and continent of the
 * guess. The reverse geocoder is an input: its outcome is passed in.
 */
module LocationService {
  import opened Wrappers
  import opened Strings
  import opened Coordinates
  import opened Constants
  import opened CityCatalog
  import opened ScoreCategories

  /** The part of a `CLPlacemark` the core reads: its country and its location. */
  datatype Placemark = Placemark(country: Option<string>, location: Option<Coordinate>)

  /**
   * Outcome of `reverseGeocode(coordinate:)`: the call failed, or it returned
   * the first placemark found (None when there was none).
   */
  datatype GeocodeOutcome = GeocodeFailed | Geocoded(placemark: Option<Placemark>)

  /** The six continent labels that the table and the boxes produce. */
  const Continents: set<string> := {"Europe", "Asia", "Africa", "North America", "South America", "Oceania"}

  // The country-to-continent dictionary of `getContinent(for:)`, one set of
  // countries per continent as the dictionary literal groups them. The larger
  // groups are split alphabetically into two sets; the split is for proof
  // cost only, as each proof about a set literal grows with its size.

  /** Europe, countries A to K. */
  const EuropeAtoK: set<string> := {
    "Albania", "Andorra", "Austria", "Belarus", "Belgium", "Bosnia and Herzegovina", "Bulgaria",
    "Croatia", "Czech Republic", "Denmark", "Estonia", "Finland", "France", "Germany", "Greece",
    "Hungary", "Iceland", "Ireland", "Italy"
  }

  /** Europe, countries L to Z. */
  const EuropeLtoZ: set<string> := {
    "Latvia", "Lithuania", "Luxembourg", "Malta", "Moldova", "Monaco", "Montenegro", "Netherlands",
    "North Macedonia", "Norway", "Poland", "Portugal", "Romania", "Russia", "San Marino", "Serbia",
    "Slovakia", "Slovenia", "Spain", "Sweden", "Switzerland", "Ukraine", "United Kingdom",
    "Vatican City"
  }

  const EuropeCountries: set<string> := EuropeAtoK + EuropeLtoZ

  /** Asia, countries A to K. */
  const AsiaAtoK: set<string> := {
    "Afghanistan", "Armenia", "Azerbaijan", "Bahrain", "Bangladesh", "Bhutan", "Brunei", "Cambodia",
    "China", "Cyprus", "Georgia", "India", "Indonesia", "Iran", "Iraq", "Israel", "Japan", "Jordan",
    "Kazakhstan", "Kuwait", "Kyrgyzstan"
  }

  /** Asia, countries L to Z. */
  const AsiaLtoZ: set<string> := {
    "Laos", "Lebanon", "Malaysia", "Maldives", "Mongolia", "Myanmar", "Nepal", "North Korea", "Oman",
    "Pakistan", "Palestine", "Philippines", "Qatar", "Saudi Arabia", "Singapore", "South Korea",
    "Sri Lanka", "Syria", "Taiwan", "Tajikistan", "Thailand", "Timor-Leste", "Turkey", "Turkmenistan",
    "United Arab Emirates", "Uzbekistan", "Vietnam", "Yemen"
  }

  const AsiaCountries: set<string> := AsiaAtoK + AsiaLtoZ

  /** Africa, countries A to K. */
  const AfricaAtoK: set<string> := {
    "Algeria", "Angola", "Benin", "Botswana", "Burkina Faso", "Burundi", "Cameroon", "Cape Verde",
    "Central African Republic", "Chad", "Comoros", "Congo", "Democratic Republic of the Congo",
    "Djibouti", "Egypt", "Equatorial Guinea", "Eritrea", "Eswatini", "Ethiopia", "Gabon", "Gambia",
    "Ghana", "Guinea", "Guinea-Bissau", "Ivory Coast", "Kenya"
  }

  /** Africa, countries L to Z. */
  const AfricaLtoZ: set<string> := {
    "Lesotho", "Liberia", "Libya", "Madagascar", "Malawi", "Mali", "Mauritania", "Mauritius",
    "Morocco", "Mozambique", "Namibia", "Niger", "Nigeria", "Rwanda", "São Tomé and Príncipe",
    "Senegal", "Seychelles", "Sierra Leone", "Somalia", "South Africa", "South Sudan", "Sudan",
    "Tanzania", "Togo", "Tunisia", "Uganda", "Zambia", "Zimbabwe"
  }

  const AfricaCountries: set<string> := AfricaAtoK + AfricaLtoZ

  /** North America. */
  const NorthAmericaCountries: set<string> := {
    "Antigua and Barbuda", "Bahamas", "Barbados", "Belize", "Canada", "Costa Rica", "Cuba", "Dominica",
    "Dominican Republic", "El Salvador", "Grenada", "Guatemala", "Haiti", "Honduras", "Jamaica",
    "Mexico", "Nicaragua", "Panama", "Saint Kitts and Nevis", "Saint Lucia",
    "Saint Vincent and the Grenadines", "Trinidad and Tobago", "United States"
  }

  /** South America. */
  const SouthAmericaCountries: set<string> := {
    "Argentina", "Bolivia", "Brazil", "Chile", "Colombia", "Ecuador", "Guyana", "Paraguay", "Peru",
    "Suriname", "Uruguay", "Venezuela"
  }

  /** Oceania. */
  const OceaniaCountries: set<string> := {
    "Australia", "Fiji", "Kiribati", "Marshall Islands", "Micronesia", "Nauru", "New Zealand", "Palau",
    "Papua New Guinea", "Samoa", "Solomon Islands", "Tonga", "Tuvalu", "Vanuatu"
  }

  /**
   * `continentMap[country]`: the continent the dictionary gives an exact
   * country name, if any.
   */
  function TableContinent(country: string): (r: Option<string>)
    ensures r.Some? ==> r.value in Continents
  {
    if country in EuropeAtoK || country in EuropeLtoZ then Some("Europe")
    else if country in AsiaAtoK || country in AsiaLtoZ then Some("Asia")
    else if country in AfricaAtoK || country in AfricaLtoZ then Some("Africa")
    else if country in NorthAmericaCountries then Some("North America")
    else if country in SouthAmericaCountries then Some("South America")
    else if country in OceaniaCountries then Some("Oceania")
    else None
  }

  /** Every key of the dictionary. */
  function AllTableCountries(): set<string> {
    EuropeCountries + AsiaCountries + AfricaCountries
    + NorthAmericaCountries + SouthAmericaCountries + OceaniaCountries
  }

  /** Every name in the set starts with an upper-case ASCII letter. */
  ghost predicate Capitalised(names: set<string>) {
    forall k :: k in names ==> |k| > 0 && IsAsciiUpper(k[0])
  }

  lemma CapitalisedUnion(a: set<string>, b: set<string>)
    requires Capitalised(a) && Capitalised(b)
    ensures Capitalised(a + b)
  {
  }

  lemma EuropeAtoKCapitalised()
    ensures Capitalised(EuropeAtoK)
  {
  }

  lemma EuropeLtoZCapitalised()
    ensures Capitalised(EuropeLtoZ)
  {
  }

  lemma EuropeKeysCapitalised()
    ensures Capitalised(EuropeCountries)
  {
    EuropeAtoKCapitalised();
    EuropeLtoZCapitalised();
    CapitalisedUnion(EuropeAtoK, EuropeLtoZ);
  }

  lemma AsiaAtoKCapitalised()
    ensures Capitalised(AsiaAtoK)
  {
  }

  lemma AsiaLtoZCapitalised()
    ensures Capitalised(AsiaLtoZ)
  {
  }

  lemma AsiaKeysCapitalised()
    ensures Capitalised(AsiaCountries)
  {
    AsiaAtoKCapitalised();
    AsiaLtoZCapitalised();
    CapitalisedUnion(AsiaAtoK, AsiaLtoZ);
  }

  lemma AfricaAtoKCapitalised()
    ensures Capitalised(AfricaAtoK)
  {
  }

  lemma AfricaLtoZCapitalised()
    ensures Capitalised(AfricaLtoZ)
  {
  }

  lemma AfricaKeysCapitalised()
    ensures Capitalised(AfricaCountries)
  {
    AfricaAtoKCapitalised();
    AfricaLtoZCapitalised();
    CapitalisedUnion(AfricaAtoK, AfricaLtoZ);
  }

  lemma NorthAmericaKeysCapitalised()
    ensures Capitalised(NorthAmericaCountries)
  {
  }

  lemma SouthAmericaKeysCapitalised()
    ensures Capitalised(SouthAmericaCountries)
  {
  }

  lemma OceaniaKeysCapitalised()
    ensures Capitalised(OceaniaCountries)
  {
  }

  /** A name that does not start with an upper-case letter is not in a capitalised set. */
  lemma UncapitalisedNotIn(names: set<string>, name: string)
    requires Capitalised(names)
    requires |name| == 0 || !IsAsciiUpper(name[0])
    ensures name !in names
  {
  }

  /** A lowercased name is in none of the dictionary's groups. */
  lemma LowercasedNotInEurope(country: string)
    ensures Lowercased(country) !in EuropeCountries
  {
    LowercasedHasNoUpper(country);
    EuropeKeysCapitalised();
    UncapitalisedNotIn(EuropeCountries, Lowercased(country));
  }

  lemma LowercasedNotInAsia(country: string)
    ensures Lowercased(country) !in AsiaCountries
  {
    LowercasedHasNoUpper(country);
    AsiaKeysCapitalised();
    UncapitalisedNotIn(AsiaCountries, Lowercased(country));
  }

  lemma LowercasedNotInAfrica(country: string)
    ensures Lowercased(country) !in AfricaCountries
  {
    LowercasedHasNoUpper(country);
    AfricaKeysCapitalised();
    UncapitalisedNotIn(AfricaCountries, Lowercased(country));
  }

  lemma LowercasedNotInNorthAmerica(country: string)
    ensures Lowercased(country) !in NorthAmericaCountries
  {
    LowercasedHasNoUpper(country);
    NorthAmericaKeysCapitalised();
    UncapitalisedNotIn(NorthAmericaCountries, Lowercased(country));
  }

  lemma LowercasedNotInSouthAmerica(country: string)
    ensures Lowercased(country) !in SouthAmericaCountries
  {
    LowercasedHasNoUpper(country);
    SouthAmericaKeysCapitalised();
    UncapitalisedNotIn(SouthAmericaCountries, Lowercased(country));
  }

  lemma LowercasedNotInOceania(country: string)
    ensures Lowercased(country) !in OceaniaCountries
  {
    LowercasedHasNoUpper(country);
    OceaniaKeysCapitalised();
    UncapitalisedNotIn(OceaniaCountries, Lowercased(country));
  }

  /** `continentMap[country.lowercased()]` never finds anything: every key is capitalised. */
  lemma LowercasedLookupNeverHits(country: string)
    ensures TableContinent(Lowercased(country)).None?
  {
    LowercasedNotInEurope(country);
    LowercasedNotInAsia(country);
    LowercasedNotInAfrica(country);
    LowercasedNotInNorthAmerica(country);
    LowercasedNotInSouthAmerica(country);
    LowercasedNotInOceania(country);
  }

  /** An axis-aligned latitude/longitude box labelled with a continent. */
  datatype Box = Box(continent: string, minLat: real, maxLat: real, minLon: real, maxLon: real)
  {
    predicate Contains(c: Coordinate) {
      minLat <= c.latitude <= maxLat && minLon <= c.longitude <= maxLon
    }
  }

  /** The six boxes of `getContinentByGeographicBounds(for:)`, in the order they are tried. */
  const Boxes: seq<Box> := [
    Box("Europe", 35.0, 71.0, -25.0, 40.0),
    Box("Asia", -35.0, 81.0, 25.0, 180.0),
    Box("Africa", -35.0, 37.0, -20.0, 52.0),
    Box("North America", 5.0, 83.0, -180.0, -30.0),
    Box("South America", -60.0, 15.0, -85.0, -30.0),
    Box("Oceania", -50.0, -5.0, 110.0, 180.0)
  ]

  /** Box i contains c and no earlier box does. */
  predicate IsFirstBox(i: nat, c: Coordinate) {
    i < |Boxes| && Boxes[i].Contains(c) && forall j :: 0 <= j < i ==> !Boxes[j].Contains(c)
  }

  /**
   * `getContinentByGeographicBounds(for:)`: the continent of the first box
   * that holds the placemark's location; None without a location or outside
   * every box.
   */
  function ContinentByBounds(placemark: Option<Placemark>): (r: Option<string>)
    ensures placemark.None? || placemark.value.location.None? ==> r.None?
    ensures placemark.Some? && placemark.value.location.Some? ==>
      (r.None? <==> forall i :: 0 <= i < |Boxes| ==> !Boxes[i].Contains(placemark.value.location.value))
    ensures r.Some? ==>
      (placemark.Some? && placemark.value.location.Some?
       && exists i: nat :: IsFirstBox(i, placemark.value.location.value) && Boxes[i].continent == r.value)
    ensures r.Some? ==> r.value in Continents
  {
    if placemark.None? || placemark.value.location.None? then None
    else
      var c := placemark.value.location.value;
      var lat, lon := c.latitude, c.longitude;
      if lat >= 35.0 && lat <= 71.0 && lon >= -25.0 && lon <= 40.0 then
        assert IsFirstBox(0, c);
        Some("Europe")
      else if lat >= -35.0 && lat <= 81.0 && lon >= 25.0 && lon <= 180.0 then
        assert IsFirstBox(1, c);
        Some("Asia")
      else if lat >= -35.0 && lat <= 37.0 && lon >= -20.0 && lon <= 52.0 then
        assert IsFirstBox(2, c);
        Some("Africa")
      else if lat >= 5.0 && lat <= 83.0 && lon >= -180.0 && lon <= -30.0 then
        assert IsFirstBox(3, c);
        Some("North America")
      else if lat >= -60.0 && lat <= 15.0 && lon >= -85.0 && lon <= -30.0 then
        assert IsFirstBox(4, c);
        Some("South America")
      else if lat >= -50.0 && lat <= -5.0 && lon >= 110.0 && lon <= 180.0 then
        assert IsFirstBox(5, c);
        Some("Oceania")
      else
        None
  }

  /**
   * `getContinent(for:)`: None without a country; the dictionary's continent
   * for an exact hit; otherwise the box of the placemark's location, and only
   * then the dictionary entry of the lowercased country.
   */
  function ContinentOf(placemark: Option<Placemark>): (r: Option<string>)
    ensures placemark.None? || placemark.value.country.None? ==> r.None?
    ensures placemark.Some? && placemark.value.country.Some? && placemark.value.country.value in AllTableCountries() ==>
      r == TableContinent(placemark.value.country.value)
    ensures r.Some? ==> r.value in Continents
  {
    if placemark.None? || placemark.value.country.None? then None
    else
      var country := placemark.value.country.value;
      TableContinentDefinedOnKeys(country);
      var exact := TableContinent(country);
      if exact.Some? then exact
      else
        var byBounds := ContinentByBounds(placemark);
        if byBounds.Some? then byBounds else TableContinent(Lowercased(country))
  }

  /** The lowercased fallback is dead: without an exact hit the answer is the box classification. */
  lemma ContinentOfWithoutExactHit(placemark: Option<Placemark>)
    requires placemark.Some? && placemark.value.country.Some?
    requires placemark.value.country.value !in AllTableCountries()
    ensures ContinentOf(placemark) == ContinentByBounds(placemark)
  {
    LowercasedLookupNeverHits(placemark.value.country.value);
  }

  // The exact lookup of each country the catalog uses: the country is in its
  // own group and in none of the groups tried before it.

  lemma LookupFrance()
    ensures TableContinent("France") == Some("Europe")
  {
    assert "France" in EuropeAtoK;
  }

  lemma LookupIceland()
    ensures TableContinent("Iceland") == Some("Europe")
  {
    assert "Iceland" in EuropeAtoK;
  }

  lemma LookupRussia()
    ensures TableContinent("Russia") == Some("Europe")
  {
    assert "Russia" in EuropeLtoZ;
  }

  lemma LookupUnitedKingdom()
    ensures TableContinent("United Kingdom") == Some("Europe")
  {
    assert "United Kingdom" in EuropeLtoZ;
  }

  lemma LookupChina()
    ensures TableContinent("China") == Some("Asia")
  {
    assert "China" in AsiaAtoK;
  }

  lemma LookupIndia()
    ensures TableContinent("India") == Some("Asia")
  {
    assert "India" in AsiaAtoK;
  }

  lemma LookupJapan()
    ensures TableContinent("Japan") == Some("Asia")
  {
    assert "Japan" in AsiaAtoK;
  }

  lemma LookupSingapore()
    ensures TableContinent("Singapore") == Some("Asia")
  {
    assert "Singapore" in AsiaLtoZ;
  }

  lemma LookupThailand()
    ensures TableContinent("Thailand") == Some("Asia")
  {
    assert "Thailand" in AsiaLtoZ;
  }

  /** "Turkey" is listed under Asia only, although part of it lies in the Europe box. */
  lemma LookupTurkey()
    ensures TableContinent("Turkey") == Some("Asia")
  {
    assert "Turkey" in AsiaLtoZ;
  }

  lemma LookupUnitedArabEmirates()
    ensures TableContinent("United Arab Emirates") == Some("Asia")
  {
    assert "United Arab Emirates" in AsiaLtoZ;
  }

  lemma LookupEgypt()
    ensures TableContinent("Egypt") == Some("Africa")
  {
    assert "Egypt" in AfricaAtoK;
  }

  lemma LookupNigeria()
    ensures TableContinent("Nigeria") == Some("Africa")
  {
    assert "Nigeria" in AfricaLtoZ;
  }

  lemma LookupSouthAfrica()
    ensures TableContinent("South Africa") == Some("Africa")
  {
    assert "South Africa" in AfricaLtoZ;
  }

  lemma LookupCanada()
    ensures TableContinent("Canada") == Some("North America")
  {
    assert "Canada" in NorthAmericaCountries;
  }

  lemma LookupMexico()
    ensures TableContinent("Mexico") == Some("North America")
  {
    assert "Mexico" in NorthAmericaCountries;
  }

  lemma LookupUnitedStates()
    ensures TableContinent("United States") == Some("North America")
  {
    assert "United States" in NorthAmericaCountries;
  }

  lemma LookupArgentina()
    ensures TableContinent("Argentina") == Some("South America")
  {
    assert "Argentina" in SouthAmericaCountries;
  }

  lemma LookupBrazil()
    ensures TableContinent("Brazil") == Some("South America")
  {
    assert "Brazil" in SouthAmericaCountries;
  }

  lemma LookupAustralia()
    ensures TableContinent("Australia") == Some("Oceania")
  {
    assert "Australia" in OceaniaCountries;
  }

  /** "Russia" is a dictionary key under Europe, whatever the placemark's location. */
  lemma RussiaIsEurope(location: Option<Coordinate>)
    ensures ContinentOf(Some(Placemark(Some("Russia"), location))) == Some("Europe")
  {
    LookupRussia();
  }

  /** "Turkey" is listed under Asia, not under Europe. */
  lemma TurkeyIsAsia(location: Option<Coordinate>)
    ensures ContinentOf(Some(Placemark(Some("Turkey"), location))) == Some("Asia")
  {
    LookupTurkey();
  }

  /** "France" is a dictionary key under Europe. */
  lemma FranceIsEurope(location: Option<Coordinate>)
    ensures ContinentOf(Some(Placemark(Some("France"), location))) == Some("Europe")
  {
    LookupFrance();
  }

  /** The base date's city is in Argentina, which the exact lookup places in South America. */
  lemma ArgentinaIsSouthAmerica(location: Option<Coordinate>)
    ensures ContinentOf(Some(Placemark(Some("Argentina"), location))) == Some("South America")
  {
    LookupArgentina();
  }

  /** A placemark with no country has no continent, even at a location inside the Europe box. */
  lemma MissingCountryIgnoresBoxes()
    ensures ContinentByBounds(Some(Placemark(None, Some(Coordinate(48.85, 2.35))))) == Some("Europe")
    ensures ContinentOf(Some(Placemark(None, Some(Coordinate(48.85, 2.35))))) == None
  {
  }

  /** (40, 30) lies in both the Europe and the Asia box; Europe is tried first and wins. */
  lemma OverlapGoesToEurope()
    ensures Boxes[0].Contains(Coordinate(40.0, 30.0)) && Boxes[1].Contains(Coordinate(40.0, 30.0))
    ensures ContinentByBounds(Some(Placemark(None, Some(Coordinate(40.0, 30.0))))) == Some("Europe")
  {
  }

  /** The exact lookup finds a continent exactly for the dictionary's keys. */
  lemma TableContinentDefinedOnKeys(country: string)
    ensures TableContinent(country).Some? <==> country in AllTableCountries()
  {
    assert country in EuropeCountries <==> country in EuropeAtoK || country in EuropeLtoZ;
    assert country in AsiaCountries <==> country in AsiaAtoK || country in AsiaLtoZ;
    assert country in AfricaCountries <==> country in AfricaAtoK || country in AfricaLtoZ;
  }

  /** Every catalog city's continent is one of the six labels. */
  lemma CatalogContinentsAreLabels(i: nat)
    requires i < |SampleCities|
    ensures SampleCities[i].continent in Continents
  {
  }

  /**
   * The exact lookup of every catalog city's country gives that city's own
   * continent label. The catalog is taken a quarter at a time, for proof
   * cost only.
   */
  lemma CatalogAgreesWithTable(i: nat)
    requires i < |SampleCities|
    ensures SampleCities[i].country in AllTableCountries()
    ensures TableContinent(SampleCities[i].country) == Some(SampleCities[i].continent)
  {
    if i < 6 {
      CatalogAgreesWithTableFirstQuarter(i);
    } else if i < 12 {
      CatalogAgreesWithTableSecondQuarter(i);
    } else if i < 18 {
      CatalogAgreesWithTableThirdQuarter(i);
    } else {
      CatalogAgreesWithTableLastQuarter(i);
    }
    TableContinentDefinedOnKeys(SampleCities[i].country);
  }

  lemma CatalogAgreesWithTableFirstQuarter(i: nat)
    requires i < 6
    ensures TableContinent(SampleCities[i].country) == Some(SampleCities[i].continent)
  {
    var city := SampleCities[i];
    if i == 0 {
      assert city.country == "France" && city.continent == "Europe";
      LookupFrance();
    } else if i == 1 {
      assert city.country == "Japan" && city.continent == "Asia";
      LookupJapan();
    } else if i == 2 {
      assert city.country == "United States" && city.continent == "North America";
      LookupUnitedStates();
    } else if i == 3 {
      assert city.country == "United Kingdom" && city.continent == "Europe";
      LookupUnitedKingdom();
    } else if i == 4 {
      assert city.country == "Australia" && city.continent == "Oceania";
      LookupAustralia();
    } else {
      assert city.country == "Brazil" && city.continent == "South America";
      LookupBrazil();
    }
  }

  lemma CatalogAgreesWithTableSecondQuarter(i: nat)
    requires 6 <= i < 12
    ensures TableContinent(SampleCities[i].country) == Some(SampleCities[i].continent)
  {
    var city := SampleCities[i];
    if i == 6 {
      assert city.country == "Egypt" && city.continent == "Africa";
      LookupEgypt();
    } else if i == 7 {
      assert city.country == "India" && city.continent == "Asia";
      LookupIndia();
    } else if i == 8 {
      assert city.country == "Russia" && city.continent == "Europe";
      LookupRussia();
    } else if i == 9 {
      assert city.country == "South Africa" && city.continent == "Africa";
      LookupSouthAfrica();
    } else if i == 10 {
      assert city.country == "Thailand" && city.continent == "Asia";
      LookupThailand();
    } else {
      assert city.country == "Mexico" && city.continent == "North America";
      LookupMexico();
    }
  }

  lemma CatalogAgreesWithTableThirdQuarter(i: nat)
    requires 12 <= i < 18
    ensures TableContinent(SampleCities[i].country) == Some(SampleCities[i].continent)
  {
    var city := SampleCities[i];
    if i == 12 {
      assert city.country == "Turkey" && city.continent == "Asia";
      LookupTurkey();
    } else if i == 13 {
      assert city.country == "China" && city.continent == "Asia";
      LookupChina();
    } else if i == 14 {
      assert city.country == "Nigeria" && city.continent == "Africa";
      LookupNigeria();
    } else if i == 15 {
      assert city.country == "Brazil" && city.continent == "South America";
      LookupBrazil();
    } else if i == 16 {
      assert city.country == "Singapore" && city.continent == "Asia";
      LookupSingapore();
    } else {
      assert city.country == "United Arab Emirates" && city.continent == "Asia";
      LookupUnitedArabEmirates();
    }
  }

  lemma CatalogAgreesWithTableLastQuarter(i: nat)
    requires 18 <= i < 24
    ensures TableContinent(SampleCities[i].country) == Some(SampleCities[i].continent)
  {
    var city := SampleCities[i];
    if i == 18 {
      assert city.country == "Canada" && city.continent == "North America";
      LookupCanada();
    } else if i == 19 {
      assert city.country == "Argentina" && city.continent == "South America";
      LookupArgentina();
    } else if i == 20 {
      assert city.country == "Iceland" && city.continent == "Europe";
      LookupIceland();
    } else if i == 21 {
      assert city.country == "Australia" && city.continent == "Oceania";
      LookupAustralia();
    } else if i == 22 {
      assert city.country == "United States" && city.continent == "North America";
      LookupUnitedStates();
    } else {
      assert city.country == "Argentina" && city.continent == "South America";
      LookupArgentina();
    }
  }

  /**
   * A placemark carrying a catalog city's country resolves to that city's
   * continent, wherever the placemark lies: the boxes are never consulted.
   */
  lemma CatalogCountriesResolve(i: nat, location: Option<Coordinate>)
    requires i < |SampleCities|
    ensures ContinentOf(Some(Placemark(Some(SampleCities[i].country), location))) == Some(SampleCities[i].continent)
  {
    CatalogAgreesWithTable(i);
  }

  /** The geocoded country names the target's country, ignoring case. */
  predicate CountryMatches(geocode: GeocodeOutcome, target: City) {
    && geocode.Geocoded?
    && geocode.placemark.Some?
    && geocode.placemark.value.country.Some?
    && EqualsIgnoringCase(geocode.placemark.value.country.value, target.country)
  }

  /** The continent resolved for the geocoded placemark names the target's continent, ignoring case. */
  predicate ContinentMatches(geocode: GeocodeOutcome, target: City) {
    && geocode.Geocoded?
    && ContinentOf(geocode.placemark).Some?
    && EqualsIgnoringCase(ContinentOf(geocode.placemark).value, target.continent)
  }

  /**
   * The tier a guess earns, first match wins: an invalid coordinate misses;
   * then distance up to 15 km is perfect and up to 100 km excellent; beyond
   * that the same country, else the same continent; anything else misses.
   */
  ghost predicate Scored(category: ScoreCategory, distance: real, guess: Coordinate, target: City, geocode: GeocodeOutcome) {
    var valid := IsValid(guess);
    var far := distance > ExcellentDistanceThreshold;
    && (category == Perfect <==> valid && distance <= PerfectDistanceThreshold)
    && (category == Excellent <==> valid && PerfectDistanceThreshold < distance <= ExcellentDistanceThreshold)
    && (category == SameCountry <==> valid && far && CountryMatches(geocode, target))
    && (category == SameContinent <==> valid && far && !CountryMatches(geocode, target) && ContinentMatches(geocode, target))
  }

  /** The tier conditions leave exactly one category for every guess. */
  lemma ScoredIsUnique(a: ScoreCategory, b: ScoreCategory, distance: real, guess: Coordinate, target: City, geocode: GeocodeOutcome)
    requires Scored(a, distance, guess, target, geocode) && Scored(b, distance, guess, target, geocode)
    ensures a == b
  {
  }

  /**
   * `determineScoreCategory(distance:guessCoordinate:targetCity:)`, with the
   * awaited reverse geocoding of the guess given as `geocode`. A failed lookup
   * is absorbed: it only leads to `Miss`.
   */
  method DetermineScoreCategory(distance: real, guessCoordinate: Coordinate, targetCity: City, geocode: GeocodeOutcome)
    returns (category: ScoreCategory)
    ensures !IsValid(guessCoordinate) ==> category == Miss
    ensures IsValid(guessCoordinate) && distance <= PerfectDistanceThreshold ==> category == Perfect
    ensures IsValid(guessCoordinate) && PerfectDistanceThreshold < distance <= ExcellentDistanceThreshold ==> category == Excellent
    ensures IsValid(guessCoordinate) && distance > ExcellentDistanceThreshold && geocode.GeocodeFailed? ==> category == Miss
    ensures Scored(category, distance, guessCoordinate, targetCity, geocode)
  {
    if !IsValid(guessCoordinate) {
      return Miss;
    }
    if distance <= PerfectDistanceThreshold {
      return Perfect;
    } else if distance <= ExcellentDistanceThreshold {
      return Excellent;
    }
    match geocode {
      case GeocodeFailed =>
      case Geocoded(guessLocation) =>
        if guessLocation.Some? && guessLocation.value.country.Some?
          && Lowercased(guessLocation.value.country.value) == Lowercased(targetCity.country)
        {
          return SameCountry;
        }
        var guessContinent := ContinentOf(guessLocation);
        if guessContinent.Some? && Lowercased(guessContinent.value) == Lowercased(targetCity.continent) {
          return SameContinent;
        }
    }
    return Miss;
  }
}
