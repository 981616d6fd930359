/**
 * The `City` value and the fixed catalog the daily selection indexes into.
 * The order of the catalog is part of the selection: entry i is the city of
 * every day whose index is i.
 */
module CityCatalog {
  import opened Coordinates

  /**
   * A city. `id` stands for the `UUID` each Swift value draws when it is
   * built; equality of cities never looks at it.
   */
  datatype City = City(id: nat, name: string, country: string, continent: string, coordinate: Coordinate)

  /** The app's city equality: name, country, latitude and longitude; not `id`, not `continent`. */
  predicate CityEq(a: City, b: City) {
    a.name == b.name && a.country == b.country
    && a.coordinate.latitude == b.coordinate.latitude
    && a.coordinate.longitude == b.coordinate.longitude
  }

  /** City equality ignores the identifier and the continent label, and it is an equivalence. */
  lemma CityEqProperties(a: City, b: City, c: City, id: nat, continent: string)
    ensures CityEq(a, a.(id := id, continent := continent))
    ensures CityEq(a, b) <==> CityEq(b, a)
    ensures CityEq(a, b) && CityEq(b, c) ==> CityEq(a, c)
    ensures CityEq(a, b) <==> a.(id := 0, continent := "") == b.(id := 0, continent := "")
  {
  }

  /** `City.sampleCities`; the identifiers 0..23 stand for the random UUIDs. */
  const SampleCities: seq<City> := [
    City(0, "Paris", "France", "Europe", Coordinate(48.8566, 2.3522)),
    City(1, "Tokyo", "Japan", "Asia", Coordinate(35.6762, 139.6503)),
    City(2, "New York", "United States", "North America", Coordinate(40.7128, -74.0060)),
    City(3, "London", "United Kingdom", "Europe", Coordinate(51.5074, -0.1278)),
    City(4, "Sydney", "Australia", "Oceania", Coordinate(-33.8688, 151.2093)),
    City(5, "Rio de Janeiro", "Brazil", "South America", Coordinate(-22.9068, -43.1729)),
    City(6, "Cairo", "Egypt", "Africa", Coordinate(30.0444, 31.2357)),
    City(7, "Mumbai", "India", "Asia", Coordinate(19.0760, 72.8777)),
    City(8, "Moscow", "Russia", "Europe", Coordinate(55.7558, 37.6176)),
    City(9, "Cape Town", "South Africa", "Africa", Coordinate(-33.9249, 18.4241)),
    City(10, "Bangkok", "Thailand", "Asia", Coordinate(13.7563, 100.5018)),
    City(11, "Mexico City", "Mexico", "North America", Coordinate(19.4326, -99.1332)),
    City(12, "Istanbul", "Turkey", "Asia", Coordinate(41.0082, 28.9784)),
    City(13, "Beijing", "China", "Asia", Coordinate(39.9042, 116.4074)),
    City(14, "Lagos", "Nigeria", "Africa", Coordinate(6.5244, 3.3792)),
    City(15, "SÃ£o Paulo", "Brazil", "South America", Coordinate(-23.5505, -46.6333)),
    City(16, "Singapore", "Singapore", "Asia", Coordinate(1.3521, 103.8198)),
    City(17, "Dubai", "United Arab Emirates", "Asia", Coordinate(25.2048, 55.2708)),
    City(18, "Toronto", "Canada", "North America", Coordinate(43.6532, -79.3832)),
    City(19, "Buenos Aires", "Argentina", "South America", Coordinate(-34.6118, -58.3960)),
    City(20, "Reykjavik", "Iceland", "Europe", Coordinate(64.1466, -21.9426)),
    City(21, "Perth", "Australia", "Oceania", Coordinate(-31.9505, 115.8605)),
    City(22, "Anchorage", "United States", "North America", Coordinate(61.2181, -149.9003)),
    City(23, "Ushuaia", "Argentina", "South America", Coordinate(-54.8019, -68.3030))
  ]

  /** The catalog has exactly 24 entries, so it is never empty. */
  lemma CatalogSize()
    ensures |SampleCities| == 24
  {
  }

  /** Every catalog coordinate is a valid coordinate. */
  lemma CatalogCoordinatesValid(i: nat)
    requires i < |SampleCities|
    ensures -90.0 <= SampleCities[i].coordinate.latitude <= 90.0
    ensures -180.0 <= SampleCities[i].coordinate.longitude <= 180.0
    ensures IsValid(SampleCities[i].coordinate)
  {
  }

  /**
   * No two catalog entries are equal as cities (their latitudes already
   * differ). The catalog is taken a quarter at a time for proof cost only.
   */
  lemma CatalogDistinct(i: nat, j: nat)
    requires i < |SampleCities| && j < |SampleCities| && i != j
    ensures SampleCities[i].coordinate.latitude != SampleCities[j].coordinate.latitude
    ensures !CityEq(SampleCities[i], SampleCities[j])
  {
    if i < 6 {
      LatitudesDifferFromFirstQuarter(i, j);
    } else if i < 12 {
      LatitudesDifferFromSecondQuarter(i, j);
    } else if i < 18 {
      LatitudesDifferFromThirdQuarter(i, j);
    } else {
      LatitudesDifferFromLastQuarter(i, j);
    }
  }

  lemma LatitudesDifferFromFirstQuarter(i: nat, j: nat)
    requires i < 6 && j < |SampleCities| && i != j
    ensures SampleCities[i].coordinate.latitude != SampleCities[j].coordinate.latitude
  {
  }

  lemma LatitudesDifferFromSecondQuarter(i: nat, j: nat)
    requires 6 <= i < 12 && j < |SampleCities| && i != j
    ensures SampleCities[i].coordinate.latitude != SampleCities[j].coordinate.latitude
  {
  }

  lemma LatitudesDifferFromThirdQuarter(i: nat, j: nat)
    requires 12 <= i < 18 && j < |SampleCities| && i != j
    ensures SampleCities[i].coordinate.latitude != SampleCities[j].coordinate.latitude
  {
  }

  lemma LatitudesDifferFromLastQuarter(i: nat, j: nat)
    requires 18 <= i < |SampleCities| && j < |SampleCities| && i != j
    ensures SampleCities[i].coordinate.latitude != SampleCities[j].coordinate.latitude
  {
  }
}
