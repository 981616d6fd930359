# Worldle core in Dafny

Worldle is a daily geography game. Every player sees the same target city on
the same date. A player drops a pin on the globe, and the guess is scored by
distance, then by country, then by continent. This project models the game's
core and proves properties of that model:

- **Daily selection** (`DailyCityService`). A day offset `d` from 2024-01-01
  gives `hash = (d * 31 + 7) * 17`. The city is entry `abs(hash) % 24` of the
  24-city catalog. The module also covers tomorrow's and yesterday's city, the
  random city of testing mode, and the loop that lists the cities of the
  coming days.
- **Scoring** (`LocationService`). The tiers are tried in order, and the first
  match wins:
  - an invalid coordinate is a miss;
  - up to 15 km is perfect;
  - up to 100 km is excellent;
  - otherwise the reverse-geocoded country is compared with the target's country, ignoring case;
  - then the resolved continent is compared with the target's continent;
  - anything else is a miss.

  The continent resolution has three steps:
  - the 195-entry country dictionary;
  - six ordered latitude/longitude boxes;
  - a lookup of the lowercased country.
- **Game state** (`GameStates`). A round's state and its two mutating
  operations: reset, and recording a guess.
- **View model** (`GameViewModels`). The session around the state:
  - placing the pin;
  - submitting a guess, which is refused once today has been played;
  - the `played_<date>` flag in the key-value store;
  - testing mode and the two resets.
- **Data** (`ScoreCategories`, `CityCatalog`). The five-tier tables and the
  city catalog with the app's city equality.

External inputs become parameters:
- The day offset from the base date is an `int`.
- Whether the calendar could add a day is a `bool`. For the sequence it is an `int -> bool`.
- Today's "yyyy-MM-dd" key is a `string`.
- The date rendering is an `int -> string`.
- The geodesic distance in metres is a function `(Coordinate, Coordinate) -> real`.
- The reverse-geocoding outcome is a `GeocodeOutcome`: failed, or a placemark or none.
- The random index drawn is an `Option<nat>`.
- The key-value store is a `map<string, bool>` field.

`GameState` is a Swift struct whose `mutating` functions assign fields one by
one. Here it is a class whose methods do the same. `GameSnapshot` is the value
of its fields, and the methods are proved against the pure transitions
`InitialState`, `ResetState` and `AfterGuess`. In the same way, the view
model's methods are proved against pure transitions on a `Session`, which is
the snapshot plus the store. The lemmas about a whole session are stated on
those transitions.

Three facts about the continent resolution shape the model:
- **Missing country.** A placemark without a country gets no continent at
  all (`LocationService.swift:98`): the boxes are not consulted.
  `MissingCountryIgnoresBoxes` shows a point inside the Europe box that gets
  no continent for that reason.
- **Which location.** The boxes are matched against the geocoded placemark's own
  location (`LocationService.swift:175`), not the guess coordinate.
- **Lowercase lookup.** The lookup of the lowercased country is tried after
  the boxes (`LocationService.swift:170`). It can never succeed, because every
  dictionary key is capitalised: `LowercasedLookupNeverHits` and
  `ContinentOfWithoutExactHit` prove this.

## Model

| member | source | states |
|---|---|---|
| CityCatalog.CityEqProperties | Worldle/Models/City.swift:15-20 | city equality ignores the identifier and the continent; it is reflexive, symmetric and transitive; it is exact equality once the identifier and the continent are blanked |
| CityCatalog.CatalogSize | Worldle/Models/City.swift:27-52 | the catalog has exactly 24 entries, so it is never empty |
| CityCatalog.CatalogCoordinatesValid | Worldle/Models/City.swift:28-51 | every catalog latitude is in [-90, 90] and every longitude is in [-180, 180] |
| CityCatalog.CatalogDistinct | Worldle/Models/City.swift:28-51 | any two different catalog entries have different latitudes and are not equal as cities |
| ScoreCategories.Rank | Worldle/Models/ScoreCategory.swift:6-12 | each category sits at its own position in the `allCases` order |
| ScoreCategories.AllCasesComplete | Worldle/Models/ScoreCategory.swift:6-12 | there are exactly five categories, every category is listed, and none is listed twice |
| ScoreCategories.PointsStrictlyDecreasing | Worldle/Models/ScoreCategory.swift:82-95 | a stricter tier is worth strictly more points, and every tier is worth a positive amount |
| ScoreCategories.RingPositionsIncreasing | Worldle/Models/ScoreCategory.swift:66-79 | a stricter tier has a strictly smaller ring position, and every position lies in (0, 1] |
| ScoreCategories.PercentageStepsByTwenty | Worldle/Models/ScoreCategory.swift:114-127 | the percentage is 100% minus 20 per tier; as a number it is 120 minus ten times the ring position |
| ScoreCategories.DisplayTablesInjective | Worldle/Models/ScoreCategory.swift:18-127 | titles, descriptions, emoji, points and percentages each tell the five categories apart |
| DailyCityService.DeterministicCityIndex | Worldle/Services/DailyCityService.swift:73-77 | for every day offset, negative ones included, the index lies in [0, count) |
| DailyCityService.CityFor | Worldle/Services/DailyCityService.swift:36-45 | the city depends only on the day offset: it is the catalog entry at the deterministic index |
| DailyCityService.ExtraModuloIsNoOp | Worldle/Services/DailyCityService.swift:41-44 | the extra `% cities.count` leaves the index unchanged |
| DailyCityService.CityForInCatalog | Worldle/Services/DailyCityService.swift:36-45 | the daily city is a member of the catalog |
| DailyCityService.BaseDateIsUshuaia | Worldle/Services/DailyCityService.swift:75-76 | on the base date the hash is 119, the index is 23, and the city is Ushuaia |
| DailyCityService.HashModulo24 | Worldle/Services/DailyCityService.swift:75 | the hash equals 24·(22d + 4) + (23 − d) |
| DailyCityService.IndexClosedForm | Worldle/Services/DailyCityService.swift:73-77 | from the base date on, the index is (23 − d) mod 24; before it, the index is (d + 1) mod 24 |
| DailyCityService.ConsecutiveDaysDiffer | Worldle/Services/DailyCityService.swift:73-77 | two consecutive day offsets never have equal cities |
| DailyCityService.TwentyFourDayCycle | Worldle/Services/DailyCityService.swift:73-77 | the selection repeats every 24 offsets on each side of offset 0 |
| DailyCityService.EveryCityWithin24Days | Worldle/Services/DailyCityService.swift:73-77 | from offset 0 on, any 24 consecutive offsets include every catalog city |
| DailyCityService.TomorrowsCity | Worldle/Services/DailyCityService.swift:48-53 | tomorrow's city is the city of offset d + 1, or the city of offset d when adding a day fails; it differs from the city of offset d exactly when the addition succeeded |
| DailyCityService.YesterdaysCity | Worldle/Services/DailyCityService.swift:56-61 | yesterday's city is the city of offset d − 1, or the city of offset d when subtracting a day fails; it differs from the city of offset d exactly when the subtraction succeeded |
| DailyCityService.RandomCity | Worldle/Services/DailyCityService.swift:64-67 | always a catalog member; the drawn entry when the draw is in range |
| DailyCityService.CollectedWhenCalendarSucceeds | Worldle/Services/DailyCityService.swift:86-90 | when no date addition fails, the loop collects one entry per day, and entry i is day i's |
| DailyCityService.CitySequence | Worldle/Services/DailyCityService.swift:80-93 | the loop builds exactly `Collected` over the days: days whose date cannot be built are skipped; with no failure there are `days` entries, and entry i holds the date of today + i and its city's name |
| Strings.LowercasedHasNoUpper | Worldle/Services/LocationService.swift:64-70 | a lowercased string contains no upper-case letter |
| Strings.LowercasedIdempotent | Worldle/Services/LocationService.swift:64-70 | lowercasing twice is the same as lowercasing once |
| Strings.EqualsIgnoringCaseIsEquivalence | Worldle/Services/LocationService.swift:64-70 | comparison ignoring case holds for equal strings, and it is symmetric and transitive |
| LocationService.TableContinent | Worldle/Services/LocationService.swift:101-167 | a hit in the country dictionary is always one of the six continents |
| LocationService.TableContinentDefinedOnKeys | Worldle/Services/LocationService.swift:101-167 | the exact lookup finds a continent if and only if the country is a dictionary key |
| LocationService.LowercasedLookupNeverHits | Worldle/Services/LocationService.swift:170 | `continentMap[country.lowercased()]` never finds anything, because every key is capitalised |
| LocationService.ContinentByBounds | Worldle/Services/LocationService.swift:174-197 | returns nil without a placemark or location, and nil exactly when no box contains the location; otherwise returns the continent of the first box in order that contains it |
| LocationService.OverlapGoesToEurope | Worldle/Services/LocationService.swift:181-185 | (40, 30) lies in both the Europe box and the Asia box, and it resolves to Europe |
| LocationService.ContinentOf | Worldle/Services/LocationService.swift:97-171 | returns nil without a placemark or country, and the dictionary value on an exact hit; any answer is one of the six continents |
| LocationService.ContinentOfWithoutExactHit | Worldle/Services/LocationService.swift:164-170 | when the exact lookup misses, the answer is the box classification: the lowercased fallback never contributes |
| LocationService.MissingCountryIgnoresBoxes | Worldle/Services/LocationService.swift:98 | a placemark at (48.85, 2.35) without a country gets no continent, although that point lies in the Europe box |
| LocationService.RussiaIsEurope | Worldle/Services/LocationService.swift:111 | "Russia" resolves to Europe, whatever the location |
| LocationService.TurkeyIsAsia | Worldle/Services/LocationService.swift:126 | "Turkey" resolves to Asia, whatever the location |
| LocationService.FranceIsEurope | Worldle/Services/LocationService.swift:106 | "France" resolves to Europe, whatever the location |
| LocationService.ArgentinaIsSouthAmerica | Worldle/Services/LocationService.swift:153 | "Argentina", the base date's country, resolves to South America |
| LocationService.LookupFrance | Worldle/Services/LocationService.swift:106 | the exact lookup of "France" gives Europe |
| LocationService.LookupIceland | Worldle/Services/LocationService.swift:107 | the exact lookup of "Iceland" gives Europe |
| LocationService.LookupRussia | Worldle/Services/LocationService.swift:111 | the exact lookup of "Russia" gives Europe |
| LocationService.LookupUnitedKingdom | Worldle/Services/LocationService.swift:113 | the exact lookup of "United Kingdom" gives Europe |
| LocationService.LookupChina | Worldle/Services/LocationService.swift:118 | the exact lookup of "China" gives Asia |
| LocationService.LookupIndia | Worldle/Services/LocationService.swift:118 | the exact lookup of "India" gives Asia |
| LocationService.LookupJapan | Worldle/Services/LocationService.swift:120 | the exact lookup of "Japan" gives Asia |
| LocationService.LookupSingapore | Worldle/Services/LocationService.swift:124 | the exact lookup of "Singapore" gives Asia |
| LocationService.LookupThailand | Worldle/Services/LocationService.swift:126 | the exact lookup of "Thailand" gives Asia |
| LocationService.LookupTurkey | Worldle/Services/LocationService.swift:126 | the exact lookup of "Turkey" gives Asia |
| LocationService.LookupUnitedArabEmirates | Worldle/Services/LocationService.swift:127 | the exact lookup of "United Arab Emirates" gives Asia |
| LocationService.LookupEgypt | Worldle/Services/LocationService.swift:133 | the exact lookup of "Egypt" gives Africa |
| LocationService.LookupNigeria | Worldle/Services/LocationService.swift:139 | the exact lookup of "Nigeria" gives Africa |
| LocationService.LookupSouthAfrica | Worldle/Services/LocationService.swift:141 | the exact lookup of "South Africa" gives Africa |
| LocationService.LookupCanada | Worldle/Services/LocationService.swift:146 | the exact lookup of "Canada" gives North America |
| LocationService.LookupMexico | Worldle/Services/LocationService.swift:148 | the exact lookup of "Mexico" gives North America |
| LocationService.LookupUnitedStates | Worldle/Services/LocationService.swift:150 | the exact lookup of "United States" gives North America |
| LocationService.LookupArgentina | Worldle/Services/LocationService.swift:153 | the exact lookup of "Argentina" gives South America |
| LocationService.LookupBrazil | Worldle/Services/LocationService.swift:153 | the exact lookup of "Brazil" gives South America |
| LocationService.LookupAustralia | Worldle/Services/LocationService.swift:158 | the exact lookup of "Australia" gives Oceania |
| LocationService.CatalogContinentsAreLabels | Worldle/Models/City.swift:28-51 | every catalog city's continent label is one of the six dictionary continents |
| LocationService.CatalogAgreesWithTable | Worldle/Services/LocationService.swift:101-167 | every catalog city's country is a dictionary key, and the exact lookup of it gives that city's own continent |
| LocationService.CatalogCountriesResolve | Worldle/Services/LocationService.swift:97-171 | a placemark carrying a catalog city's country resolves to that city's continent, wherever it lies |
| LocationService.ScoredIsUnique | Worldle/Services/LocationService.swift:37-79 | the tier conditions leave exactly one category for any guess |
| LocationService.DetermineScoreCategory | Worldle/Services/LocationService.swift:37-79 | an invalid coordinate is a miss; otherwise perfect up to 15 km and excellent up to 100 km, and neither looks at the geocoding; beyond that, the same country ignoring case, then the same resolved continent ignoring case, else a miss; a failed geocoding is a miss |
| GameStates.InitialState | Worldle/Models/GameState.swift:8-16 | the initial state holds the given city with nothing guessed, all flags false, and a consistent state |
| GameStates.ResetState | Worldle/Models/GameState.swift:52-63 | a reset clears the round for the new city and keeps testing mode; the played flag survives only in testing mode |
| GameStates.AfterGuess | Worldle/Models/GameState.swift:66-74 | records the distance and the category, and the category's points as the score; shows the result; marks the day played only outside testing mode; leaves the city, guess, pin and mode alone; keeps the state consistent |
| GameStates.CoordinatesEqual | Worldle/Models/GameState.swift:31-40 | optional coordinates compare equal exactly when both are absent or both have equal latitude and longitude |
| GameStates.SnapshotsEqual | Worldle/Models/GameState.swift:19-29 | two states are equal exactly when their cities are equal as cities and every other field is identical |
| GameStates.SnapshotsEqualIsEquivalence | Worldle/Models/GameState.swift:19-40 | state equality is reflexive, symmetric and transitive |
| GameStates.ResetIsIdempotent | Worldle/Models/GameState.swift:52-63 | resetting twice to a city is the same as resetting once |
| GameStates.ResetOutsideTestingForgetsRound | Worldle/Models/GameState.swift:52-63 | outside testing mode a reset gives the initial state, whatever the previous round was |
| GameStates.GuessThenReset | Worldle/Models/GameState.swift:52-74 | after a guess, a reset clears the played flag outside testing mode and restores it in testing mode |
| GameStates.GameState.Initial | Worldle/Models/GameState.swift:47-49 | the constructed state is the initial state for the city |
| GameStates.GameState.Reset | Worldle/Models/GameState.swift:52-63 | the fields are assigned so that the new state is `ResetState` of the old one |
| GameStates.GameState.UpdateAfterGuess | Worldle/Models/GameState.swift:66-74 | the fields are assigned so that the new state is `AfterGuess` of the old one, and consistency is kept |
| GameViewModels.PlayedKeyInjective | Worldle/ViewModels/GameViewModel.swift:141 | different dates have different `played_` keys |
| GameViewModels.StoredBool | Worldle/ViewModels/GameViewModel.swift:141 | reading the store gives true exactly when the key is present and true |
| GameViewModels.CheckPlayed | Worldle/ViewModels/GameViewModel.swift:134-142 | in testing mode the played flag is cleared; otherwise the flag equals the store's value for today; nothing else changes |
| GameViewModels.MarkPlayed | Worldle/ViewModels/GameViewModel.swift:144-150 | outside testing mode it writes true under today's key and raises the flag; in testing mode it changes nothing; afterwards the flag is in step with the store, and a valid session stays valid |
| GameViewModels.InitialSession | Worldle/ViewModels/GameViewModel.swift:38-51 | the initial state for the city, outside testing mode, with the played flag read from the store |
| GameViewModels.SelectCoordinate | Worldle/ViewModels/GameViewModel.swift:56-59 | in any state, the guess is replaced and the pin is placed; nothing else changes |
| GameViewModels.Submit | Worldle/ViewModels/GameViewModel.swift:76-99 | nothing happens when today was played or no coordinate is selected; otherwise the guess is recorded, and outside testing mode today's key is stored as true; in testing mode the store is untouched |
| GameViewModels.ToggleTesting | Worldle/ViewModels/GameViewModel.swift:102-116 | the mode flips and the store is untouched; afterwards the played flag is false in testing mode and equals today's stored value otherwise |
| GameViewModels.ResetGameSession | Worldle/ViewModels/GameViewModel.swift:119-130 | outside testing mode nothing changes; in testing mode the state is reset to the city |
| GameViewModels.NewDay | Worldle/ViewModels/GameViewModel.swift:174-184 | the round is cleared for the new city, the mode and store are kept, and the played flag is re-read for today |
| GameViewModels.SetShowResultSession | Worldle/ViewModels/GameViewModel.swift:20-23 | only `showResult` changes |
| GameViewModels.OperationsKeepInSync | Worldle/ViewModels/GameViewModel.swift:56-184 | for a fixed date, every operation keeps the played flag equal to the store's value for today outside testing mode |
| GameViewModels.SecondSubmitIsNoOp | Worldle/ViewModels/GameViewModel.swift:77 | outside testing mode, a second submission on the same day changes nothing |
| GameViewModels.TestingSubmitsNeverWrite | Worldle/ViewModels/GameViewModel.swift:93 | in testing mode, repeated submissions never write the store and never mark the day played |
| GameViewModels.ToggleTwice | Worldle/ViewModels/GameViewModel.swift:102-116 | toggling twice restores the mode and the store, and leaves the flag equal to the store's value for today |
| GameViewModels.GameViewModel.constructor | Worldle/ViewModels/GameViewModel.swift:38-51 | a fresh state holding today's city, matching `InitialSession` |
| GameViewModels.GameViewModel.CalculateDistance | Worldle/ViewModels/GameViewModel.swift:62-73 | 0 without a selected coordinate; otherwise the geodesic from the target to the guess, in kilometres |
| GameViewModels.GameViewModel.UpdateSelectedCoordinate | Worldle/ViewModels/GameViewModel.swift:56-59 | the session becomes `SelectCoordinate` of the old one |
| GameViewModels.GameViewModel.SubmitGuess | Worldle/ViewModels/GameViewModel.swift:76-99 | the session becomes `Submit` of the old one, with the computed distance; when the guard passes, the recorded category is the one the scoring rules demand |
| GameViewModels.GameViewModel.ToggleTestingMode | Worldle/ViewModels/GameViewModel.swift:102-116 | the session becomes `ToggleTesting` of the old one |
| GameViewModels.GameViewModel.ResetGame | Worldle/ViewModels/GameViewModel.swift:119-130 | the session becomes `ResetGameSession` with the random city; in testing mode the new city is a catalog member |
| GameViewModels.GameViewModel.CheckIfPlayedToday | Worldle/ViewModels/GameViewModel.swift:134-142 | the session becomes `CheckPlayed` of the old one |
| GameViewModels.GameViewModel.MarkAsPlayedToday | Worldle/ViewModels/GameViewModel.swift:144-150 | the session becomes `MarkPlayed` of the old one |
| GameViewModels.GameViewModel.ResetForNewDay | Worldle/ViewModels/GameViewModel.swift:174-184 | the session becomes `NewDay` with today's daily city |
| GameViewModels.GameViewModel.SetShowResult | Worldle/ViewModels/GameViewModel.swift:20-23 | the session becomes `SetShowResultSession` of the old one |

## Left out

- **Views.** The SwiftUI, UIKit and MapKit views (globes, result sheet, target rings, share text) are rendering and gestures, with nothing to verify.
- **Reverse geocoding.** `CLGeocoder` is a foreign asynchronous network call. Its outcome is the `GeocodeOutcome` input. The error type `LocationServiceError` and its message are not modelled.
- **Distance.** `CLLocation.distance(from:)` is a library geodesic in floating point. It is the `distanceMeters` input.
- **Calendar.** `Calendar`, `Date` and `DateFormatter` are not modelled: the day difference, adding days, the base date and the date strings. They are the integer offset, the success flags, the `today` key and `format`. The model's day offset is the value of `calendar.dateComponents([.day], from: baseDate, to: date).day` (DailyCityService.swift:38), and two facts about that computation stay outside the model. First, the difference from local midnight of 2024-01-01 to a date with a time of day is truncated toward zero, so before the base date a date gets the offset of the following calendar day: 2023-12-31 at 10:00 gets offset 0, like 2024-01-01, and yesterday's city on 2024-01-01 is then today's city although the calendar succeeded. The properties about consecutive days hold for consecutive offsets, which is what every date from the base date on gets. Second, the `?? 0` fallback for a missing day component is not modelled: the offset is always given.
- **Concurrency.** The `Task`, `async` and `@MainActor` scheduling of a submission is not modelled. The geocoding result is available at once, and submission is one atomic step.
- **Store and logging.** `UserDefaults` is a map field. Debug printing, colours and the UI constants are not modelled.
- `getCityForToday`, `getNextCity`: these only delegate, to `CityFor` with today's offset and to `TomorrowsCity`. They have no member of their own.
- `DeterministicCityIndex`: does not model Swift's 64-bit `Int` overflow, including `abs(Int.min)`. It cannot happen for calendar day offsets, and Dafny integers are unbounded.
- `DetermineScoreCategory`: `CLLocationCoordinate2DIsValid` is modelled as the latitude and longitude range check. Distances and degrees are reals, so NaN comparisons are not modelled.
- `Lowercased`: only ASCII letters are folded. Swift's Unicode case mapping, for example of "SÃ£o Paulo", is not modelled.
- `TableContinent`, `EqualsIgnoringCase`, `CityEq`: strings are compared code point by code point. Swift's `String` equality and dictionary lookup use Unicode canonical equivalence (LocationService.swift:65, 70 and 165; City.swift:16-17), so a decomposed spelling of "São Tomé and Príncipe" is found in Swift and missed by the model.
- `CitySequence`: `days` is a natural number. A negative `days` makes Swift's range `0..<days` trap (DailyCityService.swift:86); that failure is not modelled.
- `CityCatalog.City`: the random `UUID` is a natural number. City equality never looks at it.
- `GameStates.GameState`: a Swift struct is copied on assignment. The class shares on assignment instead. The view model owns its only state object, so the model never creates an alias.
- `SnapshotsEqual`, `CoordinatesEqual`: they compare reals exactly. `Double`'s NaN, which is unequal to itself, is not modelled.
