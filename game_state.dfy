/**
 * `GameState`: the state of one round. The Swift struct is a value whose
 * `mutating` functions assign its fields one by one; here the class
 * `GameState` holds those fields and its methods assign them in place, and
 * the datatype `GameSnapshot` is the value of all nine fields at one moment.
 * The transitions on snapshots (`InitialState`, `ResetState`, `AfterGuess`) specify the
 * methods, and the lemmas about the game are stated on them.
 */
module GameStates {
  import opened Wrappers
  import opened Coordinates
  import opened CityCatalog
  import opened ScoreCategories

  /** The value of every field of a game state. */
  datatype GameSnapshot = GameSnapshot(
    currentCity: City,
    selectedCoordinate: Option<Coordinate>,
    isPinPlaced: bool,
    showResult: bool,
    distance: real,
    score: int,
    scoreCategory: ScoreCategory,
    hasPlayedToday: bool,
    isTestingMode: bool)

  /**
   * Nothing has been guessed for `city`: no coordinate, no pin, no result,
   * zero distance and score, and the `Miss` category.
   */
  predicate Cleared(s: GameSnapshot, city: City) {
    && s.currentCity == city
    && s.selectedCoordinate.None?
    && !s.isPinPlaced
    && !s.showResult
    && s.distance == 0.0
    && s.score == 0
    && s.scoreCategory == Miss
  }

  /**
   * The consistency every reachable state keeps: the pin is placed exactly
   * when a coordinate is selected, and the score is either the points of the
   * category or the cleared zero score.
   */
  predicate Consistent(s: GameSnapshot) {
    && (s.isPinPlaced <==> s.selectedCoordinate.Some?)
    && (s.score == s.scoreCategory.Points() || (s.score == 0 && s.scoreCategory == Miss && s.distance == 0.0))
  }

  /** `GameState.initial(with:)`: the defaults of every stored property. */
  function InitialState(city: City): (r: GameSnapshot)
    ensures Cleared(r, city)
    ensures !r.hasPlayedToday && !r.isTestingMode
    ensures Consistent(r)
  {
    GameSnapshot(city, None, false, false, 0.0, 0, Miss, false, false)
  }

  /** `reset(with:)`: a cleared state for the new city; the played flag survives only in testing mode. */
  function ResetState(s: GameSnapshot, city: City): (r: GameSnapshot)
    ensures Cleared(r, city)
    ensures r.isTestingMode == s.isTestingMode
    ensures r.hasPlayedToday == (s.isTestingMode && s.hasPlayedToday)
    ensures Consistent(r)
  {
    s.(currentCity := city, selectedCoordinate := None, isPinPlaced := false, showResult := false,
       distance := 0.0, score := 0, scoreCategory := Miss,
       hasPlayedToday := if s.isTestingMode then s.hasPlayedToday else false)
  }

  /**
   * `updateAfterGuess(distance:scoreCategory:)`: the result is shown and
   * scored with the category's points; the played flag is raised only
   * outside testing mode.
   */
  function AfterGuess(s: GameSnapshot, distance: real, category: ScoreCategory): (r: GameSnapshot)
    ensures r.distance == distance && r.scoreCategory == category
    ensures r.score == category.Points() && r.showResult
    ensures r.hasPlayedToday == (!s.isTestingMode || s.hasPlayedToday)
    ensures r.currentCity == s.currentCity && r.selectedCoordinate == s.selectedCoordinate
    ensures r.isPinPlaced == s.isPinPlaced && r.isTestingMode == s.isTestingMode
    ensures Consistent(s) ==> Consistent(r)
  {
    s.(distance := distance, scoreCategory := category, score := category.Points(), showResult := true,
       hasPlayedToday := if !s.isTestingMode then true else s.hasPlayedToday)
  }

  /** `coordinatesEqual`: both absent, or both present with equal latitude and longitude. */
  function CoordinatesEqual(a: Option<Coordinate>, b: Option<Coordinate>): (r: bool)
    ensures r <==> a == b
  {
    match (a, b)
    case (None, None) => true
    case (Some(x), Some(y)) => x.latitude == y.latitude && x.longitude == y.longitude
    case _ => false
  }

  /**
   * The custom `==` of `GameState`: every field, with the cities compared by
   * city equality and the coordinates by `CoordinatesEqual`.
   */
  function SnapshotsEqual(a: GameSnapshot, b: GameSnapshot): (r: bool)
    ensures r <==> CityEq(a.currentCity, b.currentCity) && a.(currentCity := b.currentCity) == b
  {
    && CityEq(a.currentCity, b.currentCity)
    && a.isPinPlaced == b.isPinPlaced
    && a.showResult == b.showResult
    && a.distance == b.distance
    && a.score == b.score
    && a.scoreCategory == b.scoreCategory
    && a.hasPlayedToday == b.hasPlayedToday
    && a.isTestingMode == b.isTestingMode
    && CoordinatesEqual(a.selectedCoordinate, b.selectedCoordinate)
  }

  /** State equality is an equivalence relation. */
  lemma SnapshotsEqualIsEquivalence(a: GameSnapshot, b: GameSnapshot, c: GameSnapshot)
    ensures SnapshotsEqual(a, a)
    ensures SnapshotsEqual(a, b) <==> SnapshotsEqual(b, a)
    ensures SnapshotsEqual(a, b) && SnapshotsEqual(b, c) ==> SnapshotsEqual(a, c)
  {
    CityEqProperties(a.currentCity, b.currentCity, c.currentCity, 0, "");
  }

  /** Resetting twice to the same city is resetting once. */
  lemma ResetIsIdempotent(s: GameSnapshot, city: City)
    ensures ResetState(ResetState(s, city), city) == ResetState(s, city)
  {
  }

  /** Outside testing mode a reset forgets the previous round entirely: only the mode is kept. */
  lemma ResetOutsideTestingForgetsRound(s: GameSnapshot, t: GameSnapshot, city: City)
    requires !s.isTestingMode && !t.isTestingMode
    ensures ResetState(s, city) == ResetState(t, city) == InitialState(city)
  {
  }

  /** A guess then a reset outside testing mode leaves the day unplayed; in testing mode the flag is unchanged. */
  lemma GuessThenReset(s: GameSnapshot, distance: real, category: ScoreCategory, city: City)
    ensures !s.isTestingMode ==> !ResetState(AfterGuess(s, distance, category), city).hasPlayedToday
    ensures s.isTestingMode ==> ResetState(AfterGuess(s, distance, category), city).hasPlayedToday == s.hasPlayedToday
  {
  }

  /** A mutable game state: the fields of the Swift struct, assigned in place. */
  class GameState {
    var currentCity: City
    var selectedCoordinate: Option<Coordinate>
    var isPinPlaced: bool
    var showResult: bool
    var distance: real
    var score: int
    var scoreCategory: ScoreCategory
    var hasPlayedToday: bool
    var isTestingMode: bool

    /** The current value of all fields. */
    function Snapshot(): GameSnapshot
      reads this
    {
      GameSnapshot(currentCity, selectedCoordinate, isPinPlaced, showResult, distance, score,
                   scoreCategory, hasPlayedToday, isTestingMode)
    }

    ghost predicate Valid()
      reads this
    {
      Consistent(Snapshot())
    }

    /** `GameState.initial(with:)`. */
    constructor Initial(city: City)
      ensures Snapshot() == InitialState(city)
      ensures Valid()
    {
      currentCity := city;
      selectedCoordinate := None;
      isPinPlaced := false;
      showResult := false;
      distance := 0.0;
      score := 0;
      scoreCategory := Miss;
      hasPlayedToday := false;
      isTestingMode := false;
    }

    /** `reset(with:)`, field by field. */
    method Reset(city: City)
      modifies this
      ensures Snapshot() == ResetState(old(Snapshot()), city)
      ensures Valid()
    {
      currentCity := city;
      selectedCoordinate := None;
      isPinPlaced := false;
      showResult := false;
      distance := 0.0;
      score := 0;
      scoreCategory := Miss;
      if !isTestingMode {
        hasPlayedToday := false;
      }
    }

    /** `updateAfterGuess(distance:scoreCategory:)`, field by field. */
    method UpdateAfterGuess(distance: real, scoreCategory: ScoreCategory)
      modifies this
      ensures Snapshot() == AfterGuess(old(Snapshot()), distance, scoreCategory)
      ensures old(Valid()) ==> Valid()
    {
      this.distance := distance;
      this.scoreCategory := scoreCategory;
      this.score := scoreCategory.Points();
      this.showResult := true;
      if !isTestingMode {
        this.hasPlayedToday := true;
      }
    }
  }
}
