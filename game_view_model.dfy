/**
 * `GameViewModel`: the session around one game state. It owns the state,
 * reads and writes the "played on this date" flag in the key-value store,
 * guards submission, toggles testing mode and resets rounds.
 *
 * A `Session` is the game state together with the store. The functions on
 * sessions state what each operation does; the class's methods update the
 * state object and the store in place and are proved against them.
 * Today's date enters as its "yyyy-MM-dd" key string `today`, today's day
 * offset from the base date as `todayOffset`.
 */
module GameViewModels {
  import opened Wrappers
  import opened Coordinates
  import opened Constants
  import opened CityCatalog
  import opened ScoreCategories
  import opened DailyCityService
  import opened LocationService
  import opened GameStates

  /** The store key for a date key: `"played_\(today)"`. */
  function PlayedKey(today: string): (r: string)
    ensures |r| == |PlayedKeyPrefix| + |today|
    ensures r[..|PlayedKeyPrefix|] == PlayedKeyPrefix && r[|PlayedKeyPrefix|..] == today
  {
    PlayedKeyPrefix + today
  }

  /** Different dates have different store keys. */
  lemma PlayedKeyInjective(a: string, b: string)
    requires PlayedKey(a) == PlayedKey(b)
    ensures a == b
  {
    assert a == PlayedKey(a)[|PlayedKeyPrefix|..];
    assert b == PlayedKey(b)[|PlayedKeyPrefix|..];
  }

  /** `UserDefaults.bool(forKey:)`: the stored value, false for a key never written. */
  function StoredBool(store: map<string, bool>, key: string): (r: bool)
    ensures r <==> key in store && store[key]
    ensures key !in store ==> !r
  {
    if key in store then store[key] else false
  }

  /** The game state and the key-value store. */
  datatype Session = Session(game: GameSnapshot, store: map<string, bool>)

  /** Every reachable session: a consistent game state, never marked played in testing mode. */
  predicate SessionValid(s: Session) {
    Consistent(s.game) && (s.game.isTestingMode ==> !s.game.hasPlayedToday)
  }

  /** Outside testing mode the played flag is exactly what the store holds for `today`. */
  predicate InSync(s: Session, today: string) {
    !s.game.isTestingMode ==> (s.game.hasPlayedToday <==> StoredBool(s.store, PlayedKey(today)))
  }

  /**
   * `checkIfPlayedToday()`: in testing mode the flag is cleared, otherwise it
   * is read from the store; nothing else changes.
   */
  function CheckPlayed(s: Session, today: string): (r: Session)
    ensures r.store == s.store
    ensures r.game.(hasPlayedToday := s.game.hasPlayedToday) == s.game
    ensures r.game.isTestingMode ==> !r.game.hasPlayedToday
    ensures InSync(r, today)
    ensures Consistent(s.game) ==> SessionValid(r)
  {
    if s.game.isTestingMode then Session(s.game.(hasPlayedToday := false), s.store)
    else Session(s.game.(hasPlayedToday := StoredBool(s.store, PlayedKey(today))), s.store)
  }

  /**
   * `markAsPlayedToday()`: outside testing mode the store records today as
   * played and so does the state; in testing mode nothing changes.
   */
  function MarkPlayed(s: Session, today: string): (r: Session)
    ensures s.game.isTestingMode ==> r == s
    ensures !s.game.isTestingMode ==>
      && r.store == s.store[PlayedKey(today) := true]
      && r.game == s.game.(hasPlayedToday := true)
    ensures InSync(r, today)
    ensures SessionValid(s) ==> SessionValid(r)
  {
    if s.game.isTestingMode then s
    else Session(s.game.(hasPlayedToday := true), s.store[PlayedKey(today) := true])
  }

  /** The session as `init` leaves it: the initial state for `city`, then the played flag read. */
  function InitialSession(city: City, store: map<string, bool>, today: string): (r: Session)
    ensures Cleared(r.game, city) && !r.game.isTestingMode && r.store == store
    ensures r.game.hasPlayedToday == StoredBool(store, PlayedKey(today))
    ensures SessionValid(r) && InSync(r, today)
  {
    CheckPlayed(Session(InitialState(city), store), today)
  }

  /** `updateSelectedCoordinate(_:)`: the guess is replaced and the pin placed, whatever the state. */
  function SelectCoordinate(s: Session, c: Coordinate): (r: Session)
    ensures r.game.selectedCoordinate == Some(c) && r.game.isPinPlaced
    ensures r.game.(selectedCoordinate := s.game.selectedCoordinate, isPinPlaced := s.game.isPinPlaced) == s.game
    ensures r.store == s.store
    ensures SessionValid(s) ==> SessionValid(r)
  {
    Session(s.game.(selectedCoordinate := Some(c), isPinPlaced := true), s.store)
  }

  /**
   * `submitGuess()` once the awaited category is known: nothing happens when
   * today was already played or no coordinate is selected; otherwise the state
   * records the guess and, outside testing mode, the store records today as
   * played.
   */
  function Submit(s: Session, today: string, distance: real, category: ScoreCategory): (r: Session)
    ensures s.game.hasPlayedToday || s.game.selectedCoordinate.None? ==> r == s
    ensures !s.game.hasPlayedToday && s.game.selectedCoordinate.Some? ==>
      && r.game == AfterGuess(s.game, distance, category)
      && r.store == (if s.game.isTestingMode then s.store else s.store[PlayedKey(today) := true])
    ensures s.game.isTestingMode ==> r.store == s.store
    ensures SessionValid(s) ==> SessionValid(r)
  {
    if s.game.hasPlayedToday || s.game.selectedCoordinate.None? then s
    else
      var guessed := Session(AfterGuess(s.game, distance, category), s.store);
      if !guessed.game.isTestingMode then MarkPlayed(guessed, today) else guessed
  }

  /** `toggleTestingMode()`: the mode flips, the store is untouched and the played flag is re-read. */
  function ToggleTesting(s: Session, today: string): (r: Session)
    ensures r.game.isTestingMode == !s.game.isTestingMode
    ensures r.store == s.store
    ensures r.game.(isTestingMode := s.game.isTestingMode, hasPlayedToday := s.game.hasPlayedToday) == s.game
    ensures r.game.hasPlayedToday == (!r.game.isTestingMode && StoredBool(s.store, PlayedKey(today)))
    ensures Consistent(s.game) ==> SessionValid(r)
  {
    CheckPlayed(Session(s.game.(isTestingMode := !s.game.isTestingMode), s.store), today)
  }

  /** `resetGame()`: only in testing mode, a reset to `city`. */
  function ResetGameSession(s: Session, city: City): (r: Session)
    ensures !s.game.isTestingMode ==> r == s
    ensures s.game.isTestingMode ==> r == Session(ResetState(s.game, city), s.store)
    ensures SessionValid(s) ==> SessionValid(r)
  {
    if !s.game.isTestingMode then s else Session(ResetState(s.game, city), s.store)
  }

  /** `resetForNewDay()`: a reset to `city`, then the played flag read for `today`. */
  function NewDay(s: Session, city: City, today: string): (r: Session)
    ensures Cleared(r.game, city)
    ensures r.game.isTestingMode == s.game.isTestingMode && r.store == s.store
    ensures r.game.hasPlayedToday == (!s.game.isTestingMode && StoredBool(s.store, PlayedKey(today)))
    ensures SessionValid(r) && InSync(r, today)
  {
    CheckPlayed(Session(ResetState(s.game, city), s.store), today)
  }

  /** The `showResult` setter. */
  function SetShowResultSession(s: Session, value: bool): (r: Session)
    ensures r.game.showResult == value
    ensures r.game.(showResult := s.game.showResult) == s.game && r.store == s.store
    ensures SessionValid(s) ==> SessionValid(r)
  {
    Session(s.game.(showResult := value), s.store)
  }

  /** For a fixed date, every operation keeps the played flag in step with the store outside testing mode. */
  lemma OperationsKeepInSync(s: Session, today: string, c: Coordinate, distance: real,
                             category: ScoreCategory, city: City, value: bool)
    requires InSync(s, today)
    ensures InSync(SelectCoordinate(s, c), today)
    ensures InSync(MarkPlayed(s, today), today)
    ensures InSync(Submit(s, today, distance, category), today)
    ensures InSync(ToggleTesting(s, today), today)
    ensures InSync(ResetGameSession(s, city), today)
    ensures InSync(NewDay(s, city, today), today)
    ensures InSync(SetShowResultSession(s, value), today)
  {
    if !s.game.hasPlayedToday && s.game.selectedCoordinate.Some? && !s.game.isTestingMode {
      assert StoredBool(Submit(s, today, distance, category).store, PlayedKey(today));
    }
  }

  /** A second submission on the same day outside testing mode changes nothing. */
  lemma SecondSubmitIsNoOp(s: Session, today: string, d1: real, c1: ScoreCategory, d2: real, c2: ScoreCategory)
    requires !s.game.isTestingMode
    ensures Submit(Submit(s, today, d1, c1), today, d2, c2) == Submit(s, today, d1, c1)
  {
  }

  /** In testing mode any number of submissions leave the store as it was, and the day is never marked played. */
  lemma TestingSubmitsNeverWrite(s: Session, today: string, d1: real, c1: ScoreCategory, d2: real, c2: ScoreCategory)
    requires SessionValid(s) && s.game.isTestingMode
    ensures Submit(Submit(s, today, d1, c1), today, d2, c2).store == s.store
    ensures !Submit(Submit(s, today, d1, c1), today, d2, c2).game.hasPlayedToday
  {
  }

  /** Toggling twice restores the mode and the store, and leaves the played flag in step with the store. */
  lemma ToggleTwice(s: Session, today: string)
    ensures ToggleTesting(ToggleTesting(s, today), today).game.isTestingMode == s.game.isTestingMode
    ensures ToggleTesting(ToggleTesting(s, today), today).store == s.store
    ensures InSync(ToggleTesting(ToggleTesting(s, today), today), today)
  {
  }

  /** The view model: a game state it updates in place and a key-value store. */
  class GameViewModel {
    const state: GameState
    var store: map<string, bool>

    function Current(): Session
      reads this, state
    {
      Session(state.Snapshot(), store)
    }

    ghost predicate Valid()
      reads this, state
    {
      SessionValid(Current())
    }

    /** `init`: today's city, the initial state, then the played flag read from the store. */
    constructor (todayOffset: int, today: string, store: map<string, bool>)
      ensures fresh(state)
      ensures Current() == InitialSession(CityFor(todayOffset), store, today)
      ensures Valid()
    {
      var city := CityFor(todayOffset);
      state := new GameState.Initial(city);
      this.store := store;
      new;
      CheckIfPlayedToday(today);
    }

    /** `calculateDistance()`: 0 without a guess, otherwise the geodesic in metres over 1000. */
    function CalculateDistance(distanceMeters: (Coordinate, Coordinate) -> real): (r: real)
      reads state
      ensures state.selectedCoordinate.None? ==> r == 0.0
      ensures state.selectedCoordinate.Some? ==>
        r * 1000.0 == distanceMeters(state.currentCity.coordinate, state.selectedCoordinate.value)
    {
      match state.selectedCoordinate
      case None => 0.0
      case Some(selected) => distanceMeters(state.currentCity.coordinate, selected) / 1000.0
    }

    /** `updateSelectedCoordinate(_:)`. */
    method UpdateSelectedCoordinate(coordinate: Coordinate)
      modifies state
      ensures Current() == SelectCoordinate(old(Current()), coordinate)
      ensures old(Valid()) ==> Valid()
    {
      state.selectedCoordinate := Some(coordinate);
      state.isPinPlaced := true;
    }

    /**
     * `submitGuess()`, with the awaited score category computed from `geocode`,
     * the reverse geocoding of the guess, and the distance from `distanceMeters`.
     */
    method SubmitGuess(today: string, distanceMeters: (Coordinate, Coordinate) -> real, geocode: GeocodeOutcome)
      modifies this, state
      ensures Current() == Submit(old(Current()), today, old(CalculateDistance(distanceMeters)), state.scoreCategory)
      ensures !old(state.hasPlayedToday) && old(state.selectedCoordinate).Some? ==>
        Scored(state.scoreCategory, old(CalculateDistance(distanceMeters)),
               old(state.selectedCoordinate).value, old(state.currentCity), geocode)
      ensures old(Valid()) ==> Valid()
    {
      if state.hasPlayedToday || state.selectedCoordinate.None? {
        return;
      }
      var selectedCoordinate := state.selectedCoordinate.value;
      var distance := CalculateDistance(distanceMeters);
      var scoreCategory := DetermineScoreCategory(distance, selectedCoordinate, state.currentCity, geocode);
      state.UpdateAfterGuess(distance, scoreCategory);
      if !state.isTestingMode {
        MarkAsPlayedToday(today);
      }
    }

    /** `toggleTestingMode()`. */
    method ToggleTestingMode(today: string)
      modifies state
      ensures Current() == ToggleTesting(old(Current()), today)
      ensures old(Consistent(state.Snapshot())) ==> Valid()
    {
      state.isTestingMode := !state.isTestingMode;
      CheckIfPlayedToday(today);
    }

    /**
     * `resetGame()`: only in testing mode, a reset to the random city; `drawn`
     * is the index the random draw produced, if any.
     */
    method ResetGame(drawn: Option<nat>)
      modifies state
      ensures Current() == ResetGameSession(old(Current()), RandomCity(drawn))
      ensures state.isTestingMode ==> state.currentCity in SampleCities
      ensures old(Valid()) ==> Valid()
    {
      if !state.isTestingMode {
        return;
      }
      var newCity := RandomCity(drawn);
      state.Reset(newCity);
    }

    /** `checkIfPlayedToday()`. */
    method CheckIfPlayedToday(today: string)
      modifies state
      ensures Current() == CheckPlayed(old(Current()), today)
    {
      if state.isTestingMode {
        state.hasPlayedToday := false;
        return;
      }
      state.hasPlayedToday := StoredBool(store, PlayedKey(today));
    }

    /** `markAsPlayedToday()`. */
    method MarkAsPlayedToday(today: string)
      modifies this, state
      ensures Current() == MarkPlayed(old(Current()), today)
    {
      if state.isTestingMode {
        return;
      }
      store := store[PlayedKey(today) := true];
      state.hasPlayedToday := true;
    }

    /** `resetForNewDay()`: today's daily city, a reset, then the played flag read. */
    method ResetForNewDay(todayOffset: int, today: string)
      modifies state
      ensures Current() == NewDay(old(Current()), CityFor(todayOffset), today)
      ensures Valid()
    {
      var newCity := CityFor(todayOffset);
      state.Reset(newCity);
      CheckIfPlayedToday(today);
    }

    /** The `showResult` setter. */
    method SetShowResult(value: bool)
      modifies state
      ensures Current() == SetShowResultSession(old(Current()), value)
      ensures old(Valid()) ==> Valid()
    {
      state.showResult := value;
    }
  }
}
