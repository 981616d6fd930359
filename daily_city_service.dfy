/**
 * Deterministic daily city selection. A date is given by its day offset from
 * the base date 2024-01-01, the number the calendar's day difference yields;
 * the calendar computations themselves are inputs, so every property here is
 * about offsets (see README for how the calendar maps dates to offsets).
 */
module DailyCityService {
  import opened Wrappers
  import opened Constants
  import opened CityCatalog

  function Abs(x: int): (r: nat)
    ensures r == x || r == -x
  {
    if x < 0 then -x else x
  }

  /** The hash of a day number. Swift's `Int` overflow is not modelled (see README). */
  function Hash(dayNumber: int): int {
    (dayNumber * Prime1 + Offset) * Prime2
  }

  /**
   * `deterministicCityIndex(for:)`: `abs(hash) % count`. Both operands are
   * non-negative, so Swift's truncating `%` and Dafny's `%` agree.
   */
  function DeterministicCityIndex(dayNumber: int, count: int): (r: int)
    requires count > 0
    ensures 0 <= r < count
  {
    Abs(Hash(dayNumber)) % count
  }

  /** `getCityFor(date:)`, with the date given as its day offset from the base date. */
  function CityFor(daysSinceBase: int): (r: City)
    ensures r == SampleCities[DeterministicCityIndex(daysSinceBase, |SampleCities|)]
  {
    var cities := SampleCities;
    ExtraModuloIsNoOp(daysSinceBase, |cities|);
    cities[DeterministicCityIndex(daysSinceBase, |cities|) % |cities|]
  }

  /** The daily city is always a catalog member. */
  lemma CityForInCatalog(daysSinceBase: int)
    ensures CityFor(daysSinceBase) in SampleCities
  {
  }

  /** The second `% cities.count` in `getCityFor` never changes the index. */
  lemma ExtraModuloIsNoOp(daysSinceBase: int, count: int)
    requires count > 0
    ensures DeterministicCityIndex(daysSinceBase, count) % count == DeterministicCityIndex(daysSinceBase, count)
  {
    SmallModulo(DeterministicCityIndex(daysSinceBase, count), count);
  }

  lemma SmallModulo(x: int, n: int)
    requires 0 <= x < n
    ensures x % n == x
  {
  }

  /** The base date itself: hash 119, index 119 % 24 = 23, which is Ushuaia. */
  lemma BaseDateIsUshuaia()
    ensures Hash(0) == 119
    ensures DeterministicCityIndex(0, |SampleCities|) == 23
    ensures CityFor(0).name == "Ushuaia"
  {
  }

  /** `Hash(d)` splits into a multiple of 24 and `23 - d`. */
  lemma HashModulo24(d: int)
    ensures Hash(d) == 24 * (22 * d + 4) + (23 - d)
  {
  }

  /** `(24 * q + r) % 24 == r % 24` */
  lemma ModuloDropsMultiple(q: int, r: int)
    ensures (24 * q + r) % 24 == r % 24
  {
    var k := r % 24;
    assert r == 24 * (r / 24) + k;
    assert 24 * q + r == 24 * (q + r / 24) + k;
  }

  /**
   * Closed form of the daily index over the 24-city catalog: from the base
   * date on it walks the catalog backwards one entry per day, and before the
   * base date it walks it forwards.
   */
  lemma IndexClosedForm(d: int)
    ensures d >= 0 ==> DeterministicCityIndex(d, 24) == (23 - d) % 24
    ensures d < 0 ==> DeterministicCityIndex(d, 24) == (d + 1) % 24
  {
    HashModulo24(d);
    if d >= 0 {
      assert Abs(Hash(d)) == Hash(d);
      ModuloDropsMultiple(22 * d + 4, 23 - d);
    } else {
      assert Abs(Hash(d)) == 24 * (-22 * d - 5) + (d + 1);
      ModuloDropsMultiple(-22 * d - 5, d + 1);
    }
  }

  /** Two consecutive offsets never get the same city. */
  lemma ConsecutiveDaysDiffer(d: int)
    ensures !CityEq(CityFor(d), CityFor(d + 1))
  {
    CatalogSize();
    IndexClosedForm(d);
    IndexClosedForm(d + 1);
    var i, j := DeterministicCityIndex(d, 24), DeterministicCityIndex(d + 1, 24);
    if d >= 0 {
      assert (23 - d) == 24 * ((23 - d) / 24) + i;
      assert (22 - d) == 24 * ((22 - d) / 24) + j;
    } else if d == -1 {
      assert i == 0 && j == 23;
    } else {
      assert (d + 1) == 24 * ((d + 1) / 24) + i;
      assert (d + 2) == 24 * ((d + 2) / 24) + j;
    }
    assert i != j;
    CatalogDistinct(i, j);
  }

  /** The daily city repeats with a period of 24 offsets on either side of offset 0. */
  lemma TwentyFourDayCycle(d: int)
    requires d >= 0 || d + 24 < 0
    ensures CityFor(d + 24) == CityFor(d)
  {
    CatalogSize();
    IndexClosedForm(d);
    IndexClosedForm(d + 24);
    if d >= 0 {
      ModuloDropsMultiple(-1, 23 - d);
    } else {
      ModuloDropsMultiple(1, d + 1);
    }
  }

  /** From offset 0 on, every catalog city is the daily city once in every 24 consecutive offsets. */
  lemma EveryCityWithin24Days(d: int, i: nat) returns (k: int)
    requires d >= 0 && i < |SampleCities|
    ensures d <= k < d + 24
    ensures CityFor(k) == SampleCities[i]
  {
    CatalogSize();
    var q, m := (23 - d - i) / 24, (23 - d - i) % 24;
    assert 23 - d - i == 24 * q + m;
    k := d + m;
    assert 23 - k == 24 * q + i;
    IndexClosedForm(k);
    ModuloDropsMultiple(q, i);
    assert DeterministicCityIndex(k, 24) == i;
  }

  /**
   * `getTomorrowsCity()`: the city of the next offset, or today's city when
   * adding a day to the current date fails (`dateAdded` is false).
   */
  function TomorrowsCity(today: int, dateAdded: bool): (r: City)
    ensures r == CityFor(if dateAdded then today + 1 else today)
    ensures dateAdded <==> !CityEq(r, CityFor(today))
  {
    ConsecutiveDaysDiffer(today);
    if dateAdded then CityFor(today + 1) else CityFor(today)
  }

  /**
   * `getYesterdaysCity()`: the city of the previous offset, or today's city
   * when subtracting a day from the current date fails.
   */
  function YesterdaysCity(today: int, dateAdded: bool): (r: City)
    ensures r == CityFor(if dateAdded then today - 1 else today)
    ensures dateAdded <==> !CityEq(r, CityFor(today))
  {
    ConsecutiveDaysDiffer(today - 1);
    if dateAdded then CityFor(today - 1) else CityFor(today)
  }

  /**
   * `getRandomCity()`: `randomElement() ?? cities[0]`. The random generator is
   * the input `drawn`, the index it picks (None when it picks nothing).
   */
  function RandomCity(drawn: Option<nat>): (r: City)
    ensures r in SampleCities
    ensures drawn.Some? && drawn.value < |SampleCities| ==> r == SampleCities[drawn.value]
  {
    var cities := SampleCities;
    if drawn.Some? && drawn.value < |cities| then cities[drawn.value] else cities[0]
  }

  /** One entry of `getCitySequence`: the formatted date and the city's name. */
  datatype SequenceEntry = SequenceEntry(date: string, city: string)

  /** The entry for day today + i: that date as `format` renders it and the name of its city. */
  function EntryFor(today: int, format: int -> string): int -> SequenceEntry {
    i => SequenceEntry(format(today + i), CityFor(today + i).name)
  }

  /**
   * What a loop over `0..<days` collects: in order, `entry(i)` for each i
   * whose date the calendar could build (`dateAdded(i)`).
   */
  function Collected(days: nat, dateAdded: int -> bool, entry: int -> SequenceEntry): (r: seq<SequenceEntry>)
    ensures |r| <= days
    decreases days
  {
    if days == 0 then []
    else
      var i := days - 1;
      Collected(i, dateAdded, entry) + (if dateAdded(i) then [entry(i)] else [])
  }

  /** When the calendar never fails, there is one entry per day, entry i being day i's. */
  lemma {:induction false} CollectedWhenCalendarSucceeds(days: nat, dateAdded: int -> bool, entry: int -> SequenceEntry)
    requires forall i :: 0 <= i < days ==> dateAdded(i)
    ensures |Collected(days, dateAdded, entry)| == days
    ensures forall i :: 0 <= i < days ==> Collected(days, dateAdded, entry)[i] == entry(i)
  {
    if days > 0 {
      CollectedWhenCalendarSucceeds(days - 1, dateAdded, entry);
    }
  }

  /** `getCitySequence(days:)`; a negative `days` traps in Swift's `0..<days`. */
  method CitySequence(today: int, days: nat, dateAdded: int -> bool, format: int -> string)
    returns (sequence: seq<SequenceEntry>)
    ensures sequence == Collected(days, dateAdded, EntryFor(today, format))
    ensures (forall i :: 0 <= i < days ==> dateAdded(i)) ==>
      |sequence| == days
      && forall i :: 0 <= i < days ==> sequence[i] == EntryFor(today, format)(i)
  {
    sequence := [];
    for i := 0 to days
      invariant sequence == Collected(i, dateAdded, EntryFor(today, format))
    {
      if !dateAdded(i) {
        continue;
      }
      var entry := EntryFor(today, format)(i);
      sequence := sequence + [entry];
    }
    if forall i :: 0 <= i < days ==> dateAdded(i) {
      CollectedWhenCalendarSucceeds(days, dateAdded, EntryFor(today, format));
    }
  }
}
