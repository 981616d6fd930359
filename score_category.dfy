/**
 * The five score tiers of a guess and their display tables. The order of the
 * constructors is the declaration (and `CaseIterable`) order, from the
 * strictest tier to the loosest.
 */
module ScoreCategories {

  datatype ScoreCategory = Perfect | Excellent | SameCountry | SameContinent | Miss
  {
    /** Display title. */
    function Title(): string {
      match this
      case Perfect => "Perfect!"
      case Excellent => "Excellent!"
      case SameCountry => "Same Country"
      case SameContinent => "Same Continent"
      case Miss => "Miss"
    }

    /** Detailed description. */
    function Description(): string {
      match this
      case Perfect => "Within 15km"
      case Excellent => "Within 100km"
      case SameCountry => "Correct Country"
      case SameContinent => "Correct Continent"
      case Miss => "Wrong Continent"
    }

    /** Ring position on the target, in tenths (0.2 is 2, 1.0 is 10). */
    function RingPositionTenths(): int {
      match this
      case Perfect => 2
      case Excellent => 4
      case SameCountry => 6
      case SameContinent => 8
      case Miss => 10
    }

    /** Points awarded. */
    function Points(): int {
      match this
      case Perfect => 5000
      case Excellent => 3000
      case SameCountry => 1500
      case SameContinent => 500
      case Miss => 100
    }

    /** Emoji used when sharing. */
    function Emoji(): string {
      match this
      case Perfect => "🟢"
      case Excellent => "🔵"
      case SameCountry => "🟠"
      case SameContinent => "🟡"
      case Miss => "🔴"
    }

    /** Percentage shown when sharing. */
    function Percentage(): string {
      match this
      case Perfect => "100%"
      case Excellent => "80%"
      case SameCountry => "60%"
      case SameContinent => "40%"
      case Miss => "20%"
    }
  }

  /** `ScoreCategory.allCases`, in declaration order. */
  const AllCases: seq<ScoreCategory> := [Perfect, Excellent, SameCountry, SameContinent, Miss]

  /** Position of a category in `AllCases`: 0 for the strictest tier. */
  function Rank(c: ScoreCategory): (r: nat)
    ensures r < |AllCases| && AllCases[r] == c
  {
    match c
    case Perfect => 0
    case Excellent => 1
    case SameCountry => 2
    case SameContinent => 3
    case Miss => 4
  }

  /** There are exactly five categories, each listed once. */
  lemma AllCasesComplete(c: ScoreCategory)
    ensures |AllCases| == 5
    ensures c in AllCases
    ensures forall i, j :: 0 <= i < j < |AllCases| ==> AllCases[i] != AllCases[j]
  {
  }

  /** Stricter tiers are worth strictly more points, and every tier is worth something. */
  lemma PointsStrictlyDecreasing(a: ScoreCategory, b: ScoreCategory)
    ensures Rank(a) < Rank(b) ==> a.Points() > b.Points()
    ensures a.Points() > 0
  {
  }

  /** Stricter tiers sit strictly closer to the centre; every ring lies in (0, 1]. */
  lemma RingPositionsIncreasing(a: ScoreCategory, b: ScoreCategory)
    ensures Rank(a) < Rank(b) ==> a.RingPositionTenths() < b.RingPositionTenths()
    ensures 0 < a.RingPositionTenths() <= 10
  {
  }

  /** Decimal rendering of a natural number. */
  function DecimalString(n: nat): (r: string)
    ensures |r| > 0
    decreases n
  {
    var digit := ['0' + (n % 10) as char];
    if n < 10 then digit else DecimalString(n / 10) + digit
  }

  /** The percentage steps down by 20 per tier from 100%, and mirrors the ring position. */
  lemma PercentageStepsByTwenty(c: ScoreCategory)
    ensures c.Percentage() == DecimalString(100 - 20 * Rank(c)) + "%"
    ensures 100 - 20 * Rank(c) == 120 - 10 * c.RingPositionTenths()
  {
  }

  /** Distinct categories have distinct titles, descriptions, emoji and points. */
  lemma DisplayTablesInjective(a: ScoreCategory, b: ScoreCategory)
    ensures a.Title() == b.Title() ==> a == b
    ensures a.Description() == b.Description() ==> a == b
    ensures a.Emoji() == b.Emoji() ==> a == b
    ensures a.Points() == b.Points() ==> a == b
    ensures a.Percentage() == b.Percentage() ==> a == b
  {
  }
}
