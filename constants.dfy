/** The game configuration constants of the app. */
module Constants {
  /** Distance, in kilometres, up to which a guess is perfect. */
  const PerfectDistanceThreshold: real := 15.0
  /** Distance, in kilometres, up to which a guess is excellent. */
  const ExcellentDistanceThreshold: real := 100.0
  /** Constants of the daily selection hash `(d * Prime1 + Offset) * Prime2`. */
  const Prime1: int := 31
  const Prime2: int := 17
  const Offset: int := 7
  /** Prefix of the key under which "played on this date" is stored. */
  const PlayedKeyPrefix: string := "played_"
}
