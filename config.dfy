/** The tunable parameters of the recommendation algorithm
    (`RecommendationConfig`): nine factor weights, the score threshold, the number of
    recommendations, the recency window, a version tag and an activity flag. */
module RecommendationConfig {

  /** Every numeric field is a JS number: the schema bounds it but does not require a
      whole number. */
  datatype Config = Config(
    leagueWeight: real,
    compeWeight: real,
    teamWeight: real,
    timeWeight: real,
    dayWeight: real,
    recencyWeight: real,
    accuracyWeight: real,
    bettingTypeConsistencyWeight: real,
    oddsPreferenceWeight: real,
    minRecommendationScore: real,
    maxRecommendations: real,
    recencyDays: real,
    version: string,
    isActive: bool)

  predicate InRange(x: real, lo: real, hi: real) {
    lo <= x <= hi
  }

  /** The declared `min`/`max` bounds of every numeric field. */
  predicate Valid(c: Config) {
    && InRange(c.leagueWeight, 0.0, 100.0)
    && InRange(c.compeWeight, 0.0, 100.0)
    && InRange(c.teamWeight, 0.0, 100.0)
    && InRange(c.timeWeight, 0.0, 100.0)
    && InRange(c.dayWeight, 0.0, 100.0)
    && InRange(c.recencyWeight, 0.0, 100.0)
    && InRange(c.accuracyWeight, 0.0, 100.0)
    && InRange(c.bettingTypeConsistencyWeight, 0.0, 100.0)
    && InRange(c.oddsPreferenceWeight, 0.0, 100.0)
    && InRange(c.minRecommendationScore, 0.0, 100.0)
    && InRange(c.maxRecommendations, 1.0, 10.0)
    && InRange(c.recencyDays, 1.0, 30.0)
  }

  /** The declared default of every field. */
  const Default: Config := Config(
    leagueWeight := 30.0,
    compeWeight := 25.0,
    teamWeight := 25.0,
    timeWeight := 10.0,
    dayWeight := 10.0,
    recencyWeight := 10.0,
    accuracyWeight := 20.0,
    bettingTypeConsistencyWeight := 15.0,
    oddsPreferenceWeight := 10.0,
    minRecommendationScore := 20.0,
    maxRecommendations := 5.0,
    recencyDays := 7.0,
    version := "v1.1",
    isActive := true)

  /** The default record satisfies every declared range. */
  lemma DefaultIsValid()
    ensures Valid(Default)
  {
  }
}
