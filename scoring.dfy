/** Scoring of candidate games against a user's pattern: six capped factors, a
    recency bonus, a confidence clamped to 100, a reason text, the recommended wager
    side, and the filter that keeps games scoring strictly above the threshold. */
module Scoring {
  import opened Domain
  import opened Tallies
  import opened Strings
  import opened PatternAnalysis
  import RecommendationConfig

  /** The constants of the scoring rule: the caps of the league, sport, home-team,
      away-team, time-slot and weekday factors, the recency bonus and its window in
      days, the score a game must exceed, and how many games are returned. */
  datatype Weights = Weights(
    league: real,
    compe: real,
    homeTeam: real,
    awayTeam: real,
    time: real,
    day: real,
    recency: real,
    recencyDays: real,
    minScore: real,
    top: int)

  /** The constants written into the scoring code. */
  const Shown: Weights := Weights(30.0, 25.0, 15.0, 10.0, 10.0, 10.0, 10.0, 7.0, 20.0, 5)

  /** Caps that are never negative. */
  predicate WeightsOk(w: Weights) {
    && 0.0 <= w.league && 0.0 <= w.compe && 0.0 <= w.homeTeam && 0.0 <= w.awayTeam
    && 0.0 <= w.time && 0.0 <= w.day && 0.0 <= w.recency
  }

  /** Reads the scoring constants from a configuration record; the team weight is
      split 3 : 2 between the home and the away team, as in the code (15 + 10 of 25). */
  function WeightsOf(c: RecommendationConfig.Config): Weights {
    Weights(c.leagueWeight, c.compeWeight,
            c.teamWeight * 0.6, c.teamWeight * 0.4,
            c.timeWeight, c.dayWeight, c.recencyWeight,
            c.recencyDays, c.minRecommendationScore, c.maxRecommendations.Floor)
  }

  /** The default configuration reproduces the constants of the code, and those caps
      are non-negative. */
  lemma DefaultConfigIsShown()
    ensures WeightsOf(RecommendationConfig.Default) == Shown
    ensures WeightsOk(Shown)
  {
  }

  /** Every configuration within its declared ranges yields non-negative caps, a
      threshold within [0, 100] and between 1 and 10 recommendations. */
  lemma ValidConfigWeights(c: RecommendationConfig.Config)
    requires RecommendationConfig.Valid(c)
    ensures WeightsOk(WeightsOf(c))
    ensures 0.0 <= WeightsOf(c).minScore <= 100.0 && 1 <= WeightsOf(c).top <= 10
  {
  }

  // ---------------------------------------------------------------------------
  // Factors.

  function Lookup<V>(t: Tally<V>, k: string): Option<V> {
    if k in t.vals then Some(t.vals[k]) else None
  }

  function Min(a: real, b: real): real {
    if a <= b then a else b
  }

  /** `x || d` on an optional string: a missing or empty string falls back to `d`. */
  function OrElse(o: Option<string>, d: string): string {
    if o.Some? && o.value != "" then o.value else d
  }

  /** League factor: share of receipts times the cap, plus 5 per recent selection, capped. */
  function LeagueFactor(w: Weights, e: Option<Entry>, n: nat): real
    requires n > 0
  {
    match e
    case None => 0.0
    case Some(d) => Min(w.league, (d.count as real / n as real) * w.league + d.recentCount as real * 5.0)
  }

  /** Sport factor: as the league factor, with 4 per recent selection. */
  function CompeFactor(w: Weights, e: Option<Entry>, n: nat): real
    requires n > 0
  {
    match e
    case None => 0.0
    case Some(d) => Min(w.compe, (d.count as real / n as real) * w.compe + d.recentCount as real * 4.0)
  }

  /** Team factor: 3 per selection plus 2 per recent selection, capped. */
  function TeamFactor(cap: real, e: Option<TeamEntry>): real {
    match e
    case None => 0.0
    case Some(d) => Min(cap, d.count as real * 3.0 + d.recentCount as real * 2.0)
  }

  /** Time-slot and weekday factor: 2 per game seen at that slot, capped. */
  function PreferenceFactor(cap: real, n: nat): real {
    if n > 0 then Min(cap, n as real * 2.0) else 0.0
  }

  /** The start of the recency window: `recencyDays` days before `now`. */
  function RecencyCutoff(w: Weights, now: int): real {
    now as real - w.recencyDays * DayMs as real
  }

  /** Some receipt created at or after `cutoff` holds a game of `league`. */
  predicate RecentSameLeague(rs: seq<Receipt>, cutoff: real, league: string) {
    exists i, j :: 0 <= i < |rs| && rs[i].createdAt as real >= cutoff && 0 <= j < |rs[i].selectedGames|
                   && rs[i].selectedGames[j].leagueName == league
  }

  datatype Factors = Factors(league: real, compe: real, home: real, away: real, time: real, day: real, recency: real)

  function FactorsOf(w: Weights, p: UserPattern, g: GameInfo, rs: seq<Receipt>, now: int, weekday: string -> string): Factors
    requires |rs| > 0
  {
    Factors(
      LeagueFactor(w, Lookup(p.leagues, g.leagueName), |rs|),
      CompeFactor(w, Lookup(p.compes, g.compe), |rs|),
      TeamFactor(w.homeTeam, Lookup(p.teams, g.homeTeamName)),
      TeamFactor(w.awayTeam, Lookup(p.teams, g.awayTeamName)),
      PreferenceFactor(w.time, p.timePreferences.GetOr(g.matchTime, 0)),
      PreferenceFactor(w.day, p.dayPreferences.GetOr(weekday(g.matchDate), 0)),
      if RecentSameLeague(rs, RecencyCutoff(w, now), g.leagueName) then w.recency else 0.0)
  }

  function Score(f: Factors): real {
    f.league + f.compe + f.home + f.away + f.time + f.day + f.recency
  }

  /** Every factor lies between 0 and its cap, the recency bonus is all or nothing, and
      the bonus is granted exactly when a receipt inside the window holds a game of the
      same league. */
  lemma FactorBounds(w: Weights, p: UserPattern, g: GameInfo, rs: seq<Receipt>, now: int, weekday: string -> string)
    requires WeightsOk(w) && |rs| > 0
    ensures var f := FactorsOf(w, p, g, rs, now, weekday);
      && 0.0 <= f.league <= w.league && 0.0 <= f.compe <= w.compe
      && 0.0 <= f.home <= w.homeTeam && 0.0 <= f.away <= w.awayTeam
      && 0.0 <= f.time <= w.time && 0.0 <= f.day <= w.day
      && (w.recency != 0.0 ==> (f.recency == w.recency <==> RecentSameLeague(rs, RecencyCutoff(w, now), g.leagueName)))
      && (f.recency == 0.0 || f.recency == w.recency)
      && 0.0 <= Score(f) <= w.league + w.compe + w.homeTeam + w.awayTeam + w.time + w.day + w.recency
  {
    var e := Lookup(p.leagues, g.leagueName);
    if e.Some? {
      var share := e.value.count as real / |rs| as real;
      assert 0.0 <= share;
      assert 0.0 <= share * w.league;
    }
    var c := Lookup(p.compes, g.compe);
    if c.Some? {
      var share := c.value.count as real / |rs| as real;
      assert 0.0 <= share;
      assert 0.0 <= share * w.compe;
    }
  }

  /** `min(100, Math.round(score))`: at most 100, and otherwise the integer nearest to
      the score; never negative for a non-negative score. */
  function Confidence(score: real): (c: int)
    ensures c <= 100
    ensures c == 100 || (c as real - 0.5 <= score < c as real + 0.5)
    ensures 0.0 <= score ==> 0 <= c
    ensures c < 100 <==> score < 99.5
  {
    var r := Round(score);
    if r < 100 then r else 100
  }

  // ---------------------------------------------------------------------------
  // Reasons.

  const NewGameReason: string := "새로운 경기입니다"
  const RecentLeagueReason: string := "최근 관심을 보인 리그입니다"

  function LeagueReason(league: string, count: nat): string {
    league + " 리그를 " + NatToString(count) + "회 선택하셨습니다"
  }

  function CompeReason(compe: string): string {
    "최근 " + compe + " 경기를 자주 선택하셨습니다"
  }

  function TeamReason(team: string): string {
    team + "을(를) 좋아하시는 것 같습니다"
  }

  function TimeReason(time: string): string {
    time + " 시간대 경기를 선호하십니다"
  }

  /** The reason clauses in the order the factors are scored: a league chosen more than
      3 times, a sport chosen recently more than twice, a home or away team chosen more
      than twice, a time slot seen more than 3 times, and the recency bonus. */
  function Reasons(w: Weights, p: UserPattern, g: GameInfo, rs: seq<Receipt>, now: int): seq<string> {
    var league := Lookup(p.leagues, g.leagueName);
    var compe := Lookup(p.compes, g.compe);
    var home := Lookup(p.teams, g.homeTeamName);
    var away := Lookup(p.teams, g.awayTeamName);
    var timeCount := p.timePreferences.GetOr(g.matchTime, 0);
    (if league.Some? && league.value.count > 3 then [LeagueReason(g.leagueName, league.value.count)] else [])
    + (if compe.Some? && compe.value.recentCount > 2 then [CompeReason(g.compe)] else [])
    + (if home.Some? && home.value.count > 2 then [TeamReason(g.homeTeamName)] else [])
    + (if away.Some? && away.value.count > 2 then [TeamReason(g.awayTeamName)] else [])
    + (if timeCount > 3 then [TimeReason(g.matchTime)] else [])
    + (if RecentSameLeague(rs, RecencyCutoff(w, now), g.leagueName) then [RecentLeagueReason] else [])
  }

  /** The clauses joined with `, `, or the new-game text when the join is empty. */
  function ReasonText(reasons: seq<string>): string {
    var joined := Join(reasons, ", ");
    if joined == "" then NewGameReason else joined
  }

  lemma {:induction false} JoinNonEmpty(ss: seq<string>, sep: string)
    requires ss != [] && ss[0] != ""
    ensures Join(ss, sep) != ""
  {
    if |ss| > 1 {
      assert Join(ss, sep) == ss[0] + sep + Join(ss[1..], sep);
      assert Join(ss, sep)[0] == ss[0][0];
    }
  }

  /** The reason text is the new-game text exactly when no clause applies; otherwise it
      is the clauses joined with `, `. */
  lemma ReasonTextMeaning(w: Weights, p: UserPattern, g: GameInfo, rs: seq<Receipt>, now: int)
    ensures var reasons := Reasons(w, p, g, rs, now);
      ReasonText(reasons) == if reasons == [] then NewGameReason else Join(reasons, ", ")
  {
    var reasons := Reasons(w, p, g, rs, now);
    if reasons != [] {
      assert forall i :: 0 <= i < |reasons| ==> |reasons[i]| > 0;
      JoinNonEmpty(reasons, ", ");
    }
  }

  /** No clause applies exactly when no league, sport, team or time-slot threshold is
      passed and no recency bonus is given. */
  lemma NoReasonIff(w: Weights, p: UserPattern, g: GameInfo, rs: seq<Receipt>, now: int)
    ensures Reasons(w, p, g, rs, now) == [] <==>
      && !(g.leagueName in p.leagues.vals && p.leagues.vals[g.leagueName].count > 3)
      && !(g.compe in p.compes.vals && p.compes.vals[g.compe].recentCount > 2)
      && !(g.homeTeamName in p.teams.vals && p.teams.vals[g.homeTeamName].count > 2)
      && !(g.awayTeamName in p.teams.vals && p.teams.vals[g.awayTeamName].count > 2)
      && p.timePreferences.GetOr(g.matchTime, 0) <= 3
      && !RecentSameLeague(rs, RecencyCutoff(w, now), g.leagueName)
  {
  }

  // ---------------------------------------------------------------------------
  // Recommended wager side.

  /** The user's dominant betting type: strict-maximum scan, `home` when none. */
  function PreferredType(p: UserPattern): string {
    Favourite(p.bettingTypes, EntryCount, "home")
  }

  /** A parsed number (`None` stands for NaN) strictly below zero. */
  predicate Negative(x: Option<real>) {
    x.Some? && x.value < 0.0
  }

  /** Both odds parsed, and the home odds strictly higher. */
  predicate HomeHigher(home: Option<real>, away: Option<real>) {
    home.Some? && away.Some? && home.value > away.value
  }

  function RecommendedType(g: GameInfo, p: UserPattern, parse: string -> Option<real>): string {
    var preferred := PreferredType(p);
    if Contains(preferred, "handicap") then
      if Negative(parse(OrElse(g.handicapScore, "0"))) then "handicap_home" else "handicap_away"
    else if preferred == "draw" then "draw"
    else if HomeHigher(parse(OrElse(g.homeBetRt, "1")), parse(OrElse(g.awayBetRt, "1"))) then "home"
    else "away"
  }

  /** The running-maximum loop of the source over the betting-type tally, then the
      handicap, draw and odds rules. */
  method DetermineRecommendedBettingType(g: GameInfo, p: UserPattern, parse: string -> Option<real>) returns (t: string)
    ensures t == RecommendedType(g, p, parse)
  {
    var preferredType := FindFavourite(p.bettingTypes, EntryCount, "home");
    if Contains(preferredType, "handicap") {
      var handicap := parse(OrElse(g.handicapScore, "0"));
      t := if handicap.Some? && handicap.value < 0.0 then "handicap_home" else "handicap_away";
    } else if preferredType == "draw" {
      t := "draw";
    } else {
      var homeOdds := parse(OrElse(g.homeBetRt, "1"));
      var awayOdds := parse(OrElse(g.awayBetRt, "1"));
      t := if homeOdds.Some? && awayOdds.Some? && homeOdds.value > awayOdds.value then "home" else "away";
    }
  }

  /** The side is one of five values. A dominant type mentioning `handicap` gives
      `handicap_home` exactly when the line parses below zero; `draw` gives `draw`;
      otherwise `home` exactly when both odds parse and the home odds are strictly
      higher, so equal or unparsable odds give `away`. The dominant type is the first
      inserted among the most used, or `home` when there are none. */
  lemma RecommendedTypeCases(g: GameInfo, p: UserPattern, parse: string -> Option<real>)
    ensures var t, pref := RecommendedType(g, p, parse), PreferredType(p);
      && (t == "home" || t == "away" || t == "draw" || t == "handicap_home" || t == "handicap_away")
      && (Contains(pref, "handicap") ==>
            (t == "handicap_home" || t == "handicap_away")
            && (t == "handicap_home" <==> Negative(parse(OrElse(g.handicapScore, "0")))))
      && (!Contains(pref, "handicap") && pref == "draw" ==> t == "draw")
      && (!Contains(pref, "handicap") && pref != "draw" ==>
            (t == "home" || t == "away")
            && (t == "home" <==> HomeHigher(parse(OrElse(g.homeBetRt, "1")), parse(OrElse(g.awayBetRt, "1")))))
    ensures var keys, vals := p.bettingTypes.keys, p.bettingTypes.vals;
      && ((forall j :: 0 <= j < |keys| ==> CountOf(vals, EntryCount, keys[j]) == 0) ==> PreferredType(p) == "home")
      && ((exists j :: 0 <= j < |keys| && CountOf(vals, EntryCount, keys[j]) > 0) ==>
            exists i :: FirstMaxAt(keys, vals, EntryCount, i) && keys[i] == PreferredType(p))
  {
    FavouriteIsFirstMax(p.bettingTypes, EntryCount, "home");
  }

  /** With `parseFloat` reading "0" as 0 and "1" as 1, the fallbacks for missing data:
      a handicap preference on a game without a handicap line (missing or empty) gives `handicap_away`, and
      any other preference but `draw` on a game without odds (missing or empty) gives `away`. */
  lemma RecommendedTypeFallbacks(g: GameInfo, p: UserPattern, parse: string -> Option<real>)
    requires parse("0") == Some(0.0) && parse("1") == Some(1.0)
    ensures Contains(PreferredType(p), "handicap") && g.handicapScore in {None, Some("")} ==>
      RecommendedType(g, p, parse) == "handicap_away"
    ensures !Contains(PreferredType(p), "handicap") && PreferredType(p) != "draw"
            && g.homeBetRt in {None, Some("")} && g.awayBetRt in {None, Some("")} ==>
      RecommendedType(g, p, parse) == "away"
  {
  }

  // ---------------------------------------------------------------------------
  // Scored games.

  datatype RecommendedGame = RecommendedGame(
    gameId: string,
    gameNo: Option<string>,
    leagueName: string,
    leagueId: string,
    compe: string,
    homeTeamName: string,
    awayTeamName: string,
    matchDate: string,
    matchTime: string,
    recommendedBettingType: string,
    confidence: int,
    reason: string,
    frequency: nat,
    recentSelectionCount: nat)

  /** The recommendation carries the identifying fields of the game unchanged. */
  predicate Describes(r: RecommendedGame, g: GameInfo) {
    && r.gameId == g.gameId && r.gameNo == g.gameNo && r.leagueName == g.leagueName
    && r.leagueId == g.leagueId && r.compe == g.compe && r.homeTeamName == g.homeTeamName
    && r.awayTeamName == g.awayTeamName && r.matchDate == g.matchDate && r.matchTime == g.matchTime
  }

  function CountOr<V>(e: Option<V>, f: V -> nat): nat {
    if e.Some? then f(e.value) else 0
  }

  function ScoreGame(w: Weights, p: UserPattern, g: GameInfo, rs: seq<Receipt>, now: int,
                     weekday: string -> string, parse: string -> Option<real>): (r: RecommendedGame)
    requires |rs| > 0
    ensures Describes(r, g)
    ensures r.confidence <= 100
  {
    var league := Lookup(p.leagues, g.leagueName);
    var home := Lookup(p.teams, g.homeTeamName);
    var away := Lookup(p.teams, g.awayTeamName);
    var f := FactorsOf(w, p, g, rs, now, weekday);
    RecommendedGame(
      g.gameId, g.gameNo, g.leagueName, g.leagueId, g.compe, g.homeTeamName, g.awayTeamName,
      g.matchDate, g.matchTime,
      RecommendedType(g, p, parse),
      Confidence(Score(f)),
      ReasonText(Reasons(w, p, g, rs, now)),
      CountOr(league, EntryCount) + CountOr(home, TeamCount) + CountOr(away, TeamCount),
      CountOr(league, EntryRecent) + CountOr(home, TeamRecent) + CountOr(away, TeamRecent))
  }

  /** With non-negative caps every confidence lies in [0, 100]. */
  lemma ConfidenceBounds(w: Weights, p: UserPattern, g: GameInfo, rs: seq<Receipt>, now: int,
                         weekday: string -> string, parse: string -> Option<real>)
    requires WeightsOk(w) && |rs| > 0
    ensures 0 <= ScoreGame(w, p, g, rs, now, weekday, parse).confidence <= 100
  {
    FactorBounds(w, p, g, rs, now, weekday);
  }

  /** In a well-formed pattern the recent-selection count of a scored game never
      exceeds its frequency. */
  lemma RecentWithinFrequency(w: Weights, p: UserPattern, g: GameInfo, rs: seq<Receipt>, now: int,
                              weekday: string -> string, parse: string -> Option<real>)
    requires WellFormed(p) && |rs| > 0
    ensures var r := ScoreGame(w, p, g, rs, now, weekday, parse);
      r.recentSelectionCount <= r.frequency
  {
  }

  /** Map every game to its score, keeping those strictly above the threshold, in order. */
  function ScoreGames(w: Weights, p: UserPattern, games: seq<GameInfo>, rs: seq<Receipt>, now: int,
                      weekday: string -> string, parse: string -> Option<real>): (r: seq<RecommendedGame>)
    requires |rs| > 0
    ensures |r| <= |games|
    ensures forall i :: 0 <= i < |r| ==> w.minScore < r[i].confidence as real && r[i].confidence <= 100
  {
    if games == [] then []
    else
      var s := ScoreGame(w, p, games[0], rs, now, weekday, parse);
      (if s.confidence as real > w.minScore then [s] else []) + ScoreGames(w, p, games[1..], rs, now, weekday, parse)
  }

  /** Every game whose score passes the threshold has its score in the result. */
  lemma {:induction false} ScoreGamesComplete(w: Weights, p: UserPattern, games: seq<GameInfo>, rs: seq<Receipt>, now: int,
                                              weekday: string -> string, parse: string -> Option<real>)
    requires |rs| > 0
    ensures forall i :: 0 <= i < |games| && ScoreGame(w, p, games[i], rs, now, weekday, parse).confidence as real > w.minScore
              ==> ScoreGame(w, p, games[i], rs, now, weekday, parse) in ScoreGames(w, p, games, rs, now, weekday, parse)
  {
    if games != [] {
      ScoreGamesComplete(w, p, games[1..], rs, now, weekday, parse);
      forall i | 0 <= i < |games| && ScoreGame(w, p, games[i], rs, now, weekday, parse).confidence as real > w.minScore
        ensures ScoreGame(w, p, games[i], rs, now, weekday, parse) in ScoreGames(w, p, games, rs, now, weekday, parse)
      {
        if i > 0 { assert games[i] == games[1..][i - 1]; }
      }
    }
  }

  /** The result holds nothing but scores of the given games. */
  lemma {:induction false} ScoreGamesSound(w: Weights, p: UserPattern, games: seq<GameInfo>, rs: seq<Receipt>, now: int,
                                           weekday: string -> string, parse: string -> Option<real>)
    requires |rs| > 0
    ensures forall x :: x in ScoreGames(w, p, games, rs, now, weekday, parse) ==>
              exists i :: 0 <= i < |games| && x == ScoreGame(w, p, games[i], rs, now, weekday, parse)
  {
    if games != [] {
      ScoreGamesSound(w, p, games[1..], rs, now, weekday, parse);
      var s := ScoreGame(w, p, games[0], rs, now, weekday, parse);
      var tail := ScoreGames(w, p, games[1..], rs, now, weekday, parse);
      forall x | x in ScoreGames(w, p, games, rs, now, weekday, parse)
        ensures exists i :: 0 <= i < |games| && x == ScoreGame(w, p, games[i], rs, now, weekday, parse)
      {
        if x != s || s.confidence as real <= w.minScore {
          assert x in tail;
          var k :| 0 <= k < |games[1..]| && x == ScoreGame(w, p, games[1..][k], rs, now, weekday, parse);
          assert games[1..][k] == games[k + 1];
        }
      }
    }
  }
}
