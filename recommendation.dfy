/** The recommendation entry point: the cold-start answer for a user without history,
    otherwise analysis, scoring, a descending sort by confidence and the top entries,
    together with a summary of the user's favourites; and the request guard in front
    of it. */
module Recommendation {
  import opened Domain
  import opened Tallies
  import opened Strings
  import opened PatternAnalysis
  import opened Scoring

  datatype Analysis = Analysis(
    totalReceipts: nat,
    favoriteLeague: string,
    favoriteCompe: string,
    favoriteBettingType: string,
    mostSelectedTeam: string,
    recentActivityDays: int)

  datatype RecommendationResult = RecommendationResult(
    userNo: string,
    recommendedGames: seq<RecommendedGame>,
    analysis: Analysis,
    generatedAt: int)

  // ---------------------------------------------------------------------------
  // Analysis summary.

  /** Favourites by strict-maximum scan with the empty string as default, and the whole
      days between the first receipt (the newest) and the last (the oldest). Dafny's
      division by a positive divisor rounds down, as `Math.floor` of the quotient does. */
  function AnalysisOf(p: UserPattern, rs: seq<Receipt>): Analysis
    requires |rs| > 0
  {
    Analysis(
      |rs|,
      Favourite(p.leagues, EntryCount, ""),
      Favourite(p.compes, EntryCount, ""),
      Favourite(p.bettingTypes, EntryCount, ""),
      Favourite(p.teams, TeamCount, ""),
      (rs[0].createdAt - rs[|rs| - 1].createdAt) / DayMs)
  }

  /** The four running-maximum loops of the source and the day span. */
  method GenerateAnalysis(p: UserPattern, rs: seq<Receipt>) returns (a: Analysis)
    requires |rs| > 0
    ensures a == AnalysisOf(p, rs)
  {
    var favoriteLeague := FindFavourite(p.leagues, EntryCount, "");
    var favoriteCompe := FindFavourite(p.compes, EntryCount, "");
    var favoriteBettingType := FindFavourite(p.bettingTypes, EntryCount, "");
    var mostSelectedTeam := FindFavourite(p.teams, TeamCount, "");
    var oldest := rs[|rs| - 1];
    var newest := rs[0];
    var daysDiff := (newest.createdAt - oldest.createdAt) / DayMs;
    a := Analysis(|rs|, favoriteLeague, favoriteCompe, favoriteBettingType, mostSelectedTeam, daysDiff);
  }

  /** The day span is the floor of the elapsed time in days, and is never negative when
      the receipts come newest first. */
  lemma AnalysisDays(p: UserPattern, rs: seq<Receipt>)
    requires |rs| > 0
    ensures var d, span := AnalysisOf(p, rs).recentActivityDays, rs[0].createdAt - rs[|rs| - 1].createdAt;
      d * DayMs <= span < (d + 1) * DayMs
    ensures rs[0].createdAt >= rs[|rs| - 1].createdAt ==> AnalysisOf(p, rs).recentActivityDays >= 0
  {
  }

  /** For an analysed pattern each favourite is `""` for an empty tally, and otherwise
      the earliest-inserted key with the largest count. A game with an empty league,
      sport or team name stores `""` as a key, which can win; when `""` is not a key, the
      favourite is `""` exactly for an empty tally. */
  lemma AnalysisFavourites(rs: seq<Receipt>, now: int, weekday: string -> string)
    requires |rs| > 0
    ensures var p := PatternOf(rs, now, weekday);
      var a := AnalysisOf(p, rs);
      && (p.leagues.keys == [] ==> a.favoriteLeague == "")
      && (p.leagues.keys != [] ==> exists i :: FirstMaxAt(p.leagues.keys, p.leagues.vals, EntryCount, i) && p.leagues.keys[i] == a.favoriteLeague)
      && (p.compes.keys == [] ==> a.favoriteCompe == "")
      && (p.compes.keys != [] ==> exists i :: FirstMaxAt(p.compes.keys, p.compes.vals, EntryCount, i) && p.compes.keys[i] == a.favoriteCompe)
      && (p.bettingTypes.keys == [] ==> a.favoriteBettingType == "")
      && (p.bettingTypes.keys != [] ==> exists i :: FirstMaxAt(p.bettingTypes.keys, p.bettingTypes.vals, EntryCount, i) && p.bettingTypes.keys[i] == a.favoriteBettingType)
      && (p.teams.keys == [] ==> a.mostSelectedTeam == "")
      && (p.teams.keys != [] ==> exists i :: FirstMaxAt(p.teams.keys, p.teams.vals, TeamCount, i) && p.teams.keys[i] == a.mostSelectedTeam)
      && ("" !in p.leagues.vals ==> (a.favoriteLeague == "" <==> p.leagues.keys == []))
      && ("" !in p.compes.vals ==> (a.favoriteCompe == "" <==> p.compes.keys == []))
      && ("" !in p.bettingTypes.vals ==> (a.favoriteBettingType == "" <==> p.bettingTypes.keys == []))
      && ("" !in p.teams.vals ==> (a.mostSelectedTeam == "" <==> p.teams.keys == []))
  {
    var p := PatternOf(rs, now, weekday);
    PatternWellFormed(rs, now, weekday);
    FavouriteOfPositive(p.leagues, EntryCount, "");
    FavouriteOfPositive(p.compes, EntryCount, "");
    FavouriteOfPositive(p.bettingTypes, EntryCount, "");
    FavouriteOfPositive(p.teams, TeamCount, "");
  }

  // ---------------------------------------------------------------------------
  // Cold start.

  const ColdStartCount: nat := 3
  const PopularReason: string := "인기 경기입니다"

  function ColdStartGame(g: GameInfo): RecommendedGame {
    RecommendedGame(g.gameId, g.gameNo, g.leagueName, g.leagueId, g.compe, g.homeTeamName, g.awayTeamName,
                    g.matchDate, g.matchTime, "home", 50, PopularReason, 0, 0)
  }

  function MinNat(a: nat, b: nat): nat {
    if a <= b then a else b
  }

  /** The first three games at a flat score, and an empty summary. */
  function DefaultRecommendations(userNo: string, games: seq<GameInfo>, now: int): RecommendationResult {
    var n := MinNat(ColdStartCount, |games|);
    RecommendationResult(
      userNo,
      seq(n, i requires 0 <= i < n => ColdStartGame(games[i])),
      Analysis(0, "-", "-", "-", "-", 0),
      now)
  }

  /** The cold-start answer holds min(3, |games|) games in input order, each scored 50
      with type `home`, frequency 0 and recent count 0, and a summary with no receipts
      and `-` in every text field. */
  lemma DefaultRecommendationsShape(userNo: string, games: seq<GameInfo>, now: int)
    ensures var r := DefaultRecommendations(userNo, games, now);
      && r.userNo == userNo
      && |r.recommendedGames| == (if |games| < 3 then |games| else 3)
      && (forall i :: 0 <= i < |r.recommendedGames| ==>
            && Describes(r.recommendedGames[i], games[i])
            && r.recommendedGames[i].confidence == 50
            && r.recommendedGames[i].recommendedBettingType == "home"
            && r.recommendedGames[i].reason == PopularReason
            && r.recommendedGames[i].frequency == 0
            && r.recommendedGames[i].recentSelectionCount == 0)
      && r.analysis == Analysis(0, "-", "-", "-", "-", 0)
  {
  }

  // ---------------------------------------------------------------------------
  // Ordering and the top entries.

  ghost predicate NonIncreasing(s: seq<RecommendedGame>) {
    forall i, j :: 0 <= i < j < |s| ==> s[i].confidence >= s[j].confidence
  }

  /** Insert after every element of at least the same confidence. */
  function InsertByConfidence(x: RecommendedGame, s: seq<RecommendedGame>): seq<RecommendedGame> {
    if s == [] then [x]
    else if s[0].confidence >= x.confidence then [s[0]] + InsertByConfidence(x, s[1..])
    else [x] + s
  }

  /** The descending sort by confidence; elements are inserted in input order, so equal
      confidences keep their input order, as the stable array sort does. */
  function SortByConfidence(s: seq<RecommendedGame>): seq<RecommendedGame> {
    if s == [] then [] else InsertByConfidence(s[|s| - 1], SortByConfidence(s[..|s| - 1]))
  }

  ghost predicate AllAtMost(s: seq<RecommendedGame>, c: int) {
    forall k :: 0 <= k < |s| ==> s[k].confidence <= c
  }

  lemma AtMostByMultiset(a: seq<RecommendedGame>, b: seq<RecommendedGame>, c: int)
    requires multiset(a) == multiset(b) && AllAtMost(b, c)
    ensures AllAtMost(a, c)
  {
    forall k | 0 <= k < |a| ensures a[k].confidence <= c {
      assert a[k] in multiset(b);
    }
  }

  lemma NonIncreasingTail(s: seq<RecommendedGame>)
    requires s != [] && NonIncreasing(s)
    ensures NonIncreasing(s[1..]) && AllAtMost(s[1..], s[0].confidence)
  {
    var rest := s[1..];
    forall i, j | 0 <= i < j < |rest| ensures rest[i].confidence >= rest[j].confidence {
      assert rest[i] == s[i + 1] && rest[j] == s[j + 1];
    }
    forall k | 0 <= k < |rest| ensures rest[k].confidence <= s[0].confidence {
      assert rest[k] == s[k + 1];
    }
  }

  lemma ConsNonIncreasing(a: RecommendedGame, r: seq<RecommendedGame>)
    requires NonIncreasing(r) && AllAtMost(r, a.confidence)
    ensures NonIncreasing([a] + r)
  {
    var t := [a] + r;
    forall i, j | 0 <= i < j < |t| ensures t[i].confidence >= t[j].confidence {
      assert t[j] == r[j - 1];
      if i > 0 { assert t[i] == r[i - 1]; }
    }
  }

  lemma {:induction false} InsertByConfidenceMultiset(x: RecommendedGame, s: seq<RecommendedGame>)
    ensures multiset(InsertByConfidence(x, s)) == multiset(s) + multiset{x}
  {
    if s != [] && s[0].confidence >= x.confidence {
      InsertByConfidenceMultiset(x, s[1..]);
      assert s == [s[0]] + s[1..];
    }
  }

  lemma {:induction false} InsertByConfidenceProperties(x: RecommendedGame, s: seq<RecommendedGame>)
    requires NonIncreasing(s)
    ensures NonIncreasing(InsertByConfidence(x, s))
    ensures multiset(InsertByConfidence(x, s)) == multiset(s) + multiset{x}
  {
    InsertByConfidenceMultiset(x, s);
    if s == [] {
    } else if s[0].confidence >= x.confidence {
      var rest := s[1..];
      NonIncreasingTail(s);
      InsertByConfidenceProperties(x, rest);
      var r := InsertByConfidence(x, rest);
      assert AllAtMost(rest + [x], s[0].confidence) by {
        forall k | 0 <= k < |rest + [x]| ensures (rest + [x])[k].confidence <= s[0].confidence {
          if k < |rest| { assert (rest + [x])[k] == rest[k]; }
        }
      }
      AtMostByMultiset(r, rest + [x], s[0].confidence);
      ConsNonIncreasing(s[0], r);
    } else {
      NonIncreasingTail(s);
      assert AllAtMost(s, x.confidence) by {
        forall k | 0 <= k < |s| ensures s[k].confidence <= x.confidence {
          if k > 0 { assert s[k] == s[1..][k - 1]; }
        }
      }
      ConsNonIncreasing(x, s);
    }
  }

  lemma {:induction false} SortByConfidenceProperties(s: seq<RecommendedGame>)
    ensures NonIncreasing(SortByConfidence(s))
    ensures multiset(SortByConfidence(s)) == multiset(s)
  {
    if s != [] {
      var init := s[..|s| - 1];
      SortByConfidenceProperties(init);
      InsertByConfidenceProperties(s[|s| - 1], SortByConfidence(init));
      assert s == init + [s[|s| - 1]];
    }
  }

  /** `slice(0, n)`. */
  function Take<T>(s: seq<T>, n: int): (r: seq<T>)
    ensures |r| <= |s| && (0 <= n ==> |r| <= n)
    ensures r == s[..|r|]
    ensures n >= |s| ==> r == s
  {
    if n <= 0 then [] else if n >= |s| then s else s[..n]
  }

  lemma TakeKeeps(s: seq<RecommendedGame>, n: int)
    requires NonIncreasing(s)
    ensures NonIncreasing(Take(s, n))
    ensures multiset(Take(s, n)) <= multiset(s)
  {
    var r := Take(s, n);
    assert s == r + s[|r|..];
  }

  // ---------------------------------------------------------------------------
  // The entry point.

  /** The answer for a receipt history fetched newest first: cold start without
      receipts, otherwise the best `w.top` scored games and the summary. */
  function RecommendationsOf(w: Weights, userNo: string, games: seq<GameInfo>, rs: seq<Receipt>, now: int,
                             weekday: string -> string, parse: string -> Option<real>): RecommendationResult
  {
    if |rs| == 0 then DefaultRecommendations(userNo, games, now)
    else
      var p := PatternOf(rs, now, weekday);
      var scored := ScoreGames(w, p, games, rs, now, weekday, parse);
      RecommendationResult(userNo, Take(SortByConfidence(scored), w.top), AnalysisOf(p, rs), now)
  }

  /** With history, at most `w.top` games come back, in non-increasing confidence, each
      of them a scored game (as a sub-multiset), and each scoring above the threshold
      and at most 100. */
  lemma RecommendationsWithHistory(w: Weights, userNo: string, games: seq<GameInfo>, rs: seq<Receipt>, now: int,
                                   weekday: string -> string, parse: string -> Option<real>)
    requires |rs| > 0
    ensures var out := RecommendationsOf(w, userNo, games, rs, now, weekday, parse).recommendedGames;
      var scored := ScoreGames(w, PatternOf(rs, now, weekday), games, rs, now, weekday, parse);
      && (0 <= w.top ==> |out| <= w.top)
      && |out| <= |games|
      && NonIncreasing(out)
      && multiset(out) <= multiset(scored)
      && (forall i :: 0 <= i < |out| ==> w.minScore < out[i].confidence as real && out[i].confidence <= 100)
  {
    var scored := ScoreGames(w, PatternOf(rs, now, weekday), games, rs, now, weekday, parse);
    var sorted := SortByConfidence(scored);
    SortByConfidenceProperties(scored);
    TakeKeeps(sorted, w.top);
    var out := Take(sorted, w.top);
    assert |sorted| == |scored| by {
      assert |multiset(sorted)| == |multiset(scored)|;
    }
    forall i | 0 <= i < |out| ensures w.minScore < out[i].confidence as real && out[i].confidence <= 100 {
      assert out[i] in multiset(scored);
    }
  }

  /** For the constants of the code: at most 5 games, each scoring above 20. */
  lemma ShownRecommendations(userNo: string, games: seq<GameInfo>, rs: seq<Receipt>, now: int,
                             weekday: string -> string, parse: string -> Option<real>)
    requires |rs| > 0
    ensures var out := RecommendationsOf(Shown, userNo, games, rs, now, weekday, parse).recommendedGames;
      |out| <= 5 && forall i :: 0 <= i < |out| ==> 20 < out[i].confidence <= 100
  {
    RecommendationsWithHistory(Shown, userNo, games, rs, now, weekday, parse);
  }

  /** The service method: dispatch on an empty history, run the analysis loop, score,
      sort, take the top five and summarise. */
  method GetRecommendations(userNo: string, games: seq<GameInfo>, rs: seq<Receipt>, now: int,
                            weekday: string -> string, parse: string -> Option<real>)
    returns (res: RecommendationResult)
    ensures res == RecommendationsOf(Shown, userNo, games, rs, now, weekday, parse)
  {
    if |rs| == 0 {
      return DefaultRecommendations(userNo, games, now);
    }
    var pattern := AnalyzeUserPattern(rs, now, weekday);
    var scoredGames := ScoreGames(Shown, pattern, games, rs, now, weekday, parse);
    var topRecommendations := Take(SortByConfidence(scoredGames), Shown.top);
    var analysis := GenerateAnalysis(pattern, rs);
    res := RecommendationResult(userNo, topRecommendations, analysis, now);
  }

  // ---------------------------------------------------------------------------
  // The request guard.

  datatype Response = Response(success: bool, data: Option<RecommendationResult>, message: string)

  const MissingInputMessage: string := "user_no와 available_games는 필수입니다."

  /** A request without a user number or without candidate games is refused; otherwise
      the answer is wrapped with a message counting the recommended games. */
  function Recommend(userNo: string, games: seq<GameInfo>, rs: seq<Receipt>, now: int,
                     weekday: string -> string, parse: string -> Option<real>): (r: Response)
    ensures r.success <==> userNo != "" && |games| > 0
    ensures !r.success ==> r.data == None && r.message == MissingInputMessage
    ensures r.success ==> r.data == Some(RecommendationsOf(Shown, userNo, games, rs, now, weekday, parse))
  {
    if userNo == "" || |games| == 0 then Response(false, None, MissingInputMessage)
    else
      var result := RecommendationsOf(Shown, userNo, games, rs, now, weekday, parse);
      Response(true, Some(result), NatToString(|result.recommendedGames|) + "개의 경기를 추천합니다.")
  }
}
