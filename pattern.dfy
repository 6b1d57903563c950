/** The pattern analyzer: folds a user's receipts into frequency tallies by league,
    sport (`compe`), team, betting type, kick-off time, weekday and multi-sport
    combination. League, sport, team and betting-type entries also count the
    selections made in receipts created within the last 30 days. */
module PatternAnalysis {
  import opened Domain
  import opened Tallies
  import opened Strings

  datatype Entry = Entry(count: nat, recentCount: nat)

  /** A team entry remembers the league of the game in which the team was first seen. */
  datatype TeamEntry = TeamEntry(count: nat, recentCount: nat, league: string)

  datatype UserPattern = UserPattern(
    leagues: Tally<Entry>,
    compes: Tally<Entry>,
    teams: Tally<TeamEntry>,
    bettingTypes: Tally<Entry>,
    timePreferences: Tally<nat>,
    dayPreferences: Tally<nat>,
    compeCombinations: Tally<nat>)

  /** Width of the window for the per-entry recent counters. */
  const RecentDays: int := 30

  function RecentCutoff(now: int): int {
    now - RecentDays * DayMs
  }

  function EntryCount(e: Entry): nat { e.count }
  function EntryRecent(e: Entry): nat { e.recentCount }
  function TeamCount(e: TeamEntry): nat { e.count }
  function TeamRecent(e: TeamEntry): nat { e.recentCount }
  function Tick(n: nat): nat { n }

  const EmptyPattern: UserPattern :=
    UserPattern(Empty(), Empty(), Empty(), Empty(), Empty(), Empty(), Empty())

  function Bump(e: Entry, recent: bool): Entry {
    Entry(e.count + 1, if recent then e.recentCount + 1 else e.recentCount)
  }

  function BumpTeam(e: TeamEntry, recent: bool): TeamEntry {
    TeamEntry(e.count + 1, if recent then e.recentCount + 1 else e.recentCount, e.league)
  }

  /** Get-or-default, increment, set back: one tally update of the source. */
  function BumpIn(t: Tally<Entry>, k: string, recent: bool): Tally<Entry> {
    t.Set(k, Bump(t.GetOr(k, Entry(0, 0)), recent))
  }

  /** As `BumpIn`, for teams: a new team takes the league of the current game. */
  function BumpTeamIn(t: Tally<TeamEntry>, k: string, league: string, recent: bool): Tally<TeamEntry> {
    t.Set(k, BumpTeam(t.GetOr(k, TeamEntry(0, 0, league)), recent))
  }

  function TickIn(t: Tally<nat>, k: string): Tally<nat> {
    t.Set(k, t.GetOr(k, 0) + 1)
  }

  /** The effect of one selected game on the pattern: the home team is counted
      before the away team. */
  function RecordGame(p: UserPattern, g: GameInfo, recent: bool, weekday: string -> string): UserPattern {
    p.(leagues := BumpIn(p.leagues, g.leagueName, recent),
       compes := BumpIn(p.compes, g.compe, recent),
       teams := BumpTeamIn(BumpTeamIn(p.teams, g.homeTeamName, g.leagueName, recent), g.awayTeamName, g.leagueName, recent),
       timePreferences := TickIn(p.timePreferences, g.matchTime),
       dayPreferences := TickIn(p.dayPreferences, weekday(g.matchDate)))
  }

  function RecordGames(p: UserPattern, gs: seq<GameInfo>, recent: bool, weekday: string -> string): UserPattern {
    if gs == [] then p else RecordGame(RecordGames(p, gs[..|gs| - 1], recent, weekday), gs[|gs| - 1], recent, weekday)
  }

  function RecordItems(p: UserPattern, items: seq<BettingItem>, recent: bool): UserPattern {
    if items == [] then p
    else
      var q := RecordItems(p, items[..|items| - 1], recent);
      q.(bettingTypes := BumpIn(q.bettingTypes, items[|items| - 1].bettingType, recent))
  }

  function CompesOf(gs: seq<GameInfo>): (cs: seq<string>)
    ensures |cs| == |gs| && forall i :: 0 <= i < |gs| ==> cs[i] == gs[i].compe
  {
    seq(|gs|, i requires 0 <= i < |gs| => gs[i].compe)
  }

  /** The distinct sports of a receipt, in first-seen order. */
  function DistinctCompes(gs: seq<GameInfo>): seq<string> {
    Dedup(CompesOf(gs))
  }

  /** The combination key: the distinct sports sorted and joined with `+`. */
  function ComboKey(gs: seq<GameInfo>): string {
    Join(SortStrings(DistinctCompes(gs)), "+")
  }

  function RecordCombo(p: UserPattern, gs: seq<GameInfo>): UserPattern {
    if |DistinctCompes(gs)| > 1 then
      p.(compeCombinations := TickIn(p.compeCombinations, ComboKey(gs)))
    else p
  }

  function RecordReceipt(p: UserPattern, r: Receipt, cutoff: int, weekday: string -> string): UserPattern {
    var recent := r.createdAt >= cutoff;
    RecordCombo(RecordItems(RecordGames(p, r.selectedGames, recent, weekday), r.bettingItems, recent), r.selectedGames)
  }

  function Fold(rs: seq<Receipt>, cutoff: int, weekday: string -> string): UserPattern {
    if rs == [] then EmptyPattern else RecordReceipt(Fold(rs[..|rs| - 1], cutoff, weekday), rs[|rs| - 1], cutoff, weekday)
  }

  /** The pattern of a receipt list analysed at time `now`. */
  function PatternOf(rs: seq<Receipt>, now: int, weekday: string -> string): UserPattern {
    Fold(rs, RecentCutoff(now), weekday)
  }

  /** One selected game: get-or-default, increment and set back in six tallies. */
  method CountGame(p: UserPattern, game: GameInfo, isRecent: bool, weekday: string -> string) returns (q: UserPattern)
    ensures q == RecordGame(p, game, isRecent, weekday)
  {
    var leagueData := p.leagues.GetOr(game.leagueName, Entry(0, 0));
    leagueData := leagueData.(count := leagueData.count + 1);
    if isRecent { leagueData := leagueData.(recentCount := leagueData.recentCount + 1); }
    var leagues := p.leagues.Set(game.leagueName, leagueData);
    assert leagues == BumpIn(p.leagues, game.leagueName, isRecent);

    var compeData := p.compes.GetOr(game.compe, Entry(0, 0));
    compeData := compeData.(count := compeData.count + 1);
    if isRecent { compeData := compeData.(recentCount := compeData.recentCount + 1); }
    var compes := p.compes.Set(game.compe, compeData);
    assert compes == BumpIn(p.compes, game.compe, isRecent);

    var homeTeamData := p.teams.GetOr(game.homeTeamName, TeamEntry(0, 0, game.leagueName));
    homeTeamData := homeTeamData.(count := homeTeamData.count + 1);
    if isRecent { homeTeamData := homeTeamData.(recentCount := homeTeamData.recentCount + 1); }
    var teams := p.teams.Set(game.homeTeamName, homeTeamData);
    assert teams == BumpTeamIn(p.teams, game.homeTeamName, game.leagueName, isRecent);

    var awayTeamData := teams.GetOr(game.awayTeamName, TeamEntry(0, 0, game.leagueName));
    awayTeamData := awayTeamData.(count := awayTeamData.count + 1);
    if isRecent { awayTeamData := awayTeamData.(recentCount := awayTeamData.recentCount + 1); }
    ghost var afterHome := teams;
    teams := teams.Set(game.awayTeamName, awayTeamData);
    assert teams == BumpTeamIn(afterHome, game.awayTeamName, game.leagueName, isRecent);

    var timeCount := p.timePreferences.GetOr(game.matchTime, 0);
    var times := p.timePreferences.Set(game.matchTime, timeCount + 1);

    var dayOfWeek := weekday(game.matchDate);
    var dayCount := p.dayPreferences.GetOr(dayOfWeek, 0);
    var days := p.dayPreferences.Set(dayOfWeek, dayCount + 1);

    q := p.(leagues := leagues, compes := compes, teams := teams, timePreferences := times, dayPreferences := days);
  }

  lemma RecordGamesSnoc(p0: UserPattern, games: seq<GameInfo>, j: int, isRecent: bool, weekday: string -> string)
    requires 0 <= j < |games|
    ensures RecordGames(p0, games[..j + 1], isRecent, weekday)
         == RecordGame(RecordGames(p0, games[..j], isRecent, weekday), games[j], isRecent, weekday)
  {
    assert games[..j + 1][..j] == games[..j];
  }

  /** The games loop of one receipt. */
  method CountGames(p0: UserPattern, games: seq<GameInfo>, isRecent: bool, weekday: string -> string) returns (p: UserPattern)
    ensures p == RecordGames(p0, games, isRecent, weekday)
  {
    p := p0;
    var j := 0;
    while j < |games|
      invariant 0 <= j <= |games|
      invariant p == RecordGames(p0, games[..j], isRecent, weekday)
    {
      RecordGamesSnoc(p0, games, j, isRecent, weekday);
      p := CountGame(p, games[j], isRecent, weekday);
      j := j + 1;
    }
    assert games[..j] == games;
  }

  /** The betting-items loop of one receipt. */
  method CountItems(p0: UserPattern, items: seq<BettingItem>, isRecent: bool) returns (p: UserPattern)
    ensures p == RecordItems(p0, items, isRecent)
  {
    p := p0;
    var k := 0;
    while k < |items|
      invariant 0 <= k <= |items|
      invariant p == RecordItems(p0, items[..k], isRecent)
    {
      var bettingType := items[k].bettingType;
      var typeData := p.bettingTypes.GetOr(bettingType, Entry(0, 0));
      typeData := typeData.(count := typeData.count + 1);
      if isRecent { typeData := typeData.(recentCount := typeData.recentCount + 1); }
      p := p.(bettingTypes := p.bettingTypes.Set(bettingType, typeData));
      assert items[..k + 1][..k] == items[..k];
      k := k + 1;
    }
    assert items[..k] == items;
  }

  /** The multi-sport step of one receipt. */
  method CountCombo(p0: UserPattern, games: seq<GameInfo>) returns (p: UserPattern)
    ensures p == RecordCombo(p0, games)
  {
    p := p0;
    var compesInReceipt := DistinctCompes(games);
    if |compesInReceipt| > 1 {
      var comboKey := Join(SortStrings(compesInReceipt), "+");
      var comboCount := p.compeCombinations.GetOr(comboKey, 0);
      p := p.(compeCombinations := p.compeCombinations.Set(comboKey, comboCount + 1));
    }
  }

  lemma FoldSnoc(rs: seq<Receipt>, i: int, cutoff: int, weekday: string -> string)
    requires 0 <= i < |rs|
    ensures Fold(rs[..i + 1], cutoff, weekday) == RecordReceipt(Fold(rs[..i], cutoff, weekday), rs[i], cutoff, weekday)
  {
    assert rs[..i + 1][..i] == rs[..i];
  }

  /** The source's analysis loop: for every receipt, every selected game updates six
      tallies, every betting item the betting-type tally, and a receipt with more than
      one sport the combination tally. */
  method AnalyzeUserPattern(receipts: seq<Receipt>, now: int, weekday: string -> string) returns (p: UserPattern)
    ensures p == PatternOf(receipts, now, weekday)
  {
    var cutoff := RecentCutoff(now);
    p := EmptyPattern;
    var i := 0;
    while i < |receipts|
      invariant 0 <= i <= |receipts|
      invariant p == Fold(receipts[..i], cutoff, weekday)
    {
      var receipt := receipts[i];
      var isRecent := receipt.createdAt >= cutoff;
      p := CountGames(p, receipt.selectedGames, isRecent, weekday);
      p := CountItems(p, receipt.bettingItems, isRecent);
      p := CountCombo(p, receipt.selectedGames);
      FoldSnoc(receipts, i, cutoff, weekday);
      i := i + 1;
    }
    assert receipts[..i] == receipts;
  }

  // ---------------------------------------------------------------------------
  // Well-formedness: every entry was counted at least once, and its recent count
  // never exceeds its all-time count.

  ghost predicate EntriesOk(t: Tally<Entry>) {
    && t.Valid()
    && forall k :: k in t.vals ==> 0 < t.vals[k].count && t.vals[k].recentCount <= t.vals[k].count
  }

  ghost predicate TeamsOk(t: Tally<TeamEntry>) {
    && t.Valid()
    && forall k :: k in t.vals ==> 0 < t.vals[k].count && t.vals[k].recentCount <= t.vals[k].count
  }

  ghost predicate WellFormed(p: UserPattern) {
    && EntriesOk(p.leagues)
    && EntriesOk(p.compes)
    && TeamsOk(p.teams)
    && EntriesOk(p.bettingTypes)
    && p.timePreferences.Valid()
    && p.dayPreferences.Valid()
    && p.compeCombinations.Valid()
  }

  /** Every tally keeps distinct keys matching its dictionary. */
  ghost predicate KeysValid(p: UserPattern) {
    && p.leagues.Valid() && p.compes.Valid() && p.teams.Valid() && p.bettingTypes.Valid()
    && p.timePreferences.Valid() && p.dayPreferences.Valid() && p.compeCombinations.Valid()
  }

  lemma KeysValidGame(p: UserPattern, g: GameInfo, recent: bool, weekday: string -> string)
    requires KeysValid(p)
    ensures KeysValid(RecordGame(p, g, recent, weekday))
  {
  }

  lemma {:induction false} KeysValidGames(p: UserPattern, gs: seq<GameInfo>, recent: bool, weekday: string -> string)
    requires KeysValid(p)
    ensures KeysValid(RecordGames(p, gs, recent, weekday))
  {
    if gs != [] {
      KeysValidGames(p, gs[..|gs| - 1], recent, weekday);
      KeysValidGame(RecordGames(p, gs[..|gs| - 1], recent, weekday), gs[|gs| - 1], recent, weekday);
    }
  }

  lemma {:induction false} KeysValidItems(p: UserPattern, items: seq<BettingItem>, recent: bool)
    requires KeysValid(p)
    ensures KeysValid(RecordItems(p, items, recent))
  {
    if items != [] {
      KeysValidItems(p, items[..|items| - 1], recent);
    }
  }

  lemma {:induction false} FoldKeysValid(rs: seq<Receipt>, cutoff: int, weekday: string -> string)
    ensures KeysValid(Fold(rs, cutoff, weekday))
  {
    if rs != [] {
      var init := rs[..|rs| - 1];
      var r := rs[|rs| - 1];
      var recent := r.createdAt >= cutoff;
      FoldKeysValid(init, cutoff, weekday);
      KeysValidGames(Fold(init, cutoff, weekday), r.selectedGames, recent, weekday);
      KeysValidItems(RecordGames(Fold(init, cutoff, weekday), r.selectedGames, recent, weekday), r.bettingItems, recent);
    }
  }

  lemma BumpOk(t: Tally<Entry>, k: string, recent: bool)
    requires EntriesOk(t)
    ensures EntriesOk(BumpIn(t, k, recent))
  {
  }

  lemma BumpTeamOk(t: Tally<TeamEntry>, k: string, league: string, recent: bool)
    requires TeamsOk(t)
    ensures TeamsOk(BumpTeamIn(t, k, league, recent))
  {
  }

  lemma RecordGameOk(p: UserPattern, g: GameInfo, recent: bool, weekday: string -> string)
    requires WellFormed(p)
    ensures WellFormed(RecordGame(p, g, recent, weekday))
  {
    BumpOk(p.leagues, g.leagueName, recent);
    BumpOk(p.compes, g.compe, recent);
    BumpTeamOk(p.teams, g.homeTeamName, g.leagueName, recent);
    BumpTeamOk(BumpTeamIn(p.teams, g.homeTeamName, g.leagueName, recent), g.awayTeamName, g.leagueName, recent);
  }

  lemma {:induction false} RecordGamesOk(p: UserPattern, gs: seq<GameInfo>, recent: bool, weekday: string -> string)
    requires WellFormed(p)
    ensures WellFormed(RecordGames(p, gs, recent, weekday))
  {
    if gs != [] {
      RecordGamesOk(p, gs[..|gs| - 1], recent, weekday);
      RecordGameOk(RecordGames(p, gs[..|gs| - 1], recent, weekday), gs[|gs| - 1], recent, weekday);
    }
  }

  lemma {:induction false} RecordItemsOk(p: UserPattern, items: seq<BettingItem>, recent: bool)
    requires WellFormed(p)
    ensures WellFormed(RecordItems(p, items, recent))
  {
    if items != [] {
      RecordItemsOk(p, items[..|items| - 1], recent);
      var q := RecordItems(p, items[..|items| - 1], recent);
      BumpOk(q.bettingTypes, items[|items| - 1].bettingType, recent);
    }
  }

  lemma RecordReceiptOk(p: UserPattern, r: Receipt, cutoff: int, weekday: string -> string)
    requires WellFormed(p)
    ensures WellFormed(RecordReceipt(p, r, cutoff, weekday))
  {
    var recent := r.createdAt >= cutoff;
    RecordGamesOk(p, r.selectedGames, recent, weekday);
    RecordItemsOk(RecordGames(p, r.selectedGames, recent, weekday), r.bettingItems, recent);
  }

  lemma {:induction false} FoldOk(rs: seq<Receipt>, cutoff: int, weekday: string -> string)
    ensures WellFormed(Fold(rs, cutoff, weekday))
  {
    if rs != [] {
      FoldOk(rs[..|rs| - 1], cutoff, weekday);
      RecordReceiptOk(Fold(rs[..|rs| - 1], cutoff, weekday), rs[|rs| - 1], cutoff, weekday);
    }
  }

  /** After analysis every league, sport, team and betting-type entry satisfies
      0 < count and recent_count <= count, and every tally keeps distinct keys. */
  lemma PatternWellFormed(rs: seq<Receipt>, now: int, weekday: string -> string)
    ensures WellFormed(PatternOf(rs, now, weekday))
    ensures var p := PatternOf(rs, now, weekday);
      && (forall k :: k in p.leagues.vals ==> p.leagues.vals[k].recentCount <= p.leagues.vals[k].count)
      && (forall k :: k in p.compes.vals ==> p.compes.vals[k].recentCount <= p.compes.vals[k].count)
      && (forall k :: k in p.teams.vals ==> p.teams.vals[k].recentCount <= p.teams.vals[k].count)
      && (forall k :: k in p.bettingTypes.vals ==> p.bettingTypes.vals[k].recentCount <= p.bettingTypes.vals[k].count)
  {
    FoldOk(rs, RecentCutoff(now), weekday);
  }

  // ---------------------------------------------------------------------------
  // Totals: what the tallies add up to.

  /** Number of selected games over all receipts. */
  function GamesIn(rs: seq<Receipt>): nat {
    if rs == [] then 0 else GamesIn(rs[..|rs| - 1]) + |rs[|rs| - 1].selectedGames|
  }

  /** Number of selected games over the receipts created at or after `cutoff`. */
  function RecentGamesIn(rs: seq<Receipt>, cutoff: int): nat {
    if rs == [] then 0
    else RecentGamesIn(rs[..|rs| - 1], cutoff) + (if rs[|rs| - 1].createdAt >= cutoff then |rs[|rs| - 1].selectedGames| else 0)
  }

  /** Number of betting items over all receipts. */
  function ItemsIn(rs: seq<Receipt>): nat {
    if rs == [] then 0 else ItemsIn(rs[..|rs| - 1]) + |rs[|rs| - 1].bettingItems|
  }

  /** Number of receipts whose games span more than one sport. */
  function MultiSportReceipts(rs: seq<Receipt>): nat {
    if rs == [] then 0
    else MultiSportReceipts(rs[..|rs| - 1]) + (if |DistinctCompes(rs[|rs| - 1].selectedGames)| > 1 then 1 else 0)
  }

  /** The tally totals of a pattern, in one record. */
  datatype Totals = Totals(leagues: nat, leaguesRecent: nat, compes: nat, teams: nat, times: nat, days: nat, types: nat, combos: nat)

  function TotalsOf(p: UserPattern): Totals {
    Totals(Total(p.leagues, EntryCount), Total(p.leagues, EntryRecent), Total(p.compes, EntryCount),
           Total(p.teams, TeamCount), Total(p.timePreferences, Tick), Total(p.dayPreferences, Tick),
           Total(p.bettingTypes, EntryCount), Total(p.compeCombinations, Tick))
  }

  lemma BumpTotals(t: Tally<Entry>, k: string, recent: bool)
    requires t.Valid()
    ensures Total(BumpIn(t, k, recent), EntryCount) == Total(t, EntryCount) + 1
    ensures Total(BumpIn(t, k, recent), EntryRecent) == Total(t, EntryRecent) + (if recent then 1 else 0)
  {
    var e := Bump(t.GetOr(k, Entry(0, 0)), recent);
    TotalSet(t, k, e, EntryCount);
    TotalSet(t, k, e, EntryRecent);
  }

  lemma BumpTeamTotal(t: Tally<TeamEntry>, k: string, league: string, recent: bool)
    requires t.Valid()
    ensures Total(BumpTeamIn(t, k, league, recent), TeamCount) == Total(t, TeamCount) + 1
  {
    TotalSet(t, k, BumpTeam(t.GetOr(k, TeamEntry(0, 0, league)), recent), TeamCount);
  }

  lemma TickTotal(t: Tally<nat>, k: string)
    requires t.Valid()
    ensures Total(TickIn(t, k), Tick) == Total(t, Tick) + 1
  {
    TotalSet(t, k, t.GetOr(k, 0) + 1, Tick);
  }

  lemma RecordGameTotals(p: UserPattern, g: GameInfo, recent: bool, weekday: string -> string)
    requires KeysValid(p)
    ensures var q := RecordGame(p, g, recent, weekday);
      && Total(q.leagues, EntryCount) == Total(p.leagues, EntryCount) + 1
      && Total(q.leagues, EntryRecent) == Total(p.leagues, EntryRecent) + (if recent then 1 else 0)
      && Total(q.compes, EntryCount) == Total(p.compes, EntryCount) + 1
      && Total(q.teams, TeamCount) == Total(p.teams, TeamCount) + 2
      && Total(q.timePreferences, Tick) == Total(p.timePreferences, Tick) + 1
      && Total(q.dayPreferences, Tick) == Total(p.dayPreferences, Tick) + 1
      && q.bettingTypes == p.bettingTypes && q.compeCombinations == p.compeCombinations
  {
    BumpTotals(p.leagues, g.leagueName, recent);
    BumpTotals(p.compes, g.compe, recent);
    BumpTeamTotal(p.teams, g.homeTeamName, g.leagueName, recent);
    BumpTeamTotal(BumpTeamIn(p.teams, g.homeTeamName, g.leagueName, recent), g.awayTeamName, g.leagueName, recent);
    TickTotal(p.timePreferences, g.matchTime);
    TickTotal(p.dayPreferences, weekday(g.matchDate));
  }

  lemma {:induction false} RecordGamesTotals(p: UserPattern, gs: seq<GameInfo>, recent: bool, weekday: string -> string)
    requires KeysValid(p)
    ensures var a, b := TotalsOf(p), TotalsOf(RecordGames(p, gs, recent, weekday));
      var n := |gs|;
      b == a.(leagues := a.leagues + n, leaguesRecent := a.leaguesRecent + (if recent then n else 0),
              compes := a.compes + n, teams := a.teams + 2 * n, times := a.times + n, days := a.days + n)
  {
    if gs != [] {
      var init := gs[..|gs| - 1];
      RecordGamesTotals(p, init, recent, weekday);
      KeysValidGames(p, init, recent, weekday);
      RecordGameTotals(RecordGames(p, init, recent, weekday), gs[|gs| - 1], recent, weekday);
    }
  }

  lemma {:induction false} RecordItemsTotals(p: UserPattern, items: seq<BettingItem>, recent: bool)
    requires KeysValid(p)
    ensures var a, b := TotalsOf(p), TotalsOf(RecordItems(p, items, recent));
      b == a.(types := a.types + |items|)
  {
    if items != [] {
      var init := items[..|items| - 1];
      RecordItemsTotals(p, init, recent);
      KeysValidItems(p, init, recent);
      BumpTotals(RecordItems(p, init, recent).bettingTypes, items[|items| - 1].bettingType, recent);
    }
  }

  lemma RecordComboTotals(p: UserPattern, gs: seq<GameInfo>)
    requires KeysValid(p)
    ensures var a, b := TotalsOf(p), TotalsOf(RecordCombo(p, gs));
      b == a.(combos := a.combos + (if |DistinctCompes(gs)| > 1 then 1 else 0))
  {
    if |DistinctCompes(gs)| > 1 {
      TickTotal(p.compeCombinations, ComboKey(gs));
    }
  }

  lemma RecordReceiptTotals(p: UserPattern, r: Receipt, cutoff: int, weekday: string -> string)
    requires KeysValid(p)
    ensures var a, b := TotalsOf(p), TotalsOf(RecordReceipt(p, r, cutoff, weekday));
      var n := |r.selectedGames|;
      && b.leagues == a.leagues + n && b.leaguesRecent == a.leaguesRecent + (if r.createdAt >= cutoff then n else 0)
      && b.compes == a.compes + n && b.teams == a.teams + 2 * n && b.times == a.times + n && b.days == a.days + n
      && b.types == a.types + |r.bettingItems|
      && b.combos == a.combos + (if |DistinctCompes(r.selectedGames)| > 1 then 1 else 0)
  {
    var recent := r.createdAt >= cutoff;
    RecordGamesTotals(p, r.selectedGames, recent, weekday);
    KeysValidGames(p, r.selectedGames, recent, weekday);
    var p1 := RecordGames(p, r.selectedGames, recent, weekday);
    RecordItemsTotals(p1, r.bettingItems, recent);
    KeysValidItems(p1, r.bettingItems, recent);
    RecordComboTotals(RecordItems(p1, r.bettingItems, recent), r.selectedGames);
  }

  /** The league, sport, time-slot and weekday tallies each add up to the number of
      selected games, the team tally to twice that (home and away), and the recent league
      counts to the games of recent receipts. */
  lemma {:induction false} FoldGameTotals(rs: seq<Receipt>, cutoff: int, weekday: string -> string)
    ensures var t := TotalsOf(Fold(rs, cutoff, weekday));
      && t.leagues == GamesIn(rs) && t.leaguesRecent == RecentGamesIn(rs, cutoff)
      && t.compes == GamesIn(rs) && t.teams == 2 * GamesIn(rs)
      && t.times == GamesIn(rs) && t.days == GamesIn(rs)
  {
    if rs != [] {
      var init, last := rs[..|rs| - 1], rs[|rs| - 1];
      var p := Fold(init, cutoff, weekday);
      FoldGameTotals(init, cutoff, weekday);
      FoldKeysValid(init, cutoff, weekday);
      RecordReceiptTotals(p, last, cutoff, weekday);
      assert Fold(rs, cutoff, weekday) == RecordReceipt(p, last, cutoff, weekday);
    }
  }

  /** The betting-type tally adds up to the number of betting items, and the
      combination tally to the number of multi-sport receipts. */
  lemma {:induction false} FoldReceiptTotals(rs: seq<Receipt>, cutoff: int, weekday: string -> string)
    ensures var t := TotalsOf(Fold(rs, cutoff, weekday));
      t.types == ItemsIn(rs) && t.combos == MultiSportReceipts(rs)
  {
    if rs != [] {
      var init, last := rs[..|rs| - 1], rs[|rs| - 1];
      var p := Fold(init, cutoff, weekday);
      FoldReceiptTotals(init, cutoff, weekday);
      FoldKeysValid(init, cutoff, weekday);
      RecordReceiptTotals(p, last, cutoff, weekday);
      assert Fold(rs, cutoff, weekday) == RecordReceipt(p, last, cutoff, weekday);
    }
  }

  // ---------------------------------------------------------------------------
  // Combination keys.

  /** The combination key and the decision to record it depend only on which sports
      a receipt holds, not on the order or repetition of its games. */
  lemma ComboKeyOrderFree(g1: seq<GameInfo>, g2: seq<GameInfo>)
    requires forall c :: c in CompesOf(g1) <==> c in CompesOf(g2)
    ensures ComboKey(g1) == ComboKey(g2)
    ensures |DistinctCompes(g1)| > 1 <==> |DistinctCompes(g2)| > 1
  {
    var d1, d2 := DistinctCompes(g1), DistinctCompes(g2);
    DedupProperties(CompesOf(g1));
    DedupProperties(CompesOf(g2));
    SortStringsSetOnly(d1, d2);
    SortStringsProperties(d1);
    SortStringsProperties(d2);
    assert |d1| == |SortStrings(d1)| by { assert |multiset(d1)| == |multiset(SortStrings(d1))|; }
    assert |d2| == |SortStrings(d2)| by { assert |multiset(d2)| == |multiset(SortStrings(d2))|; }
  }

  /** Every recorded combination key is the key of some receipt holding more than one sport. */
  lemma {:induction false} CombosComeFromMultiSportReceipts(rs: seq<Receipt>, cutoff: int, weekday: string -> string, key: string)
    requires key in Fold(rs, cutoff, weekday).compeCombinations.vals
    ensures exists i :: 0 <= i < |rs| && |DistinctCompes(rs[i].selectedGames)| > 1 && ComboKey(rs[i].selectedGames) == key
  {
    var init, r := rs[..|rs| - 1], rs[|rs| - 1];
    var recent := r.createdAt >= cutoff;
    var p0 := Fold(init, cutoff, weekday);
    var p1 := RecordItems(RecordGames(p0, r.selectedGames, recent, weekday), r.bettingItems, recent);
    assert p1.compeCombinations == p0.compeCombinations by {
      RecordGamesKeepsCombos(p0, r.selectedGames, recent, weekday);
      RecordItemsKeepsCombos(RecordGames(p0, r.selectedGames, recent, weekday), r.bettingItems, recent);
    }
    if key in p0.compeCombinations.vals {
      CombosComeFromMultiSportReceipts(init, cutoff, weekday, key);
      var i :| 0 <= i < |init| && |DistinctCompes(init[i].selectedGames)| > 1 && ComboKey(init[i].selectedGames) == key;
      assert rs[i] == init[i];
    } else {
      assert rs[|rs| - 1] == r;
    }
  }

  lemma {:induction false} RecordGamesKeepsCombos(p: UserPattern, gs: seq<GameInfo>, recent: bool, weekday: string -> string)
    ensures RecordGames(p, gs, recent, weekday).compeCombinations == p.compeCombinations
    ensures RecordGames(p, gs, recent, weekday).bettingTypes == p.bettingTypes
  {
    if gs != [] { RecordGamesKeepsCombos(p, gs[..|gs| - 1], recent, weekday); }
  }

  lemma {:induction false} RecordItemsKeepsCombos(p: UserPattern, items: seq<BettingItem>, recent: bool)
    ensures RecordItems(p, items, recent).compeCombinations == p.compeCombinations
  {
    if items != [] { RecordItemsKeepsCombos(p, items[..|items| - 1], recent); }
  }
}
