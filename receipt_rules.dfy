/** The business rules of betting receipts: reading a calculator bookmark (betting
    type, odds and selected side from the predicted state), building the betting
    items with an equal share of the stake, the validation gates of receipt creation,
    and the win-rate statistics. */
module ReceiptRules {
  import opened Domain

  // ---------------------------------------------------------------------------
  // Reading a bookmark.

  /** One selection of the betting calculator: the game number, the predicted state
      (`W`, `D`, `L`, `U`, `O`), the market type (`H` handicap, `U` over/under, else
      win-draw-loss) and the three odds. */
  datatype Bookmark = Bookmark(
    gameNo: Option<string>,
    predictState: string,
    typeSc: Option<string>,
    wBetRt: string,
    dBetRt: Option<string>,
    lBetRt: string)

  function ConvertPredictStateToBettingType(ps: string, typeSc: Option<string>): string {
    if typeSc == Some("U") && ps == "U" then "under"
    else if typeSc == Some("U") && ps == "O" then "over"
    else if typeSc == Some("H") && ps == "W" then "handicap_home"
    else if typeSc == Some("H") && ps == "L" then "handicap_away"
    else if ps == "W" then "home"
    else if ps == "D" then "draw"
    else if ps == "L" then "away"
    else "home"
  }

  /** The conversion is total and each of its seven results is produced by exactly
      the inputs listed: over/under only on the `U` market, handicap sides only on the
      `H` market, and `home` also for every unrecognised state. */
  lemma BettingTypeTable(ps: string, typeSc: Option<string>)
    ensures var t := ConvertPredictStateToBettingType(ps, typeSc);
      && (t == "under" <==> typeSc == Some("U") && ps == "U")
      && (t == "over" <==> typeSc == Some("U") && ps == "O")
      && (t == "handicap_home" <==> typeSc == Some("H") && ps == "W")
      && (t == "handicap_away" <==> typeSc == Some("H") && ps == "L")
      && (t == "draw" <==> ps == "D")
      && (t == "away" <==> ps == "L" && typeSc != Some("H"))
      && (t == "home" <==> (ps == "W" && typeSc != Some("H"))
                           || (ps != "W" && ps != "D" && ps != "L" && !(typeSc == Some("U") && (ps == "U" || ps == "O"))))
  {
  }

  function GetOddsByPredictState(ps: string, w: string, d: string, l: string): string {
    if ps == "W" || ps == "U" then w
    else if ps == "D" then d
    else if ps == "L" || ps == "O" then l
    else w
  }

  const Under: string := "언더"
  const Over: string := "오버"
  const DrawSide: string := "무승부"

  function GetSelectedTeam(ps: string, home: string, away: string, typeSc: Option<string>): string {
    if typeSc == Some("U") then (if ps == "U" then Under else Over)
    else if ps == "W" || ps == "U" then home
    else if ps == "D" then DrawSide
    else if ps == "L" || ps == "O" then away
    else home
  }

  /** A state that belongs to the market: `U`/`O` on over/under, `W`/`D`/`L` otherwise. */
  predicate MarketState(ps: string, typeSc: Option<string>) {
    if typeSc == Some("U") then ps == "U" || ps == "O" else ps == "W" || ps == "D" || ps == "L"
  }

  /** For a state of its market, the betting type, the odds and the selected side
      agree: home-side types take the win odds and the home team, away-side types the
      loss odds and the away team, a draw the draw odds, and under/over the win/loss
      odds with the over/under label. */
  lemma BookmarkReadingAgrees(ps: string, typeSc: Option<string>, w: string, d: string, l: string, home: string, away: string)
    requires MarketState(ps, typeSc)
    ensures var t, odds, team := ConvertPredictStateToBettingType(ps, typeSc), GetOddsByPredictState(ps, w, d, l),
                                  GetSelectedTeam(ps, home, away, typeSc);
      && ((t == "home" || t == "handicap_home") ==> odds == w && team == home)
      && ((t == "away" || t == "handicap_away") ==> odds == l && team == away)
      && (t == "draw" ==> odds == d && team == DrawSide)
      && (t == "under" ==> odds == w && team == Under)
      && (t == "over" ==> odds == l && team == Over)
  {
  }

  /** The odds and the side depend only on the state: `W`/`U` win odds, `D` draw
      odds, `L`/`O` loss odds, and the win odds for anything else. */
  lemma OddsTable(ps: string, w: string, d: string, l: string)
    ensures var o := GetOddsByPredictState(ps, w, d, l);
      && ((ps == "W" || ps == "U") ==> o == w)
      && (ps == "D" ==> o == d)
      && ((ps == "L" || ps == "O") ==> o == l)
      && (ps != "W" && ps != "U" && ps != "D" && ps != "L" && ps != "O" ==> o == w)
  {
  }

  /** On the over/under market the side is `언더` exactly for state `U`, and `오버`
      otherwise; elsewhere `W`/`U` and unknown states give the home team, `D` the draw
      label, and `L`/`O` the away team. */
  lemma SelectedTeamTable(ps: string, home: string, away: string, typeSc: Option<string>)
    ensures var t := GetSelectedTeam(ps, home, away, typeSc);
      && (typeSc == Some("U") ==> (t == Under <==> ps == "U") && (t == Under || t == Over))
      && (typeSc != Some("U") ==>
            && ((ps == "W" || ps == "U") ==> t == home)
            && (ps == "D" ==> t == DrawSide)
            && ((ps == "L" || ps == "O") ==> t == away)
            && (ps != "W" && ps != "U" && ps != "D" && ps != "L" && ps != "O" ==> t == home))
  {
  }

  // ---------------------------------------------------------------------------
  // Betting items.

  /** The first selected game with the bookmark's game number; an absent number
      matches a game without one. */
  function FindGame(games: seq<GameInfo>, gameNo: Option<string>): (r: Option<GameInfo>)
    ensures r.None? <==> forall i :: 0 <= i < |games| ==> games[i].gameNo != gameNo
    ensures r.Some? ==> exists i :: 0 <= i < |games| && games[i] == r.value && games[i].gameNo == gameNo
                                    && forall j :: 0 <= j < i ==> games[j].gameNo != gameNo
  {
    if games == [] then None
    else if games[0].gameNo == gameNo then Some(games[0])
    else
      var r := FindGame(games[1..], gameNo);
      assert r.Some? ==> exists i :: 0 <= i < |games[1..]| && games[1..][i] == r.value && games[1..][i].gameNo == gameNo
                                     && forall j :: 0 <= j < i ==> games[1..][j].gameNo != gameNo;
      if r.Some? then
        var i :| 0 <= i < |games[1..]| && games[1..][i] == r.value && games[1..][i].gameNo == gameNo
                 && forall j :: 0 <= j < i ==> games[1..][j].gameNo != gameNo;
        assert games[i + 1] == r.value && forall j :: 0 < j < i + 1 ==> games[j] == games[1..][j - 1];
        r
      else r
  }

  /** The stake of each game: the total divided by the number of bookmarks, rounded
      down (Dafny's division by a positive divisor rounds down). */
  function Share(price: int, n: nat): int {
    if n == 0 then 0 else price / n
  }

  function MakeItem(b: Bookmark, g: GameInfo, share: int): BettingItem {
    BettingItem(
      g.gameId,
      ConvertPredictStateToBettingType(b.predictState, b.typeSc),
      GetSelectedTeam(b.predictState, g.homeTeamName, g.awayTeamName, b.typeSc),
      GetOddsByPredictState(b.predictState, b.wBetRt, if b.dBetRt.Some? then b.dBetRt.value else "", b.lBetRt),
      share)
  }

  datatype CreateError =
    | NoBookmarks
    | BelowMinimum
    | CountMismatch
    | GameNotFound(gameNo: Option<string>)

  predicate AllFound(bookmarks: seq<Bookmark>, games: seq<GameInfo>) {
    forall i :: 0 <= i < |bookmarks| ==> FindGame(games, bookmarks[i].gameNo).Some?
  }

  /** The position of the first bookmark without a matching game, if any. */
  function FirstMissing(bookmarks: seq<Bookmark>, games: seq<GameInfo>): (r: Option<nat>)
    ensures r.None? <==> AllFound(bookmarks, games)
    ensures r.Some? ==> && r.value < |bookmarks|
                        && FindGame(games, bookmarks[r.value].gameNo).None?
                        && forall j :: 0 <= j < r.value ==> FindGame(games, bookmarks[j].gameNo).Some?
  {
    if bookmarks == [] then None
    else if FindGame(games, bookmarks[0].gameNo).None? then Some(0)
    else
      var tail := FirstMissing(bookmarks[1..], games);
      assert forall i :: 0 < i < |bookmarks| ==> bookmarks[i] == bookmarks[1..][i - 1];
      if tail.None? then None else Some(tail.value + 1)
  }

  /** Every bookmark in order becomes an item with the equal share of the stake; the
      first bookmark without a matching game aborts the whole list. */
  function CreateBettingItems(bookmarks: seq<Bookmark>, price: int, games: seq<GameInfo>): (r: Result<seq<BettingItem>, CreateError>)
    ensures r.Success? <==> AllFound(bookmarks, games)
    ensures r.Success? ==>
      && |r.value| == |bookmarks|
      && forall i :: 0 <= i < |bookmarks| ==>
           r.value[i] == MakeItem(bookmarks[i], FindGame(games, bookmarks[i].gameNo).value, Share(price, |bookmarks|))
    ensures r.Failure? ==>
      exists k :: && 0 <= k < |bookmarks| && FindGame(games, bookmarks[k].gameNo).None?
                  && r.error == GameNotFound(bookmarks[k].gameNo)
                  && forall j :: 0 <= j < k ==> FindGame(games, bookmarks[j].gameNo).Some?
  {
    match FirstMissing(bookmarks, games)
    case Some(k) => Failure(GameNotFound(bookmarks[k].gameNo))
    case None =>
      var share := Share(price, |bookmarks|);
      Success(seq(|bookmarks|, i requires 0 <= i < |bookmarks| =>
                                 MakeItem(bookmarks[i], FindGame(games, bookmarks[i].gameNo).value, share)))
  }

  function SumAmounts(items: seq<BettingItem>): int {
    if items == [] then 0 else items[0].bettingAmount + SumAmounts(items[1..])
  }

  lemma {:induction false} SumAmountsEqual(items: seq<BettingItem>, share: int)
    requires forall i :: 0 <= i < |items| ==> items[i].bettingAmount == share
    ensures SumAmounts(items) == |items| * share
  {
    if items != [] {
      SumAmountsEqual(items[1..], share);
    }
  }

  /** On success every item carries the same rounded-down share, so for a non-empty
      list the amounts add up to at most the stake and fall short of it by less than
      the number of bookmarks. */
  lemma CreateBettingItemsAmounts(bookmarks: seq<Bookmark>, price: int, games: seq<GameInfo>)
    requires bookmarks != []
    ensures var r := CreateBettingItems(bookmarks, price, games);
      r.Success? ==>
        && (forall i :: 0 <= i < |r.value| ==> r.value[i].bettingAmount == price / |bookmarks|)
        && price - |bookmarks| < SumAmounts(r.value) <= price
  {
    var share := Share(price, |bookmarks|);
    var r := CreateBettingItems(bookmarks, price, games);
    if r.Success? {
      SumAmountsEqual(r.value, share);
      var n := |bookmarks|;
      assert n * share <= price < n * share + n by {
        assert share * n + price % n == price;
      }
    }
  }

  // ---------------------------------------------------------------------------
  // Creation.

  const MinimumStake: int := 500

  /** The creation gates in order (no bookmarks, a stake under 500, a bookmark count
      different from the game count, a bookmark without its game), then a pending
      receipt stamped with the save time. */
  function CreateReceipt(receiptId: string, userNo: string, bookmarks: seq<Bookmark>, betPrice: int,
                         games: seq<GameInfo>, bettingType: string, now: int): Result<Receipt, CreateError>
  {
    if bookmarks == [] then Failure(NoBookmarks)
    else if betPrice < MinimumStake then Failure(BelowMinimum)
    else if |bookmarks| != |games| then Failure(CountMismatch)
    else
      match CreateBettingItems(bookmarks, betPrice, games)
      case Failure(e) => Failure(e)
      case Success(items) => Success(Receipt(receiptId, userNo, games, items, betPrice, Pending, bettingType, now))
  }

  /** Each gate rejects exactly the requests that pass the earlier gates and fail it;
      an accepted receipt is pending, holds the games and one item per bookmark, and
      its items never exceed its total stake. */
  lemma CreateReceiptSpec(receiptId: string, userNo: string, bookmarks: seq<Bookmark>, betPrice: int,
                          games: seq<GameInfo>, bettingType: string, now: int)
    ensures var r := CreateReceipt(receiptId, userNo, bookmarks, betPrice, games, bettingType, now);
      && (r == Failure(NoBookmarks) <==> bookmarks == [])
      && (r == Failure(BelowMinimum) <==> bookmarks != [] && betPrice < 500)
      && (r == Failure(CountMismatch) <==> bookmarks != [] && betPrice >= 500 && |bookmarks| != |games|)
      && (r.Success? <==> bookmarks != [] && betPrice >= 500 && |bookmarks| == |games| && AllFound(bookmarks, games))
      && (r.Success? ==>
            && r.value.status == Pending && r.value.createdAt == now
            && r.value.receiptId == receiptId && r.value.userNo == userNo
            && r.value.selectedGames == games && r.value.totalBettingAmount == betPrice
            && |r.value.bettingItems| == |bookmarks|
            && SumAmounts(r.value.bettingItems) <= r.value.totalBettingAmount)
  {
    if bookmarks != [] {
      CreateBettingItemsAmounts(bookmarks, betPrice, games);
    }
  }

  // ---------------------------------------------------------------------------
  // Statistics.

  function CountStatus(rs: seq<Receipt>, status: string): nat {
    if rs == [] then 0 else CountStatus(rs[..|rs| - 1], status) + (if rs[|rs| - 1].status == status then 1 else 0)
  }

  function TotalStake(rs: seq<Receipt>): int {
    if rs == [] then 0 else TotalStake(rs[..|rs| - 1]) + rs[|rs| - 1].totalBettingAmount
  }

  /** Won bets over settled bets, as a percentage; 0 when nothing is settled. */
  function WinRate(won: nat, lost: nat): real {
    if won + lost > 0 then (won as real / (won + lost) as real) * 100.0 else 0.0
  }

  /** Rounded to two decimals. */
  function Rounded(x: real): real {
    Round(x * 100.0) as real / 100.0
  }

  /** The rate lies in [0, 100], reaches 100 exactly when nothing was lost and
      something won, and 0 exactly when nothing was won; the rounded rate stays in
      [0, 100]. */
  lemma WinRateBounds(won: nat, lost: nat)
    ensures 0.0 <= WinRate(won, lost) <= 100.0
    ensures WinRate(won, lost) == 100.0 <==> won > 0 && lost == 0
    ensures WinRate(won, lost) == 0.0 <==> won == 0
    ensures 0.0 <= Rounded(WinRate(won, lost)) <= 100.0
  {
    var rate := WinRate(won, lost);
    if won + lost > 0 {
      var n := (won + lost) as real;
      var q := won as real / n;
      assert q * n == won as real;
      assert won as real <= n;
      assert 0.0 <= q <= 1.0;
      assert rate == q * 100.0;
      if lost == 0 {
        assert n == won as real;
        assert q == 1.0;
      }
      if rate == 100.0 {
        assert q == 1.0;
        assert won as real == n;
      }
      if won == 0 { assert q == 0.0; }
      if rate == 0.0 {
        assert q == 0.0;
        assert won as real == 0.0 * n;
      }
    }
    assert 0.0 <= rate * 100.0 <= 10000.0;
    assert 0 <= Round(rate * 100.0) <= 10000;
  }

  function ReceiptsOf(rs: seq<Receipt>, userNo: string): seq<Receipt> {
    if rs == [] then []
    else ReceiptsOf(rs[..|rs| - 1], userNo) + (if rs[|rs| - 1].userNo == userNo then [rs[|rs| - 1]] else [])
  }

  datatype UserStats = UserStats(
    totalBets: nat,
    totalBettingAmount: int,
    winningBets: nat,
    losingBets: nat,
    pendingBets: nat,
    cancelledBets: nat,
    winRate: real)

  /** The per-user aggregate: counts by status, the total stake and the rounded win rate. */
  function UserBettingStats(rs: seq<Receipt>, userNo: string): UserStats {
    var mine := ReceiptsOf(rs, userNo);
    var won, lost := CountStatus(mine, Won), CountStatus(mine, Lost);
    UserStats(|mine|, TotalStake(mine), won, lost, CountStatus(mine, Pending), CountStatus(mine, Cancelled),
              Rounded(WinRate(won, lost)))
  }

  /** A further receipt that is neither won nor lost leaves the win rate unchanged. */
  lemma OpenReceiptKeepsWinRate(rs: seq<Receipt>, r: Receipt, userNo: string)
    requires r.status != Won && r.status != Lost
    ensures UserBettingStats(rs + [r], userNo).winRate == UserBettingStats(rs, userNo).winRate
    ensures UserBettingStats(rs + [r], userNo).totalBets == UserBettingStats(rs, userNo).totalBets + (if r.userNo == userNo then 1 else 0)
  {
    assert (rs + [r])[..|rs + [r]| - 1] == rs;
    var mine := ReceiptsOf(rs, userNo);
    if r.userNo == userNo {
      assert ReceiptsOf(rs + [r], userNo) == mine + [r];
      assert (mine + [r])[..|mine + [r]| - 1] == mine;
    } else {
      assert ReceiptsOf(rs + [r], userNo) == mine;
    }
  }

  /** The status counts never exceed the number of bets, and add up to it when every
      status is one of the four known ones. */
  lemma {:induction false} StatusCountsAddUp(rs: seq<Receipt>)
    ensures CountStatus(rs, Won) + CountStatus(rs, Lost) + CountStatus(rs, Pending) + CountStatus(rs, Cancelled) <= |rs|
    ensures (forall i :: 0 <= i < |rs| ==> rs[i].status in {Pending, Won, Lost, Cancelled}) ==>
      CountStatus(rs, Won) + CountStatus(rs, Lost) + CountStatus(rs, Pending) + CountStatus(rs, Cancelled) == |rs|
  {
    if rs != [] {
      var init := rs[..|rs| - 1];
      StatusCountsAddUp(init);
      if forall i :: 0 <= i < |rs| ==> rs[i].status in {Pending, Won, Lost, Cancelled} {
        assert forall i :: 0 <= i < |init| ==> init[i] == rs[i];
      }
    }
  }

  datatype OverallStats = OverallStats(
    totalBets: nat,
    totalAmount: int,
    avgBetAmount: int,
    totalUsers: nat,
    pendingBets: nat,
    completedBets: nat,
    winRate: real)

  function UsersOf(rs: seq<Receipt>): set<string> {
    set i | 0 <= i < |rs| :: rs[i].userNo
  }

  /** The aggregate over all receipts: the average stake rounded (0 without receipts),
      the distinct users, and the settled bets and win rate by the same formula as for
      one user. */
  function OverallBettingStats(rs: seq<Receipt>): OverallStats {
    var won, lost := CountStatus(rs, Won), CountStatus(rs, Lost);
    OverallStats(|rs|, TotalStake(rs),
                 if |rs| == 0 then 0 else Round(TotalStake(rs) as real / |rs| as real),
                 |UsersOf(rs)|, CountStatus(rs, Pending), won + lost, Rounded(WinRate(won, lost)))
  }

  /** The overall win rate is the per-user formula applied to all receipts, and the
      settled bets are exactly the won and lost ones. */
  lemma OverallMatchesUserFormula(rs: seq<Receipt>)
    ensures var o := OverallBettingStats(rs);
      && o.completedBets == CountStatus(rs, Won) + CountStatus(rs, Lost)
      && o.winRate == Rounded(WinRate(CountStatus(rs, Won), CountStatus(rs, Lost)))
      && 0.0 <= o.winRate <= 100.0
      && o.pendingBets + o.completedBets <= o.totalBets
  {
    WinRateBounds(CountStatus(rs, Won), CountStatus(rs, Lost));
    StatusCountsAddUp(rs);
  }
}
