/** Records of the betting-receipt schema that the recommendation engine and the
    receipt rules read: games, betting items and receipts. */
module Domain {

  datatype Option<+T> = None | Some(value: T)

  datatype Result<+T, +E> = Success(value: T) | Failure(error: E)

  /** `Math.round`: the nearest integer, halves rounded up. */
  function Round(x: real): int {
    (x + 0.5).Floor
  }

  /** Milliseconds in one day. */
  const DayMs: int := 86400000

  /** A game as stored in a receipt (`GameInfo`), also the shape of a candidate game
      supplied by the caller. Fields the source treats as possibly absent are options. */
  datatype GameInfo = GameInfo(
    gameId: string,
    gameNo: Option<string>,
    compe: string,
    leagueId: string,
    leagueName: string,
    matchDate: string,
    matchTime: string,
    homeTeamName: string,
    awayTeamName: string,
    handicapScore: Option<string>,
    homeBetRt: Option<string>,
    awayBetRt: Option<string>)

  /** One wager inside a receipt. */
  datatype BettingItem = BettingItem(
    gameId: string,
    bettingType: string,
    selectedTeam: string,
    odds: string,
    bettingAmount: int)

  /** A stored receipt. `createdAt` is a timestamp in milliseconds. */
  datatype Receipt = Receipt(
    receiptId: string,
    userNo: string,
    selectedGames: seq<GameInfo>,
    bettingItems: seq<BettingItem>,
    totalBettingAmount: int,
    status: string,
    bettingType: string,
    createdAt: int)

  const Pending: string := "pending"
  const Won: string := "won"
  const Lost: string := "lost"
  const Cancelled: string := "cancelled"
}
