/** The game card: which side is named the winner and which side's name and
    score are emphasised. The card decides by one comparison, "home score
    strictly larger"; every other game, a tie included, goes to the away
    team. */
module GameCard {
  import opened Domain
  import opened Aggregation

  datatype Side = Home | Away

  /** What the card shows beyond the raw fields: the team named in
      "... wins", and for each side whether its name is bold and its score
      red. */
  datatype CardView = CardView(
    winner: Team,
    awayBold: bool,
    awayRed: bool,
    homeBold: bool,
    homeRed: bool)

  /** The side the card treats as the winner. */
  function WinnerSide(g: Game): (s: Side)
    ensures s == Home <==> g.homeScore > g.awayScore
    ensures s == Away <==> g.homeScore <= g.awayScore
  {
    if g.homeScore > g.awayScore then Home else Away
  }

  function TeamOn(g: GameWithTeams, s: Side): Team
  {
    match s
    case Home => g.homeTeam
    case Away => g.awayTeam
  }

  /** The card: exactly one side is emphasised, its name bold and its score
      red, and that side's team is the one named winner. */
  function View(g: GameWithTeams): (v: CardView)
    ensures v.homeBold != v.awayBold
    ensures v.homeRed == v.homeBold && v.awayRed == v.awayBold
    ensures v.homeBold <==> g.game.homeScore > g.game.awayScore
    ensures v.homeBold ==> v.winner == g.homeTeam
    ensures v.awayBold ==> v.winner == g.awayTeam
  {
    var isHomeWin := g.game.homeScore > g.game.awayScore;
    CardView(TeamOn(g, WinnerSide(g.game)), !isHomeWin, !isHomeWin, isHomeWin, isHomeWin)
  }

  /** In a decided game the card emphasises exactly the side the standings
      scan credits with the win, and names that side's team. */
  lemma CardAgreesWithScan(g: GameWithTeams)
    requires !Tied(g.game)
    ensures View(g).homeBold <==> HomeWin(g.game)
    ensures View(g).awayBold <==> AwayWin(g.game)
    ensures HomeWin(g.game) ==> View(g).winner == g.homeTeam && AwayLoss(g.game)
    ensures AwayWin(g.game) ==> View(g).winner == g.awayTeam && HomeLoss(g.game)
  {
  }

  /** In a tied game the card names the away team the winner and emphasises
      it, while the scan counts the game as a loss for both teams. */
  lemma TieGoesToAwayOnCard(g: GameWithTeams)
    requires Tied(g.game)
    ensures View(g).winner == g.awayTeam
    ensures View(g).awayBold && !View(g).homeBold
    ensures HomeLoss(g.game) && AwayLoss(g.game)
    ensures !AwayWin(g.game)
  {
  }
}
