/** The win/loss classification of games and the per-team record.

    Both the standings endpoint and the teams endpoint scan a team's home
    games and then its away games. A home game is a win exactly when the
    home score is strictly larger and a loss otherwise; an away game is a
    win exactly when the away score is strictly larger and a loss
    otherwise. A tied game is therefore a loss for both teams. */
module Aggregation {
  import opened Seqs
  import opened Domain

  predicate HomeWin(g: Game) { g.homeScore > g.awayScore }
  predicate HomeLoss(g: Game) { !HomeWin(g) }
  predicate AwayWin(g: Game) { g.awayScore > g.homeScore }
  predicate AwayLoss(g: Game) { !AwayWin(g) }
  predicate Tied(g: Game) { g.homeScore == g.awayScore }

  datatype Record = Record(wins: nat, losses: nat)

  /** A team's record, counted game class by game class. */
  function RecordOf(t: TeamRecord): (r: Record)
    ensures r.wins + r.losses == |t.homeGames| + |t.awayGames|
  {
    FilterComplementLength(HomeWin, HomeLoss, t.homeGames);
    FilterComplementLength(AwayWin, AwayLoss, t.awayGames);
    Record(|Filter(HomeWin, t.homeGames)| + |Filter(AwayWin, t.awayGames)|,
           |Filter(HomeLoss, t.homeGames)| + |Filter(AwayLoss, t.awayGames)|)
  }

  /** The two `forEach` loops of the endpoints, incrementing `wins` or
      `losses` once per game: first over the home games, then over the away
      games. */
  method ScanRecord(t: TeamRecord) returns (wins: nat, losses: nat)
    ensures wins == |Filter(HomeWin, t.homeGames)| + |Filter(AwayWin, t.awayGames)|
    ensures losses == |Filter(HomeLoss, t.homeGames)| + |Filter(AwayLoss, t.awayGames)|
    ensures wins + losses == |t.homeGames| + |t.awayGames|
  {
    wins, losses := ScanHomeGames(t.homeGames);
    wins, losses := ScanAwayGames(t.awayGames, wins, losses);
    FilterComplementLength(HomeWin, HomeLoss, t.homeGames);
    FilterComplementLength(AwayWin, AwayLoss, t.awayGames);
  }

  /** The home-game loop, starting from zero counts. */
  method ScanHomeGames(home: seq<Game>) returns (wins: nat, losses: nat)
    ensures wins == |Filter(HomeWin, home)|
    ensures losses == |Filter(HomeLoss, home)|
  {
    wins, losses := 0, 0;
    var i := 0;
    while i < |home|
      invariant 0 <= i <= |home|
      invariant wins == |Filter(HomeWin, home[..i])|
      invariant losses == |Filter(HomeLoss, home[..i])|
    {
      var game := home[i];
      assert home[..i + 1] == home[..i] + [game];
      FilterSnoc(HomeWin, home[..i], game);
      FilterSnoc(HomeLoss, home[..i], game);
      if game.homeScore > game.awayScore {
        wins := wins + 1;
      } else {
        losses := losses + 1;
      }
      i := i + 1;
    }
    assert home[..i] == home;
  }

  /** The away-game loop, continuing the counts of the home-game loop. */
  method ScanAwayGames(away: seq<Game>, wins0: nat, losses0: nat) returns (wins: nat, losses: nat)
    ensures wins == wins0 + |Filter(AwayWin, away)|
    ensures losses == losses0 + |Filter(AwayLoss, away)|
  {
    wins, losses := wins0, losses0;
    var j := 0;
    while j < |away|
      invariant 0 <= j <= |away|
      invariant wins == wins0 + |Filter(AwayWin, away[..j])|
      invariant losses == losses0 + |Filter(AwayLoss, away[..j])|
    {
      var game := away[j];
      assert away[..j + 1] == away[..j] + [game];
      FilterSnoc(AwayWin, away[..j], game);
      FilterSnoc(AwayLoss, away[..j], game);
      if game.awayScore > game.homeScore {
        wins := wins + 1;
      } else {
        losses := losses + 1;
      }
      j := j + 1;
    }
    assert away[..j] == away;
  }

  /** Every game is exactly one of: a home win, an away win, a tie. A decided
      game credits one win and one loss; a tie credits no win and two
      losses. */
  lemma GameOutcome(g: Game)
    ensures (if HomeWin(g) then 1 else 0) + (if AwayWin(g) then 1 else 0) + (if Tied(g) then 1 else 0) == 1
    ensures (if HomeLoss(g) then 1 else 0) + (if AwayLoss(g) then 1 else 0) == (if Tied(g) then 2 else 1)
  {
  }

  /** The win fraction `wins / (wins + losses)`, guarded to be 0 when no game
      was played. */
  function WinFraction(wins: nat, losses: nat): (p: real)
    ensures 0.0 <= p <= 1.0
    ensures wins + losses == 0 ==> p == 0.0
    ensures wins + losses > 0 ==> p * (wins + losses) as real == wins as real
  {
    var total := wins + losses;
    if total > 0 then
      var p := wins as real / total as real;
      assert p * total as real == wins as real;
      p
    else 0.0
  }
}
