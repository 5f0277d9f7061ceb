/** The team card: wins, losses and a win percentage out of 100. */
module TeamCard {
  import opened Domain
  import opened Aggregation
  import TeamsApi
  import StandingsApi

  /** `(team.wins || 0) + (team.losses || 0)`. */
  function TotalGames(t: TeamWithStats): nat
  {
    OrZero(t.wins) + OrZero(t.losses)
  }

  /** What the card shows for wins, losses and the win percentage; the
      percentage is the exact value before it is rounded to one decimal.
      `wins / totalGames * 100` is written with the shared win fraction,
      which is `wins / totalGames` whenever `totalGames > 0`. */
  datatype CardView = CardView(wins: nat, losses: nat, winPercent: real)

  function View(t: TeamWithStats): (v: CardView)
    ensures v.wins == OrZero(t.wins) && v.losses == OrZero(t.losses)
    ensures v.wins + v.losses == TotalGames(t)
    ensures t.wins.None? ==> v.wins == 0
    ensures t.losses.None? ==> v.losses == 0
    ensures 0.0 <= v.winPercent <= 100.0
    ensures TotalGames(t) == 0 ==> v.winPercent == 0.0
    ensures TotalGames(t) > 0 ==> v.winPercent * TotalGames(t) as real == 100.0 * v.wins as real
  {
    var totalGames := TotalGames(t);
    var wins := OrZero(t.wins);
    var winPercent := if totalGames > 0 then WinFraction(wins, OrZero(t.losses)) * 100.0 else 0.0;
    CardView(wins, OrZero(t.losses), winPercent)
  }

  /** The card of an enriched team shows, out of 100, the same win fraction
      the standings endpoint reports for that team. */
  lemma CardAgreesWithStandings(t: TeamRecord)
    ensures View(TeamsApi.Enrich(t)).winPercent == 100.0 * StandingsApi.StandingOf(t).winPercentage
  {
    var row := TeamsApi.Enrich(t);
    assert OrZero(row.wins) == StandingsApi.StandingOf(t).wins;
    assert OrZero(row.losses) == StandingsApi.StandingOf(t).losses;
  }
}
