/** League-wide consequences of the per-team scan.

    The team query includes, for every team, the games it hosted and the
    games it visited. When team ids are distinct and every game names two
    fetched teams, each game is seen exactly twice: once in its home team's
    list and once in its away team's list. Because a tied game is a loss
    for both sides, the league's total wins fall short of the number of
    games by the number of ties, and its total losses exceed it by the
    same amount. */
module League {
  import opened Seqs
  import opened Domain
  import opened Aggregation
  import TeamsApi
  import TeamsPage

  function HostedBy(id: nat): Game -> bool
  {
    (g: Game) => g.homeTeamId == id
  }

  function VisitedBy(id: nat): Game -> bool
  {
    (g: Game) => g.awayTeamId == id
  }

  /** The row the team query returns when it includes the team's home and
      away games: each game the team hosted (visited) appears in its home
      (away) list as often as in the game list, in the game list's order. */
  function RecordFor(t: Team, games: seq<Game>): (r: TeamRecord)
    ensures r.team == t
    ensures forall g :: g in r.homeGames <==> g in games && g.homeTeamId == t.id
    ensures forall g :: g in r.awayGames <==> g in games && g.awayTeamId == t.id
    ensures forall g :: multiset(r.homeGames)[g] == if g.homeTeamId == t.id then multiset(games)[g] else 0
    ensures forall g :: multiset(r.awayGames)[g] == if g.awayTeamId == t.id then multiset(games)[g] else 0
    ensures Subsequence(r.homeGames, games) && Subsequence(r.awayGames, games)
  {
    FilterMembers(HostedBy(t.id), games);
    FilterMembers(VisitedBy(t.id), games);
    forall g
      ensures multiset(Filter(HostedBy(t.id), games))[g] == if g.homeTeamId == t.id then multiset(games)[g] else 0
      ensures multiset(Filter(VisitedBy(t.id), games))[g] == if g.awayTeamId == t.id then multiset(games)[g] else 0
    {
      FilterMultiplicity(HostedBy(t.id), games, g);
      FilterMultiplicity(VisitedBy(t.id), games, g);
    }
    FilterIsSubsequence(HostedBy(t.id), games);
    FilterIsSubsequence(VisitedBy(t.id), games);
    TeamRecord(t, Filter(HostedBy(t.id), games), Filter(VisitedBy(t.id), games))
  }

  /** The rows of all teams, in fetch order. */
  function LeagueRecords(teams: seq<Team>, games: seq<Game>): (r: seq<TeamRecord>)
    ensures |r| == |teams|
    ensures forall i :: 0 <= i < |teams| ==> r[i] == RecordFor(teams[i], games)
  {
    if teams == [] then [] else [RecordFor(teams[0], games)] + LeagueRecords(teams[1..], games)
  }

  function Ids(teams: seq<Team>): set<nat>
  {
    set t | t in teams :: t.id
  }

  /** Distinct team ids, and every game between two fetched teams. */
  predicate WellFormedLeague(teams: seq<Team>, games: seq<Game>)
  {
    && (forall i, j :: 0 <= i < j < |teams| ==> teams[i].id != teams[j].id)
    && (forall g :: g in games ==> g.homeTeamId in Ids(teams) && g.awayTeamId in Ids(teams))
  }

  /** How many of `games` credit team `id`: hosted games satisfying `hp` plus
      visited games satisfying `ap`. */
  function Credited(id: nat, games: seq<Game>, hp: Game -> bool, ap: Game -> bool): nat
  {
    |Filter(hp, Filter(HostedBy(id), games))| + |Filter(ap, Filter(VisitedBy(id), games))|
  }

  function LeagueCredited(teams: seq<Team>, games: seq<Game>, hp: Game -> bool, ap: Game -> bool): nat
  {
    if teams == [] then 0 else Credited(teams[0].id, games, hp, ap) + LeagueCredited(teams[1..], games, hp, ap)
  }

  /** One more game credits a team at most once as host and once as visitor. */
  lemma CreditedCons(id: nat, g: Game, rest: seq<Game>, hp: Game -> bool, ap: Game -> bool)
    ensures Credited(id, [g] + rest, hp, ap)
      == Credited(id, rest, hp, ap)
         + (if g.homeTeamId == id && hp(g) then 1 else 0)
         + (if g.awayTeamId == id && ap(g) then 1 else 0)
  {
    var games := [g] + rest;
    assert games[0] == g && games[1..] == rest;
    var hosted, visited := Filter(HostedBy(id), rest), Filter(VisitedBy(id), rest);
    if g.homeTeamId == id {
      assert Filter(HostedBy(id), games) == [g] + hosted;
      assert ([g] + hosted)[0] == g && ([g] + hosted)[1..] == hosted;
    } else {
      assert Filter(HostedBy(id), games) == hosted;
    }
    if g.awayTeamId == id {
      assert Filter(VisitedBy(id), games) == [g] + visited;
      assert ([g] + visited)[0] == g && ([g] + visited)[1..] == visited;
    } else {
      assert Filter(VisitedBy(id), games) == visited;
    }
  }

  /** One more game credits the league once as host and once as visitor,
      provided its teams are fetched and ids are distinct. */
  lemma {:induction false} LeagueCreditedCons(teams: seq<Team>, g: Game, rest: seq<Game>, hp: Game -> bool, ap: Game -> bool)
    requires forall i, j :: 0 <= i < j < |teams| ==> teams[i].id != teams[j].id
    ensures LeagueCredited(teams, [g] + rest, hp, ap)
      == LeagueCredited(teams, rest, hp, ap)
         + (if g.homeTeamId in Ids(teams) && hp(g) then 1 else 0)
         + (if g.awayTeamId in Ids(teams) && ap(g) then 1 else 0)
  {
    if teams != [] {
      var t := teams[0];
      CreditedCons(t.id, g, rest, hp, ap);
      LeagueCreditedCons(teams[1..], g, rest, hp, ap);
      assert Ids(teams) == {t.id} + Ids(teams[1..]) by {
        assert forall u :: u in teams <==> u == t || u in teams[1..];
      }
      assert t.id !in Ids(teams[1..]);
    } else {
      assert Ids(teams) == {};
    }
  }

  /** Each game is credited exactly twice across the league: through `hp` to
      its home team and through `ap` to its away team. */
  lemma {:induction false} EveryGameCreditedTwice(teams: seq<Team>, games: seq<Game>, hp: Game -> bool, ap: Game -> bool)
    requires WellFormedLeague(teams, games)
    ensures LeagueCredited(teams, games, hp, ap) == |Filter(hp, games)| + |Filter(ap, games)|
  {
    if games == [] {
      NoGamesNoCredit(teams, hp, ap);
    } else {
      var g, rest := games[0], games[1..];
      assert games == [g] + rest;
      assert forall x :: x in rest ==> x in games;
      EveryGameCreditedTwice(teams, rest, hp, ap);
      LeagueCreditedCons(teams, g, rest, hp, ap);
    }
  }

  lemma {:induction false} NoGamesNoCredit(teams: seq<Team>, hp: Game -> bool, ap: Game -> bool)
    ensures LeagueCredited(teams, [], hp, ap) == 0
  {
    if teams != [] {
      NoGamesNoCredit(teams[1..], hp, ap);
    }
  }

  /** Every game is a home win, an away win or a tie. */
  lemma {:induction false} OutcomesPartitionGames(games: seq<Game>)
    ensures |Filter(HomeWin, games)| + |Filter(AwayWin, games)| + |Filter(Tied, games)| == |games|
  {
    if games != [] {
      GameOutcome(games[0]);
      OutcomesPartitionGames(games[1..]);
    }
  }

  /** The teams endpoint's rows add up, over the league, to the credits of
      the scan's classification. */
  lemma {:induction false} TotalsAreCredits(teams: seq<Team>, games: seq<Game>)
    ensures TeamsPage.TotalWins(TeamsApi.TeamsWithStats(LeagueRecords(teams, games)))
      == LeagueCredited(teams, games, HomeWin, AwayWin)
    ensures TeamsPage.TotalLosses(TeamsApi.TeamsWithStats(LeagueRecords(teams, games)))
      == LeagueCredited(teams, games, HomeLoss, AwayLoss)
  {
    var rows := TeamsApi.TeamsWithStats(LeagueRecords(teams, games));
    if teams != [] {
      TotalsAreCredits(teams[1..], games);
      var rest := TeamsApi.TeamsWithStats(LeagueRecords(teams[1..], games));
      assert LeagueRecords(teams, games)[1..] == LeagueRecords(teams[1..], games);
      assert rows[1..] == rest;
      assert rows[0] == TeamsApi.Enrich(RecordFor(teams[0], games));
    }
  }

  /** League totals on the teams page: wins fall short of the number of games
      by the number of ties, and losses exceed it by the same amount. */
  lemma LeagueTotals(teams: seq<Team>, games: seq<Game>)
    requires WellFormedLeague(teams, games)
    ensures TeamsPage.TotalWins(TeamsApi.TeamsWithStats(LeagueRecords(teams, games)))
      + |Filter(Tied, games)| == |games|
    ensures TeamsPage.TotalLosses(TeamsApi.TeamsWithStats(LeagueRecords(teams, games)))
      == |games| + |Filter(Tied, games)|
  {
    TotalsAreCredits(teams, games);
    EveryGameCreditedTwice(teams, games, HomeWin, AwayWin);
    EveryGameCreditedTwice(teams, games, HomeLoss, AwayLoss);
    OutcomesPartitionGames(games);
    FilterComplementLength(HomeWin, HomeLoss, games);
    FilterComplementLength(AwayWin, AwayLoss, games);
  }
}
