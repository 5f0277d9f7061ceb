/** The standings endpoint: one line per team with its wins, losses and
    guarded win percentage, sorted by win percentage, best first. */
module StandingsApi {
  import opened Seqs
  import opened StableSort
  import opened Domain
  import opened Aggregation

  /** The standings line of one team: the callback of the endpoint's `map`. */
  function StandingOf(t: TeamRecord): (s: Standing)
    ensures s.team == t
    ensures s.wins == |Filter(HomeWin, t.homeGames)| + |Filter(AwayWin, t.awayGames)|
    ensures s.losses == |Filter(HomeLoss, t.homeGames)| + |Filter(AwayLoss, t.awayGames)|
    ensures s.wins + s.losses == |t.homeGames| + |t.awayGames|
    ensures s.winPercentage == WinFraction(s.wins, s.losses)
    ensures 0.0 <= s.winPercentage <= 1.0
    ensures s.wins + s.losses == 0 ==> s.winPercentage == 0.0
  {
    var r := RecordOf(t);
    Standing(t, r.wins, r.losses, WinFraction(r.wins, r.losses))
  }

  /** The sort key of the endpoint's comparator `b.winPercentage - a.winPercentage`. */
  function StandingKey(s: Standing): real
  {
    s.winPercentage
  }

  function TeamOf(s: Standing): TeamRecord
  {
    s.team
  }

  /** The standings of the fetched teams, best win percentage first. */
  function Standings(teams: seq<TeamRecord>): (r: seq<Standing>)
    ensures |r| == |teams|
    ensures SortedDesc(StandingKey, r)
    ensures multiset(r) == multiset(Map(StandingOf, teams))
  {
    SortDesc(StandingKey, Map(StandingOf, teams))
  }

  /** The handler's `map`, written as a loop building one line per team
      with the `forEach` scans, then the sort. */
  method ComputeStandings(teams: seq<TeamRecord>) returns (r: seq<Standing>)
    ensures r == Standings(teams)
  {
    var lines: seq<Standing> := [];
    var i := 0;
    while i < |teams|
      invariant 0 <= i <= |teams|
      invariant lines == Map(StandingOf, teams[..i])
    {
      var team := teams[i];
      var line := ScanTeam(team);
      lines := lines + [line];
      assert teams[..i + 1] == teams[..i] + [team];
      MapAppend(StandingOf, teams[..i], [team]);
      i := i + 1;
    }
    assert teams[..i] == teams;
    r := SortDesc(StandingKey, lines);
  }

  /** The body of the endpoint's `map` callback as written. */
  method ScanTeam(team: TeamRecord) returns (s: Standing)
    ensures s == StandingOf(team)
  {
    var wins, losses := ScanRecord(team);
    var totalGames := wins + losses;
    var winPercentage := if totalGames > 0 then wins as real / totalGames as real else 0.0;
    s := Standing(team, wins, losses, winPercentage);
  }

  /** Every line of the standings belongs to a fetched team and carries that
      team's own record. */
  lemma StandingsArePerTeam(teams: seq<TeamRecord>)
    ensures forall s :: s in Standings(teams) ==> s.team in teams && s == StandingOf(s.team)
  {
    var lines := Map(StandingOf, teams);
    forall s | s in Standings(teams)
      ensures s.team in teams && s == StandingOf(s.team)
    {
      assert s in multiset(Standings(teams));
      assert s in multiset(lines);
      var i :| 0 <= i < |lines| && lines[i] == s;
      assert s.team == teams[i];
    }
  }

  /** The standings list every fetched team exactly as often as it was
      fetched, with its team record unchanged. */
  lemma StandingsPermuteTeams(teams: seq<TeamRecord>)
    ensures multiset(Map(TeamOf, Standings(teams))) == multiset(teams)
  {
    var lines := Map(StandingOf, teams);
    MapPermutation(TeamOf, Standings(teams), lines);
    assert Map(TeamOf, lines) == teams;
  }

  /** Teams with equal win percentage keep the order in which they were
      fetched. */
  lemma StandingsKeepTieOrder(teams: seq<TeamRecord>)
    ensures TiesInSameOrder(StandingKey, Map(StandingOf, teams), Standings(teams))
  {
    SortIsStable(StandingKey, Map(StandingOf, teams));
  }

  /** The first team of the seed data, with id 1, for the worked examples
      below. */
  const SampleTeam: Team := Team(1, "Los Angeles Lakers", "Los Angeles", "LAL", "Western", "Pacific")

  /** A home win 110-90 and an away loss 95-100: one win, one loss, a win
      percentage of one half. */
  lemma ExampleSplitRecord()
    ensures var t := TeamRecord(SampleTeam,
                                [Game(1, "2024-01-01", 1, 2, 110, 90, "2023-24", "Regular Season")],
                                [Game(2, "2024-01-03", 3, 1, 100, 95, "2023-24", "Regular Season")]);
            var s := StandingOf(t);
            s.wins == 1 && s.losses == 1 && s.winPercentage == 0.5
  {
    var home := [Game(1, "2024-01-01", 1, 2, 110, 90, "2023-24", "Regular Season")];
    var away := [Game(2, "2024-01-03", 3, 1, 100, 95, "2023-24", "Regular Season")];
    assert Filter(HomeWin, home) == home;
    assert Filter(AwayWin, away) == [];
  }

  /** A team without games stands at zero wins, zero losses and zero. */
  lemma ExampleNoGames()
    ensures var s := StandingOf(TeamRecord(SampleTeam, [], []));
            s.wins == 0 && s.losses == 0 && s.winPercentage == 0.0
  {
  }

  /** A tied home game 100-100 is a loss. */
  lemma ExampleTieIsLoss()
    ensures var s := StandingOf(TeamRecord(SampleTeam,
                                           [Game(3, "2024-01-05", 1, 2, 100, 100, "2023-24", "Regular Season")],
                                           []));
            s.wins == 0 && s.losses == 1 && s.winPercentage == 0.0
  {
    var home := [Game(3, "2024-01-05", 1, 2, 100, 100, "2023-24", "Regular Season")];
    assert Filter(HomeWin, home) == [];
  }

  /** The seed data's Lakers: a home win 112-108 over the Warriors, an away
      loss 96-110 at the Heat and a home loss 105-114 to the Nuggets give
      one win, two losses and a win percentage of one third. */
  lemma ExampleSeedLakers()
    ensures var t := TeamRecord(SampleTeam,
                                [Game(1, "2024-01-15", 1, 2, 112, 108, "2023-24", "Regular Season"),
                                 Game(9, "2024-02-05", 1, 4, 105, 114, "2023-24", "Regular Season")],
                                [Game(6, "2024-01-28", 6, 1, 110, 96, "2023-24", "Regular Season")]);
            var s := StandingOf(t);
            s.wins == 1 && s.losses == 2 && s.winPercentage * 3.0 == 1.0
  {
    var win := Game(1, "2024-01-15", 1, 2, 112, 108, "2023-24", "Regular Season");
    var loss := Game(9, "2024-02-05", 1, 4, 105, 114, "2023-24", "Regular Season");
    var away := [Game(6, "2024-01-28", 6, 1, 110, 96, "2023-24", "Regular Season")];
    assert [win, loss][1..] == [loss];
    assert Filter(HomeWin, [win, loss]) == [win];
    assert Filter(AwayWin, away) == [];
  }
}
