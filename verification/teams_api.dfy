/** The teams endpoint: every fetched team, in fetch order, with `wins` and
    `losses` added by the same home/away scan as the standings endpoint. */
module TeamsApi {
  import opened Seqs
  import opened Domain
  import opened Aggregation
  import StandingsApi

  /** `{ ...team, wins, losses }`: the team row is carried unchanged and the
      two counts are added. */
  function Enrich(t: TeamRecord): (r: TeamWithStats)
    ensures r.base == t
    ensures r.wins == Some(|Filter(HomeWin, t.homeGames)| + |Filter(AwayWin, t.awayGames)|)
    ensures r.losses == Some(|Filter(HomeLoss, t.homeGames)| + |Filter(AwayLoss, t.awayGames)|)
    ensures OrZero(r.wins) + OrZero(r.losses) == |t.homeGames| + |t.awayGames|
  {
    var record := RecordOf(t);
    TeamWithStats(t, Some(record.wins), Some(record.losses))
  }

  /** The endpoint's `map`: one enriched row per fetched team, position by
      position. */
  function TeamsWithStats(teams: seq<TeamRecord>): (r: seq<TeamWithStats>)
    ensures |r| == |teams|
    ensures forall i :: 0 <= i < |teams| ==> r[i].base == teams[i] && r[i] == Enrich(teams[i])
  {
    Map(Enrich, teams)
  }

  /** The handler's `map`, written as a loop running the `forEach` scans
      per team. */
  method ComputeTeamsWithStats(teams: seq<TeamRecord>) returns (r: seq<TeamWithStats>)
    ensures r == TeamsWithStats(teams)
  {
    r := [];
    var i := 0;
    while i < |teams|
      invariant 0 <= i <= |teams|
      invariant r == Map(Enrich, teams[..i])
    {
      var team := teams[i];
      var row := EnrichTeam(team);
      r := r + [row];
      assert teams[..i + 1] == teams[..i] + [team];
      MapAppend(Enrich, teams[..i], [team]);
      i := i + 1;
    }
    assert teams[..i] == teams;
  }

  /** The body of the endpoint's `map` callback as written. */
  method EnrichTeam(team: TeamRecord) returns (row: TeamWithStats)
    ensures row == Enrich(team)
  {
    var wins, losses := ScanRecord(team);
    row := TeamWithStats(team, Some(wins), Some(losses));
  }

  /** An enriched row and a standings line describe the same team with the
      same record. */
  predicate ReportsSameRecord(row: TeamWithStats, s: Standing)
  {
    row.base == s.team && row.wins == Some(s.wins) && row.losses == Some(s.losses)
  }

  /** The two endpoints report the same record for a team: every standings
      line agrees with the enriched row of its team. */
  lemma EndpointsAgree(teams: seq<TeamRecord>)
    ensures forall s :: s in StandingsApi.Standings(teams) ==>
      exists i :: 0 <= i < |teams| && ReportsSameRecord(TeamsWithStats(teams)[i], s)
  {
    StandingsApi.StandingsArePerTeam(teams);
    forall s | s in StandingsApi.Standings(teams)
      ensures exists i :: 0 <= i < |teams| && ReportsSameRecord(TeamsWithStats(teams)[i], s)
    {
      var i :| 0 <= i < |teams| && teams[i] == s.team;
      assert TeamsWithStats(teams)[i] == Enrich(teams[i]);
    }
  }
}
