/** The teams page: the conference filter and the conference summary's
    win and loss totals. */
module TeamsPage {
  import opened Seqs
  import opened Domain

  /** The button value that disables the conference filter. */
  const AllConferences: string := "All"

  function InConference(conference: string): TeamWithStats -> bool
  {
    (t: TeamWithStats) => t.base.team.conference == conference
  }

  /** The filter effect: every team under 'All', otherwise the teams of the
      selected conference. */
  function FilterByConference(teams: seq<TeamWithStats>, selected: string): (r: seq<TeamWithStats>)
    ensures |r| <= |teams|
    ensures selected == AllConferences ==> r == teams
  {
    if selected == AllConferences then teams
    else Filter(InConference(selected), teams)
  }

  /** A team is shown exactly when it is in the selected conference, or the
      selection is 'All'. */
  lemma ConferenceFilterMembers(teams: seq<TeamWithStats>, selected: string)
    ensures forall t :: t in FilterByConference(teams, selected) <==>
      t in teams && (selected == AllConferences || t.base.team.conference == selected)
  {
    if selected != AllConferences {
      FilterMembers(InConference(selected), teams);
    }
  }

  /** The filter keeps the fetched order. */
  lemma ConferenceFilterKeepsOrder(teams: seq<TeamWithStats>, selected: string)
    ensures Subsequence(FilterByConference(teams, selected), teams)
  {
    if selected == AllConferences {
      SubsequenceRefl(teams);
    } else {
      FilterIsSubsequence(InConference(selected), teams);
    }
  }

  function ShownWins(t: TeamWithStats): int { OrZero(t.wins) }
  function ShownLosses(t: TeamWithStats): int { OrZero(t.losses) }

  /** "Total Wins": `reduce((sum, team) => sum + (team.wins || 0), 0)`. */
  function TotalWins(teams: seq<TeamWithStats>): int
  {
    SumOf(ShownWins, teams)
  }

  /** "Total Losses": `reduce((sum, team) => sum + (team.losses || 0), 0)`. */
  function TotalLosses(teams: seq<TeamWithStats>): int
  {
    SumOf(ShownLosses, teams)
  }

  /** The summary box shown under a selected conference. */
  datatype ConferenceSummary = ConferenceSummary(teamCount: nat, totalWins: int, totalLosses: int)

  function Summary(teams: seq<TeamWithStats>, selected: string): (r: Option<ConferenceSummary>)
    ensures r.None? <==> selected == AllConferences
    ensures r.Some? ==> r.value.teamCount == |FilterByConference(teams, selected)| <= |teams|
    ensures r.Some? ==> r.value.totalWins == TotalWins(FilterByConference(teams, selected)) >= 0
    ensures r.Some? ==> r.value.totalLosses == TotalLosses(FilterByConference(teams, selected)) >= 0
  {
    if selected == AllConferences then None
    else
      var shown := FilterByConference(teams, selected);
      TotalsAreNonNegative(shown);
      Some(ConferenceSummary(|shown|, TotalWins(shown), TotalLosses(shown)))
  }

  lemma {:induction false} TotalsAreNonNegative(teams: seq<TeamWithStats>)
    ensures TotalWins(teams) >= 0 && TotalLosses(teams) >= 0
  {
    if teams != [] {
      TotalsAreNonNegative(teams[1..]);
    }
  }

  /** With every team in the Eastern or the Western conference, the two
      conference summaries split the league's wins and losses exactly. */
  lemma ConferenceTotalsSplit(teams: seq<TeamWithStats>)
    requires forall t :: t in teams ==> t.base.team.conference in {"Eastern", "Western"}
    ensures TotalWins(FilterByConference(teams, "Eastern")) + TotalWins(FilterByConference(teams, "Western"))
      == TotalWins(teams)
    ensures TotalLosses(FilterByConference(teams, "Eastern")) + TotalLosses(FilterByConference(teams, "Western"))
      == TotalLosses(teams)
  {
    var east, west := InConference("Eastern"), InConference("Western");
    assert forall t :: t in teams ==> east(t) != west(t);
    SumOverPartition(ShownWins, east, west, teams);
    SumOverPartition(ShownLosses, east, west, teams);
  }
}
