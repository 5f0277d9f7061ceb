/** The players page: the team and position filters and the position
    summary.

    The team selector's options carry `team.id.toString()` as their value,
    and the filter compares `player.team.id === parseInt(selectedTeam)`;
    a selection that parses to `NaN` matches no player. */
module PlayersPage {
  import opened Seqs
  import opened Domain
  import opened JsNumbers

  /** The value of the "All Teams" option and of the "All" position button. */
  const All: string := "All"

  function OnTeam(selectedTeam: string): PlayerWithTeam -> bool
  {
    (p: PlayerWithTeam) => ParseInt(selectedTeam) == Some(p.team.id as int)
  }

  function AtPosition(selectedPosition: string): PlayerWithTeam -> bool
  {
    (p: PlayerWithTeam) => p.position == selectedPosition
  }

  /** The option value of a team in the selector. */
  function OptionValue(t: TeamWithStats): string
  {
    DecimalString(t.base.team.id)
  }

  /** The filter effect: the team filter unless 'All' is selected, then the
      position filter unless 'All' is selected. */
  function ShownPlayers(players: seq<PlayerWithTeam>, selectedTeam: string, selectedPosition: string)
    : (r: seq<PlayerWithTeam>)
    ensures |r| <= |players|
    ensures selectedTeam == All && selectedPosition == All ==> r == players
  {
    var byTeam := if selectedTeam != All then Filter(OnTeam(selectedTeam), players) else players;
    if selectedPosition != All then Filter(AtPosition(selectedPosition), byTeam) else byTeam
  }

  /** A player is shown exactly when both active filters accept them. */
  predicate Selected(p: PlayerWithTeam, selectedTeam: string, selectedPosition: string)
  {
    && (selectedTeam == All || ParseInt(selectedTeam) == Some(p.team.id as int))
    && (selectedPosition == All || p.position == selectedPosition)
  }

  function SelectedBy(selectedTeam: string, selectedPosition: string): PlayerWithTeam -> bool
  {
    (p: PlayerWithTeam) => Selected(p, selectedTeam, selectedPosition)
  }

  /** The two filters in sequence are one filter by the conjunction of the
      active conditions. */
  lemma ShownIsOneFilter(players: seq<PlayerWithTeam>, selectedTeam: string, selectedPosition: string)
    ensures ShownPlayers(players, selectedTeam, selectedPosition)
      == Filter(SelectedBy(selectedTeam, selectedPosition), players)
  {
    var sel := SelectedBy(selectedTeam, selectedPosition);
    var team, pos := OnTeam(selectedTeam), AtPosition(selectedPosition);
    if selectedTeam != All && selectedPosition != All {
      FilterFilter(team, pos, sel, players);
    } else if selectedTeam != All {
      FilterSame(team, sel, players);
    } else if selectedPosition != All {
      FilterSame(pos, sel, players);
    } else {
      FilterKeepsAll(sel, players);
    }
  }

  /** Filters by pointwise equal predicates agree. */
  lemma {:induction false} FilterSame(p: PlayerWithTeam -> bool, q: PlayerWithTeam -> bool, s: seq<PlayerWithTeam>)
    requires forall x :: p(x) == q(x)
    ensures Filter(p, s) == Filter(q, s)
  {
    if s != [] {
      FilterSame(p, q, s[1..]);
    }
  }

  /** Soundness and completeness of the shown list. */
  lemma ShownPlayersMembers(players: seq<PlayerWithTeam>, selectedTeam: string, selectedPosition: string)
    ensures forall p ::
              p in ShownPlayers(players, selectedTeam, selectedPosition)
              <==> p in players && Selected(p, selectedTeam, selectedPosition)
  {
    ShownIsOneFilter(players, selectedTeam, selectedPosition);
    FilterMembers(SelectedBy(selectedTeam, selectedPosition), players);
  }

  /** The shown list keeps the fetched order. */
  lemma ShownPlayersKeepOrder(players: seq<PlayerWithTeam>, selectedTeam: string, selectedPosition: string)
    ensures Subsequence(ShownPlayers(players, selectedTeam, selectedPosition), players)
  {
    ShownIsOneFilter(players, selectedTeam, selectedPosition);
    FilterIsSubsequence(SelectedBy(selectedTeam, selectedPosition), players);
  }

  /** Choosing a team's option shows exactly that team's players (at the
      selected position): the option value parses back to the team's id. */
  lemma TeamOptionSelectsItsPlayers(players: seq<PlayerWithTeam>, t: TeamWithStats, selectedPosition: string)
    ensures forall p ::
              p in ShownPlayers(players, OptionValue(t), selectedPosition)
              <==> p in players && p.team.id == t.base.team.id
                   && (selectedPosition == All || p.position == selectedPosition)
  {
    var v := OptionValue(t);
    ParseIntOfDecimalString(t.base.team.id);
    assert v != All by {
      assert IsDecimalDigit(v[0]);
    }
    ShownPlayersMembers(players, v, selectedPosition);
  }

  /** A selection that does not parse as a number shows no player. */
  lemma UnparsableTeamShowsNobody(players: seq<PlayerWithTeam>, selectedTeam: string, selectedPosition: string)
    requires selectedTeam != All
    requires ParseInt(selectedTeam) == None
    ensures ShownPlayers(players, selectedTeam, selectedPosition) == []
  {
    ShownIsOneFilter(players, selectedTeam, selectedPosition);
    FilterNone(SelectedBy(selectedTeam, selectedPosition), players);
  }

  /** The "Position Summary" box under a selected position. */
  datatype PositionSummary = PositionSummary(players: nat, teams: nat, lowest: int, highest: int)

  /** The team ids among the shown players: `new Set(... p.team.id)`. */
  function TeamIds(shown: seq<PlayerWithTeam>): set<nat>
  {
    set p | p in shown :: p.team.id
  }

  /** The box is shown when a position is selected and some player is shown;
      it counts the players and their distinct teams and reports the lowest
      and highest jersey number among them. */
  function Summary(shown: seq<PlayerWithTeam>, selectedPosition: string): (r: Option<PositionSummary>)
    ensures r.None? <==> selectedPosition == All || shown == []
    ensures r.Some? ==> r.value.players == |shown|
    ensures r.Some? ==> r.value.teams == |TeamIds(shown)|
    ensures r.Some? ==> 1 <= r.value.teams <= |shown|
    ensures r.Some? ==> r.value.lowest <= r.value.highest
    ensures r.Some? ==> forall p :: p in shown ==> r.value.lowest <= p.jerseyNumber <= r.value.highest
    ensures r.Some? ==> exists p :: p in shown && p.jerseyNumber == r.value.lowest
    ensures r.Some? ==> exists p :: p in shown && p.jerseyNumber == r.value.highest
  {
    if selectedPosition == All || shown == [] then None
    else
      TeamCountBounds(shown);
      var lo, hi := LowestJersey(shown), HighestJersey(shown);
      assert shown[0] in shown;
      Some(PositionSummary(|shown|, |TeamIds(shown)|, lo, hi))
  }

  /** The number of distinct teams is at least one and at most the number
      of players. */
  lemma {:induction false} TeamCountBounds(shown: seq<PlayerWithTeam>)
    ensures |TeamIds(shown)| <= |shown|
    ensures shown != [] ==> |TeamIds(shown)| >= 1
  {
    if shown != [] {
      TeamCountBounds(shown[1..]);
      assert TeamIds(shown) == {shown[0].team.id} + TeamIds(shown[1..]) by {
        assert forall p :: p in shown <==> p == shown[0] || p in shown[1..];
      }
      assert shown[0].team.id in TeamIds(shown);
    } else {
      assert TeamIds(shown) == {};
    }
  }

  /** `Math.min(...shown.map(p => p.jerseyNumber))` on a non-empty list. */
  function LowestJersey(shown: seq<PlayerWithTeam>): (m: int)
    requires shown != []
    ensures exists p :: p in shown && p.jerseyNumber == m
    ensures forall p :: p in shown ==> m <= p.jerseyNumber
  {
    if |shown| == 1 then shown[0].jerseyNumber
    else
      var rest := LowestJersey(shown[1..]);
      assert forall p :: p in shown <==> p == shown[0] || p in shown[1..];
      if shown[0].jerseyNumber <= rest then shown[0].jerseyNumber else rest
  }

  /** `Math.max(...shown.map(p => p.jerseyNumber))` on a non-empty list. */
  function HighestJersey(shown: seq<PlayerWithTeam>): (m: int)
    requires shown != []
    ensures exists p :: p in shown && p.jerseyNumber == m
    ensures forall p :: p in shown ==> p.jerseyNumber <= m
  {
    if |shown| == 1 then shown[0].jerseyNumber
    else
      var rest := HighestJersey(shown[1..]);
      assert forall p :: p in shown <==> p == shown[0] || p in shown[1..];
      if shown[0].jerseyNumber >= rest then shown[0].jerseyNumber else rest
  }
}
