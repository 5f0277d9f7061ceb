# nba-stats-app in Dafny

A model of the computations of nba-stats-app, a Next.js dashboard of NBA
teams, games and players. Two API handlers compute a team's record from its
games; four pages and two card components filter, sort and render the
results. The model has one Dafny
module for each of them, plus shared modules:

- `Aggregation` classifies each game as a win or a loss for one side.
  It counts a team's record by scanning its home games and then its away
  games, the way both the standings and the teams endpoints do. It also
  defines the guarded win fraction.
- `StandingsApi` builds the standings endpoint's lines and sorts them by
  win percentage, best first. `TeamsApi` builds the teams endpoint's
  enriched rows.
- `League` looks at a whole league. It builds every team's home and away
  lists from one list of games, then relates the league's total wins and
  losses to the number of games and ties.
- `TeamsPage` covers the teams page: the conference filter and the
  conference summary's totals.
- `TeamCard` covers the team card: its total games and its win percentage
  out of 100.
- `Dashboard` covers the dashboard's "Top Performing Teams": a stable
  descending sort on the win fraction, then the first four.
- `GameCard` covers the game card: which side it names as the winner and
  which side it emphasises.
- `GamesPage` models the games page as a state machine. Its state is the
  `limit` counter, the games on screen and the loading flag. Its events
  are a click on "Load More Games" and the outcome of the pending fetch.
  The module also covers the game-type counts.
- `PlayersPage` covers the players page: the team and position filters
  and the position summary.
- `JsNumbers` models an integer's `toString()` and the global
  `parseInt`. The team selector's option values are built and read back
  with these two.
- `Seqs` holds the sequence helpers: `filter`, `map`, `reduce` and the
  subsequence relation. `StableSort` holds a stable descending insertion
  sort. `Domain` holds the records.

**Tied games.** A reader might expect every game to give one win and one
loss. The handlers' code does not promise that: a home game is a win only when
the home score is strictly higher, and an away game is a win only when the
away score is strictly higher. A tied game is therefore a loss for both
teams. The model follows the code. `League.LeagueTotals` states the
consequence: across a league, total wins plus ties equal the number of
games, and total losses equal the number of games plus ties. The game card
decides with one comparison, so on a tie it names the away team the winner
(`GameCard.TieGoesToAwayOnCard`).

Win percentages are mathematical reals. `Array.prototype.sort` has been
stable since ECMA-262 2019 (section 23.1.3.30 of ECMA-262 2023), so both
sorts are modelled as stable.

## Model

| member | source | states |
|---|---|---|
| Aggregation.RecordOf | pages/api/standings.ts:31-51 | A team's wins and losses add up to the number of games in its home and away lists. |
| Aggregation.ScanRecord | pages/api/standings.ts:32-51 | Scanning home games, then away games, counts as wins exactly the home games with the higher home score and the away games with the higher away score. Every other game counts as a loss, and the two counts cover every game. |
| Aggregation.GameOutcome | pages/api/standings.ts:37-49 | Every game is exactly one of: home win, away win, tie. It yields one loss, or two when tied. |
| Aggregation.WinFraction | pages/api/standings.ts:53-54 | The win fraction lies in [0, 1]. It is 0 without games, and otherwise times the number of games it gives the wins. |
| StandingsApi.StandingOf | pages/api/standings.ts:31-61 | A standings line carries its team unchanged, the counted wins and losses, and their win fraction. The fraction is 0 when the team has no games. |
| StandingsApi.Standings | pages/api/standings.ts:31-62 | The standings have one line per fetched team, sorted by win percentage from best to worst. They are a permutation of the per-team lines. |
| StandingsApi.ComputeStandings | pages/api/standings.ts:31-62 | The handler's loop-and-sort computes exactly the standings. |
| StandingsApi.ScanTeam | pages/api/standings.ts:32-61 | The map callback, with its loops and its division guard, computes a team's standings line. |
| StandingsApi.StandingsArePerTeam | pages/api/standings.ts:56-61 | Every line belongs to a fetched team and carries that team's own record. |
| StandingsApi.StandingsPermuteTeams | pages/api/standings.ts:31-62 | Each fetched team appears in the standings exactly as often as it was fetched. |
| StandingsApi.StandingsKeepTieOrder | pages/api/standings.ts:62 | Lines with equal win percentage keep their fetch order. |
| StandingsApi.ExampleSplitRecord | pages/api/standings.ts:36-54 | A home win 110-90 and an away loss 95-100 give one win, one loss and 0.5. |
| StandingsApi.ExampleNoGames | pages/api/standings.ts:53-54 | A team without games gets 0 wins, 0 losses and 0, not a division by zero. |
| StandingsApi.ExampleTieIsLoss | pages/api/standings.ts:37-41 | A tied home game counts as a loss. |
| StandingsApi.ExampleSeedLakers | prisma/seed.ts:156-238 | The seed data's Lakers have a home win 112-108, an away loss 96-110 and a home loss 105-114. That gives one win, two losses and one third. |
| StableSort.SortDesc | pages/api/standings.ts:62 | Sorting by key descending yields a permutation of its input that is ordered from highest key to lowest. |
| StableSort.SortIsStable | pages/api/standings.ts:62 | For every key value, the elements with that key appear in the same relative order after sorting. |
| TeamsApi.Enrich | pages/api/teams.ts:31-57 | An enriched row keeps the team row and adds the counted wins and losses. They add up to the team's number of games. |
| TeamsApi.TeamsWithStats | pages/api/teams.ts:31-58 | Row i of the endpoint is the enrichment of fetched team i. |
| TeamsApi.ComputeTeamsWithStats | pages/api/teams.ts:31-58 | The handler's loop computes exactly those rows. |
| TeamsApi.EnrichTeam | pages/api/teams.ts:32-57 | The map callback with its two loops computes the enriched row. |
| TeamsApi.EndpointsAgree | pages/api/teams.ts:36-51 | Every standings line has a teams-endpoint row for the same team with the same wins and losses. |
| League.RecordFor | pages/api/teams.ts:19-28 | A team's home list holds exactly the games it hosted, and its away list exactly the games it visited. Each such game appears as often as in the game list, and both lists keep the game list's order. |
| League.LeagueRecords | pages/api/teams.ts:19-28 | Every fetched team gets its own home and away lists, in fetch order. |
| League.EveryGameCreditedTwice | pages/api/teams.ts:36-51 | Assume distinct team ids and games only between fetched teams. Then summing a per-game outcome over all teams' home and away lists counts each game once as home and once as away. |
| League.OutcomesPartitionGames | pages/api/teams.ts:37-49 | Home wins, away wins and ties together make up every game. |
| League.LeagueTotals | pages/teams.tsx:106-116 | On a well-formed league, total wins plus ties equal the number of games. Total losses equal the number of games plus ties. |
| TeamsPage.FilterByConference | pages/teams.tsx:32-38 | 'All' shows every team; the filter never adds teams. |
| TeamsPage.ConferenceFilterMembers | pages/teams.tsx:32-38 | A team is shown exactly when it is fetched and either 'All' is selected or its conference is selected. |
| TeamsPage.ConferenceFilterKeepsOrder | pages/teams.tsx:36 | The filtered teams keep the fetched order. |
| TeamsPage.Summary | pages/teams.tsx:95-118 | The summary appears exactly when a conference is selected. Its team count is the number of teams in that conference, and its totals are the sums of their shown wins and shown losses, which are not negative. |
| TeamsPage.ConferenceTotalsSplit | pages/teams.tsx:106-116 | When every team is Eastern or Western, the two summaries' wins add up to the league's wins. Their losses add up to the league's losses. |
| TeamCard.View | components/TeamCard.tsx:8-31 | The card shows the team's wins and losses, an absent count as 0, and they add up to the total games. The percentage lies in [0, 100]. It is 0 without games, and otherwise times the total games it gives 100 times the wins. |
| TeamCard.CardAgreesWithStandings | components/TeamCard.tsx:8-9 | For an enriched team, the card's percentage is 100 times the standings' win fraction for that team. |
| Dashboard.KeyOrderIsCrossMultiplication | pages/index.tsx:29-33 | For teams with games, comparing win fractions is the same as comparing wins(a)·games(b) with wins(b)·games(a). |
| Dashboard.Ranking | pages/index.tsx:29-33 | The ranking is a permutation of the teams, sorted by win fraction from best to worst, with ties in fetch order. |
| Dashboard.TopTeams | pages/index.tsx:29-34 | The dashboard shows the first min(4, n) teams of the ranking, each taken from the input. They are in descending order, and none ranks below a team left out. |
| Dashboard.TopIsBestPrefix | pages/index.tsx:34 | A prefix of a descending ranking outranks every element outside it. |
| GameCard.WinnerSide | components/GameCard.tsx:14-15 | Home is the winning side exactly when the home score is strictly higher. |
| GameCard.View | components/GameCard.tsx:14-54 | Exactly one side is emphasised, with a bold name and a red score. Home is emphasised exactly when its score is strictly higher, and the named winner is the emphasised side's team. |
| GameCard.CardAgreesWithScan | components/GameCard.tsx:14-15 | In a decided game, the card emphasises and names the side that the standings scan credits with the win. |
| GameCard.TieGoesToAwayOnCard | components/GameCard.tsx:14-15 | In a tie, the card names and emphasises the away team, although the scan counts a loss for both teams. |
| GamesPage.Init | pages/games.tsx:7-9 | The page starts with limit 10, no games and a pending fetch. |
| GamesPage.Take | pages/api/games.ts:20-29 | The endpoint returns the first `limit` games of the date-ordered list, or all of them when there are fewer. |
| GamesPage.Step | pages/games.tsx:11-33 | A click raises the limit by 10 and starts a fetch only when the button is shown and enabled. Otherwise it changes nothing. A successful fetch shows the first `limit` games; a failed one only clears the loading flag. |
| GamesPage.StepKeepsValid | pages/games.tsx:31-33 | Every event keeps the limit a multiple of ten that is at least 10 and at least the number of games shown. |
| GamesPage.Run | pages/games.tsx:9-33 | Every state reachable from the first render satisfies that invariant. |
| GamesPage.OnlyFetchesChangeGames | pages/games.tsx:18-35 | A click and a failed fetch keep the games on screen, so once games are shown the placeholder does not replace them. |
| GamesPage.FetchedGamesHidePlaceholder | pages/games.tsx:19-35 | A successful fetch that returns games puts games on screen and removes the placeholder. |
| GamesPage.LoadMoreAfterFetch | pages/games.tsx:92 | After a fetch, the button shows exactly when the endpoint had at least `limit` games. With fewer, it shows when their count is a non-zero multiple of ten. |
| GamesPage.LoadMoreStaysAtMultipleOfTen | pages/games.tsx:92-95 | When every game is already shown and their count is a multiple of ten, a click fetches the same games and the button remains. |
| GamesPage.LoadMoreExtends | pages/api/games.ts:25-28 | Over an unchanged game list, the games before a click are a prefix of the games after it. |
| GamesPage.RequestCarriesLimit | pages/games.tsx:15 | The `limit` put in the query string parses back to the same number on the server. |
| GamesPage.Counts | pages/games.tsx:61-72 | The regular-season and playoff counts are the numbers of loaded games of those types. Together they never exceed the games loaded. |
| GamesPage.CountsMatchGameTypes | pages/games.tsx:66-72 | A game is counted in a box exactly when it is loaded and has that game type. |
| JsNumbers.DecimalString | pages/players.tsx:95 | `id.toString()` is a non-empty string of decimal digits without a leading zero. |
| JsNumbers.ParseInt | pages/players.tsx:46 | `parseInt` yields a negative number only when the text has a minus sign. |
| JsNumbers.NoDigitIsNaN | pages/players.tsx:46 | Text with no decimal digit parses to NaN. |
| JsNumbers.ParseIntOfDecimalString | pages/players.tsx:46 | `parseInt(n.toString())` is n for every non-negative integer n, with `toString` printing plain decimal digits. |
| JsNumbers.DecimalStringReadsBack | pages/players.tsx:95 | The digits of `n.toString()` are worth n. |
| PlayersPage.ShownPlayers | pages/players.tsx:42-54 | The filters never add players. With both selections at 'All', every player is shown. |
| PlayersPage.ShownIsOneFilter | pages/players.tsx:42-54 | The team filter followed by the position filter is one filter by the conjunction of the active conditions. |
| PlayersPage.ShownPlayersMembers | pages/players.tsx:42-54 | A player is shown exactly when fetched and accepted by both active conditions. |
| PlayersPage.ShownPlayersKeepOrder | pages/players.tsx:42-54 | The shown players keep the fetched order. |
| PlayersPage.TeamOptionSelectsItsPlayers | pages/players.tsx:95 | Choosing a team's option shows exactly that team's players at the selected position. |
| PlayersPage.UnparsableTeamShowsNobody | pages/players.tsx:46 | A team selection other than 'All' that parses to NaN shows no player. |
| PlayersPage.Summary | pages/players.tsx:196-222 | The summary appears exactly when a position is selected and some player is shown. It counts the shown players, and its team count is the number of distinct team ids among them, between 1 and the player count. Its lowest and highest jersey numbers belong to shown players and bound all of them. |
| PlayersPage.TeamCountBounds | pages/players.tsx:208 | The number of distinct teams is at most the number of players, and at least 1 when a player is shown. |
| PlayersPage.LowestJersey | pages/players.tsx:214 | The lowest jersey number is some shown player's and is at most every shown player's. |
| PlayersPage.HighestJersey | pages/players.tsx:220 | The highest jersey number is some shown player's and is at least every shown player's. |

Definitions without a contract of their own, used by the members above:
`GamesPage.ShowLoadMore` (pages/games.tsx:92), `GamesPage.ShowPlaceholder`
(pages/games.tsx:35), `TeamsPage.TotalWins` and `TeamsPage.TotalLosses`
(pages/teams.tsx:108, 114), `TeamCard.TotalGames` (components/TeamCard.tsx:8),
`Dashboard.DashboardKey` (pages/index.tsx:30-31) and `PlayersPage.TeamIds`
(pages/players.tsx:208).

## Left out

- Of the database queries, the model covers two parts only. The teams endpoint's `homeGames` and `awayGames` include is `League.RecordFor`, which selects a team's games from one game list, in that list's order. The games endpoint's `take` is `GamesPage.Take`. The queries' `where` and `orderBy` clauses are not modelled. Fetched lists are inputs in the order the database returns them. The standings endpoint's `conference` query parameter filters in the database, so it is not modelled either.
- The teams endpoint's `players` include (pages/api/teams.ts:21) and the card's roster count (components/TeamCard.tsx:42) are not modelled: `TeamRecord` and `TeamWithStats` carry no player list, since nothing else in the model depends on it.
- HTTP: method checks (405), JSON responses, status codes and the 500 error path of every handler are not modelled. A fetch that fails or answers `success: false` is one `FetchFailed` event.
- React: effects, state setters and rendering are not modelled. The model keeps only the values the components compute and the conditions under which they render.
- The dashboard's, the teams page's (pages/teams.tsx:10, 40) and the players page's loading flags are not modelled; the games page's flag is.
- The dashboard's recent-games fetch is not modelled; it is a plain `limit=5` request.
- The players endpoint's handler (pages/api/players.ts) is not modelled; its answer is the input `players` of `PlayersPage.ShownPlayers`. The players page's teams request feeds only the team options and the "Teams" count (pages/players.tsx:94-98, 136).
- `toFixed(1)` rounding and floating point are not modelled. Percentages are exact reals.
- Dates and their formatting are not modelled.
- Concurrent fetches are not modelled. Each fetch is an event applied to the page state, and the disabled button rules out a second click while a fetch is pending.
- Dashboard.Ranking: requires every team to have at least one game, for the reason given for `Dashboard.TopTeams` below.
- Dashboard.TopTeams: requires every team to have at least one game. For a team without games the comparator divides 0 by 0 and sorts with NaN, which has no order to model.
- JsNumbers.ParseInt: the rounding of values beyond 2^53 is not modelled, because numbers are unbounded integers here.
- JsNumbers.DecimalString: covers non-negative integers only, and always prints plain decimal digits. From 10^21 on, `toString` uses exponent notation (`"1e+21"`, which `parseInt` reads as 1); that is not modelled, so `JsNumbers.ParseIntOfDecimalString` holds for real ids and limits only below 10^21. Team ids are database identifiers and never get there.
- The seed script (prisma/seed.ts) is not part of this model. Its Lakers games serve only as a worked example.
