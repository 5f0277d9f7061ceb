/** The games page: the growing `limit`, the fetch it drives, the "Load
    More Games" button, the loading placeholder and the game-type counts.

    The page starts with `limit = 10` and a pending fetch. Each click of the
    button raises `limit` by ten and starts a new fetch for that many games;
    the games endpoint answers with the first `limit` games of the
    date-ordered game list. A failed fetch leaves the list as it was. The
    button is rendered when the list is non-empty and its length is a
    multiple of ten, and is disabled while a fetch is pending. */
module GamesPage {
  import opened Seqs
  import opened Domain
  import JsNumbers

  /** The step of `setLimit(prevLimit => prevLimit + 10)`. */
  const PageSize: nat := 10

  /** `useState(10)`. */
  const InitialLimit: nat := 10

  datatype PageState = PageState(limit: nat, games: seq<GameWithTeams>, loading: bool)

  /** What can happen to the page: a click on the button, or the pending
      fetch completing with the endpoint's answer or failing. */
  datatype Event =
    | LoadMoreClicked
    | FetchSucceeded(latest: seq<GameWithTeams>)
    | FetchFailed

  /** The first render: no games, the first fetch pending. */
  function Init(): (st: PageState)
    ensures st.limit == InitialLimit && st.games == [] && st.loading
  {
    PageState(InitialLimit, [], true)
  }

  /** The games endpoint's `take: parseInt(limit)` over the date-ordered
      list: the first `n` games, or all of them when there are fewer. */
  function Take(latest: seq<GameWithTeams>, n: nat): (r: seq<GameWithTeams>)
    ensures |r| == if n < |latest| then n else |latest|
    ensures r == latest[..|r|]
  {
    if n < |latest| then latest[..n] else latest
  }

  /** The button is in the page: `games.length > 0 && games.length % 10 === 0`. */
  predicate ShowLoadMore(st: PageState)
  {
    |st.games| > 0 && |st.games| % PageSize == 0
  }

  /** The button can be clicked: rendered and not disabled. */
  predicate CanLoadMore(st: PageState)
  {
    ShowLoadMore(st) && !st.loading
  }

  /** The full-page "Loading games..." placeholder. */
  predicate ShowPlaceholder(st: PageState)
  {
    st.loading && |st.games| == 0
  }

  /** The page's reaction to one event. A click that the page would not
      accept (button absent or disabled) and a completion with no fetch
      pending change nothing. */
  function Step(st: PageState, e: Event): (r: PageState)
    ensures e.LoadMoreClicked? && CanLoadMore(st) ==>
      r == PageState(st.limit + PageSize, st.games, true)
    ensures e.LoadMoreClicked? && !CanLoadMore(st) ==> r == st
    ensures e.FetchSucceeded? && st.loading ==>
      && r.limit == st.limit && !r.loading
      && |r.games| == (if st.limit < |e.latest| then st.limit else |e.latest|)
      && r.games == e.latest[..|r.games|]
    ensures e.FetchFailed? && st.loading ==> r == st.(loading := false)
    ensures !e.LoadMoreClicked? && !st.loading ==> r == st
  {
    match e
    case LoadMoreClicked =>
      if CanLoadMore(st) then st.(limit := st.limit + PageSize, loading := true) else st
    case FetchSucceeded(latest) =>
      if st.loading then st.(games := Take(latest, st.limit), loading := false) else st
    case FetchFailed =>
      if st.loading then st.(loading := false) else st
  }

  /** What every reachable state satisfies: the limit is a positive
      multiple of ten and never below the number of games shown. */
  predicate Valid(st: PageState)
  {
    st.limit >= InitialLimit && st.limit % PageSize == 0 && |st.games| <= st.limit
  }

  lemma StepKeepsValid(st: PageState, e: Event)
    requires Valid(st)
    ensures Valid(Step(st, e))
  {
  }

  /** The state after a sequence of events. */
  function Run(events: seq<Event>): (st: PageState)
    ensures Valid(st)
  {
    if events == [] then Init()
    else
      var before := Run(events[..|events| - 1]);
      StepKeepsValid(before, events[|events| - 1]);
      Step(before, events[|events| - 1])
  }

  /** Only a successful fetch changes the list on screen: a click and a
      failed fetch keep it. Hence, once games are on screen, the full-page
      placeholder does not replace them while the next fetch is pending or
      after it fails. */
  lemma OnlyFetchesChangeGames(st: PageState, e: Event)
    requires !e.FetchSucceeded?
    ensures Step(st, e).games == st.games
    ensures st.games != [] ==> !ShowPlaceholder(Step(st, e))
  {
  }

  /** A successful fetch that returns games removes the placeholder. */
  lemma FetchedGamesHidePlaceholder(st: PageState, latest: seq<GameWithTeams>)
    requires Valid(st) && st.loading && latest != []
    ensures !ShowPlaceholder(Step(st, FetchSucceeded(latest)))
    ensures Step(st, FetchSucceeded(latest)).games != []
  {
  }

  /** After a successful fetch the button is shown exactly when the
      endpoint had at least `limit` games, or had fewer but a non-zero
      multiple of ten. */
  lemma LoadMoreAfterFetch(st: PageState, latest: seq<GameWithTeams>)
    requires Valid(st) && st.loading
    ensures ShowLoadMore(Step(st, FetchSucceeded(latest)))
      <==> |latest| >= st.limit || (|latest| > 0 && |latest| % PageSize == 0)
  {
  }

  /** When the whole game list has a length that is a non-zero multiple of
      ten and is already on screen, another click fetches the same games
      and the button is still shown: the button never tells that every
      game is loaded. */
  lemma LoadMoreStaysAtMultipleOfTen(st: PageState, latest: seq<GameWithTeams>)
    requires Valid(st) && CanLoadMore(st)
    requires st.games == latest
    ensures var after := Step(Step(st, LoadMoreClicked), FetchSucceeded(latest));
      after.games == latest && ShowLoadMore(after) && after.limit == st.limit + PageSize
  {
  }

  /** Loading more over an unchanged game list only appends: the games on
      screen stay a prefix of the games shown after the next fetch. */
  lemma LoadMoreExtends(latest: seq<GameWithTeams>, limit: nat)
    ensures Take(latest, limit) <= Take(latest, limit + PageSize)
  {
  }

  /** The request `?limit=${limit}` reads back as `limit` on the server. */
  lemma RequestCarriesLimit(limit: nat)
    ensures JsNumbers.ParseInt(JsNumbers.DecimalString(limit)) == Some(limit)
  {
    JsNumbers.ParseIntOfDecimalString(limit);
  }

  predicate IsRegularSeason(g: GameWithTeams) { g.game.gameType == "Regular Season" }
  predicate IsPlayoffs(g: GameWithTeams) { g.game.gameType == "Playoffs" }

  /** The "Regular Season" and "Playoff Games" boxes. */
  datatype GameTypeCounts = GameTypeCounts(loaded: nat, regularSeason: nat, playoffs: nat)

  function Counts(games: seq<GameWithTeams>): (c: GameTypeCounts)
    ensures c.loaded == |games|
    ensures c.regularSeason + c.playoffs <= c.loaded
    ensures c.regularSeason == |Filter(IsRegularSeason, games)|
    ensures c.playoffs == |Filter(IsPlayoffs, games)|
  {
    FilterDisjointLength(IsRegularSeason, IsPlayoffs, games);
    GameTypeCounts(|games|, |Filter(IsRegularSeason, games)|, |Filter(IsPlayoffs, games)|)
  }

  /** A game is counted in the regular-season box exactly when it is on
      screen with that game type, and likewise for the playoffs box. */
  lemma CountsMatchGameTypes(games: seq<GameWithTeams>)
    ensures forall g :: g in Filter(IsRegularSeason, games) <==> g in games && g.game.gameType == "Regular Season"
    ensures forall g :: g in Filter(IsPlayoffs, games) <==> g in games && g.game.gameType == "Playoffs"
  {
    FilterMembers(IsRegularSeason, games);
    FilterMembers(IsPlayoffs, games);
  }
}
