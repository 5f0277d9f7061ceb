/** The dashboard's "Top Performing Teams": the teams sorted by win fraction,
    best first, and the first four of them.

    The comparator computes `(wins || 0) / ((wins || 0) + (losses || 0))`,
    which is not a number for a team without games; the model therefore
    asks that every team has played. */
module Dashboard {
  import opened StableSort
  import opened Domain
  import opened Aggregation
  import TeamCard

  /** How many teams the dashboard shows: `slice(0, 4)`. */
  const TopCount: nat := 4

  /** The comparator's win fraction of one team. */
  function DashboardKey(t: TeamWithStats): real
  {
    WinFraction(OrZero(t.wins), OrZero(t.losses))
  }

  /** Every team has at least one game, so no fraction divides by zero. */
  predicate EveryTeamHasPlayed(teams: seq<TeamWithStats>)
  {
    forall t :: t in teams ==> TeamCard.TotalGames(t) > 0
  }

  /** Comparing two teams' fractions is comparing the cross products
      `wins(a) * games(b)` and `wins(b) * games(a)`. */
  lemma KeyOrderIsCrossMultiplication(a: TeamWithStats, b: TeamWithStats)
    requires TeamCard.TotalGames(a) > 0 && TeamCard.TotalGames(b) > 0
    ensures DashboardKey(a) >= DashboardKey(b)
      <==> OrZero(a.wins) * TeamCard.TotalGames(b) >= OrZero(b.wins) * TeamCard.TotalGames(a)
  {
    var wa, la := OrZero(a.wins), OrZero(a.losses);
    var wb, lb := OrZero(b.wins), OrZero(b.losses);
    assert DashboardKey(a) * (wa + la) as real == wa as real;
    assert DashboardKey(b) * (wb + lb) as real == wb as real;
    FractionOrder(DashboardKey(a), wa, wa + la, DashboardKey(b), wb, wb + lb);
  }

  /** Two fractions `p = w / g` and `q = v / h` compare as `w * h` and `v * g`. */
  lemma FractionOrder(p: real, w: nat, g: nat, q: real, v: nat, h: nat)
    requires g > 0 && h > 0
    requires p * g as real == w as real && q * h as real == v as real
    ensures p >= q <==> w * h >= v * g
  {
    var k := g as real * h as real;
    ScaleByProduct(p, g as real, h as real, w as real);
    ScaleByProduct(q, h as real, g as real, v as real);
    PositiveProduct(g as real, h as real);
    ScalingKeepsOrder(p, q, k);
    NatProduct(w, h);
    NatProduct(v, g);
  }

  lemma NatProduct(x: nat, y: nat)
    ensures (x * y) as real == x as real * y as real
  {
  }

  lemma ScaleByProduct(p: real, g: real, h: real, w: real)
    requires p * g == w
    ensures p * (g * h) == w * h
    ensures p * (h * g) == w * h
  {
  }

  lemma PositiveProduct(g: real, h: real)
    requires g > 0.0 && h > 0.0
    ensures g * h > 0.0 && h * g > 0.0
  {
  }

  lemma ScalingKeepsOrder(p: real, q: real, k: real)
    requires k > 0.0
    ensures p >= q <==> p * k >= q * k
  {
    assert p * k - q * k == (p - q) * k;
  }

  /** The teams in dashboard order: best fraction first, ties in fetch order. */
  function Ranking(teams: seq<TeamWithStats>): (r: seq<TeamWithStats>)
    requires EveryTeamHasPlayed(teams)
    ensures multiset(r) == multiset(teams)
    ensures SortedDesc(DashboardKey, r)
    ensures TiesInSameOrder(DashboardKey, teams, r)
  {
    SortIsStable(DashboardKey, teams);
    SortDesc(DashboardKey, teams)
  }

  /** The top teams: at most four, each from the input and never more often
      than there, best first, and none ranked below a team left out. */
  function TopTeams(teams: seq<TeamWithStats>): (top: seq<TeamWithStats>)
    requires EveryTeamHasPlayed(teams)
    ensures |top| == if |teams| < TopCount then |teams| else TopCount
    ensures top == Ranking(teams)[..|top|]
    ensures multiset(top) <= multiset(teams)
    ensures SortedDesc(DashboardKey, top)
    ensures forall i, x :: 0 <= i < |top| && x in multiset(teams) - multiset(top) ==>
      DashboardKey(top[i]) >= DashboardKey(x)
  {
    var ranked := Ranking(teams);
    var n := if |ranked| < TopCount then |ranked| else TopCount;
    TopIsBestPrefix(ranked, n, teams);
    ranked[..n]
  }

  /** A prefix of a ranking outranks every element left out of it. */
  lemma TopIsBestPrefix(ranked: seq<TeamWithStats>, n: nat, teams: seq<TeamWithStats>)
    requires n <= |ranked|
    requires multiset(ranked) == multiset(teams)
    requires SortedDesc(DashboardKey, ranked)
    ensures multiset(ranked[..n]) <= multiset(teams)
    ensures forall i, x :: 0 <= i < n && x in multiset(teams) - multiset(ranked[..n]) ==>
      DashboardKey(ranked[i]) >= DashboardKey(x)
  {
    var top, rest := ranked[..n], ranked[n..];
    assert ranked == top + rest;
    assert multiset(teams) == multiset(top) + multiset(rest);
    forall i, x | 0 <= i < n && x in multiset(teams) - multiset(top)
      ensures DashboardKey(ranked[i]) >= DashboardKey(x)
    {
      assert x in multiset(rest);
      var j :| 0 <= j < |rest| && rest[j] == x;
      assert ranked[n + j] == x;
    }
  }
}
