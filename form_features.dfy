/** Per-match form features (features_creator.py): points for each side,
    rank-weighted points, the rank difference, and for each side the trailing
    means over that team's strictly earlier games. Exact `real` arithmetic
    stands in for floating point; an undefined (NaN) feature is `None`. */
module FormFeatures {
  import opened Seqs
  import opened RankedDatabase

  // ---------------------------------------------------------------------
  // Points and weights
  // ---------------------------------------------------------------------

  /** League points for a side that scored `goalsFor` and conceded `goalsAgainst`. */
  function CalculatePointsWon(goalsFor: nat, goalsAgainst: nat): (r: nat)
    ensures r == 3 <==> goalsFor > goalsAgainst
    ensures r == 1 <==> goalsFor == goalsAgainst
    ensures r == 0 <==> goalsFor < goalsAgainst
  {
    if goalsFor > goalsAgainst then 3
    else if goalsFor == goalsAgainst then 1
    else 0
  }

  /** The divisor `1 + rank/100` applied to a value earned against an opponent of that rank. */
  function Weight(opponentRank: nat): real
  {
    1.0 + opponentRank as real / 100.0
  }

  /** `x` discounted by the opponent's rank: a worse (larger) rank gives less. */
  function Weighted(x: real, opponentRank: nat): (r: real)
    ensures r * Weight(opponentRank) == x
    ensures 0.0 <= x ==> 0.0 <= r <= x
  {
    x / Weight(opponentRank)
  }

  /** Weighting is monotone in the rank: the same result against a better-ranked
      (numerically smaller) opponent is worth at least as much. */
  lemma WeightedAntitone(x: real, better: nat, worse: nat)
    requires 0.0 <= x && better <= worse
    ensures Weighted(x, worse) <= Weighted(x, better)
  {
    var a, b := Weighted(x, better), Weighted(x, worse);
    var wb, ww := Weight(better), Weight(worse);
    assert b * ww == a * wb;
    assert 0.0 <= b && wb <= ww;
    assert b * ww - b * wb == b * (ww - wb);
    assert b * (ww - wb) >= 0.0;
    assert b * wb <= a * wb;
    Cancel(b, a, wb);
  }

  /** Dividing both sides of an inequality by a positive factor. */
  lemma Cancel(a: real, b: real, n: real)
    requires 0.0 < n && a * n <= b * n
    ensures a <= b
  {
    assert (b - a) * n >= 0.0;
  }

  lemma WeightedPointsExample()
    ensures Weighted(3.0, 50) == 2.0
  {
    assert 2.0 * Weight(50) == 3.0;
  }

  // ---------------------------------------------------------------------
  // Features of the match itself
  // ---------------------------------------------------------------------

  /** Columns computed from a row's own scores and ranks. */
  datatype Basic = Basic(
    homePointsWon: nat,
    awayPointsWon: nat,
    homePointsWeighted: real,
    awayPointsWeighted: real,
    rankDif: int)

  function BasicFeatures(m: MatchRecord): (b: Basic)
    ensures (b.homePointsWon, b.awayPointsWon) in {(3, 0), (0, 3), (1, 1)}
    ensures b.homePointsWon == 3 <==> m.homeScore > m.awayScore
    ensures b.awayPointsWon == 3 <==> m.awayScore > m.homeScore
    ensures b.homePointsWeighted * Weight(m.rankAway) == b.homePointsWon as real
    ensures b.awayPointsWeighted * Weight(m.rankHome) == b.awayPointsWon as real
    ensures b.rankDif + m.rankAway == m.rankHome
    ensures b.rankDif < 0 <==> m.rankHome < m.rankAway
  {
    var home := CalculatePointsWon(m.homeScore, m.awayScore);
    var away := CalculatePointsWon(m.awayScore, m.homeScore);
    Basic(home, away,
          Weighted(home as real, m.rankAway),
          Weighted(away as real, m.rankHome),
          m.rankHome - m.rankAway)
  }

  // ---------------------------------------------------------------------
  // One game from one team's point of view
  // ---------------------------------------------------------------------

  datatype Side = Home | Away

  /** A team's game recast from its own point of view. */
  datatype Outcome = Outcome(
    date: int,
    pointsWon: nat,
    pointsWeighted: real,
    goals: nat,
    goalsSuffered: nat,
    goalsWeighted: real,
    goalsSufferedWeighted: real)

  function GoalsFor(m: MatchRecord, side: Side): nat
  {
    if side == Home then m.homeScore else m.awayScore
  }

  function GoalsAgainst(m: MatchRecord, side: Side): nat
  {
    if side == Home then m.awayScore else m.homeScore
  }

  function OpponentRank(m: MatchRecord, side: Side): nat
  {
    if side == Home then m.rankAway else m.rankHome
  }

  /** The same match with the two sides exchanged. */
  function Swap(m: MatchRecord): MatchRecord
  {
    m.(homeTeam := m.awayTeam, awayTeam := m.homeTeam,
       homeScore := m.awayScore, awayScore := m.homeScore,
       rankHome := m.rankAway, pointsHome := m.pointsAway,
       rankAway := m.rankHome, pointsAway := m.pointsHome)
  }

  /** Role normalisation of one history row: for a home game the home score is
      the team's goals and the away rank is the weight; for an away game the
      other way round. */
  function Recast(m: MatchRecord, side: Side): (o: Outcome)
    ensures o.date == m.date
    ensures o.goals == GoalsFor(m, side) && o.goalsSuffered == GoalsAgainst(m, side)
    ensures o.pointsWon == CalculatePointsWon(GoalsFor(m, side), GoalsAgainst(m, side))
    ensures o.pointsWeighted == Weighted(o.pointsWon as real, OpponentRank(m, side))
    ensures o.goalsWeighted == Weighted(o.goals as real, OpponentRank(m, side))
    ensures o.goalsSufferedWeighted == Weighted(o.goalsSuffered as real, OpponentRank(m, side))
  {
    match side
    case Home =>
      var points := CalculatePointsWon(m.homeScore, m.awayScore);
      Outcome(m.date, points, Weighted(points as real, m.rankAway),
              m.homeScore, m.awayScore,
              Weighted(m.homeScore as real, m.rankAway), Weighted(m.awayScore as real, m.rankAway))
    case Away =>
      var points := CalculatePointsWon(m.awayScore, m.homeScore);
      Outcome(m.date, points, Weighted(points as real, m.rankHome),
              m.awayScore, m.homeScore,
              Weighted(m.awayScore as real, m.rankHome), Weighted(m.homeScore as real, m.rankHome))
  }

  /** An away game is the home game of the swapped match. */
  lemma AwayIsSwappedHome(m: MatchRecord)
    ensures Recast(m, Away) == Recast(Swap(m), Home)
  {
  }

  /** What a match contributes to a later history agrees with its own
      points columns. */
  lemma RecastAgreesWithBasic(m: MatchRecord)
    ensures Recast(m, Home).pointsWon == BasicFeatures(m).homePointsWon
    ensures Recast(m, Home).pointsWeighted == BasicFeatures(m).homePointsWeighted
    ensures Recast(m, Away).pointsWon == BasicFeatures(m).awayPointsWon
    ensures Recast(m, Away).pointsWeighted == BasicFeatures(m).awayPointsWeighted
  {
  }

  /** Every recast game has points in {0, 1, 3} and weighted values between 0 and the raw value. */
  ghost predicate InRange(o: Outcome)
  {
    o.pointsWon in {0, 1, 3} &&
    0.0 <= o.pointsWeighted <= o.pointsWon as real &&
    0.0 <= o.goalsWeighted <= o.goals as real &&
    0.0 <= o.goalsSufferedWeighted <= o.goalsSuffered as real
  }

  // ---------------------------------------------------------------------
  // A team's games before a date
  // ---------------------------------------------------------------------

  function IsHomeGameBefore(team: string, day: int): MatchRecord -> bool
  {
    (m: MatchRecord) => m.homeTeam == team && m.date < day
  }

  function IsAwayGameBefore(team: string, day: int): MatchRecord -> bool
  {
    (m: MatchRecord) => m.awayTeam == team && m.date < day
  }

  function IsBefore(day: int): MatchRecord -> bool
  {
    (m: MatchRecord) => m.date < day
  }

  function OutcomeDate(o: Outcome): int { o.date }

  function RecastHome(m: MatchRecord): Outcome { Recast(m, Home) }

  function RecastAway(m: MatchRecord): Outcome { Recast(m, Away) }

  function HomeGames(df: seq<MatchRecord>, team: string, day: int): seq<Outcome>
  {
    Map(Filter(df, IsHomeGameBefore(team, day)), RecastHome)
  }

  function AwayGames(df: seq<MatchRecord>, team: string, day: int): seq<Outcome>
  {
    Map(Filter(df, IsAwayGameBefore(team, day)), RecastAway)
  }

  /** The team's games strictly before `day`, home and away, each seen from
      the team's side, in ascending date order. */
  function History(df: seq<MatchRecord>, team: string, day: int): seq<Outcome>
  {
    SortBy(HomeGames(df, team, day) + AwayGames(df, team, day), OutcomeDate)
  }

  /** Every recast game is strictly earlier than `day` and in range. */
  lemma GamesFacts(df: seq<MatchRecord>, team: string, day: int)
    ensures var games := HomeGames(df, team, day) + AwayGames(df, team, day);
      forall k :: 0 <= k < |games| ==> games[k].date < day && InRange(games[k])
  {
    var home := Filter(df, IsHomeGameBefore(team, day));
    var away := Filter(df, IsAwayGameBefore(team, day));
    var games := HomeGames(df, team, day) + AwayGames(df, team, day);
    forall k | 0 <= k < |games| ensures games[k].date < day && InRange(games[k]) {
      if k < |home| {
        assert games[k] == Recast(home[k], Home);
        assert IsHomeGameBefore(team, day)(home[k]);
      } else {
        assert games[k] == Recast(away[k - |home|], Away);
        assert IsAwayGameBefore(team, day)(away[k - |home|]);
      }
    }
  }

  /** The history is date-ordered, holds exactly the home and away games
      (with multiplicity), and every entry is strictly earlier than `day`. */
  lemma HistoryFacts(df: seq<MatchRecord>, team: string, day: int)
    ensures var h := History(df, team, day);
      SortedBy(h, OutcomeDate) &&
      multiset(h) == multiset(HomeGames(df, team, day) + AwayGames(df, team, day)) &&
      forall i :: 0 <= i < |h| ==> h[i].date < day && InRange(h[i])
  {
    var games := HomeGames(df, team, day) + AwayGames(df, team, day);
    SortBySorted(games, OutcomeDate);
    GamesFacts(df, team, day);
    var h := History(df, team, day);
    forall i | 0 <= i < |h| ensures h[i].date < day && InRange(h[i]) {
      assert h[i] in multiset(games);
      var k :| 0 <= k < |games| && games[k] == h[i];
    }
  }

  /** The history has one entry per strictly earlier home game plus one per
      strictly earlier away game of the team (each selection keeps every
      matching row as often as it occurs, see `FilterMultiset`). */
  lemma HistoryLength(df: seq<MatchRecord>, team: string, day: int)
    ensures |History(df, team, day)| ==
              |Filter(df, IsHomeGameBefore(team, day))| + |Filter(df, IsAwayGameBefore(team, day))|
  {
    HistoryFacts(df, team, day);
    var games := HomeGames(df, team, day) + AwayGames(df, team, day);
    assert |History(df, team, day)| == |multiset(History(df, team, day))| == |multiset(games)| == |games|;
  }

  /** `o` is the recast of a strictly earlier row in which `team` played. */
  ghost predicate EarlierGameOf(df: seq<MatchRecord>, team: string, day: int, o: Outcome)
  {
    exists j :: 0 <= j < |df| && df[j].date < day &&
      ((df[j].homeTeam == team && o == Recast(df[j], Home)) ||
       (df[j].awayTeam == team && o == Recast(df[j], Away)))
  }

  lemma InHistory(df: seq<MatchRecord>, team: string, day: int, o: Outcome)
    ensures o in History(df, team, day) <==> o in HomeGames(df, team, day) + AwayGames(df, team, day)
  {
    var games := HomeGames(df, team, day) + AwayGames(df, team, day);
    HistoryFacts(df, team, day);
    assert o in History(df, team, day) <==> o in multiset(History(df, team, day));
    assert o in games <==> o in multiset(games);
  }

  /** The history holds exactly the recast rows where the team played and
      whose date is strictly earlier. */
  lemma HistoryMembers(df: seq<MatchRecord>, team: string, day: int, o: Outcome)
    ensures o in History(df, team, day) <==> EarlierGameOf(df, team, day, o)
  {
    InHistory(df, team, day, o);
    if o in HomeGames(df, team, day) {
      MapFilterFrom(df, IsHomeGameBefore(team, day), RecastHome, o);
    } else if o in AwayGames(df, team, day) {
      MapFilterFrom(df, IsAwayGameBefore(team, day), RecastAway, o);
    }
    if EarlierGameOf(df, team, day, o) {
      var j :| 0 <= j < |df| && df[j].date < day &&
        ((df[j].homeTeam == team && o == Recast(df[j], Home)) ||
         (df[j].awayTeam == team && o == Recast(df[j], Away)));
      if df[j].homeTeam == team && o == Recast(df[j], Home) {
        MapFilterHas(df, IsHomeGameBefore(team, day), RecastHome, j);
      } else {
        MapFilterHas(df, IsAwayGameBefore(team, day), RecastAway, j);
      }
    }
  }

  /** A team has an empty history exactly when no strictly earlier row names
      it on either side; this is not an error. */
  lemma EmptyHistoryIff(df: seq<MatchRecord>, team: string, day: int)
    ensures |History(df, team, day)| == 0 <==>
      forall j :: 0 <= j < |df| && df[j].date < day ==> df[j].homeTeam != team && df[j].awayTeam != team
  {
    var h := History(df, team, day);
    if |h| == 0 {
      forall j | 0 <= j < |df| && df[j].date < day
        ensures df[j].homeTeam != team && df[j].awayTeam != team
      {
        if df[j].homeTeam == team {
          HistoryMembers(df, team, day, Recast(df[j], Home));
        } else if df[j].awayTeam == team {
          HistoryMembers(df, team, day, Recast(df[j], Away));
        }
      }
    } else {
      HistoryMembers(df, team, day, h[0]);
    }
  }

  /** Rows filtered by "before `day`" first, then by a condition that already
      implies it, give the same rows as the condition alone. */
  lemma {:induction false} FilterBeforeFirst(df: seq<MatchRecord>, day: int, p: MatchRecord -> bool)
    requires forall m :: p(m) ==> m.date < day
    ensures Filter(Filter(df, IsBefore(day)), p) == Filter(df, p)
    decreases |df|
  {
    if df != [] {
      FilterBeforeFirst(df[1..], day, p);
    }
  }

  /** No leakage: the history seen at `day` is fixed by the rows strictly
      before `day`; rows on that day or later, in any number, change nothing. */
  lemma HistoryIgnoresLaterRows(df1: seq<MatchRecord>, df2: seq<MatchRecord>, team: string, day: int)
    requires Filter(df1, IsBefore(day)) == Filter(df2, IsBefore(day))
    ensures History(df1, team, day) == History(df2, team, day)
  {
    FilterBeforeFirst(df1, day, IsHomeGameBefore(team, day));
    FilterBeforeFirst(df2, day, IsHomeGameBefore(team, day));
    FilterBeforeFirst(df1, day, IsAwayGameBefore(team, day));
    FilterBeforeFirst(df2, day, IsAwayGameBefore(team, day));
  }

  // ---------------------------------------------------------------------
  // Trailing means
  // ---------------------------------------------------------------------

  function Sum(xs: seq<real>): real
  {
    if xs == [] then 0.0 else xs[0] + Sum(xs[1..])
  }

  function Mean(xs: seq<real>): real
    requires |xs| > 0
  {
    Sum(xs) / |xs| as real
  }

  lemma {:induction false} SumWithin(xs: seq<real>, lo: real, hi: real)
    requires forall i :: 0 <= i < |xs| ==> lo <= xs[i] <= hi
    ensures |xs| as real * lo <= Sum(xs) <= |xs| as real * hi
  {
    if xs != [] {
      SumWithin(xs[1..], lo, hi);
    }
  }

  /** A mean lies between any bounds on its entries. */
  lemma MeanWithin(xs: seq<real>, lo: real, hi: real)
    requires |xs| > 0
    requires forall i :: 0 <= i < |xs| ==> lo <= xs[i] <= hi
    ensures lo <= Mean(xs) <= hi
  {
    SumWithin(xs, lo, hi);
    var n := |xs| as real;
    assert Mean(xs) * n == Sum(xs);
    Cancel(lo, Mean(xs), n);
    Cancel(Mean(xs), hi, n);
  }

  /** The last `min(k, |xs|)` entries (numpy's `xs[-k:]`). */
  function Last(xs: seq<real>, k: nat): (r: seq<real>)
    requires k > 0
    ensures |r| == if |xs| < k then |xs| else k
    ensures forall i :: 0 <= i < |r| ==> r[i] == xs[|xs| - |r| + i]
  {
    if |xs| < k then xs else xs[|xs| - k..]
  }

  datatype Metric = PointsWon | PointsWeighted | Goals | GoalsSuffered | GoalsWeighted | GoalsSufferedWeighted

  datatype Window = Last5 | Last3
  {
    function Size(): nat
    {
      if Last5? then 5 else 3
    }
  }

  function Value(o: Outcome, metric: Metric): real
  {
    match metric
    case PointsWon => o.pointsWon as real
    case PointsWeighted => o.pointsWeighted
    case Goals => o.goals as real
    case GoalsSuffered => o.goalsSuffered as real
    case GoalsWeighted => o.goalsWeighted
    case GoalsSufferedWeighted => o.goalsSufferedWeighted
  }

  /** One metric's values along a history. */
  function Column(h: seq<Outcome>, metric: Metric): (r: seq<real>)
    ensures |r| == |h|
    ensures forall i :: 0 <= i < |h| ==> r[i] == Value(h[i], metric)
  {
    if h == [] then [] else [Value(h[0], metric)] + Column(h[1..], metric)
  }

  /** The trailing mean of one metric over the last `window` games. */
  function Average(h: seq<Outcome>, metric: Metric, window: Window): real
    requires |h| > 0
  {
    Mean(Last(Column(h, metric), window.Size()))
  }

  /** The twelve trailing means of one side; `None` where the source has NaN. */
  datatype TeamFeatures = TeamFeatures(
    pointsWonMa5: Option<real>,
    pointsWonMa3: Option<real>,
    pointsWeightedMa5: Option<real>,
    pointsWeightedMa3: Option<real>,
    goalsMa5: Option<real>,
    goalsMa3: Option<real>,
    goalsSufferedMa5: Option<real>,
    goalsSufferedMa3: Option<real>,
    goalsWeightedMa5: Option<real>,
    goalsWeightedMa3: Option<real>,
    goalsSufferedWeightedMa5: Option<real>,
    goalsSufferedWeightedMa3: Option<real>)
  {
    /** The `<metric>_ma_<window>` column. */
    function Get(metric: Metric, window: Window): Option<real>
    {
      match (metric, window)
      case (PointsWon, Last5) => pointsWonMa5
      case (PointsWon, Last3) => pointsWonMa3
      case (PointsWeighted, Last5) => pointsWeightedMa5
      case (PointsWeighted, Last3) => pointsWeightedMa3
      case (Goals, Last5) => goalsMa5
      case (Goals, Last3) => goalsMa3
      case (GoalsSuffered, Last5) => goalsSufferedMa5
      case (GoalsSuffered, Last3) => goalsSufferedMa3
      case (GoalsWeighted, Last5) => goalsWeightedMa5
      case (GoalsWeighted, Last3) => goalsWeightedMa3
      case (GoalsSufferedWeighted, Last5) => goalsSufferedWeightedMa5
      case (GoalsSufferedWeighted, Last3) => goalsSufferedWeightedMa3
    }
  }

  /** All twelve columns NaN. */
  const Undefined := TeamFeatures(None, None, None, None, None, None, None, None, None, None, None, None)

  /** The twelve trailing means of a date-ordered history (NaN, here `None`,
      throughout when the history is empty). */
  function FeaturesOf(h: seq<Outcome>): TeamFeatures
  {
    if |h| == 0 then Undefined
    else
      TeamFeatures(
        Some(Average(h, PointsWon, Last5)), Some(Average(h, PointsWon, Last3)),
        Some(Average(h, PointsWeighted, Last5)), Some(Average(h, PointsWeighted, Last3)),
        Some(Average(h, Goals, Last5)), Some(Average(h, Goals, Last3)),
        Some(Average(h, GoalsSuffered, Last5)), Some(Average(h, GoalsSuffered, Last3)),
        Some(Average(h, GoalsWeighted, Last5)), Some(Average(h, GoalsWeighted, Last3)),
        Some(Average(h, GoalsSufferedWeighted, Last5)), Some(Average(h, GoalsSufferedWeighted, Last3)))
  }

  /** Each `<metric>_ma_<window>` column is undefined for an empty history and
      otherwise the mean of that metric over the last 5 or 3 games (all of them
      if there are fewer). */
  lemma FeaturesOfColumn(h: seq<Outcome>, metric: Metric, window: Window)
    ensures FeaturesOf(h).Get(metric, window) ==
      if |h| == 0 then None else Some(Mean(Last(Column(h, metric), window.Size())))
  {
  }

  /** One side's features for a match dated `day`. */
  function TeamFeaturesAt(df: seq<MatchRecord>, team: string, day: int): TeamFeatures
  {
    FeaturesOf(History(df, team, day))
  }

  /** A team's first appearance, or any match with no strictly earlier game
      of that team, has all twelve features undefined, and only then. */
  lemma UndefinedIffNoEarlierGame(df: seq<MatchRecord>, team: string, day: int)
    ensures TeamFeaturesAt(df, team, day) == Undefined <==>
      forall j :: 0 <= j < |df| && df[j].date < day ==> df[j].homeTeam != team && df[j].awayTeam != team
  {
    EmptyHistoryIff(df, team, day);
  }

  /** Features never read a row dated on or after the match. */
  lemma FeaturesIgnoreLaterRows(df1: seq<MatchRecord>, df2: seq<MatchRecord>, team: string, day: int)
    requires Filter(df1, IsBefore(day)) == Filter(df2, IsBefore(day))
    ensures TeamFeaturesAt(df1, team, day) == TeamFeaturesAt(df2, team, day)
  {
    HistoryIgnoresLaterRows(df1, df2, team, day);
  }

  lemma {:induction false} SumNonNegative(xs: seq<real>)
    requires forall i :: 0 <= i < |xs| ==> 0.0 <= xs[i]
    ensures 0.0 <= Sum(xs)
  {
    if xs != [] {
      SumNonNegative(xs[1..]);
    }
  }

  predicate IsPointsMetric(metric: Metric)
  {
    metric == PointsWon || metric == PointsWeighted
  }

  lemma ValueInRange(o: Outcome, metric: Metric)
    requires InRange(o)
    ensures 0.0 <= Value(o, metric) && (IsPointsMetric(metric) ==> Value(o, metric) <= 3.0)
  {
  }

  /** Every entry of a trailing window of an in-range history lies within the metric's range. */
  lemma WindowInRange(h: seq<Outcome>, metric: Metric, k: nat)
    requires k > 0
    requires forall i :: 0 <= i < |h| ==> InRange(h[i])
    ensures var xs := Last(Column(h, metric), k);
      forall i :: 0 <= i < |xs| ==>
        (0.0 <= xs[i] && (IsPointsMetric(metric) ==> xs[i] <= 3.0))
  {
    var col := Column(h, metric);
    var xs := Last(col, k);
    forall i | 0 <= i < |xs|
      ensures 0.0 <= xs[i] && (IsPointsMetric(metric) ==> xs[i] <= 3.0)
    {
      var j := |col| - |xs| + i;
      assert xs[i] == col[j] == Value(h[j], metric);
      ValueInRange(h[j], metric);
    }
  }

  /** Bounds of the averaged columns: points and weighted points in [0, 3],
      the four goal columns non-negative. */
  lemma MeanNonNegative(xs: seq<real>)
    requires |xs| > 0
    requires forall i :: 0 <= i < |xs| ==> 0.0 <= xs[i]
    ensures 0.0 <= Mean(xs)
  {
    SumNonNegative(xs);
    var n := |xs| as real;
    assert Mean(xs) * n == Sum(xs);
    Cancel(0.0, Mean(xs), n);
  }

  lemma AverageInRange(h: seq<Outcome>, metric: Metric, window: Window)
    requires |h| > 0
    requires forall i :: 0 <= i < |h| ==> InRange(h[i])
    ensures 0.0 <= Average(h, metric, window)
    ensures IsPointsMetric(metric) ==> Average(h, metric, window) <= 3.0
  {
    var xs := Last(Column(h, metric), window.Size());
    WindowInRange(h, metric, window.Size());
    MeanNonNegative(xs);
    if IsPointsMetric(metric) {
      MeanWithin(xs, 0.0, 3.0);
    }
  }

  lemma AveragesInRange(df: seq<MatchRecord>, team: string, day: int, metric: Metric, window: Window)
    ensures var v := TeamFeaturesAt(df, team, day).Get(metric, window);
      v.Some? ==> 0.0 <= v.value && (IsPointsMetric(metric) ==> v.value <= 3.0)
  {
    var h := History(df, team, day);
    if |h| > 0 {
      HistoryFacts(df, team, day);
      AverageInRange(h, metric, window);
    }
  }

  // ---------------------------------------------------------------------
  // Examples
  // ---------------------------------------------------------------------

  /** Three earlier games with 1, 2 and 3 goals: both trailing goal means are 2. */
  lemma ThreeGamesExample(h: seq<Outcome>)
    requires |h| == 3 && h[0].goals == 1 && h[1].goals == 2 && h[2].goals == 3
    ensures FeaturesOf(h).goalsMa3 == Some(2.0)
    ensures FeaturesOf(h).goalsMa5 == Some(2.0)
  {
    var col := Column(h, Goals);
    assert col == [1.0, 2.0, 3.0];
    assert Last(col, 3) == col && Last(col, 5) == col;
    assert [1.0, 2.0, 3.0][1..] == [2.0, 3.0] && [2.0, 3.0][1..] == [3.0] && [3.0][1..] == [];
    assert Sum([3.0]) == 3.0;
    assert Sum([2.0, 3.0]) == 5.0;
    assert Sum(col) == 6.0;
  }

  function Fixture(date: int, home: string, away: string): MatchRecord
  {
    MatchRecord(date, home, away, 1, 0, 10, 1500.0, 20, 1400.0)
  }

  /** Two games of team "X" on one day, a third on the next: on the first
      day "X" has no history at all, so neither game sees the other. */
  lemma SameDayNotSeen()
    ensures var df := [Fixture(100, "X", "A"), Fixture(100, "B", "X"), Fixture(101, "X", "C")];
      History(df, "X", 100) == []
  {
    var df := [Fixture(100, "X", "A"), Fixture(100, "B", "X"), Fixture(101, "X", "C")];
    EmptyHistoryIff(df, "X", 100);
  }

  /** ... and the game on the next day sees both. */
  lemma NextDaySeesBoth()
    ensures var df := [Fixture(100, "X", "A"), Fixture(100, "B", "X"), Fixture(101, "X", "C")];
      |History(df, "X", 101)| == 2
  {
    var df := [Fixture(100, "X", "A"), Fixture(100, "B", "X"), Fixture(101, "X", "C")];
    FilterUnique(df, IsHomeGameBefore("X", 101), 0);
    FilterUnique(df, IsAwayGameBefore("X", 101), 1);
    var games := HomeGames(df, "X", 101) + AwayGames(df, "X", 101);
    assert |games| == 2;
    var h := History(df, "X", 101);
    HistoryFacts(df, "X", 101);
    assert |h| == |multiset(h)| == |multiset(games)| == |games|;
  }

  // ---------------------------------------------------------------------
  // The feature table
  // ---------------------------------------------------------------------

  /** An input row extended with its own points columns. */
  datatype BasicRow = BasicRow(record: MatchRecord, basic: Basic)

  /** An input row with every feature column. */
  datatype FeatureRow = FeatureRow(record: MatchRecord, basic: Basic, home: TeamFeatures, away: TeamFeatures)

  function RecordOf(row: BasicRow): MatchRecord { row.record }

  function WithBasic(m: MatchRecord): BasicRow { BasicRow(m, BasicFeatures(m)) }

  /** A row with points columns extended by both sides' trailing means over `df`. */
  function WithAverages(df: seq<MatchRecord>, row: BasicRow): FeatureRow
  {
    FeatureRow(row.record, row.basic,
      TeamFeaturesAt(df, row.record.homeTeam, row.record.date),
      TeamFeaturesAt(df, row.record.awayTeam, row.record.date))
  }

  function WithAveragesIn(df: seq<MatchRecord>): BasicRow -> FeatureRow
  {
    (row: BasicRow) => WithAverages(df, row)
  }

  /** Every row of `rows` extended by its trailing means over `df`, in order. */
  function AllWithAverages(df: seq<MatchRecord>, rows: seq<BasicRow>): seq<FeatureRow>
  {
    Map(rows, WithAveragesIn(df))
  }

  /** The complete feature row of match `m` within table `df`. */
  function FeatureRowFor(df: seq<MatchRecord>, m: MatchRecord): FeatureRow
  {
    FeatureRow(m, BasicFeatures(m),
      TeamFeaturesAt(df, m.homeTeam, m.date),
      TeamFeaturesAt(df, m.awayTeam, m.date))
  }

  class FeaturesCreator {
    var df: seq<MatchRecord>
    var dfWithFeatures: Option<seq<FeatureRow>>

    /** Loads an already-read table, ordered by date. */
    constructor (table: seq<MatchRecord>)
      ensures SortedBy(df, DateOf) && multiset(df) == multiset(table)
      ensures dfWithFeatures == None
    {
      df := SortBy(table, DateOf);
      SortBySorted(table, DateOf);
      dfWithFeatures := None;
    }

    /** Adds the points columns, the rank difference and both sides' trailing
        means to every row, keeping the rows and their order. */
    method CreateAllFeatures() returns (result: seq<FeatureRow>)
      modifies this
      ensures df == old(df) && dfWithFeatures == Some(result)
      ensures |result| == |df|
      ensures forall i :: 0 <= i < |df| ==> result[i] == FeatureRowFor(df, df[i])
    {
      var rows := Map(df, WithBasic);
      assert Map(rows, RecordOf) == df;
      result := AddAllMovingAverages(rows);
      forall i | 0 <= i < |df| ensures result[i] == FeatureRowFor(df, df[i]) {
        assert result[i] == WithAverages(df, rows[i]);
      }
      dfWithFeatures := Some(result);
    }

    /** For each row, in order, the twelve trailing means of its home team and
        of its away team, computed over the whole table. */
    static method AddAllMovingAverages(rows: seq<BasicRow>) returns (features: seq<FeatureRow>)
      ensures features == AllWithAverages(Map(rows, RecordOf), rows)
    {
      var table := Map(rows, RecordOf);
      features := [];
      var i := 0;
      while i < |rows|
        invariant 0 <= i <= |rows|
        invariant features == AllWithAverages(table, rows[..i])
      {
        var row := rows[i];
        var homeFeatures := TeamFeaturesAt(table, row.record.homeTeam, row.record.date);
        var awayFeatures := TeamFeaturesAt(table, row.record.awayTeam, row.record.date);
        var rowFeatures := FeatureRow(row.record, row.basic, homeFeatures, awayFeatures);
        assert rowFeatures == WithAveragesIn(table)(row);
        assert rows[..i + 1] == rows[..i] + [row];
        MapSnoc(rows[..i], row, WithAveragesIn(table));
        features := features + [rowFeatures];
        i := i + 1;
      }
      assert rows[..i] == rows;
    }
  }
}
