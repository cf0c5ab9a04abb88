/** The ranked match table (db_builder.py): international results from
    2023-01-01 on, joined with the FIFA ranking in force for each side on the
    match day. The ranking is first expanded, per team, to one row per day
    from the team's first to its last snapshot, each day carrying the most
    recent snapshot on or before it; then the results are inner-joined to
    those daily rows on (date, home team) and on (date, away team). */
module RankedDatabase {
  import opened Seqs

  /** One row of the ranked table: a match with each side's rank position and
      ranking points on the match date. Dates are day numbers. */
  datatype MatchRecord = MatchRecord(
    date: int,
    homeTeam: string,
    awayTeam: string,
    homeScore: nat,
    awayScore: nat,
    rankHome: nat,
    pointsHome: real,
    rankAway: nat,
    pointsAway: real)

  function DateOf(m: MatchRecord): int { m.date }

  /** A row of the international results table. */
  datatype RawMatch = RawMatch(date: int, homeTeam: string, awayTeam: string, homeScore: nat, awayScore: nat)

  /** A ranking snapshot: a team's rank position and points as published on `date`. */
  datatype Snapshot = Snapshot(rank: nat, name: string, points: real, date: int)

  /** One day of a team's forward-filled ranking series. */
  datatype DailyRow = DailyRow(date: int, name: string, rank: nat, points: real)

  /** 2023-01-01 as a count of days since 1970-01-01. */
  const Cutoff: int := 19358

  // ---------------------------------------------------------------------
  // Date filters
  // ---------------------------------------------------------------------

  function MatchFromCutoff(m: RawMatch): bool { m.date >= Cutoff }

  function SnapshotFromCutoff(s: Snapshot): bool { s.date >= Cutoff }

  // ---------------------------------------------------------------------
  // Name normalisation of the ranking side
  // ---------------------------------------------------------------------

  /** Every occurrence of `pat` in `s`, scanning left to right without
      overlaps, replaced by `rep` (a plain substring replacement). */
  function ReplaceAll(s: string, pat: string, rep: string): string
    requires |pat| > 0
    decreases |s|
  {
    if s == [] then []
    else
      var matched := pat <= s;
      var skip := if matched then |pat| else 1;
      (if matched then rep else [s[0]]) + ReplaceAll(s[skip..], pat, rep)
  }

  /** `pat` appears somewhere in `s`. */
  ghost predicate Occurs(pat: string, s: string)
  {
    exists i :: 0 <= i <= |s| && pat <= s[i..]
  }

  /** A string without the pattern is left as it is. */
  lemma {:induction false} ReplaceAllAbsent(s: string, pat: string, rep: string)
    requires |pat| > 0 && !Occurs(pat, s)
    ensures ReplaceAll(s, pat, rep) == s
    decreases |s|
  {
    if s != [] {
      assert s[0..] == s;
      forall i | 0 <= i <= |s[1..]| ensures !(pat <= s[1..][i..]) {
        assert s[1..][i..] == s[i + 1..];
      }
      ReplaceAllAbsent(s[1..], pat, rep);
    }
  }

  /** The pattern's first character missing from `s` rules out an occurrence. */
  lemma AbsentHead(s: string, pat: string)
    requires |pat| > 0 && pat[0] !in s
    ensures !Occurs(pat, s)
  {
    forall i | 0 <= i <= |s| ensures !(pat <= s[i..]) {
      if i < |s| {
        assert s[i..][0] == s[i];
      }
    }
  }

  /** The pattern itself becomes the replacement. */
  lemma ReplaceAllWhole(pat: string, rep: string)
    requires |pat| > 0
    ensures ReplaceAll(pat, pat, rep) == rep
  {
    assert pat[|pat|..] == [];
  }

  /** The canonical name: four chained replacements. */
  function Normalize(name: string): string
  {
    ReplaceAll(ReplaceAll(ReplaceAll(ReplaceAll(name,
      "Czechia", "Czech Republic"),
      "IR Iran", "Iran"),
      "Korea Republic", "South Korea"),
      "USA", "United States")
  }

  /** A name containing none of the four ranking-side spellings is unchanged. */
  lemma NormalizeKeeps(name: string)
    requires !Occurs("Czechia", name) && !Occurs("IR Iran", name)
    requires !Occurs("Korea Republic", name) && !Occurs("USA", name)
    ensures Normalize(name) == name
  {
    ReplaceAllAbsent(name, "Czechia", "Czech Republic");
    ReplaceAllAbsent(name, "IR Iran", "Iran");
    ReplaceAllAbsent(name, "Korea Republic", "South Korea");
    ReplaceAllAbsent(name, "USA", "United States");
  }

  /** A step whose pattern's first character is absent changes nothing. */
  lemma KeepStep(s: string, pat: string, rep: string)
    requires |pat| > 0 && pat[0] !in s
    ensures ReplaceAll(s, pat, rep) == s
  {
    AbsentHead(s, pat);
    ReplaceAllAbsent(s, pat, rep);
  }

  /** Letters absent from the names met while normalising "Czechia". */
  lemma NormalizeCzechiaLetters()
    ensures 'I' !in "Czech Republic"
    ensures 'K' !in "Czech Republic"
    ensures 'U' !in "Czech Republic"
  {
  }

  /** The ranking's "Czechia" becomes the results' "Czech Republic". */
  lemma NormalizeCzechia()
    ensures Normalize("Czechia") == "Czech Republic"
  {
    NormalizeCzechiaLetters();
    ReplaceAllWhole("Czechia", "Czech Republic");
    KeepStep("Czech Republic", "IR Iran", "Iran");
    KeepStep("Czech Republic", "Korea Republic", "South Korea");
    KeepStep("Czech Republic", "USA", "United States");
  }

  /** Letters absent from the names met while normalising "IR Iran". */
  lemma NormalizeIranLetters()
    ensures 'C' !in "IR Iran"
    ensures 'K' !in "Iran"
    ensures 'U' !in "Iran"
  {
  }

  /** The ranking's "IR Iran" becomes "Iran". */
  lemma NormalizeIran()
    ensures Normalize("IR Iran") == "Iran"
  {
    NormalizeIranLetters();
    KeepStep("IR Iran", "Czechia", "Czech Republic");
    ReplaceAllWhole("IR Iran", "Iran");
    KeepStep("Iran", "Korea Republic", "South Korea");
    KeepStep("Iran", "USA", "United States");
  }

  /** Letters absent from the names met while normalising "Korea Republic". */
  lemma NormalizeKoreaLetters()
    ensures 'C' !in "Korea Republic"
    ensures 'I' !in "Korea Republic"
    ensures 'U' !in "South Korea"
  {
  }

  /** The ranking's "Korea Republic" becomes "South Korea". */
  lemma NormalizeKorea()
    ensures Normalize("Korea Republic") == "South Korea"
  {
    NormalizeKoreaLetters();
    KeepStep("Korea Republic", "Czechia", "Czech Republic");
    KeepStep("Korea Republic", "IR Iran", "Iran");
    ReplaceAllWhole("Korea Republic", "South Korea");
    KeepStep("South Korea", "USA", "United States");
  }

  /** Letters absent from the names met while normalising "USA". */
  lemma NormalizeUsaLetters()
    ensures 'C' !in "USA"
    ensures 'I' !in "USA"
    ensures 'K' !in "USA"
  {
  }

  /** The ranking's "USA" becomes "United States". */
  lemma NormalizeUsa()
    ensures Normalize("USA") == "United States"
  {
    NormalizeUsaLetters();
    KeepStep("USA", "Czechia", "Czech Republic");
    KeepStep("USA", "IR Iran", "Iran");
    KeepStep("USA", "Korea Republic", "South Korea");
    ReplaceAllWhole("USA", "United States");
  }

  function Renamed(s: Snapshot): Snapshot
  {
    s.(name := Normalize(s.name))
  }

  // ---------------------------------------------------------------------
  // Daily ranking series
  // ---------------------------------------------------------------------

  function OfTeam(team: string): Snapshot -> bool
  {
    (s: Snapshot) => s.name == team
  }

  function NotOfTeam(team: string): Snapshot -> bool
  {
    (s: Snapshot) => s.name != team
  }

  /** The earliest snapshot date. */
  function FirstDate(ss: seq<Snapshot>): (d: int)
    requires ss != []
    ensures forall i :: 0 <= i < |ss| ==> d <= ss[i].date
    ensures exists i :: 0 <= i < |ss| && ss[i].date == d
  {
    if |ss| == 1 then ss[0].date
    else
      var rest := FirstDate(ss[1..]);
      if ss[0].date <= rest then ss[0].date else rest
  }

  /** The latest snapshot date. */
  function LastDate(ss: seq<Snapshot>): (d: int)
    requires ss != []
    ensures forall i :: 0 <= i < |ss| ==> ss[i].date <= d
    ensures exists i :: 0 <= i < |ss| && ss[i].date == d
  {
    if |ss| == 1 then ss[0].date
    else
      var rest := LastDate(ss[1..]);
      if ss[0].date >= rest then ss[0].date else rest
  }

  /** The snapshot in force on `day`: of the snapshots dated on or before
      `day`, one with the latest date, and of several with that date the first
      in table order (a daily bin keeps its first row; empty bins are filled
      forward from the previous day). */
  function InForce(ss: seq<Snapshot>, day: int): (r: Option<Snapshot>)
    ensures r.Some? <==> exists i :: 0 <= i < |ss| && ss[i].date <= day
    ensures r.Some? ==> exists k :: 0 <= k < |ss| && ss[k] == r.value && ss[k].date <= day &&
                          forall j :: 0 <= j < k ==> ss[j].date != ss[k].date
    ensures r.Some? ==> forall i :: 0 <= i < |ss| && ss[i].date <= day ==> ss[i].date <= r.value.date
  {
    if ss == [] then None
    else
      var rest := InForce(ss[1..], day);
      if ss[0].date > day then rest
      else if rest.None? || rest.value.date <= ss[0].date then Some(ss[0])
      else rest
  }

  /** The row of the daily series for `day`. */
  function DayRow(team: string, ss: seq<Snapshot>, day: int): DailyRow
    requires exists i :: 0 <= i < |ss| && ss[i].date <= day
  {
    var s := InForce(ss, day).value;
    DailyRow(day, team, s.rank, s.points)
  }

  /** One row per day from `from` to `to`. */
  function Days(team: string, ss: seq<Snapshot>, from: int, to: int): seq<DailyRow>
    requires ss != [] && FirstDate(ss) <= from
    decreases if from > to then 0 else to - from + 1
  {
    if from > to then [] else [DayRow(team, ss, from)] + Days(team, ss, from + 1, to)
  }

  /** A team's daily series, from its first to its last snapshot date. */
  function Series(team: string, ss: seq<Snapshot>): seq<DailyRow>
    requires ss != []
  {
    Days(team, ss, FirstDate(ss), LastDate(ss))
  }

  /** The daily ranking table: the series of every team, one team after the other. */
  function DailyTable(ss: seq<Snapshot>): seq<DailyRow>
    decreases |ss|
  {
    if ss == [] then []
    else
      var team := ss[0].name;
      var others := Filter(ss, NotOfTeam(team));
      FilterDrops(ss, NotOfTeam(team), 0);
      Series(team, Filter(ss, OfTeam(team))) + DailyTable(others)
  }

  // ---------------------------------------------------------------------
  // The two joins
  // ---------------------------------------------------------------------

  function At(team: string, day: int): DailyRow -> bool
  {
    (r: DailyRow) => r.name == team && r.date == day
  }

  /** The daily rows whose (date, name) key equals (day, team). */
  function Lookup(table: seq<DailyRow>, team: string, day: int): seq<DailyRow>
  {
    Filter(table, At(team, day))
  }

  /** A match joined with its home side's ranking columns. */
  datatype HomeRanked = HomeRanked(m: RawMatch, rank: nat, points: real)

  function WithHomeRank(m: RawMatch): DailyRow -> HomeRanked
  {
    (r: DailyRow) => HomeRanked(m, r.rank, r.points)
  }

  function WithAwayRank(h: HomeRanked): DailyRow -> MatchRecord
  {
    (r: DailyRow) => MatchRecord(h.m.date, h.m.homeTeam, h.m.awayTeam, h.m.homeScore, h.m.awayScore,
                                 h.rank, h.points, r.rank, r.points)
  }

  /** Inner join on (date, home team): every match paired with every daily
      row carrying its key, matches in order. */
  function MergeHome(ms: seq<RawMatch>, table: seq<DailyRow>): seq<HomeRanked>
    decreases |ms|
  {
    if ms == [] then []
    else Map(Lookup(table, ms[0].homeTeam, ms[0].date), WithHomeRank(ms[0])) + MergeHome(ms[1..], table)
  }

  /** Inner join on (date, away team); the second ranking columns become the away side's. */
  function MergeAway(hs: seq<HomeRanked>, table: seq<DailyRow>): seq<MatchRecord>
    decreases |hs|
  {
    if hs == [] then []
    else Map(Lookup(table, hs[0].m.awayTeam, hs[0].m.date), WithAwayRank(hs[0])) + MergeAway(hs[1..], table)
  }

  /** The snapshots the table is built from: dated from the cutoff on, names normalised. */
  function PreparedRanking(ranking: seq<Snapshot>): seq<Snapshot>
  {
    Map(Filter(ranking, SnapshotFromCutoff), Renamed)
  }

  /** The ranked match table built from the results and the ranking snapshots. */
  function BuildRankedDatabase(results: seq<RawMatch>, ranking: seq<Snapshot>): seq<MatchRecord>
  {
    var table := DailyTable(PreparedRanking(ranking));
    MergeAway(MergeHome(Filter(results, MatchFromCutoff), table), table)
  }

  // ---------------------------------------------------------------------
  // Reference definition and its equivalence with the joins
  // ---------------------------------------------------------------------

  /** The ranking a team's own snapshots record for `day`: the snapshot in
      force, provided `day` lies within the team's first and last snapshot
      dates (the span its daily series covers). */
  function Recorded(mine: seq<Snapshot>, day: int): Option<Snapshot>
  {
    if mine == [] || day > LastDate(mine) then None else InForce(mine, day)
  }

  /** The ranking of `team` on `day` as the daily table records it. */
  function RankingOn(ss: seq<Snapshot>, team: string, day: int): Option<Snapshot>
  {
    Recorded(Filter(ss, OfTeam(team)), day)
  }

  /** A match with both sides' rankings, when both are known. */
  function Combine(m: RawMatch, home: Option<Snapshot>, away: Option<Snapshot>): Option<MatchRecord>
  {
    if home.Some? && away.Some? then
      Some(MatchRecord(m.date, m.homeTeam, m.awayTeam, m.homeScore, m.awayScore,
                       home.value.rank, home.value.points, away.value.rank, away.value.points))
    else None
  }

  /** A match with both sides' rankings on its date, when both are recorded. */
  function Joined(m: RawMatch, ss: seq<Snapshot>): Option<MatchRecord>
  {
    Combine(m, RankingOn(ss, m.homeTeam, m.date), RankingOn(ss, m.awayTeam, m.date))
  }

  function JoinedIn(ss: seq<Snapshot>): RawMatch -> Option<MatchRecord>
  {
    (m: RawMatch) => Joined(m, ss)
  }

  /** One output row per match whose two sides are both ranked that day, in match order. */
  function Expected(ms: seq<RawMatch>, ss: seq<Snapshot>): seq<MatchRecord>
  {
    FilterMap(ms, JoinedIn(ss))
  }

  /** The daily rows a ranking yields for (team, day): one if there is a ranking, none otherwise. */
  function RowsFor(o: Option<Snapshot>, team: string, day: int): seq<DailyRow>
  {
    if o.Some? then [DailyRow(day, team, o.value.rank, o.value.points)] else []
  }

  /** A series has one row for each of its days and no row for any other key. */
  lemma {:induction false} DaysLookup(owner: string, ss: seq<Snapshot>, from: int, to: int, team: string, day: int)
    requires ss != [] && FirstDate(ss) <= from
    ensures Lookup(Days(owner, ss, from, to), team, day) ==
              if team == owner && from <= day <= to then [DayRow(owner, ss, day)] else []
    decreases if from > to then 0 else to - from + 1
  {
    if from <= to {
      DaysLookup(owner, ss, from + 1, to, team, day);
    }
  }

  /** A team's series answers a lookup of its own name with the recorded ranking, and of any other name with nothing. */
  lemma SeriesLookup(owner: string, mine: seq<Snapshot>, team: string, day: int)
    requires mine != []
    ensures Lookup(Series(owner, mine), team, day) ==
              if team == owner then RowsFor(Recorded(mine, day), owner, day) else []
  {
    DaysLookup(owner, mine, FirstDate(mine), LastDate(mine), team, day);
    if FirstDate(mine) > day {
      assert InForce(mine, day).None?;
    }
  }

  /** The daily table holds exactly the rows `RankingOn` describes: one row
      for (team, day) when a ranking is recorded for that day, none otherwise. */
  lemma {:induction false} LookupDaily(ss: seq<Snapshot>, team: string, day: int)
    ensures Lookup(DailyTable(ss), team, day) == RowsFor(RankingOn(ss, team, day), team, day)
    decreases |ss|
  {
    if ss != [] {
      var owner := ss[0].name;
      var mine := Filter(ss, OfTeam(owner));
      var others := Filter(ss, NotOfTeam(owner));
      FilterDrops(ss, NotOfTeam(owner), 0);
      assert DailyTable(ss) == Series(owner, mine) + DailyTable(others);
      FilterAppend(Series(owner, mine), DailyTable(others), At(team, day));
      SeriesLookup(owner, mine, team, day);
      LookupDaily(others, team, day);
      if team == owner {
        FilterNone(others, OfTeam(owner));
      } else {
        FilterNarrow(ss, NotOfTeam(owner), OfTeam(team));
      }
    }
  }

  lemma {:induction false} MergeAwayAppend(a: seq<HomeRanked>, b: seq<HomeRanked>, table: seq<DailyRow>)
    ensures MergeAway(a + b, table) == MergeAway(a, table) + MergeAway(b, table)
    decreases |a|
  {
    if a == [] {
      assert a + b == b;
    } else {
      assert (a + b)[1..] == a[1..] + b;
      MergeAwayAppend(a[1..], b, table);
    }
  }

  /** A match already joined with its ranked home side, passed through the away join. */
  lemma MergeAwayOne(m: RawMatch, ss: seq<Snapshot>, h: Snapshot)
    ensures MergeAway([HomeRanked(m, h.rank, h.points)], DailyTable(ss)) ==
              AsSeq(Combine(m, Some(h), RankingOn(ss, m.awayTeam, m.date)))
  {
    MergeAwaySingle(HomeRanked(m, h.rank, h.points), DailyTable(ss));
    LookupDaily(ss, m.awayTeam, m.date);
  }

  lemma MergeAwaySingle(x: HomeRanked, table: seq<DailyRow>)
    ensures MergeAway([x], table) == Map(Lookup(table, x.m.awayTeam, x.m.date), WithAwayRank(x))
  {
    assert MergeAway([x], table) == Map(Lookup(table, x.m.awayTeam, x.m.date), WithAwayRank(x)) + MergeAway([], table);
  }

  /** The home join of one match: one row if its home side is ranked, none otherwise. */
  lemma MergeHomeOne(m: RawMatch, ss: seq<Snapshot>)
    ensures Map(Lookup(DailyTable(ss), m.homeTeam, m.date), WithHomeRank(m)) ==
              match RankingOn(ss, m.homeTeam, m.date)
              case Some(h) => [HomeRanked(m, h.rank, h.points)]
              case None => []
  {
    LookupDaily(ss, m.homeTeam, m.date);
  }

  /** One match passed through both joins gives its reference row, or nothing. */
  lemma MergeOne(m: RawMatch, ss: seq<Snapshot>)
    ensures MergeAway(Map(Lookup(DailyTable(ss), m.homeTeam, m.date), WithHomeRank(m)), DailyTable(ss))
            == AsSeq(Joined(m, ss))
  {
    MergeHomeOne(m, ss);
    match RankingOn(ss, m.homeTeam, m.date)
    case Some(h) => MergeAwayOne(m, ss, h);
    case None =>
  }

  /** The two joins against the daily table produce the reference rows. */
  lemma {:induction false} MergesMatchExpected(ms: seq<RawMatch>, ss: seq<Snapshot>)
    ensures MergeAway(MergeHome(ms, DailyTable(ss)), DailyTable(ss)) == Expected(ms, ss)
    decreases |ms|
  {
    if ms != [] {
      var table := DailyTable(ss);
      var homes := Map(Lookup(table, ms[0].homeTeam, ms[0].date), WithHomeRank(ms[0]));
      assert MergeHome(ms, table) == homes + MergeHome(ms[1..], table);
      MergeAwayAppend(homes, MergeHome(ms[1..], table), table);
      MergeOne(ms[0], ss);
      MergesMatchExpected(ms[1..], ss);
      assert Expected(ms, ss) == AsSeq(Joined(ms[0], ss)) + Expected(ms[1..], ss);
    }
  }

  /** The built table is the reference table over the filtered results and the prepared ranking. */
  lemma BuildIsExpected(results: seq<RawMatch>, ranking: seq<Snapshot>)
    ensures BuildRankedDatabase(results, ranking) ==
            Expected(Filter(results, MatchFromCutoff), PreparedRanking(ranking))
  {
    MergesMatchExpected(Filter(results, MatchFromCutoff), PreparedRanking(ranking));
  }

  // ---------------------------------------------------------------------
  // What the reference table is
  // ---------------------------------------------------------------------

  /** A team is ranked on `day` exactly when it has a snapshot on or before
      `day` and one on or after it; the ranking used is then one of its
      snapshots, dated on or before `day`, and no earlier-dated snapshot of
      the team is more recent. */
  lemma RankingOnMeaning(ss: seq<Snapshot>, team: string, day: int)
    ensures RankingOn(ss, team, day).Some? <==>
              (exists i :: 0 <= i < |ss| && ss[i].name == team && ss[i].date <= day) &&
              (exists i :: 0 <= i < |ss| && ss[i].name == team && day <= ss[i].date)
    ensures RankingOn(ss, team, day).Some? ==>
              var s := RankingOn(ss, team, day).value;
              s in ss && s.name == team && s.date <= day &&
              forall i :: 0 <= i < |ss| && ss[i].name == team && ss[i].date <= day ==> ss[i].date <= s.date
  {
    var mine := Filter(ss, OfTeam(team));
    if mine != [] {
      var last := LastDate(mine);
      forall i | 0 <= i < |ss| && ss[i].name == team ensures ss[i].date <= last {
        assert OfTeam(team)(ss[i]);
        assert ss[i] in mine;
      }
    }
  }

  /** Of several snapshots of the team with the date in force, the ranking
      used is the first in table order. */
  lemma RankingOnFirstOfDay(ss: seq<Snapshot>, team: string, day: int)
    requires RankingOn(ss, team, day).Some?
    ensures exists k :: 0 <= k < |ss| && ss[k] == RankingOn(ss, team, day).value &&
              forall i :: 0 <= i < k && ss[i].name == team ==> ss[i].date != ss[k].date
  {
    var mine := Filter(ss, OfTeam(team));
    var s := InForce(mine, day).value;
    assert RankingOn(ss, team, day) == Some(s);
    var km :| 0 <= km < |mine| && mine[km] == s && mine[km].date <= day &&
                forall j :: 0 <= j < km ==> mine[j].date != mine[km].date;
    FilterIndex(ss, OfTeam(team), km);
    var k :| 0 <= k < |ss| && ss[k] == mine[km] && Filter(ss[..k], OfTeam(team)) == mine[..km];
    forall i | 0 <= i < k && ss[i].name == team ensures ss[i].date != ss[k].date {
      assert ss[..k][i] == ss[i] && OfTeam(team)(ss[..k][i]);
      assert ss[i] in mine[..km];
      var i' :| 0 <= i' < km && mine[i'] == ss[i];
    }
  }

  /** A prepared snapshot is a renamed snapshot dated from the cutoff on, and every such snapshot is prepared. */
  lemma PreparedMembers(ranking: seq<Snapshot>, s: Snapshot)
    ensures s in PreparedRanking(ranking) <==>
              exists j :: 0 <= j < |ranking| && ranking[j].date >= Cutoff && s == Renamed(ranking[j])
  {
    if s in PreparedRanking(ranking) {
      MapFilterFrom(ranking, SnapshotFromCutoff, Renamed, s);
    }
    if exists j :: 0 <= j < |ranking| && ranking[j].date >= Cutoff && s == Renamed(ranking[j]) {
      var j :| 0 <= j < |ranking| && ranking[j].date >= Cutoff && s == Renamed(ranking[j]);
      MapFilterHas(ranking, SnapshotFromCutoff, Renamed, j);
    }
  }

  /** A row of the ranked table is the joined row of a result dated from the
      cutoff on whose both sides are ranked that day, and every such result
      yields its row; there are never more rows than results. */
  lemma BuildRows(results: seq<RawMatch>, ranking: seq<Snapshot>, r: MatchRecord)
    ensures r in BuildRankedDatabase(results, ranking) <==>
              exists j :: 0 <= j < |results| && results[j].date >= Cutoff &&
                          Joined(results[j], PreparedRanking(ranking)) == Some(r)
    ensures |BuildRankedDatabase(results, ranking)| <= |results|
  {
    BuildIsExpected(results, ranking);
    FilterMapOfFilter(results, MatchFromCutoff, JoinedIn(PreparedRanking(ranking)), r);
  }

  /** A prepared ranking keeps only snapshots dated from the cutoff on. */
  lemma PreparedFromCutoff(ranking: seq<Snapshot>, day: int)
    requires forall j :: 0 <= j < |ranking| && ranking[j].date >= Cutoff ==> ranking[j].date > day
    ensures forall i :: 0 <= i < |PreparedRanking(ranking)| ==> PreparedRanking(ranking)[i].date > day
  {
    var ss := PreparedRanking(ranking);
    forall i | 0 <= i < |ss| ensures ss[i].date > day {
      PreparedMembers(ranking, ss[i]);
    }
  }

  /** A result with a side that has no ranking is left out. */
  lemma UnrankedHomeDropped(m: RawMatch, ranking: seq<Snapshot>)
    requires RankingOn(PreparedRanking(ranking), m.homeTeam, m.date).None?
    ensures BuildRankedDatabase([m], ranking) == []
  {
    var ss := PreparedRanking(ranking);
    assert JoinedIn(ss)(m) == None;
    assert FilterMap([m], JoinedIn(ss)) == [] by {
      assert [m][1..] == [];
    }
    assert Filter([m], MatchFromCutoff) == if m.date >= Cutoff then [m] else [];
    BuildIsExpected([m], ranking);
  }

  /** Two teams ranked on 2022-12-22 and next on 2023-02-16. */
  function WinterRanking(home: string, away: string): seq<Snapshot>
  {
    [Snapshot(1, home, 1800.0, 19348), Snapshot(2, away, 1750.0, 19348),
     Snapshot(1, home, 1810.0, 19404), Snapshot(2, away, 1760.0, 19404)]
  }

  /** On 2023-01-13 the December snapshot is the one in force. */
  lemma DecemberSnapshotInForce(home: string, away: string)
    ensures RankingOn(WinterRanking(home, away), home, 19370).Some?
  {
    var ranking := WinterRanking(home, away);
    RankingOnMeaning(ranking, home, 19370);
    assert ranking[0].name == home && ranking[0].date <= 19370;
    assert ranking[2].name == home && 19370 <= ranking[2].date;
  }

  /** A team with no snapshot on or before `day` is not ranked that day. */
  lemma NotRankedBeforeFirst(ss: seq<Snapshot>, team: string, day: int)
    requires forall i :: 0 <= i < |ss| && ss[i].name == team ==> ss[i].date > day
    ensures RankingOn(ss, team, day) == None
  {
    RankingOnMeaning(ss, team, day);
  }

  /** Snapshots dated before the cutoff are dropped before the daily series
      is built, so a result between the cutoff and a team's first snapshot of
      the year finds no ranking, although the previous year's last snapshot
      was in force that day: the match of 2023-01-13 is left out. */
  lemma EarlyMatchDropped(home: string, away: string)
    ensures BuildRankedDatabase([RawMatch(19370, home, away, 2, 1)], WinterRanking(home, away)) == []
  {
    var ranking := WinterRanking(home, away);
    assert forall j :: 0 <= j < |ranking| && ranking[j].date >= Cutoff ==> ranking[j].date > 19370;
    PreparedFromCutoff(ranking, 19370);
    NotRankedBeforeFirst(PreparedRanking(ranking), home, 19370);
    UnrankedHomeDropped(RawMatch(19370, home, away, 2, 1), ranking);
  }
}
