/** The aggregates the analytics dashboard derives from the entry log: the
    summary statistics, the 30-day trend, the mood distribution and the team
    activity ranking, plus the rating band shown under the average. Time is
    integer milliseconds and "now" is a parameter. */
module AnalyticsPage {
  import opened Types
  import opened Seqs
  import MoodSlice

  /** The dictionary the page's counting pass builds: each value seen so far
      mapped to its number of occurrences. */
  function CountsOf<T(==)>(xs: seq<T>): map<T, nat>
    decreases |xs|
  {
    if xs == [] then map[]
    else
      var m := CountsOf(xs[..|xs| - 1]);
      var x := xs[|xs| - 1];
      if x in m then m[x := m[x] + 1] else m[x := 1]
  }

  /** The dictionary holds exactly the values of the sequence, each with its
      number of occurrences. */
  lemma {:induction false} CountsOfSpec<T(!new)>(xs: seq<T>)
    ensures forall x :: x in CountsOf(xs) <==> x in xs
    ensures forall x :: x in CountsOf(xs) ==> CountsOf(xs)[x] == multiset(xs)[x]
    decreases |xs|
  {
    if xs != [] {
      var init := xs[..|xs| - 1];
      var x := xs[|xs| - 1];
      CountsOfSpec(init);
      assert xs == init + [x];
      assert multiset(xs) == multiset(init) + multiset{x};
    }
  }

  /** Counting one more element: the dictionary bumps or adds its entry, and the
      key list grows exactly when the element is new. */
  lemma TallyStep<T(!new)>(xs: seq<T>, i: nat)
    requires i < |xs|
    ensures var m := CountsOf(xs[..i]);
            CountsOf(xs[..i + 1]) == if xs[i] in m then m[xs[i] := m[xs[i]] + 1] else m[xs[i] := 1]
    ensures Dedup(xs[..i + 1]) ==
            if xs[i] in CountsOf(xs[..i]) then Dedup(xs[..i]) else Dedup(xs[..i]) + [xs[i]]
  {
    var prefix, next := xs[..i], xs[..i + 1];
    assert next[..i] == prefix && next[i] == xs[i] && next == prefix + [xs[i]];
    CountsOfSpec(prefix);
    DedupSnoc(prefix, xs[i]);
  }

  /** Counts occurrences with a dictionary filled in one pass (the page's
      `forEach` over the log); `keys` lists the dictionary's keys in insertion
      order, which is the order of first occurrence. */
  method Tally<T(==,!new)>(xs: seq<T>) returns (counts: map<T, nat>, keys: seq<T>)
    ensures counts == CountsOf(xs)
    ensures keys == Dedup(xs)
  {
    counts := map[];
    keys := [];
    var i := 0;
    while i < |xs|
      invariant 0 <= i <= |xs|
      invariant counts == CountsOf(xs[..i])
      invariant keys == Dedup(xs[..i])
    {
      var x := xs[i];
      TallyStep(xs, i);
      if x in counts {
        counts := counts[x := counts[x] + 1];
      } else {
        counts := counts[x := 1];
        keys := keys + [x];
      }
      i := i + 1;
    }
    assert xs[..i] == xs;
  }

  /** The moods of the log, in log order. */
  function Moods(entries: seq<MoodEntry>): (r: seq<MoodType>)
    ensures |r| == |entries|
    ensures forall i :: 0 <= i < |r| ==> r[i] == entries[i].mood
  {
    seq(|entries|, i requires 0 <= i < |entries| => entries[i].mood)
  }

  /** The author names of the log, in log order. */
  function Names(entries: seq<MoodEntry>): (r: seq<string>)
    ensures |r| == |entries|
    ensures forall i :: 0 <= i < |r| ==> r[i] == entries[i].user.name
  {
    seq(|entries|, i requires 0 <= i < |entries| => entries[i].user.name)
  }

  // ---------------------------------------------------------------------------
  // Most common mood

  /** One step of the page's `reduce((a, b) => counts[a] > counts[b] ? a : b)`:
      a key the dictionary lacks has an undefined count, which never compares
      greater, so the step moves on to `b`. */
  function Step<T>(counts: map<T, nat>, a: T, b: T): T
    requires b in counts
  {
    if a in counts && counts[a] > counts[b] then a else b
  }

  function Reduce<T>(counts: map<T, nat>, acc: T, ks: seq<T>): T
    requires forall k :: k in ks ==> k in counts
    decreases |ks|
  {
    if ks == [] then acc else Reduce(counts, Step(counts, acc, ks[0]), ks[1..])
  }

  /** Starting from a counted key, the reduction ends on a key whose count is at
      least the start's and every listed key's; any listed key that ties with it
      comes no later than it. */
  lemma {:induction false} ReduceSpec<T>(counts: map<T, nat>, acc: T, ks: seq<T>)
    requires acc in counts && forall k :: k in ks ==> k in counts
    ensures var r := Reduce(counts, acc, ks);
            && r in counts && (r == acc || r in ks)
            && counts[acc] <= counts[r]
            && (forall k :: k in ks ==> counts[k] <= counts[r])
            && (forall i :: 0 <= i < |ks| && counts[ks[i]] == counts[r] ==> r in ks[i..])
    decreases |ks|
  {
    if ks != [] {
      var a := Step(counts, acc, ks[0]);
      ReduceSpec(counts, a, ks[1..]);
      var r := Reduce(counts, acc, ks);
      assert r == Reduce(counts, a, ks[1..]);
      forall i | 0 <= i < |ks| && counts[ks[i]] == counts[r]
        ensures r in ks[i..]
      {
        if i == 0 {
          assert r == a || r in ks[1..];
          assert ks[0..] == ks;
        } else {
          assert ks[i] == ks[1..][i - 1];
          assert ks[1..][i - 1..] == ks[i..];
        }
      }
    }
  }

  /** `r` is a mode of `xs`: it occurs, no value occurs more often, and among the
      values occurring as often it is the one whose first occurrence comes last. */
  ghost predicate IsLastMode<T(!new)>(xs: seq<T>, r: T) {
    && r in xs
    && (forall m :: multiset(xs)[m] <= multiset(xs)[r])
    && (forall m :: m in xs && multiset(xs)[m] == multiset(xs)[r] ==>
          FirstIndexOf(xs, m) <= FirstIndexOf(xs, r))
  }

  /** The reduction over first-occurrence keys, started from 'neutral', ends on
      a listed key that no listed key outcounts and that every listed key tying
      with it precedes or equals. */
  lemma {:induction false} ReduceFromNeutral(ks: seq<MoodType>, counts: map<MoodType, nat>)
    requires ks != [] && forall k :: k in ks ==> k in counts
    requires Neutral in counts ==> Neutral in ks
    ensures var r := Reduce(counts, Neutral, ks);
            && r in ks
            && (forall k :: k in ks ==> counts[k] <= counts[r])
            && (forall i :: 0 <= i < |ks| && counts[ks[i]] == counts[r] ==> r in ks[i..])
  {
    var r := Reduce(counts, Neutral, ks);
    if Neutral in counts {
      ReduceSpec(counts, Neutral, ks);
    } else {
      assert r == Reduce(counts, ks[0], ks[1..]);
      ReduceSpec(counts, ks[0], ks[1..]);
      forall i | 0 <= i < |ks| && counts[ks[i]] == counts[r]
        ensures r in ks[i..]
      {
        if i == 0 {
          assert ks[0..] == ks;
        } else {
          assert ks[1..][i - 1..] == ks[i..];
        }
      }
    }
  }

  /** A first-occurrence key listed no later than another first occurs no later. */
  lemma TieComesFirst<T(!new)>(xs: seq<T>, i: nat, j: nat)
    requires i <= j < |Dedup(xs)|
    ensures Dedup(xs)[i] in xs && Dedup(xs)[j] in xs
    ensures FirstIndexOf(xs, Dedup(xs)[i]) <= FirstIndexOf(xs, Dedup(xs)[j])
  {
    var ks := Dedup(xs);
    assert ks[i] in ks && ks[j] in ks;
    if i < j {
      DedupOrder(xs, i, j);
    }
  }

  /** A tallied value that no first-occurrence key outcounts occurs at least as
      often as any value. */
  lemma ModeCountMax<T(!new)>(xs: seq<T>, counts: map<T, nat>, r: T)
    requires forall x :: x in counts ==> counts[x] == multiset(xs)[x]
    requires forall x :: x in xs ==> x in counts
    requires r in xs
    requires forall k :: k in Dedup(xs) ==> counts[k] <= counts[r]
    ensures forall m :: multiset(xs)[m] <= multiset(xs)[r]
  {
    forall m ensures multiset(xs)[m] <= multiset(xs)[r] {
      if m in xs {
        assert m in Dedup(xs);
      }
    }
  }

  /** A value tying with `r` first occurs no later than `r`, when every tying
      first-occurrence key is listed no later than `r`. */
  lemma ModeTieOrder<T(!new)>(xs: seq<T>, ks: seq<T>, counts: map<T, nat>, r: T, m: T)
    requires ks == Dedup(xs)
    requires forall x :: x in counts ==> counts[x] == multiset(xs)[x]
    requires forall x :: x in xs ==> x in counts
    requires r in xs && m in xs && multiset(xs)[m] == multiset(xs)[r]
    requires forall i :: 0 <= i < |ks| && counts[ks[i]] == counts[r] ==> r in ks[i..]
    ensures FirstIndexOf(xs, m) <= FirstIndexOf(xs, r)
  {
    assert m in ks;
    var i := FirstIndexOf(ks, m);
    assert counts[ks[i]] == counts[r];
    var tail := ks[i..];
    assert r in tail;
    var k := FirstIndexOf(tail, r);
    assert ks[i + k] == tail[k];
    TieComesFirst(xs, i, i + k);
  }

  /** A key of the tally with those three properties is the last mode. */
  lemma LastModeFromKeys<T(!new)>(xs: seq<T>, counts: map<T, nat>, r: T)
    requires forall x :: x in counts ==> counts[x] == multiset(xs)[x]
    requires forall x :: x in xs ==> x in counts
    requires r in Dedup(xs)
    requires forall k :: k in Dedup(xs) ==> counts[k] <= counts[r]
    requires forall i :: 0 <= i < |Dedup(xs)| && counts[Dedup(xs)[i]] == counts[r] ==> r in Dedup(xs)[i..]
    ensures IsLastMode(xs, r)
  {
    assert r in xs;
    ModeCountMax(xs, counts, r);
    forall m | m in xs && multiset(xs)[m] == multiset(xs)[r]
      ensures FirstIndexOf(xs, m) <= FirstIndexOf(xs, r)
    {
      ModeTieOrder(xs, Dedup(xs), counts, r, m);
    }
  }

  /** The reduction over a tally, started from 'neutral', is 'neutral' for an
      empty log and otherwise the last mode in first-occurrence order. */
  lemma MostCommonIsLastMode(xs: seq<MoodType>, counts: map<MoodType, nat>)
    requires forall x :: x in counts <==> x in xs
    requires forall x :: x in counts ==> counts[x] == multiset(xs)[x]
    ensures xs == [] ==> Reduce(counts, Neutral, Dedup(xs)) == Neutral
    ensures xs != [] ==> IsLastMode(xs, Reduce(counts, Neutral, Dedup(xs)))
  {
    if xs != [] {
      assert xs[0] in Dedup(xs);
      ReduceFromNeutral(Dedup(xs), counts);
      LastModeFromKeys(xs, counts, Reduce(counts, Neutral, Dedup(xs)));
    }
  }

  // ---------------------------------------------------------------------------
  // Weekly windows

  /** Entries of the last seven days: stamped at or after `now` minus seven days. */
  function LastWeek(entries: seq<MoodEntry>, now: int): (r: seq<MoodEntry>)
    ensures forall e :: e in r <==> e in entries && e.timestamp >= now - 7 * DayMs
    ensures forall e :: multiset(r)[e] == if e.timestamp >= now - 7 * DayMs then multiset(entries)[e] else 0
  {
    Filter(entries, (e: MoodEntry) => e.timestamp >= now - 7 * DayMs)
  }

  /** Entries of the seven days before that: from fourteen days ago, before seven days ago. */
  function PreviousWeek(entries: seq<MoodEntry>, now: int): (r: seq<MoodEntry>)
    ensures forall e :: e in r <==> e in entries && now - 14 * DayMs <= e.timestamp < now - 7 * DayMs
    ensures forall e :: multiset(r)[e] == if now - 14 * DayMs <= e.timestamp < now - 7 * DayMs
                                          then multiset(entries)[e] else 0
  {
    Filter(entries, (e: MoodEntry) => now - 14 * DayMs <= e.timestamp < now - 7 * DayMs)
  }

  /** The two windows share no entry, so together they hold at most the whole log. */
  lemma WindowsDisjoint(entries: seq<MoodEntry>, now: int)
    ensures |LastWeek(entries, now)| + |PreviousWeek(entries, now)| <= |entries|
  {
    FilterDisjoint(entries, (e: MoodEntry) => e.timestamp >= now - 7 * DayMs,
                   (e: MoodEntry) => now - 14 * DayMs <= e.timestamp < now - 7 * DayMs);
  }

  /** Percentage change of the last week over the previous one, the divisor
      clamped to at least 1. */
  function WeeklyChange(last: nat, previous: nat): (r: real)
    ensures r >= 0.0 <==> last >= previous
    ensures previous == 0 ==> r == (last as real) * 100.0
  {
    var d := if previous > 1 then previous else 1;
    (last as real - previous as real) / d as real * 100.0
  }

  /** Three entries this week after none the week before read as +300%. */
  lemma WeeklyChangeFromNothing()
    ensures WeeklyChange(3, 0) == 300.0
  {
  }

  // ---------------------------------------------------------------------------
  // Summary statistics

  datatype Summary = Summary(
    totalEntries: nat,
    averageMood: real,
    weeklyChange: real,
    mostCommonMood: MoodType,
    activeUsers: nat,
    last7Days: nat)

  /** The dashboard's summary of the log as seen at `now`. */
  method ComputeStats(entries: seq<MoodEntry>, now: int) returns (s: Summary)
    ensures s.totalEntries == |entries|
    ensures s.averageMood == MoodSlice.AverageMood(entries)
    ensures s.last7Days == |LastWeek(entries, now)|
    ensures s.weeklyChange == WeeklyChange(|LastWeek(entries, now)|, |PreviousWeek(entries, now)|)
    ensures entries == [] ==> s.mostCommonMood == Neutral
    ensures entries != [] ==> IsLastMode(Moods(entries), s.mostCommonMood)
    ensures s.activeUsers == |Image(LastWeek(entries, now), (e: MoodEntry) => e.userId)|
    ensures s.activeUsers <= s.last7Days
  {
    var last7 := LastWeek(entries, now);
    var previous7 := PreviousWeek(entries, now);
    var counts, keys := Tally(Moods(entries));
    CountsOfSpec(Moods(entries));
    MostCommonIsLastMode(Moods(entries), counts);
    var mostCommon := Reduce(counts, Neutral, keys);
    var activeUsers := |Image(last7, (e: MoodEntry) => e.userId)|;
    s := Summary(|entries|, MoodSlice.AverageMood(entries), WeeklyChange(|last7|, |previous7|),
                 mostCommon, activeUsers, |last7|);
  }

  /** The band named under the average: Excellent from 7, Good from 5, Needs
      Attention from 3, Critical below. */
  datatype Rating = Critical | NeedsAttention | Good | Excellent

  function RatingOf(average: real): (r: Rating)
    ensures r == Excellent <==> average >= 7.0
    ensures r == Good <==> 5.0 <= average < 7.0
    ensures r == NeedsAttention <==> 3.0 <= average < 5.0
    ensures r == Critical <==> average < 3.0
  {
    if average >= 7.0 then Excellent
    else if average >= 5.0 then Good
    else if average >= 3.0 then NeedsAttention
    else Critical
  }

  function Rank(r: Rating): nat {
    match r
    case Critical => 0
    case NeedsAttention => 1
    case Good => 2
    case Excellent => 3
  }

  /** A higher average never gets a lower band. */
  lemma RatingMonotone(a: real, b: real)
    requires a <= b
    ensures Rank(RatingOf(a)) <= Rank(RatingOf(b))
  {
  }

  // ---------------------------------------------------------------------------
  // Daily trend

  /** Entries stamped within UTC day `day` (day 0 starts at the epoch). */
  function Bucket(entries: seq<MoodEntry>, day: int): (r: seq<MoodEntry>)
    ensures forall e :: e in r <==> e in entries && day * DayMs <= e.timestamp < day * DayMs + DayMs
    ensures forall e :: multiset(r)[e] == if day * DayMs <= e.timestamp < day * DayMs + DayMs
                                          then multiset(entries)[e] else 0
  {
    Filter(entries, (e: MoodEntry) => day * DayMs <= e.timestamp < day * DayMs + DayMs)
  }

  /** A timestamp lies in the half-open range of a day exactly when that day is
      its day index. */
  lemma DayIndex(t: int, day: int)
    ensures day * DayMs <= t < day * DayMs + DayMs <==> t / DayMs == day
  {
    var q := t / DayMs;
    assert q * DayMs <= t < q * DayMs + DayMs;
    if day < q {
      assert day * DayMs + DayMs <= q * DayMs;
    } else if day > q {
      assert q * DayMs + DayMs <= day * DayMs;
    }
  }

  /** One point of the trend: the day, its number of entries and their mean score
      (0 for a day with no entries). */
  datatype TrendPoint = TrendPoint(day: int, entries: nat, averageMood: real)

  function DayAverage(dayEntries: seq<MoodEntry>): (r: real)
    ensures dayEntries == [] ==> r == 0.0
    ensures dayEntries != [] ==> 1.0 <= r <= 10.0
  {
    if dayEntries == [] then 0.0 else MoodSlice.MeanScore(dayEntries)
  }

  /** The trend point of one day. */
  function PointOf(entries: seq<MoodEntry>, day: int): TrendPoint
  {
    TrendPoint(day, |Bucket(entries, day)|, DayAverage(Bucket(entries, day)))
  }

  /** Thirty consecutive days ending today, oldest first, each summarised by
      its own point. */
  function DailyTrend(entries: seq<MoodEntry>, now: int): (r: seq<TrendPoint>)
    ensures |r| == 30
    ensures forall i :: 0 <= i < 30 ==> r[i] == PointOf(entries, now / DayMs - 29 + i)
  {
    var today := now / DayMs;
    seq(30, i requires 0 <= i < 30 => PointOf(entries, today - 29 + i))
  }

  /** Each trend point counts only entries of its own day: an entry is in a
      point's bucket exactly when its day index is that point's day, so no entry
      is counted by two points. */
  lemma TrendBucketsPartition(entries: seq<MoodEntry>, now: int, i: nat, j: nat, e: MoodEntry)
    requires i < j < 30
    ensures var r := DailyTrend(entries, now);
            && (e in Bucket(entries, r[i].day) <==> e in entries && e.timestamp / DayMs == r[i].day)
            && !(e in Bucket(entries, r[i].day) && e in Bucket(entries, r[j].day))
  {
    var r := DailyTrend(entries, now);
    DayIndex(e.timestamp, r[i].day);
    DayIndex(e.timestamp, r[j].day);
  }

  // ---------------------------------------------------------------------------
  // Mood distribution

  datatype DistributionRow = DistributionRow(mood: MoodType, count: nat)

  /** Total count over the rows. */
  function RowTotal(rows: seq<DistributionRow>): nat {
    if rows == [] then 0 else rows[0].count + RowTotal(rows[1..])
  }

  lemma {:induction false} RowTotalIsCountSum(rows: seq<DistributionRow>, ks: seq<MoodType>, ms: multiset<MoodType>)
    requires |rows| == |ks|
    requires forall i :: 0 <= i < |rows| ==> rows[i].mood == ks[i] && rows[i].count == ms[ks[i]]
    ensures RowTotal(rows) == CountSum(ks, ms)
  {
    if rows != [] {
      RowTotalIsCountSum(rows[1..], ks[1..], ms);
    }
  }

  /** One row per distinct mood in the log, in order of first appearance, with
      its count; the counts are positive and add up to the length of the log. */
  method MoodDistribution(entries: seq<MoodEntry>) returns (rows: seq<DistributionRow>)
    ensures |rows| == |Dedup(Moods(entries))|
    ensures forall i :: 0 <= i < |rows| ==> rows[i].mood == Dedup(Moods(entries))[i]
    ensures forall i :: 0 <= i < |rows| ==> rows[i].count == multiset(Moods(entries))[rows[i].mood] > 0
    ensures forall m :: m in Moods(entries) <==> exists i :: 0 <= i < |rows| && rows[i].mood == m
    ensures RowTotal(rows) == |entries|
  {
    var counts, keys := Tally(Moods(entries));
    CountsOfSpec(Moods(entries));
    rows := seq(|keys|, i requires 0 <= i < |keys| => DistributionRow(keys[i], counts[keys[i]]));
    RowTotalIsCountSum(rows, keys, multiset(Moods(entries)));
    DedupCountSum(Moods(entries));
    forall m | m in Moods(entries)
      ensures exists i :: 0 <= i < |rows| && rows[i].mood == m
    {
      var i :| 0 <= i < |keys| && keys[i] == m;
      assert rows[i].mood == m;
    }
  }

  // ---------------------------------------------------------------------------
  // Team activity

  datatype ActivityRow = ActivityRow(name: string, entries: nat, department: string)

  /** The department of the first roster member with that name; 'Unknown' when
      there is none or the department is empty. */
  function DepartmentOf(users: seq<User>, name: string): (d: string)
    ensures d != ""
    ensures (forall i :: 0 <= i < |users| ==> users[i].name != name) ==> d == "Unknown"
    ensures forall k :: 0 <= k < |users| && users[k].name == name &&
                        (forall j :: 0 <= j < k ==> users[j].name != name) ==>
              d == if users[k].department == "" then "Unknown" else users[k].department
  {
    match FindIndex(users, (u: User) => u.name == name)
    case None => "Unknown"
    case Some(k) => if users[k].department == "" then "Unknown" else users[k].department
  }

  function EntriesOf(r: ActivityRow): int {
    r.entries
  }

  /** No two rows carry the same name. */
  predicate DistinctNames(rows: seq<ActivityRow>) {
    forall i, j :: 0 <= i < j < |rows| ==> rows[i].name != rows[j].name
  }

  /** Reordering rows keeps their names distinct. */
  lemma DistinctNamesPermutation(a: seq<ActivityRow>, b: seq<ActivityRow>)
    requires DistinctNames(a) && multiset(a) == multiset(b)
    ensures DistinctNames(b)
  {
    assert Distinct(a);
    DistinctPermutation(a, b);
    forall i, j | 0 <= i < j < |b|
      ensures b[i].name != b[j].name
    {
      assert b[i] in multiset(a) && b[j] in multiset(a);
      var p :| 0 <= p < |a| && a[p] == b[i];
      var q :| 0 <= q < |a| && a[q] == b[j];
      assert p != q;
    }
  }

  /** One row per tallied name, in key order. */
  function RowsOf(keys: seq<string>, counts: map<string, nat>, users: seq<User>): (r: seq<ActivityRow>)
    requires forall k :: k in keys ==> k in counts
    ensures |r| == |keys|
    ensures forall i :: 0 <= i < |r| ==>
              r[i] == ActivityRow(keys[i], counts[keys[i]], DepartmentOf(users, keys[i]))
  {
    seq(|keys|, i requires 0 <= i < |keys| => ActivityRow(keys[i], counts[keys[i]], DepartmentOf(users, keys[i])))
  }

  /** The ranking the page shows for author names `names`: at most ten rows,
      one per distinct name, by non-increasing count; each row carries the name's
      count and department; a name left out has no more entries than any name
      kept, and fewer than ten names are all kept. */
  ghost predicate IsTeamActivity(names: seq<string>, users: seq<User>, rows: seq<ActivityRow>) {
    && |rows| == (if |Dedup(names)| < 10 then |Dedup(names)| else 10)
    && SortedDesc(rows, EntriesOf)
    && (forall i :: 0 <= i < |rows| ==>
          && rows[i].name in names
          && rows[i].entries == multiset(names)[rows[i].name]
          && rows[i].department == DepartmentOf(users, rows[i].name))
    && DistinctNames(rows)
    && (forall n :: n in names && (forall i :: 0 <= i < |rows| ==> rows[i].name != n) ==>
          forall i :: 0 <= i < |rows| ==> rows[i].entries >= multiset(names)[n])
  }

  /** Per author name: how many entries, and the department; sorted by
      non-increasing count (stably) and cut to the first ten. */
  method TeamActivity(entries: seq<MoodEntry>, users: seq<User>) returns (rows: seq<ActivityRow>)
    ensures IsTeamActivity(Names(entries), users, rows)
  {
    var names := Names(entries);
    var counts, keys := Tally(names);
    CountsOfSpec(names);
    var all := RowsOf(keys, counts, users);
    var sorted := SortDesc(all, EntriesOf);
    rows := Take(sorted, 10);
    TopRows(names, counts, keys, all, sorted, users);
  }

  /** The sorted, cut list of tallied rows has every property of the ranking. */
  lemma TopRows(names: seq<string>, counts: map<string, nat>, keys: seq<string>,
                all: seq<ActivityRow>, sorted: seq<ActivityRow>, users: seq<User>)
    requires keys == Dedup(names)
    requires forall x :: x in counts <==> x in names
    requires forall x :: x in counts ==> counts[x] == multiset(names)[x]
    requires all == RowsOf(keys, counts, users)
    requires multiset(sorted) == multiset(all) && SortedDesc(sorted, EntriesOf)
    ensures IsTeamActivity(names, users, Take(sorted, 10))
  {
    var rows := Take(sorted, 10);
    TakeSorted(sorted, EntriesOf, 10);
    TopRowsCounted(names, counts, keys, all, sorted, users);
    TopRowsDistinct(keys, counts, all, sorted, users);
    forall n | n in names && (forall i :: 0 <= i < |rows| ==> rows[i].name != n)
      ensures forall i :: 0 <= i < |rows| ==> rows[i].entries >= multiset(names)[n]
    {
      TopRowsDominate(names, counts, keys, all, sorted, users, n);
    }
    assert |sorted| == |multiset(sorted)| == |multiset(all)| == |all|;
  }

  /** Each kept row is a tallied name with its count and department. */
  lemma TopRowsCounted(names: seq<string>, counts: map<string, nat>, keys: seq<string>,
                       all: seq<ActivityRow>, sorted: seq<ActivityRow>, users: seq<User>)
    requires keys == Dedup(names)
    requires forall x :: x in counts <==> x in names
    requires forall x :: x in counts ==> counts[x] == multiset(names)[x]
    requires all == RowsOf(keys, counts, users)
    requires multiset(sorted) == multiset(all)
    ensures var rows := Take(sorted, 10);
            forall i :: 0 <= i < |rows| ==>
              && rows[i].name in names
              && rows[i].entries == multiset(names)[rows[i].name]
              && rows[i].department == DepartmentOf(users, rows[i].name)
  {
    var rows := Take(sorted, 10);
    forall i | 0 <= i < |rows|
      ensures rows[i].name in names && rows[i].entries == multiset(names)[rows[i].name]
      ensures rows[i].department == DepartmentOf(users, rows[i].name)
    {
      assert rows[i] == sorted[i];
      assert sorted[i] in multiset(all);
    }
  }

  /** Names stay distinct through the sort and the cut. */
  lemma TopRowsDistinct(keys: seq<string>, counts: map<string, nat>, all: seq<ActivityRow>,
                        sorted: seq<ActivityRow>, users: seq<User>)
    requires Distinct(keys) && forall k :: k in keys ==> k in counts
    requires all == RowsOf(keys, counts, users)
    requires multiset(sorted) == multiset(all)
    ensures DistinctNames(Take(sorted, 10))
  {
    assert DistinctNames(all) by {
      forall i, j | 0 <= i < j < |all| ensures all[i].name != all[j].name {
        assert keys[i] != keys[j];
      }
    }
    DistinctNamesPermutation(all, sorted);
  }

  /** A tallied name without a kept row has no more entries than any kept row. */
  lemma TopRowsDominate(names: seq<string>, counts: map<string, nat>, keys: seq<string>,
                        all: seq<ActivityRow>, sorted: seq<ActivityRow>, users: seq<User>, n: string)
    requires keys == Dedup(names)
    requires forall x :: x in counts <==> x in names
    requires forall x :: x in counts ==> counts[x] == multiset(names)[x]
    requires all == RowsOf(keys, counts, users)
    requires multiset(sorted) == multiset(all) && SortedDesc(sorted, EntriesOf)
    requires n in names && forall i :: 0 <= i < |Take(sorted, 10)| ==> Take(sorted, 10)[i].name != n
    ensures forall i :: 0 <= i < |Take(sorted, 10)| ==> Take(sorted, 10)[i].entries >= multiset(names)[n]
  {
    var rows := Take(sorted, 10);
    var a :| 0 <= a < |keys| && keys[a] == n;
    var x := all[a];
    assert x in multiset(sorted);
    assert x !in rows;
    TopDominates(sorted, EntriesOf, 10, x);
    forall i | 0 <= i < |rows| ensures rows[i].entries >= multiset(names)[n] {
      assert rows[i] in Take(sorted, 10);
    }
  }
}
