/** The mood slice of the application state: the entry log, newest first, and
    the cached statistics that `addMoodEntry` keeps up to date. */
module MoodSlice {
  import opened Types
  import opened Seqs
  import SampleData

  /** The mood score table: happy=10, excited=9, content=8, motivated=9,
      neutral=5, tired=4, stressed=3, frustrated=2, anxious=2, sad=1. */
  function Score(m: MoodType): (r: int)
    ensures 1 <= r <= 10
    ensures r == 10 <==> m == Happy
    ensures r == 1 <==> m == Sad
  {
    match m
    case Happy => 10
    case Excited => 9
    case Content => 8
    case Motivated => 9
    case Neutral => 5
    case Tired => 4
    case Stressed => 3
    case Frustrated => 2
    case Anxious => 2
    case Sad => 1
  }

  /** Sum of the scores of a log (the source's `reduce`). */
  function ScoreSum(entries: seq<MoodEntry>): (r: int)
    ensures |entries| <= r <= 10 * |entries|
  {
    if entries == [] then 0 else Score(entries[0].mood) + ScoreSum(entries[1..])
  }

  /** Mean score of a non-empty log; it lies in [1, 10]. */
  function MeanScore(entries: seq<MoodEntry>): (r: real)
    requires |entries| > 0
    ensures 1.0 <= r <= 10.0
  {
    var n := |entries| as real;
    var sum := ScoreSum(entries) as real;
    assert n <= sum <= 10.0 * n;
    DivBounds(sum, n);
    sum / n
  }

  lemma DivBounds(sum: real, n: real)
    requires n > 0.0 && n <= sum <= 10.0 * n
    ensures 1.0 <= sum / n <= 10.0
  {
  }

  /** The average mood the views show: 5 for an empty log, otherwise the mean score. */
  function AverageMood(entries: seq<MoodEntry>): (r: real)
    ensures |entries| == 0 ==> r == 5.0
    ensures 1.0 <= r <= 10.0
  {
    if |entries| == 0 then 5.0 else MeanScore(entries)
  }

  /** A log of one entry averages to that entry's score: one happy post gives 10. */
  lemma SingleEntryAverage(e: MoodEntry)
    ensures AverageMood([e]) == Score(e.mood) as real
    ensures e.mood == Happy ==> AverageMood([e]) == 10.0
  {
    assert [e][1..] == [];
  }

  /** Decimal digits of a natural number (the source's `toString`). */
  function DecimalString(n: nat): (s: string)
    ensures |s| >= 1
    ensures forall i :: 0 <= i < |s| ==> '0' <= s[i] <= '9'
  {
    var d := ['0' + (n % 10) as char];
    if n < 10 then d else DecimalString(n / 10) + d
  }

  /** A number below ten is written as its single digit. */
  lemma SingleDigit(n: nat)
    requires n < 10
    ensures DecimalString(n) == [('0' as int + n) as char]
  {
  }

  /** Numbers the posts "1", "2", ... and stamps them two hours apart, newest first. */
  function StampSamples(sample: seq<EntryPayload>, now: int): (r: seq<MoodEntry>)
    ensures |r| == |sample|
    ensures forall i :: 0 <= i < |r| ==> r[i].id == DecimalString(i + 1)
    ensures forall i :: 0 <= i < |r| ==> r[i].timestamp == now - i * 2 * HourMs
    ensures forall i, j :: 0 <= i < j < |r| ==> r[i].timestamp > r[j].timestamp
  {
    seq(|sample|, i requires 0 <= i < |sample| => Stamp(sample[i], DecimalString(i + 1), now - i * 2 * HourMs))
  }

  /** The initial log: the five demo posts with ids "1".."5", newest first. */
  function InitialEntries(now: int): (r: seq<MoodEntry>)
    ensures |r| == 5
    ensures [r[0].id, r[1].id, r[2].id, r[3].id, r[4].id] == ["1", "2", "3", "4", "5"]
    ensures forall i :: 0 <= i < 5 ==> r[i].timestamp == now - i * 2 * HourMs
    ensures forall i, j :: 0 <= i < j < 5 ==> r[i].timestamp > r[j].timestamp
  {
    SingleDigit(1);
    SingleDigit(2);
    SingleDigit(3);
    SingleDigit(4);
    SingleDigit(5);
    StampSamples(SampleData.SampleMoodEntries, now)
  }

  const InitialStats: MoodStats := MoodStats(0, 5.0, Stable, Neutral, [])

  /** The log after `addReaction`: the reaction is appended to the first entry
      with that id (creating its list if absent); an unknown id changes nothing. */
  function AddReactionTo(entries: seq<MoodEntry>, entryId: string, r: Reaction): (result: seq<MoodEntry>)
    ensures |result| == |entries|
    ensures (forall i :: 0 <= i < |entries| ==> entries[i].id != entryId) ==> result == entries
    ensures forall k :: 0 <= k < |entries| && entries[k].id == entryId &&
                        (forall j :: 0 <= j < k ==> entries[j].id != entryId) ==>
              result == entries[k := entries[k].(reactions := Some(ReactionsOf(entries[k]) + [r]))]
  {
    match FindIndex(entries, (e: MoodEntry) => e.id == entryId)
    case None => entries
    case Some(k) => entries[k := entries[k].(reactions := Some(ReactionsOf(entries[k]) + [r]))]
  }

  /** The statistics after a post: absent ones stay absent; otherwise the total
      counts one more post and the average is taken over the whole new log. */
  function StatsAfterAdd(stats: Option<MoodStats>, entries: seq<MoodEntry>): (r: Option<MoodStats>)
    ensures r.Some? <==> stats.Some?
    ensures r.Some? ==> r.value.totalEntries == stats.value.totalEntries + 1
    ensures r.Some? ==> r.value.averageMood == AverageMood(entries)
    ensures r.Some? ==> r.value.(totalEntries := stats.value.totalEntries,
                                 averageMood := stats.value.averageMood) == stats.value
  {
    if stats.None? then None
    else Some(stats.value.(totalEntries := stats.value.totalEntries + 1, averageMood := AverageMood(entries)))
  }

  class MoodState {
    var entries: seq<MoodEntry>
    var stats: Option<MoodStats>
    var isLoading: bool
    var error: Option<string>

    /** The initial state: the five demo posts, statistics with a zero total. */
    constructor (now: int)
      ensures entries == InitialEntries(now)
      ensures stats == Some(InitialStats)
      ensures !isLoading && error == None
    {
      entries := InitialEntries(now);
      stats := Some(InitialStats);
      isLoading := false;
      error := None;
    }

    /** Prepends the stamped entry; when statistics exist, bumps their total by one
        and recomputes their average over the whole log. */
    method AddMoodEntry(payload: EntryPayload, id: string, now: int)
      modifies this
      ensures entries == [Stamp(payload, id, now)] + old(entries)
      ensures stats == StatsAfterAdd(old(stats), entries)
      ensures stats.Some? ==> stats.value.totalEntries == old(stats).value.totalEntries + 1
      ensures stats.Some? ==> 1.0 <= stats.value.averageMood <= 10.0
      ensures isLoading == old(isLoading) && error == old(error)
    {
      entries := [Stamp(payload, id, now)] + entries;
      if stats.Some? {
        var totalScore := ScoreSum(entries);
        stats := Some(stats.value.(totalEntries := stats.value.totalEntries + 1,
                                   averageMood := totalScore as real / |entries| as real));
      }
    }

    /** Replaces the log wholesale; the statistics are left as they are. */
    method SetMoodEntries(newEntries: seq<MoodEntry>)
      modifies this
      ensures entries == newEntries
      ensures stats == old(stats) && isLoading == old(isLoading) && error == old(error)
    {
      entries := newEntries;
    }

    /** Replaces the statistics. */
    method UpdateMoodStats(newStats: MoodStats)
      modifies this
      ensures stats == Some(newStats)
      ensures entries == old(entries) && isLoading == old(isLoading) && error == old(error)
    {
      stats := Some(newStats);
    }

    /** Appends a reaction stamped with `reactionId` and `now` to the first entry
        with id `entryId`; nothing happens when there is none. */
    method AddReaction(entryId: string, userId: string, emoji: string, reactionId: string, now: int)
      modifies this
      ensures entries == AddReactionTo(old(entries), entryId, Reaction(reactionId, userId, emoji, now))
      ensures stats == old(stats) && isLoading == old(isLoading) && error == old(error)
    {
      var found := FindIndex(entries, (e: MoodEntry) => e.id == entryId);
      if found.Some? {
        var k := found.value;
        var e := entries[k];
        var rs := if e.reactions.None? then [] else e.reactions.value;
        entries := entries[k := e.(reactions := Some(rs + [Reaction(reactionId, userId, emoji, now)]))];
      }
    }
  }

  /** The cached total is a counter, not the log length: the initial state has
      five entries and a total of 0, so after one post the total is 1 and the log holds 6. */
  method TotalIsACounter(payload: EntryPayload, now: int)
  {
    var s := new MoodState(now);
    s.AddMoodEntry(payload, "6", now);
    assert s.stats.value.totalEntries == 1;
    assert |s.entries| == 6;
  }
}
