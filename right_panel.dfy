/** The insights panel: the team's average mood with its label, today's
    check-ins and the number of members online. */
module RightPanel {
  import opened Types
  import opened Seqs
  import MoodSlice
  import TeamMembersPage

  /** The panel's own score table, keyed by the mood's name. */
  const ScoreByName: map<string, int> := map[
    "happy" := 10, "excited" := 9, "content" := 8, "motivated" := 9, "neutral" := 5,
    "tired" := 4, "stressed" := 3, "frustrated" := 2, "anxious" := 2, "sad" := 1]

  /** The panel's table gives every mood the score the mood slice gives it. */
  lemma ScoreTablesAgree(m: MoodType)
    ensures MoodName(m) in ScoreByName && ScoreByName[MoodName(m)] == MoodSlice.Score(m)
  {
  }

  function NameScoreSum(entries: seq<MoodEntry>): int {
    if entries == [] then 0
    else
      ScoreTablesAgree(entries[0].mood);
      ScoreByName[MoodName(entries[0].mood)] + NameScoreSum(entries[1..])
  }

  lemma {:induction false} NameScoreSumAgrees(entries: seq<MoodEntry>)
    ensures NameScoreSum(entries) == MoodSlice.ScoreSum(entries)
  {
    if entries != [] {
      ScoreTablesAgree(entries[0].mood);
      NameScoreSumAgrees(entries[1..]);
    }
  }

  /** The team mood: 5 for an empty log, otherwise the mean score via the
      name-keyed table; it is the same figure the mood slice computes. */
  function TeamMood(entries: seq<MoodEntry>): (r: real)
    ensures r == MoodSlice.AverageMood(entries)
    ensures 1.0 <= r <= 10.0
  {
    NameScoreSumAgrees(entries);
    if |entries| > 0 then NameScoreSum(entries) as real / |entries| as real else 5.0
  }

  datatype MoodLabel = NeedsAttention | Okay | Good | Great

  /** Great from 8, Good from 6, Okay from 4, Needs Attention below. */
  function LabelOf(score: real): (l: MoodLabel)
    ensures l == Great <==> score >= 8.0
    ensures l == Good <==> 6.0 <= score < 8.0
    ensures l == Okay <==> 4.0 <= score < 6.0
    ensures l == NeedsAttention <==> score < 4.0
  {
    if score >= 8.0 then Great
    else if score >= 6.0 then Good
    else if score >= 4.0 then Okay
    else NeedsAttention
  }

  function LabelRank(l: MoodLabel): nat {
    match l
    case NeedsAttention => 0
    case Okay => 1
    case Good => 2
    case Great => 3
  }

  /** A higher score never gets a lower label. */
  lemma LabelMonotone(a: real, b: real)
    requires a <= b
    ensures LabelRank(LabelOf(a)) <= LabelRank(LabelOf(b))
  {
  }

  /** An empty log shows 5.0, labelled Okay. */
  lemma EmptyLogLabel()
    ensures LabelOf(TeamMood([])) == Okay
  {
  }

  /** Entries stamped on the same UTC day as `now`. */
  function TodaysEntries(entries: seq<MoodEntry>, now: int): (r: seq<MoodEntry>)
    ensures |r| <= |entries|
    ensures forall e :: e in r <==> e in entries && e.timestamp / DayMs == now / DayMs
    ensures forall e :: multiset(r)[e] == if e.timestamp / DayMs == now / DayMs then multiset(entries)[e] else 0
  {
    Filter(entries, (e: MoodEntry) => e.timestamp / DayMs == now / DayMs)
  }

  /** The "Online Now" figure. */
  function OnlineNow(users: seq<User>): (n: nat)
    ensures n <= |users|
    ensures n == 0 <==> forall u :: u in users ==> u.status != Online
  {
    var online := TeamMembersPage.OnlineUsers(users);
    assert online != [] ==> online[0] in online;
    |online|
  }
}
