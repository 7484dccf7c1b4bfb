/** The team directory's derived data: the search and filter over the roster,
    the department choices, the header statistics, the status badge and a
    member's recent mood history. Case folding is a parameter `lower`, standing
    for the platform's `toLowerCase`. */
module TeamMembersPage {
  import opened Types
  import opened Seqs

  /** `t` begins `s`. */
  predicate IsPrefix(t: string, s: string) {
    |t| <= |s| && s[..|t|] == t
  }

  /** `t` occurs in `s` as a contiguous block (`String.includes`). */
  predicate Contains(s: string, t: string)
    decreases |s|
  {
    IsPrefix(t, s) || (|s| > 0 && Contains(s[1..], t))
  }

  /** The empty string occurs in every string, and every string occurs in itself;
      a string never occurs in a shorter one. */
  lemma {:induction false} ContainsLaws(s: string, t: string)
    ensures Contains(s, "") && Contains(s, s)
    ensures Contains(s, t) ==> |t| <= |s|
    decreases |s|
  {
    assert IsPrefix("", s) && IsPrefix(s, s);
    if |s| > 0 && !IsPrefix(t, s) {
      ContainsLaws(s[1..], t);
    }
  }

  /** The search box matches the name, the email or the department, compared
      after case folding. */
  predicate MatchesSearch(u: User, query: string, lower: string -> string) {
    || Contains(lower(u.name), lower(query))
    || Contains(lower(u.email), lower(query))
    || Contains(lower(u.department), lower(query))
  }

  /** Whether a member passes all three filters; 'all' disables the department
      and the status filter. */
  predicate Passes(u: User, query: string, department: string, status: string, lower: string -> string) {
    && MatchesSearch(u, query, lower)
    && (department == "all" || u.department == department)
    && (status == "all" || StatusName(u.status) == status)
  }

  function FilteredUsers(users: seq<User>, query: string, department: string, status: string,
                         lower: string -> string): (r: seq<User>)
    ensures |r| <= |users|
    ensures forall u :: u in r <==> u in users && Passes(u, query, department, status, lower)
    ensures forall u :: multiset(r)[u] == if Passes(u, query, department, status, lower) then multiset(users)[u] else 0
  {
    Filter(users, (u: User) => Passes(u, query, department, status, lower))
  }

  /** The filtered list keeps the roster's order. */
  lemma FilteredIsSubsequence(users: seq<User>, query: string, department: string, status: string,
                              lower: string -> string)
    ensures Subsequence(FilteredUsers(users, query, department, status, lower), users)
  {
    FilterIsSubsequence(users, (u: User) => Passes(u, query, department, status, lower));
  }

  /** With both filters on 'all' and an empty query, nobody is filtered out
      (folding the empty string gives the empty string). */
  lemma NoFilterKeepsEveryone(users: seq<User>, lower: string -> string)
    requires lower("") == ""
    ensures FilteredUsers(users, "", "all", "all", lower) == users
  {
    forall i | 0 <= i < |users|
      ensures Passes(users[i], "", "all", "all", lower)
    {
      ContainsLaws(lower(users[i].name), "");
    }
    FilterAll(users, (u: User) => Passes(u, "", "all", "all", lower));
  }

  /** Departments of the roster, in roster order. */
  function DepartmentList(users: seq<User>): (r: seq<string>)
    ensures |r| == |users|
    ensures forall i :: 0 <= i < |r| ==> r[i] == users[i].department
  {
    seq(|users|, i requires 0 <= i < |users| => users[i].department)
  }

  /** The department choices: 'all', then each department once, in order of first appearance. */
  function Departments(users: seq<User>): (r: seq<string>)
    ensures |r| >= 1 && r[0] == "all"
    ensures Distinct(r[1..])
    ensures forall d :: d in r[1..] <==> exists i :: 0 <= i < |users| && users[i].department == d
    ensures forall i, j :: 1 <= i < j < |r| ==>
              r[i] in DepartmentList(users) && r[j] in DepartmentList(users) &&
              FirstIndexOf(DepartmentList(users), r[i]) < FirstIndexOf(DepartmentList(users), r[j])
  {
    var d := Dedup(DepartmentList(users));
    var r := ["all"] + d;
    assert r[1..] == d;
    DedupFirstSeen(DepartmentList(users));
    r
  }

  /** A repeat-free sequence has as many distinct elements as positions. */
  lemma {:induction false} DistinctCardinality<T>(s: seq<T>)
    requires Distinct(s)
    ensures |set x | x in s| == |s|
  {
    if s != [] {
      assert Distinct(s[1..]);
      DistinctCardinality(s[1..]);
      assert (set x | x in s) == {s[0]} + (set x | x in s[1..]);
      assert s[0] !in (set x | x in s[1..]);
    }
  }

  datatype TeamStats = TeamStats(totalMembers: nat, onlineMembers: nat, departmentCount: nat, activeMembers: nat)

  function OnlineUsers(users: seq<User>): (r: seq<User>)
    ensures forall u :: u in r <==> u in users && u.status == Online
    ensures forall u :: multiset(r)[u] == if u.status == Online then multiset(users)[u] else 0
  {
    Filter(users, (u: User) => u.status == Online)
  }

  /** The header figures: roster size, members online, distinct departments and
      distinct authors in the log. */
  function ComputeTeamStats(users: seq<User>, entries: seq<MoodEntry>): (s: TeamStats)
    ensures s.totalMembers == |users|
    ensures s.onlineMembers == |OnlineUsers(users)| <= s.totalMembers
    ensures s.departmentCount == |Image(users, (u: User) => u.department)| <= s.totalMembers
    ensures s.activeMembers == |Image(entries, (e: MoodEntry) => e.userId)| <= |entries|
  {
    TeamStats(|users|, |OnlineUsers(users)|,
              |Image(users, (u: User) => u.department)|,
              |Image(entries, (e: MoodEntry) => e.userId)|)
  }

  /** The department count in the header is the number of choices in the
      department filter other than 'all'. */
  lemma DepartmentCountMatchesChoices(users: seq<User>, entries: seq<MoodEntry>)
    ensures ComputeTeamStats(users, entries).departmentCount == |Departments(users)| - 1
  {
    var d := Dedup(DepartmentList(users));
    var img := Image(users, (u: User) => u.department);
    assert img == set x | x in d by {
      forall y | y in img ensures y in d {
        var i :| 0 <= i < |users| && users[i].department == y;
        assert DepartmentList(users)[i] == y;
      }
      forall y | y in d ensures y in img {
        var i :| 0 <= i < |users| && DepartmentList(users)[i] == y;
      }
    }
    DistinctCardinality(d);
  }

  datatype Badge = Success | Important | Warning | Subtle

  /** Badge colour of a status string: online, busy and away have their own;
      everything else is subtle. */
  function BadgeAppearance(status: string): (b: Badge)
    ensures b == Success <==> status == "online"
    ensures b == Important <==> status == "busy"
    ensures b == Warning <==> status == "away"
    ensures b == Subtle <==> status != "online" && status != "busy" && status != "away"
  {
    if status == "online" then Success
    else if status == "busy" then Important
    else if status == "away" then Warning
    else Subtle
  }

  /** Different statuses of the model never share a badge, except that offline
      shares the fallback with unknown strings. */
  lemma BadgesOfStatuses(s: Status, t: Status)
    ensures BadgeAppearance(StatusName(s)) == BadgeAppearance(StatusName(t)) ==> s == t
    ensures BadgeAppearance(StatusName(Offline)) == BadgeAppearance("")
  {
  }

  function TimestampOf(e: MoodEntry): int {
    e.timestamp
  }

  function EntriesBy(entries: seq<MoodEntry>, userId: string): (r: seq<MoodEntry>)
    ensures forall e :: e in r <==> e in entries && e.userId == userId
    ensures forall e :: multiset(r)[e] == if e.userId == userId then multiset(entries)[e] else 0
  {
    Filter(entries, (e: MoodEntry) => e.userId == userId)
  }

  /** A member's five most recent entries, newest first. */
  function UserMoodHistory(entries: seq<MoodEntry>, userId: string): (r: seq<MoodEntry>)
    ensures |r| <= 5
    ensures |r| == if |EntriesBy(entries, userId)| < 5 then |EntriesBy(entries, userId)| else 5
    ensures forall i :: 0 <= i < |r| ==> r[i] in entries && r[i].userId == userId
    ensures SortedDesc(r, TimestampOf)
    ensures multiset(r) <= multiset(EntriesBy(entries, userId))
  {
    var mine := EntriesBy(entries, userId);
    var sorted := SortDesc(mine, TimestampOf);
    TopOfSorted(mine, TimestampOf, 5);
    Take(sorted, 5)
  }

  /** An entry of the member's that the history leaves out is no newer than any
      entry it shows. */
  lemma HistoryIsMostRecent(entries: seq<MoodEntry>, userId: string, e: MoodEntry)
    requires e in entries && e.userId == userId
    requires e !in UserMoodHistory(entries, userId)
    ensures |UserMoodHistory(entries, userId)| == 5
    ensures forall x :: x in UserMoodHistory(entries, userId) ==> x.timestamp >= e.timestamp
  {
    var mine := EntriesBy(entries, userId);
    var sorted := SortDesc(mine, TimestampOf);
    assert e in multiset(sorted);
    TopDominates(sorted, TimestampOf, 5, e);
  }

  /** Counted copy for copy: when the history shows fewer copies of an entry
      than the member's log holds, the history is full and every entry it shows
      is at least as new. */
  lemma HistoryKeepsNewestCopies(entries: seq<MoodEntry>, userId: string, e: MoodEntry)
    requires multiset(UserMoodHistory(entries, userId))[e] < multiset(EntriesBy(entries, userId))[e]
    ensures |UserMoodHistory(entries, userId)| == 5
    ensures forall x :: x in UserMoodHistory(entries, userId) ==> x.timestamp >= e.timestamp
  {
    var mine := EntriesBy(entries, userId);
    var sorted := SortDesc(mine, TimestampOf);
    TopDominatesCopies(sorted, TimestampOf, 5, e);
  }
}
