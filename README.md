# MoodSync core, modelled in Dafny

MoodSync is a team mood-tracking web application. Team members post a mood
check-in (one of ten moods, an optional short message, a channel), react to each
other's posts with emoji, browse a team directory and read an analytics page.
This project models the logic behind those screens.

- **State slices.**
  - The mood slice holds the entry log, newest first. It also holds cached
    statistics that `addMoodEntry` keeps up to date.
  - The user slice holds the current user, the roster and whether someone is
    signed in.
  - The channel slice holds the channels and the selected channel.
  - Each slice is a Dafny `class` whose methods update its fields, as the
    reducers do.
- **Storage service.** This is the persistence adapter over the browser's
  string key/value store. It covers:
  - typed reads that fall back to a default;
  - writes that may be refused;
  - the version gate that clears the application's keys;
  - export and import of a JSON document;
  - the usage estimate.

  The store is a `map<string, string>`. Availability and quota are an `Env`
  argument. JSON is an abstract `Codec` per value type.
- **Pages and components.** Their derived data is modelled as functions.
  - The analytics page: averages, the weekly windows, the most common mood,
    the 30-day trend, the mood distribution, the top-10 team activity table and
    the rating.
  - The team directory: search and filters, departments, header statistics,
    status badges and per-member history.
  - The mood feed: channel filter, empty state, reaction counts and the
    reaction handler.
  - The right panel: team mood, its label, today's check-ins and who is online.
  - The entry form: mood menu, message trimming and the submit handler.
  - The application shell: start-up load, sign-in and screen selection.

Shared modules:

- `Types` holds the entities.
- `SampleData` holds the demo data.
- `Seqs` holds sequence helpers: filter, dedup, a stable descending insertion
  sort, take and counting.

Time is an integer count of milliseconds. A calendar day is the UTC day index
`t / 86_400_000`. The current time, generated ids and case folding are passed in
as parameters.

## Model

| member | source | states |
|---|---|---|
| Types.Stamp | src/store/slices/moodSlice.ts:36-40 | a stamped entry carries the payload's fields unchanged, plus the given id and timestamp |
| Types.MoodNameInjective | src/types/index.ts:42-52 | distinct moods have distinct wire names |
| Types.StatusNameInjective | src/types/index.ts:6 | distinct presence statuses have distinct wire names |
| MoodSlice.Score | src/store/slices/moodSlice.ts:47-50 | every score lies in 1..10; only happy scores 10 and only sad scores 1 |
| MoodSlice.ScoreSum | src/store/slices/moodSlice.ts:51 | the summed score of n entries lies between n and 10n |
| MoodSlice.MeanScore | src/store/slices/moodSlice.ts:51-52 | the mean score of a non-empty log lies in [1, 10] |
| MoodSlice.AverageMood | src/pages/AnalyticsPage.tsx:154-158 | the average is 5 for an empty log and always lies in [1, 10] |
| MoodSlice.SingleEntryAverage | src/store/slices/moodSlice.ts:51-52 | a one-entry log averages to that entry's score, so one happy post gives 10 |
| MoodSlice.DecimalString | src/store/slices/moodSlice.ts:23 | the id text is a non-empty string of decimal digits |
| MoodSlice.SingleDigit | src/store/slices/moodSlice.ts:23 | numbers below ten are written as one digit |
| MoodSlice.StampSamples | src/store/slices/moodSlice.ts:21-25 | the i-th post gets id i+1 and a timestamp 2i hours before now, so timestamps strictly decrease |
| MoodSlice.InitialEntries | src/store/slices/moodSlice.ts:20-25 | the initial log holds five posts with ids "1".."5", newest first, two hours apart |
| MoodSlice.AddReactionTo | src/store/slices/moodSlice.ts:72-83 | an unknown id leaves the log unchanged; otherwise only the first entry with that id changes, gaining the reaction at the end of its list (a missing list counts as empty) |
| MoodSlice.StatsAfterAdd | src/store/slices/moodSlice.ts:44-53 | absent statistics stay absent; present ones count one more post and average over the whole new log, and every other field is unchanged |
| MoodSlice.TotalIsACounter | src/store/slices/moodSlice.ts:12-45 | the cached total is a counter, not the log length: after one post on the initial state it is 1 while the log holds 6 |
| MoodSlice.MoodState.constructor | src/store/slices/moodSlice.ts:12-29 | the initial state holds the demo log, statistics with a zero total, no loading and no error |
| MoodSlice.MoodState.AddMoodEntry | src/store/slices/moodSlice.ts:35-53 | the new entry is prepended; statistics, if present, gain one in their total and an average in [1, 10]; nothing else changes |
| MoodSlice.MoodState.SetMoodEntries | src/store/slices/moodSlice.ts:56-58 | replaces the log and leaves every other field unchanged |
| MoodSlice.MoodState.UpdateMoodStats | src/store/slices/moodSlice.ts:60-62 | replaces the statistics and leaves every other field unchanged |
| MoodSlice.MoodState.AddReaction | src/store/slices/moodSlice.ts:72-83 | the log becomes `AddReactionTo` of the old log; nothing else changes |
| UserSlice.InitialUsers | src/store/slices/userSlice.ts:12-68 | the roster starts with four users with ids "1".."4"; the first is the signed-in user |
| UserSlice.WithStatus | src/store/slices/userSlice.ts:79-87 | only the first user with the id changes, and only in status; an unknown id changes nothing |
| UserSlice.WithStatusKeepsIds | src/store/slices/userSlice.ts:79-87 | a status update never changes any user's id |
| UserSlice.UserState.constructor | src/store/slices/userSlice.ts:12-68 | starts signed in as the first roster member, with no loading and no error |
| UserSlice.UserState.SetCurrentUser | src/store/slices/userSlice.ts:74-77 | sets the user and marks the session authenticated; the roster is unchanged |
| UserSlice.UserState.UpdateUserStatus | src/store/slices/userSlice.ts:79-87 | updates the roster entry; the current user's status changes too exactly when the ids match |
| UserSlice.UserState.AddUser | src/store/slices/userSlice.ts:89-91 | appends to the roster; nothing else changes |
| UserSlice.UserState.SetUsers | src/store/slices/userSlice.ts:93-95 | replaces the roster; nothing else changes |
| UserSlice.UserState.Logout | src/store/slices/userSlice.ts:97-100 | clears the current user and the authenticated flag; the roster is kept |
| ChannelSlice.InitialChannels | src/store/slices/channelSlice.ts:11-57 | five channels with pairwise distinct ids, "general" first |
| ChannelSlice.Merge | src/store/slices/channelSlice.ts:82-87 | `Object.assign` of a patch: each present field overwrites, each absent one keeps its value (its laws are in `MergeLaws`) |
| ChannelSlice.MergeLaws | src/store/slices/channelSlice.ts:82-87 | an empty patch changes nothing, and applying a patch twice equals applying it once |
| ChannelSlice.MergeInto | src/store/slices/channelSlice.ts:82-87 | only the first channel with the patch's id is merged; ids are kept; an unknown id changes nothing |
| ChannelSlice.WithMemberCount | src/store/slices/channelSlice.ts:89-94 | only the first channel with the id gets the new count; an unknown id changes nothing |
| ChannelSlice.MemberCountIsMerge | src/store/slices/channelSlice.ts:82-94 | a member-count update is the patch update with only the count set |
| ChannelSlice.ChannelState.constructor | src/store/slices/channelSlice.ts:59-64 | the initial channels, with "general" selected, and the selected id names an existing channel |
| ChannelSlice.ChannelState.SetSelectedChannel | src/store/slices/channelSlice.ts:70-72 | selects the id; the channels are unchanged |
| ChannelSlice.ChannelState.SetChannels | src/store/slices/channelSlice.ts:74-76 | replaces the channels; the selection is unchanged |
| ChannelSlice.ChannelState.AddChannel | src/store/slices/channelSlice.ts:78-80 | appends a channel; the selection is unchanged |
| ChannelSlice.ChannelState.UpdateChannel | src/store/slices/channelSlice.ts:82-87 | the channels become `MergeInto` of the old channels |
| ChannelSlice.ChannelState.UpdateMemberCount | src/store/slices/channelSlice.ts:89-94 | the channels become `WithMemberCount` of the old channels |
| StorageService.Probe | src/utils/storageService.ts:15-24 | the availability probe removes at most its own test key: every other key keeps its value, and an unavailable store is left exactly as it was |
| StorageService.ProbeIdempotent | src/utils/storageService.ts:15-24 | probing twice is the same as probing once |
| StorageService.Get | src/utils/storageService.ts:26-41 | the default comes back when storage is unavailable, the key is missing or the text does not parse; otherwise the decoded value |
| StorageService.GetAfterProbe | src/utils/storageService.ts:26-41 | the probe a read performs first never changes what the read returns |
| StorageService.GetAgree | src/utils/storageService.ts:26-41 | two stores that agree on a key read the same value for it |
| StorageService.Put | src/utils/storageService.ts:43-56 | an accepted write stores the text under the key; a refused one leaves only the probe's effect; no other key changes |
| StorageService.PutWhen | src/utils/storageService.ts:141-156 | an import step writes only when its field is present, and touches no other key |
| StorageService.PutSome | src/utils/storageService.ts:141-156 | a present value is written encoded; an absent one leaves the store unchanged |
| StorageService.PutThenGet | src/utils/storageService.ts:26-56 | reading back an accepted write returns the written value |
| StorageService.Cleared | src/utils/storageService.ts:158-168 | clearing removes every application key and keeps every other key |
| StorageService.Reset | src/utils/storageService.ts:59-67 | the version-mismatch path: clear the application keys, then write the current version (its effect is stated by `ResetSettles`) |
| StorageService.VersionValid | src/utils/storageService.ts:59-67 | the version check passes exactly when the stored version reads back as the current one |
| StorageService.ResetSettles | src/utils/storageService.ts:59-67 | after a version reset the application keys are gone except the version, and the version check then passes |
| StorageService.Restore | src/utils/storageService.ts:70-81 | loaded entries keep all their fields, and a missing reaction list becomes empty |
| StorageService.RestoreLaws | src/utils/storageService.ts:70-81 | restoring is idempotent and distributes over concatenation |
| StorageService.ExportDocument | src/utils/storageService.ts:128-139 | the document carries the version, the time and every stored collection, read as the getters read them |
| StorageService.ImportInto | src/utils/storageService.ts:141-156 | the five guarded writes of an import, in the source's order (stated by `ImportFrame`, `ImportNothing` and the `ImportReads` lemmas) |
| StorageService.ImportNothing | src/utils/storageService.ts:141-156 | a document with no fields (and an empty or missing selected channel) leaves the store unchanged |
| StorageService.ImportFrame | src/utils/storageService.ts:141-156 | import touches no key other than the five it writes |
| StorageService.ImportReadsEntries | src/utils/storageService.ts:141-156 | after import, the entries read back as the document's entries |
| StorageService.ImportReadsUser | src/utils/storageService.ts:141-156 | after import, the current user reads back as the document's |
| StorageService.ImportReadsUsers | src/utils/storageService.ts:141-156 | after import, the roster reads back as the document's |
| StorageService.ImportReadsChannels | src/utils/storageService.ts:141-156 | after import, the channels read back as the document's |
| StorageService.ImportReadsSelected | src/utils/storageService.ts:141-156 | after import, a non-empty selected channel reads back as the document's |
| StorageService.ImportReads | src/utils/storageService.ts:141-156 | everything the document carries reads back after import into an empty store |
| StorageService.ExportImportRoundTrip | src/utils/storageService.ts:128-156 | export followed by import reproduces entries, user, roster, channels and a non-empty selected channel |
| StorageService.Utf16Length | src/utils/storageService.ts:180 | a string's JavaScript length lies between its character count and twice that, and equals the character count exactly when no character lies outside the Basic Multilingual Plane |
| StorageService.EmojiCountsTwice | src/utils/storageService.ts:180 | a reaction emoji counts two code units and a plain letter one |
| StorageService.Cost | src/utils/storageService.ts:178-182 | one key's contribution to usage: key and value lengths in UTF-16 code units, nothing for an absent key |
| StorageService.Used | src/utils/storageService.ts:171-192 | usage of no keys is zero |
| StorageService.UsedAppend | src/utils/storageService.ts:171-192 | usage adds up over concatenated key lists |
| StorageService.UsedRemove | src/utils/storageService.ts:171-192 | usage equals one key's cost plus the usage of the remaining keys |
| StorageService.UsedPermutation | src/utils/storageService.ts:171-192 | usage does not depend on the order in which keys are enumerated |
| StorageService.LocalStorageService.constructor | src/utils/storageService.ts:3-12 | the service wraps the given store and codecs |
| StorageService.LocalStorageService.IsAvailable | src/utils/storageService.ts:15-24 | answers the environment's availability; the store ends as probed |
| StorageService.LocalStorageService.SafeGetItem | src/utils/storageService.ts:26-41 | returns `Get` of the old store; the store ends as probed |
| StorageService.LocalStorageService.SafeSetItem | src/utils/storageService.ts:43-56 | reports whether the write was accepted; the store becomes `Put` of the old store |
| StorageService.LocalStorageService.ClearAll | src/utils/storageService.ts:158-168 | the store becomes `Cleared` of the old store |
| StorageService.LocalStorageService.CheckVersion | src/utils/storageService.ts:59-67 | valid exactly when the stored version is current; an invalid version resets the application keys |
| StorageService.LocalStorageService.GetMoodEntries | src/utils/storageService.ts:70-81 | returns the restored stored entries |
| StorageService.LocalStorageService.SaveMoodEntries | src/utils/storageService.ts:83-85 | writes the encoded entries under the entries key |
| StorageService.LocalStorageService.AddMoodEntry | src/utils/storageService.ts:87-91 | writes the stored entries with the new one prepended |
| StorageService.LocalStorageService.GetCurrentUser | src/utils/storageService.ts:94-96 | returns the stored current user, or none |
| StorageService.LocalStorageService.SaveCurrentUser | src/utils/storageService.ts:98-100 | writes the encoded user under the current-user key |
| StorageService.LocalStorageService.GetUsers | src/utils/storageService.ts:102-104 | returns the stored roster, or an empty one |
| StorageService.LocalStorageService.SaveUsers | src/utils/storageService.ts:106-108 | writes the encoded roster |
| StorageService.LocalStorageService.GetChannels | src/utils/storageService.ts:111-113 | returns the stored channels, or none |
| StorageService.LocalStorageService.SaveChannels | src/utils/storageService.ts:115-117 | writes the encoded channels |
| StorageService.LocalStorageService.GetSelectedChannel | src/utils/storageService.ts:119-121 | returns the stored selected channel id, or none |
| StorageService.LocalStorageService.SaveSelectedChannel | src/utils/storageService.ts:123-125 | writes the encoded channel id |
| StorageService.LocalStorageService.ExportData | src/utils/storageService.ts:128-139 | returns the encoded export document of the old store |
| StorageService.LocalStorageService.ImportData | src/utils/storageService.ts:141-156 | succeeds exactly when the text parses; a failure leaves the store unchanged, a success imports the document |
| StorageService.LocalStorageService.GetStorageUsage | src/utils/storageService.ts:171-192 | zero usage when unavailable; otherwise the summed UTF-16 lengths of keys and values against the fixed 5 MiB quota |
| StorageService.CheckVersionTwice | src/utils/storageService.ts:59-67 | a second version check right after the first always passes; after a failed first check the store is the reset store, which the second check leaves as it is |
| AnalyticsPage.CountsOfSpec | src/pages/AnalyticsPage.tsx:178-181 | the tally has a key exactly for each value present, mapped to its number of occurrences |
| AnalyticsPage.CountsOf | src/pages/AnalyticsPage.tsx:178-181 | the tally the counting loop builds, defined by recursion on the log (its meaning is `CountsOfSpec`) |
| AnalyticsPage.Tally | src/pages/AnalyticsPage.tsx:178-181 | the counting loop builds the tally and the keys in first-insertion order |
| AnalyticsPage.Moods | src/pages/AnalyticsPage.tsx:178-181 | the moods of the log, position by position |
| AnalyticsPage.Names | src/pages/AnalyticsPage.tsx:243-246 | the author names of the log, position by position |
| AnalyticsPage.Step | src/pages/AnalyticsPage.tsx:182-184 | one reduce step: keep the accumulator only if its count is strictly greater, a missing count never being greater |
| AnalyticsPage.Reduce | src/pages/AnalyticsPage.tsx:182-184 | the left fold of `Step` over the keys (its meaning is `ReduceSpec`) |
| AnalyticsPage.ReduceSpec | src/pages/AnalyticsPage.tsx:182-184 | the reduce ends on a key that no listed key outcounts, and every listed key tying with it comes no later in the key order |
| AnalyticsPage.ReduceFromNeutral | src/pages/AnalyticsPage.tsx:182-184 | starting from 'neutral', the reduce still returns a most frequent mood |
| AnalyticsPage.TieComesFirst | src/pages/AnalyticsPage.tsx:178-181 | earlier tally keys first appear earlier in the log |
| AnalyticsPage.ModeCountMax | src/pages/AnalyticsPage.tsx:178-184 | the reduce's winner occurs at least as often as any mood |
| AnalyticsPage.ModeTieOrder | src/pages/AnalyticsPage.tsx:178-184 | among tied moods, the winner is the one whose first appearance in the log is latest |
| AnalyticsPage.LastModeFromKeys | src/pages/AnalyticsPage.tsx:178-184 | the winner is a most frequent mood and, among ties, the one first seen last |
| AnalyticsPage.MostCommonIsLastMode | src/pages/AnalyticsPage.tsx:178-184 | the most common mood is 'neutral' for an empty log, otherwise the most frequent mood first seen last |
| AnalyticsPage.LastWeek | src/pages/AnalyticsPage.tsx:161-166 | keeps exactly the entries from the last seven days, copy for copy |
| AnalyticsPage.PreviousWeek | src/pages/AnalyticsPage.tsx:167-173 | keeps exactly the entries from the seven days before those, copy for copy |
| AnalyticsPage.WindowsDisjoint | src/pages/AnalyticsPage.tsx:161-173 | the two windows together never hold more entries than the log |
| AnalyticsPage.WeeklyChange | src/pages/AnalyticsPage.tsx:175 | the change is non-negative exactly when this week has at least as many posts; from zero it is 100 times the count |
| AnalyticsPage.WeeklyChangeFromNothing | src/pages/AnalyticsPage.tsx:175 | three posts after an empty week read as +300 |
| AnalyticsPage.ComputeStats | src/pages/AnalyticsPage.tsx:148-187 | total, average, weekly figures, most common mood and active users, each as its specification defines; active users never exceed this week's posts |
| AnalyticsPage.RatingOf | src/pages/AnalyticsPage.tsx:300-302 | the four bands: 'Excellent' exactly from 7, 'Good' exactly on [5, 7), 'Needs Attention' exactly on [3, 5), 'Critical' exactly below 3 |
| AnalyticsPage.RatingMonotone | src/pages/AnalyticsPage.tsx:300-302 | a higher average never gets a worse rating |
| AnalyticsPage.Bucket | src/pages/AnalyticsPage.tsx:200-224 | a day's bucket holds exactly the entries stamped within that day, copy for copy |
| AnalyticsPage.DayIndex | src/pages/AnalyticsPage.tsx:200-224 | a time lies within a day exactly when its day index is that day |
| AnalyticsPage.DayAverage | src/pages/AnalyticsPage.tsx:211-213 | an empty day averages 0; otherwise the average lies in [1, 10] |
| AnalyticsPage.PointOf | src/pages/AnalyticsPage.tsx:201-221 | one trend point: its day, the day's entry count and the day's average |
| AnalyticsPage.DailyTrend | src/pages/AnalyticsPage.tsx:200-224 | 30 points, oldest first, the last for today |
| AnalyticsPage.TrendBucketsPartition | src/pages/AnalyticsPage.tsx:200-224 | no entry is counted in two different days of the trend |
| AnalyticsPage.RowTotalIsCountSum | src/pages/AnalyticsPage.tsx:227-239 | the distribution's counts sum to the multiset total of its moods |
| AnalyticsPage.MoodDistribution | src/pages/AnalyticsPage.tsx:227-239 | one row per mood present, in first-seen order, with its exact positive count; the counts sum to the log length |
| AnalyticsPage.DepartmentOf | src/pages/AnalyticsPage.tsx:242-257 | the first roster department with that name, or 'Unknown' |
| AnalyticsPage.DistinctNamesPermutation | src/pages/AnalyticsPage.tsx:242-257 | reordering rows keeps their names distinct |
| AnalyticsPage.RowsOf | src/pages/AnalyticsPage.tsx:242-257 | one activity row per author, with the author's count and department |
| AnalyticsPage.IsTeamActivity | src/pages/AnalyticsPage.tsx:242-257 | the top-10 characterisation: size min(10, authors), sorted by count, distinct authors with exact counts and departments, and no left-out author outcounting a shown one |
| AnalyticsPage.TeamActivity | src/pages/AnalyticsPage.tsx:242-257 | at most ten rows, for distinct authors, with exact counts, sorted by count, and no author left out has more posts than any row shown |
| AnalyticsPage.TopRows | src/pages/AnalyticsPage.tsx:242-257 | the first ten rows of the sorted table meet the activity specification |
| AnalyticsPage.TopRowsCounted | src/pages/AnalyticsPage.tsx:242-257 | each row shown names an author with the author's exact count and department |
| AnalyticsPage.TopRowsDistinct | src/pages/AnalyticsPage.tsx:242-257 | no author appears in two rows |
| AnalyticsPage.TopRowsDominate | src/pages/AnalyticsPage.tsx:242-257 | an author left out never has more posts than any author shown |
| TeamMembersPage.ContainsLaws | src/pages/TeamMembersPage.tsx:232-236 | the empty query is contained in everything, a string contains itself, and nothing is contained in a shorter string |
| TeamMembersPage.MatchesSearch | src/pages/TeamMembersPage.tsx:234-236 | the query, case-folded, occurs in the folded name, email or department |
| TeamMembersPage.Passes | src/pages/TeamMembersPage.tsx:233-241 | search match, and the department and status filters each either 'all' or equal |
| TeamMembersPage.FilteredUsers | src/pages/TeamMembersPage.tsx:232-243 | keeps exactly the members who match the search and both filters, copy for copy |
| TeamMembersPage.FilteredIsSubsequence | src/pages/TeamMembersPage.tsx:232-243 | the filtered list keeps roster order |
| TeamMembersPage.NoFilterKeepsEveryone | src/pages/TeamMembersPage.tsx:232-243 | an empty query with both filters on 'all' keeps the whole roster |
| TeamMembersPage.DepartmentList | src/pages/TeamMembersPage.tsx:245-248 | the roster's departments, position by position |
| TeamMembersPage.Departments | src/pages/TeamMembersPage.tsx:245-248 | 'all', then each roster department exactly once, in order of first appearance in the roster |
| TeamMembersPage.DistinctCardinality | src/pages/TeamMembersPage.tsx:245-248 | a repeat-free list has as many distinct elements as positions |
| TeamMembersPage.OnlineUsers | src/pages/TeamMembersPage.tsx:253-265 | keeps exactly the members who are online, copy for copy |
| TeamMembersPage.ComputeTeamStats | src/pages/TeamMembersPage.tsx:253-265 | roster size, online count, distinct departments and distinct authors, each bounded by what it counts |
| TeamMembersPage.DepartmentCountMatchesChoices | src/pages/TeamMembersPage.tsx:245-265 | the department count equals the number of department choices other than 'all' |
| TeamMembersPage.BadgeAppearance | src/pages/TeamMembersPage.tsx:215-223 | online, busy and away each get their own badge; every other status gets the neutral one |
| TeamMembersPage.BadgesOfStatuses | src/pages/TeamMembersPage.tsx:215-223 | different statuses have different badges, and offline shares the fallback |
| TeamMembersPage.EntriesBy | src/pages/TeamMembersPage.tsx:225-230 | keeps exactly the member's own entries, copy for copy |
| TeamMembersPage.UserMoodHistory | src/pages/TeamMembersPage.tsx:225-230 | min(5, own entries) of the member's own entries, newest first, drawn from them without extra copies |
| TeamMembersPage.HistoryIsMostRecent | src/pages/TeamMembersPage.tsx:225-230 | an entry left out of the history is no newer than any entry shown |
| TeamMembersPage.HistoryKeepsNewestCopies | src/pages/TeamMembersPage.tsx:225-230 | counted copy for copy: if the history shows fewer copies of an entry than the member's log holds, the history has five entries and each is at least as new |
| Seqs.SortDescStable | src/pages/TeamMembersPage.tsx:228 | the descending sort is stable: the elements with any one key keep their original relative order |
| MoodFeed.ChannelEntries | src/components/mood/MoodFeed.tsx:148 | every entry of the channel is kept with all its copies and no other entry is kept (multiset equality with the matching part of the log) |
| MoodFeed.ChannelEntriesInOrder | src/components/mood/MoodFeed.tsx:148 | the channel's entries keep the log's newest-first order |
| MoodFeed.Feed | src/components/mood/MoodFeed.tsx:178-189 | the empty state shows exactly when the channel has no entries; otherwise the cards are the channel's entries |
| MoodFeed.ReactionsWith | src/components/mood/MoodFeed.tsx:174-176 | keeps every reaction with that emoji, with all its copies, and no other |
| MoodFeed.HasUserReacted | src/components/mood/MoodFeed.tsx:170-172 | false without a signed-in user; otherwise whether one of the entry's reactions is that user's with that emoji (its link to the count is `ReactedImpliesCounted`) |
| MoodFeed.ReactionCount | src/components/mood/MoodFeed.tsx:174-176 | zero without a reaction list, and never more than the list's length |
| MoodFeed.ReactedImpliesCounted | src/components/mood/MoodFeed.tsx:170-176 | if the user has reacted with an emoji, its count is at least one |
| MoodFeed.AppendReactionCount | src/components/mood/MoodFeed.tsx:174-176 | appending a reaction raises its emoji's count by one and leaves the others unchanged |
| MoodFeed.RequestFor | src/components/mood/MoodFeed.tsx:160-168 | a reaction is requested exactly when someone is signed in, in that user's name |
| MoodFeed.HandleReaction | src/components/mood/MoodFeed.tsx:160-168 | without a user nothing changes; otherwise the reaction is added to the entry |
| MoodFeed.ReactOnce | src/store/slices/moodSlice.ts:72-83 | reacting to an entry changes only that entry's reaction list |
| MoodFeed.ReactTwice | src/components/mood/MoodFeed.tsx:160-176 | reacting twice with one emoji counts two more, and the user has then reacted |
| RightPanel.ScoreTablesAgree | src/components/layout/RightPanel.tsx:124-127 | the panel's score table agrees with the store's |
| RightPanel.NameScoreSum | src/components/layout/RightPanel.tsx:129-131 | the panel's sum through its own name-keyed score table (equal to the store's by `NameScoreSumAgrees`) |
| RightPanel.NameScoreSumAgrees | src/components/layout/RightPanel.tsx:129-131 | summing through the name table gives the store's score sum |
| RightPanel.TeamMood | src/components/layout/RightPanel.tsx:129-131 | the panel's average is the analytics average, in [1, 10] |
| RightPanel.LabelOf | src/components/layout/RightPanel.tsx:133-138 | the four bands: 'Great' exactly from 8, 'Good' exactly on [6, 8), 'Okay' exactly on [4, 6), 'Needs Attention' exactly below 4 |
| RightPanel.LabelMonotone | src/components/layout/RightPanel.tsx:133-138 | a higher score never gets a worse label |
| RightPanel.EmptyLogLabel | src/components/layout/RightPanel.tsx:129-138 | an empty log reads 'Okay' |
| RightPanel.TodaysEntries | src/components/layout/RightPanel.tsx:140-143 | keeps exactly the entries stamped today, copy for copy |
| RightPanel.OnlineNow | src/components/layout/RightPanel.tsx:168 | zero exactly when nobody is online, and never more than the roster |
| MoodEntryForm.OptionsEnumerateMoods | src/components/mood/MoodEntryForm.tsx:72-83 | the menu lists each of the ten moods exactly once |
| MoodEntryForm.OptionFor | src/components/mood/MoodEntryForm.tsx:94 | the lookup of the selected mood always finds its menu option |
| MoodEntryForm.Trim | src/components/mood/MoodEntryForm.tsx:106 | white space removed from both ends (its properties are `TrimSpec` and `TrimIdempotent`) |
| MoodEntryForm.MessageOf | src/components/mood/MoodEntryForm.tsx:106 | the trimmed text, or absent when nothing is left (its meaning is `BlankMessageIsAbsent`) |
| MoodEntryForm.PayloadFor | src/components/mood/MoodEntryForm.tsx:102-109 | the payload `handleSubmit` dispatches (its fields are stated by `SubmittedEntry`) |
| MoodEntryForm.TrimStartSpec | src/components/mood/MoodEntryForm.tsx:106 | the result is a suffix, everything removed is white space, and it does not start with white space |
| MoodEntryForm.TrimEndSpec | src/components/mood/MoodEntryForm.tsx:106 | the result is a prefix, everything removed is white space, and it does not end with white space |
| MoodEntryForm.TrimSpec | src/components/mood/MoodEntryForm.tsx:106 | trimming never lengthens, leaves no outer white space, and gives empty exactly for blank text |
| MoodEntryForm.TrimIdempotent | src/components/mood/MoodEntryForm.tsx:106 | trimming twice is trimming once |
| MoodEntryForm.BlankMessageIsAbsent | src/components/mood/MoodEntryForm.tsx:106 | a blank message is sent as absent; otherwise as its trimmed text |
| MoodEntryForm.SubmittedEntry | src/components/mood/MoodEntryForm.tsx:102-109 | the posted entry carries the user, the selected mood, the trimmed message, the channel and an empty reaction list |
| MoodEntryForm.EntryForm.constructor | src/components/mood/MoodEntryForm.tsx:90-92 | the form starts on 'neutral' with an empty message |
| MoodEntryForm.EntryForm.SelectMood | src/components/mood/MoodEntryForm.tsx:146 | changes only the selected mood |
| MoodEntryForm.EntryForm.EditMessage | src/components/mood/MoodEntryForm.tsx:162 | changes only the message |
| MoodEntryForm.EntryForm.HandleSubmit | src/components/mood/MoodEntryForm.tsx:96-118 | without a user nothing changes; otherwise the entry is prepended, the statistics are updated and the form is reset |
| App.StartupLoad | src/App.tsx:28-47 | nothing loads unless the version is valid; each of entries, channels and the selection loads exactly when stored and non-empty |
| App.StartupLoadAfterProbe | src/App.tsx:28-47 | the probes during loading do not change what loads |
| App.ScreenFor | src/App.tsx:81-131 | loading wins, then a non-empty error, then login when signed out, else the main screen |
| App.Shell.CurrentScreen | src/App.tsx:81-131 | the screen the shell shows for its loading flag, error and the user slice's authentication (its cases are `ScreenFor`) |
| App.Shell.constructor | src/App.tsx:16-17 | the shell starts loading, with no error |
| App.Shell.InitializeApp | src/App.tsx:23-58 | the slices receive the start-up plan; the store is probed or reset; loading ends and the loading screen is gone |
| App.Shell.RestoreSaved | src/App.tsx:36-46 | a valid store dispatches what the plan loads and leaves the store as probed |
| App.Shell.HandleSignIn | src/App.tsx:60-79 | with a current user, it stays signed in and is saved to storage, and the user slice's roster, loading flag and error are unchanged; without one nothing changes; loading ends |
| App.SignInAfterLogout | src/App.tsx:60-131 | signing in after logout leaves no current user, so the login screen shows unless there is an error |

## Left out

- The `setLoading` and `setError` reducers of the three slices only assign a field; they are not modelled.
- Rendering, styling, icons and the `toFixed`, percentage and label text formatting of every view are not modelled.
- Dates: `date-fns`, `toDateString`, time zones and daylight saving are not modelled. A day is the UTC day index of a millisecond timestamp, so "today" and the 30-day trend use UTC days.
- Each `new Date()` and `Date.now()` call becomes the parameter `now`. Generated ids are parameters, so two calls in one handler see one time.
- `toLowerCase` in the team search is the parameter `lower`; its Unicode behaviour is not modelled.
- MoodEntryForm.TrimSpec: only the ASCII white space characters (space, tab, line feed, carriage return, vertical tab, form feed) count as white space, unlike JavaScript's `trim`.
- Object key order: the tallies keep first-insertion order. JavaScript lists integer-like keys first, in numeric order; mood names are never integer-like, so this does not matter for the mood tallies.
- AnalyticsPage.TeamActivity: among authors with equal counts, the model keeps first-appearance order. JavaScript lists integer-like author names (such as "42") first, in numeric order, and the stable sort keeps that order. So with such names, the order of tied rows and which tied author makes the top ten can differ from the source.
- `Object.assign` with explicitly undefined fields is not modelled. A channel patch field is either present or absent.
- JSON is an abstract codec per value type. The round-trip properties assume that decode inverts encode, and values of the wrong shape are not modelled.
- StorageService.LocalStorageService.GetStorageUsage: the percentage is stated as the real quotient, and floating-point rounding is not modelled. Lengths are UTF-16 code units, as JavaScript counts them.
- `setTimeout`, `async`, `console` logging and exceptions are not modelled. The catch paths of `initializeApp` and `handleSignIn` cannot be reached, because nothing in the model throws.
- The message box's 280-character limit is enforced by the input widget and is not modelled.
- The settings page, error boundary, loading spinner, sidebar, layout, router, channel view, main content and the store set-up are not part of this model.
- `checkVersion` writes the version key again when it resets; the model shows this as the reset store (`StorageService.Reset`).
