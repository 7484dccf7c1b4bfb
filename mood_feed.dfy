/** The channel feed: which entries a channel shows, the per-emoji reaction
    counts and "already reacted" marks on each card, and the guarded dispatch
    of a reaction. */
module MoodFeed {
  import opened Types
  import opened Seqs
  import MoodSlice

  /** The entries posted to `channelId`, in log order. */
  function ChannelEntries(entries: seq<MoodEntry>, channelId: string): (r: seq<MoodEntry>)
    ensures |r| <= |entries|
    ensures forall e :: e in r <==> e in entries && e.channelId == channelId
    ensures forall e :: multiset(r)[e] == if e.channelId == channelId then multiset(entries)[e] else 0
  {
    Filter(entries, (e: MoodEntry) => e.channelId == channelId)
  }

  /** The channel's entries form a subsequence of the log. */
  lemma ChannelEntriesInOrder(entries: seq<MoodEntry>, channelId: string)
    ensures Subsequence(ChannelEntries(entries, channelId), entries)
  {
    FilterIsSubsequence(entries, (e: MoodEntry) => e.channelId == channelId);
  }

  /** What the feed renders: the empty-state message, or one card per entry. */
  datatype FeedView = EmptyState | Cards(shown: seq<MoodEntry>)

  function Feed(entries: seq<MoodEntry>, channelId: string): (v: FeedView)
    ensures v.EmptyState? <==> forall e :: e in entries ==> e.channelId != channelId
    ensures v.Cards? ==> v.shown == ChannelEntries(entries, channelId) && v.shown != []
  {
    var shown := ChannelEntries(entries, channelId);
    if |shown| == 0 then
      EmptyState
    else
      assert shown[0] in entries;
      Cards(shown)
  }

  /** The reactions on `e` with this emoji; none when the list is absent. */
  function ReactionsWith(e: MoodEntry, emoji: string): (r: seq<Reaction>)
    ensures e.reactions.None? ==> r == []
    ensures forall x :: x in r <==> x in ReactionsOf(e) && x.emoji == emoji
    ensures forall x :: multiset(r)[x] == if x.emoji == emoji then multiset(ReactionsOf(e))[x] else 0
  {
    Filter(ReactionsOf(e), (x: Reaction) => x.emoji == emoji)
  }

  /** How many reactions with this emoji an entry has (0 without a list). */
  function ReactionCount(e: MoodEntry, emoji: string): (n: nat)
    ensures e.reactions.None? ==> n == 0
    ensures n <= |ReactionsOf(e)|
  {
    |ReactionsWith(e, emoji)|
  }

  /** Whether the signed-in user already reacted with this emoji; false when
      nobody is signed in or the entry has no list. */
  predicate HasUserReacted(e: MoodEntry, currentUser: Option<User>, emoji: string) {
    currentUser.Some? &&
    exists i :: 0 <= i < |ReactionsOf(e)| &&
      ReactionsOf(e)[i].userId == currentUser.value.id && ReactionsOf(e)[i].emoji == emoji
  }

  /** A reacted mark implies the count shown next to it is at least one. */
  lemma ReactedImpliesCounted(e: MoodEntry, currentUser: Option<User>, emoji: string)
    requires HasUserReacted(e, currentUser, emoji)
    ensures currentUser.Some? && e.reactions.Some?
    ensures ReactionCount(e, emoji) >= 1
  {
    var i :| 0 <= i < |ReactionsOf(e)| &&
      ReactionsOf(e)[i].userId == currentUser.value.id && ReactionsOf(e)[i].emoji == emoji;
    assert ReactionsOf(e)[i] in ReactionsWith(e, emoji);
  }

  /** Appending a reaction raises the count of its own emoji by one and leaves
      every other emoji's count alone. */
  lemma AppendReactionCount(e: MoodEntry, r: Reaction, emoji: string)
    ensures ReactionCount(e.(reactions := Some(ReactionsOf(e) + [r])), emoji) ==
            ReactionCount(e, emoji) + (if r.emoji == emoji then 1 else 0)
  {
    var p := (x: Reaction) => x.emoji == emoji;
    FilterAppend(ReactionsOf(e), [r], p);
    assert Filter([r], p) == (if p(r) then [r] else []) + Filter([r][1..], p);
  }

  /** The addReaction request a click produces: none without a signed-in user,
      otherwise the entry, the user's id and the emoji. */
  datatype ReactionRequest = ReactionRequest(entryId: string, userId: string, emoji: string)

  function RequestFor(currentUser: Option<User>, entryId: string, emoji: string): (q: Option<ReactionRequest>)
    ensures currentUser.None? <==> q.None?
    ensures q.Some? ==> q.value == ReactionRequest(entryId, currentUser.value.id, emoji)
  {
    if currentUser.None? then None else Some(ReactionRequest(entryId, currentUser.value.id, emoji))
  }

  /** Clicking a reaction button: dispatches addReaction for the signed-in user
      (the reducer stamps it with `reactionId` and `now`); does nothing otherwise. */
  method HandleReaction(store: MoodSlice.MoodState, currentUser: Option<User>, entryId: string, emoji: string,
                        reactionId: string, now: int)
    modifies store
    ensures currentUser.None? ==> store.entries == old(store.entries)
    ensures currentUser.Some? ==>
              store.entries == MoodSlice.AddReactionTo(old(store.entries), entryId,
                                                       Reaction(reactionId, currentUser.value.id, emoji, now))
    ensures store.stats == old(store.stats) && store.isLoading == old(store.isLoading)
    ensures store.error == old(store.error)
  {
    var request := RequestFor(currentUser, entryId, emoji);
    if request.Some? {
      store.AddReaction(request.value.entryId, request.value.userId, request.value.emoji, reactionId, now);
    }
  }

  /** Reacting to the first entry with a given id appends to that entry only. */
  lemma ReactOnce(entries: seq<MoodEntry>, k: nat, r: Reaction)
    requires k < |entries|
    requires forall j :: 0 <= j < k ==> entries[j].id != entries[k].id
    ensures var after := MoodSlice.AddReactionTo(entries, entries[k].id, r);
            && |after| == |entries|
            && after[k] == entries[k].(reactions := Some(ReactionsOf(entries[k]) + [r]))
            && forall j :: 0 <= j < |entries| && j != k ==> after[j] == entries[j]
  {
  }

  /** Reacting twice with the same emoji to an entry adds two reactions: its count
      rises by two and the user is marked as having reacted; nothing toggles. */
  lemma ReactTwice(entries: seq<MoodEntry>, k: nat, user: User, emoji: string, id1: string, id2: string, t1: int, t2: int)
    requires k < |entries|
    requires forall j :: 0 <= j < k ==> entries[j].id != entries[k].id
    ensures var r1 := Reaction(id1, user.id, emoji, t1);
            var r2 := Reaction(id2, user.id, emoji, t2);
            var after := MoodSlice.AddReactionTo(MoodSlice.AddReactionTo(entries, entries[k].id, r1), entries[k].id, r2);
            && |after| == |entries|
            && ReactionCount(after[k], emoji) == ReactionCount(entries[k], emoji) + 2
            && HasUserReacted(after[k], Some(user), emoji)
  {
    var r1 := Reaction(id1, user.id, emoji, t1);
    var r2 := Reaction(id2, user.id, emoji, t2);
    var once := MoodSlice.AddReactionTo(entries, entries[k].id, r1);
    ReactOnce(entries, k, r1);
    assert once[k].id == entries[k].id;
    ReactOnce(once, k, r2);
    var e1 := once[k];
    var e2 := MoodSlice.AddReactionTo(once, entries[k].id, r2)[k];
    AppendReactionCount(entries[k], r1, emoji);
    AppendReactionCount(e1, r2, emoji);
    assert ReactionsOf(e2)[|ReactionsOf(e2)| - 1] == r2;
  }
}
