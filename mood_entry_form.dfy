/** The mood entry form: the ten mood options, the text trimming, and the
    submit handler that turns the form into an `addMoodEntry` dispatch and
    then resets the form. */
module MoodEntryForm {
  import opened Types
  import opened Seqs
  import MoodSlice

  datatype MoodOption = MoodOption(value: MoodType, title: string)

  /** The options of the mood menu, in menu order. */
  const MoodOptions: seq<MoodOption> := [
    MoodOption(Happy, "Happy"), MoodOption(Excited, "Excited"),
    MoodOption(Content, "Content"), MoodOption(Motivated, "Motivated"),
    MoodOption(Neutral, "Neutral"), MoodOption(Tired, "Tired"),
    MoodOption(Stressed, "Stressed"), MoodOption(Frustrated, "Frustrated"),
    MoodOption(Anxious, "Anxious"), MoodOption(Sad, "Sad")]

  function ValueOf(o: MoodOption): MoodType {
    o.value
  }

  /** The menu offers every mood exactly once. */
  lemma OptionsEnumerateMoods(m: MoodType)
    ensures |MoodOptions| == 10
    ensures Distinct(seq(|MoodOptions|, i requires 0 <= i < |MoodOptions| => ValueOf(MoodOptions[i])))
    ensures exists i :: 0 <= i < |MoodOptions| && ValueOf(MoodOptions[i]) == m
  {
    var values := seq(|MoodOptions|, i requires 0 <= i < |MoodOptions| => ValueOf(MoodOptions[i]));
    assert values == [Happy, Excited, Content, Motivated, Neutral, Tired, Stressed, Frustrated, Anxious, Sad];
    match m
    case Happy => assert ValueOf(MoodOptions[0]) == m;
    case Excited => assert ValueOf(MoodOptions[1]) == m;
    case Content => assert ValueOf(MoodOptions[2]) == m;
    case Motivated => assert ValueOf(MoodOptions[3]) == m;
    case Neutral => assert ValueOf(MoodOptions[4]) == m;
    case Tired => assert ValueOf(MoodOptions[5]) == m;
    case Stressed => assert ValueOf(MoodOptions[6]) == m;
    case Frustrated => assert ValueOf(MoodOptions[7]) == m;
    case Anxious => assert ValueOf(MoodOptions[8]) == m;
    case Sad => assert ValueOf(MoodOptions[9]) == m;
  }

  /** The option shown for the selected mood: the lookup always finds one. */
  function OptionFor(m: MoodType): (o: MoodOption)
    ensures o in MoodOptions && o.value == m
  {
    OptionsEnumerateMoods(m);
    match FindIndex(MoodOptions, (o: MoodOption) => o.value == m)
    case Some(k) => MoodOptions[k]
    case None => assert false; MoodOption(m, "")
  }

  /** The white-space characters `trim` removes, as far as ASCII goes. */
  predicate IsSpace(c: char) {
    c == ' ' || c == '\t' || c == '\n' || c == '\r' || c == '\U{B}' || c == '\U{C}'
  }

  /** Drops leading white space. */
  function TrimStart(s: string): string {
    if s != [] && IsSpace(s[0]) then TrimStart(s[1..]) else s
  }

  /** Drops trailing white space. */
  function TrimEnd(s: string): string {
    if s != [] && IsSpace(s[|s| - 1]) then TrimEnd(s[..|s| - 1]) else s
  }

  /** The string without white space at either end. */
  function Trim(s: string): string {
    TrimEnd(TrimStart(s))
  }

  /** `TrimStart` keeps a suffix that does not start with white space, and
      everything it drops is white space. */
  lemma {:induction false} TrimStartSpec(s: string)
    ensures var r := TrimStart(s);
            && |r| <= |s| && r == s[|s| - |r|..]
            && (r != [] ==> !IsSpace(r[0]))
            && (forall i :: 0 <= i < |s| - |r| ==> IsSpace(s[i]))
  {
    if s != [] && IsSpace(s[0]) {
      TrimStartSpec(s[1..]);
      var r := TrimStart(s);
      assert s[1..][|s| - 1 - |r|..] == s[|s| - |r|..];
      forall i | 0 <= i < |s| - |r| ensures IsSpace(s[i]) {
        if i > 0 {
          assert s[i] == s[1..][i - 1];
        }
      }
    }
  }

  /** `TrimEnd` keeps a prefix that does not end with white space, and
      everything it drops is white space. */
  lemma {:induction false} TrimEndSpec(s: string)
    ensures var r := TrimEnd(s);
            && |r| <= |s| && r == s[..|r|]
            && (r != [] ==> !IsSpace(r[|r| - 1]))
            && (forall i :: |r| <= i < |s| ==> IsSpace(s[i]))
  {
    if s != [] && IsSpace(s[|s| - 1]) {
      var t := s[..|s| - 1];
      TrimEndSpec(t);
      var r := TrimEnd(s);
      assert t[..|r|] == s[..|r|];
      forall i | |r| <= i < |s| ensures IsSpace(s[i]) {
        if i < |s| - 1 {
          assert s[i] == t[i];
        }
      }
    }
  }

  /** The trimmed string is no longer than the input and has no white space at
      either end; it is empty exactly when the input is all white space. */
  lemma TrimSpec(s: string)
    ensures |Trim(s)| <= |s|
    ensures Trim(s) != [] ==> !IsSpace(Trim(s)[0]) && !IsSpace(Trim(s)[|Trim(s)| - 1])
    ensures Trim(s) == [] <==> forall i :: 0 <= i < |s| ==> IsSpace(s[i])
  {
    var t := TrimStart(s);
    TrimStartSpec(s);
    TrimEndSpec(t);
    var r := TrimEnd(t);
    if r != [] {
      assert r[0] == t[0];
    }
    if t != [] {
      assert r != [];
      assert !IsSpace(s[|s| - |t|]);
    }
  }

  /** A string already without outer white space is its own trim, so trimming twice
      is trimming once. */
  lemma TrimIdempotent(s: string)
    ensures Trim(Trim(s)) == Trim(s)
  {
    var r := Trim(s);
    TrimSpec(s);
    if r != [] {
      assert TrimStart(r) == r;
      assert TrimEnd(r) == r;
    }
  }

  /** The `message` of the payload: the trimmed text, or absent when nothing is
      left (`message.trim() || undefined`). */
  function MessageOf(text: string): Option<string> {
    var t := Trim(text);
    if t == "" then None else Some(t)
  }

  /** A message of nothing but white space is left out of the entry; any other
      message is kept, trimmed, and is no longer than what was typed. */
  lemma BlankMessageIsAbsent(text: string)
    ensures MessageOf(text).None? <==> forall i :: 0 <= i < |text| ==> IsSpace(text[i])
    ensures MessageOf(text).Some? ==> MessageOf(text).value == Trim(text) && |MessageOf(text).value| <= |text|
  {
    TrimSpec(text);
  }

  /** What `handleSubmit` dispatches for a signed-in user: the user, the chosen
      mood, the trimmed message, the form's channel and an empty reaction list. */
  function PayloadFor(user: User, mood: MoodType, text: string, channelId: string): EntryPayload {
    EntryPayload(user.id, user, mood, MessageOf(text), channelId, Some([]))
  }

  /** The entry a submission adds: it is the signed-in user's, with the chosen
      mood, the form's channel and no reactions yet; its message is absent
      exactly when only white space was typed. */
  lemma SubmittedEntry(user: User, mood: MoodType, text: string, channelId: string, id: string, now: int)
    ensures var e := Stamp(PayloadFor(user, mood, text, channelId), id, now);
            && e.id == id && e.timestamp == now
            && e.userId == user.id && e.user == user && e.mood == mood && e.channelId == channelId
            && e.reactions == Some([]) && ReactionsOf(e) == []
            && (e.message.None? <==> forall i :: 0 <= i < |text| ==> IsSpace(text[i]))
            && (e.message.Some? ==> e.message.value == Trim(text))
  {
    BlankMessageIsAbsent(text);
  }

  /** The form's local state; `channelId` is the property the form was created with. */
  class EntryForm {
    const channelId: string
    var selectedMood: MoodType
    var message: string
    var isSubmitting: bool

    /** A fresh form: neutral mood, empty text, not submitting. */
    constructor (channelId: string)
      ensures this.channelId == channelId
      ensures selectedMood == Neutral && message == "" && !isSubmitting
    {
      this.channelId := channelId;
      selectedMood := Neutral;
      message := "";
      isSubmitting := false;
    }

    /** Picking a mood in the menu. */
    method SelectMood(m: MoodType)
      modifies this
      ensures selectedMood == m
      ensures message == old(message) && isSubmitting == old(isSubmitting)
    {
      selectedMood := m;
    }

    /** Typing in the text box. */
    method EditMessage(text: string)
      modifies this
      ensures message == text
      ensures selectedMood == old(selectedMood) && isSubmitting == old(isSubmitting)
    {
      message := text;
    }

    /** Submitting: without a signed-in user nothing happens; otherwise the entry
        is added to the log (stamped with `id` and `now`) and the form is reset. */
    method HandleSubmit(currentUser: Option<User>, store: MoodSlice.MoodState, id: string, now: int)
      modifies this, store
      ensures currentUser.None? ==>
                && selectedMood == old(selectedMood) && message == old(message)
                && isSubmitting == old(isSubmitting)
                && store.entries == old(store.entries) && store.stats == old(store.stats)
      ensures currentUser.Some? ==>
                && store.entries ==
                   [Stamp(PayloadFor(currentUser.value, old(selectedMood), old(message), channelId), id, now)]
                   + old(store.entries)
                && store.stats == MoodSlice.StatsAfterAdd(old(store.stats), store.entries)
                && selectedMood == Neutral && message == "" && !isSubmitting
      ensures store.isLoading == old(store.isLoading) && store.error == old(store.error)
    {
      if currentUser.None? {
        return;
      }
      isSubmitting := true;
      var payload := PayloadFor(currentUser.value, selectedMood, message, channelId);
      store.AddMoodEntry(payload, id, now);
      message := "";
      selectedMood := Neutral;
      isSubmitting := false;
    }
  }
}
