/** The domain records of the mood tracker: users, mood entries, reactions and
    channels, with time kept as integer milliseconds since the epoch. */
module Types {

  datatype Option<T> = None | Some(value: T)

  /** The closed set of ten moods a user can post. */
  datatype MoodType =
    | Happy | Excited | Content | Neutral | Tired
    | Stressed | Frustrated | Sad | Anxious | Motivated

  /** Presence status of a user. */
  datatype Status = Online | Away | Busy | Offline

  datatype User = User(
    id: string,
    name: string,
    email: string,
    avatar: Option<string>,
    status: Status,
    department: string,
    role: string,
    phone: Option<string>,
    bio: Option<string>,
    joinDate: string)

  datatype Reaction = Reaction(id: string, userId: string, emoji: string, timestamp: int)

  /** A posted mood; `reactions` may be absent, which readers treat as no reactions. */
  datatype MoodEntry = MoodEntry(
    id: string,
    userId: string,
    user: User,
    mood: MoodType,
    message: Option<string>,
    timestamp: int,
    channelId: string,
    reactions: Option<seq<Reaction>>)

  /** The reactions of an entry, an absent list read as empty. */
  function ReactionsOf(e: MoodEntry): seq<Reaction> {
    if e.reactions.Some? then e.reactions.value else []
  }

  /** What a caller supplies to create an entry: everything but the id and the timestamp. */
  datatype EntryPayload = EntryPayload(
    userId: string,
    user: User,
    mood: MoodType,
    message: Option<string>,
    channelId: string,
    reactions: Option<seq<Reaction>>)

  datatype MoodChannel = MoodChannel(
    id: string,
    name: string,
    description: string,
    color: string,
    icon: string,
    memberCount: int,
    isActive: bool)

  datatype Trend = Up | Down | Stable

  datatype DailyEntry = DailyEntry(date: string, count: int, averageMood: real)

  datatype MoodStats = MoodStats(
    totalEntries: int,
    averageMood: real,
    trendDirection: Trend,
    mostCommonMood: MoodType,
    dailyEntries: seq<DailyEntry>)

  const HourMs: int := 3_600_000  // 60 * 60 * 1000
  const DayMs: int := 86_400_000  // 24 * HourMs

  /** The entry a payload becomes once it is given an id and a timestamp. */
  function Stamp(p: EntryPayload, id: string, timestamp: int): (e: MoodEntry)
    ensures e.id == id && e.timestamp == timestamp
    ensures e.userId == p.userId && e.user == p.user && e.mood == p.mood
    ensures e.message == p.message && e.channelId == p.channelId && e.reactions == p.reactions
  {
    MoodEntry(id, p.userId, p.user, p.mood, p.message, timestamp, p.channelId, p.reactions)
  }

  /** The wire name of a mood, as the source spells the string literal type. */
  function MoodName(m: MoodType): string {
    match m
    case Happy => "happy"
    case Excited => "excited"
    case Content => "content"
    case Neutral => "neutral"
    case Tired => "tired"
    case Stressed => "stressed"
    case Frustrated => "frustrated"
    case Sad => "sad"
    case Anxious => "anxious"
    case Motivated => "motivated"
  }

  /** The wire name of a status. */
  function StatusName(s: Status): string {
    match s
    case Online => "online"
    case Away => "away"
    case Busy => "busy"
    case Offline => "offline"
  }

  /** Distinct moods have distinct names, so the string form loses nothing. */
  lemma MoodNameInjective(a: MoodType, b: MoodType)
    ensures MoodName(a) == MoodName(b) ==> a == b
  {
  }

  /** Distinct statuses have distinct names. */
  lemma StatusNameInjective(a: Status, b: Status)
    ensures StatusName(a) == StatusName(b) ==> a == b
  {
  }
}
