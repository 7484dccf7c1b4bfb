/** The persistence adapter: typed reads and writes over the browser's string
    key/value store, a version gate that resets the application's keys, and
    bulk export and import.

    The store is a `map<string, string>`. Whether the browser lets the store be
    used at all, and whether it accepts a given write (its quota), are supplied
    per call as an `Env`. JSON text is handled through a `Codec` per value type:
    `encode` stands for `JSON.stringify` and `decode` for `JSON.parse`, with
    `None` for text that does not parse. Properties that need the codec to
    round-trip take that as a hypothesis (`ValidCodecs`). */
module StorageService {
  import opened Types
  import opened Seqs

  const MoodEntriesKey: string := "moodSync_entries"
  const CurrentUserKey: string := "moodSync_currentUser"
  const UsersKey: string := "moodSync_users"
  const ChannelsKey: string := "moodSync_channels"
  const SelectedChannelKey: string := "moodSync_selectedChannel"
  const VersionKey: string := "moodSync_version"

  /** The application's namespace, in declaration order. */
  const StorageKeys: seq<string> :=
    [MoodEntriesKey, CurrentUserKey, UsersKey, ChannelsKey, SelectedChannelKey, VersionKey]
  const Namespace: set<string> :=
    {MoodEntriesKey, CurrentUserKey, UsersKey, ChannelsKey, SelectedChannelKey, VersionKey}

  const AppVersion: string := "1.0.0"
  const TestKey: string := "__localStorage_test__"
  const QuotaEstimate: int := 5 * 1024 * 1024

  datatype Codec<!T> = Codec(encode: T -> string, decode: string -> Option<T>)

  /** Decoding what was encoded gives the value back. */
  ghost predicate RoundTrips<T(!new)>(c: Codec<T>) {
    forall x :: c.decode(c.encode(x)) == Some(x)
  }

  /** The export document; on import every field may be missing or null. */
  datatype Document = Document(
    version: Option<string>,
    timestamp: Option<int>,
    entries: Option<seq<MoodEntry>>,
    currentUser: Option<User>,
    users: Option<seq<User>>,
    channels: Option<seq<MoodChannel>>,
    selectedChannel: Option<string>)

  /** One codec per persisted shape; `text` serves the version marker and the
      selected channel id, `user` the nullable current user. */
  datatype Codecs = Codecs(
    text: Codec<Option<string>>,
    user: Codec<Option<User>>,
    entries: Codec<seq<MoodEntry>>,
    users: Codec<seq<User>>,
    channels: Codec<seq<MoodChannel>>,
    document: Codec<Document>)

  ghost predicate ValidCodecs(c: Codecs) {
    && RoundTrips(c.text) && RoundTrips(c.user) && RoundTrips(c.entries)
    && RoundTrips(c.users) && RoundTrips(c.channels) && RoundTrips(c.document)
  }

  /** Whether the store can be used during this call, and which writes it
      accepts (`accepts(key, text)` is false when the write exceeds the quota). */
  datatype Env = Env(available: bool, accepts: (string, string) -> bool)

  /** The store after the availability probe, which writes and removes `TestKey`. */
  function Probe(s: map<string, string>, env: Env): (r: map<string, string>)
    ensures TestKey !in s ==> r == s
    ensures env.available ==> r.Keys == s.Keys - {TestKey}
    ensures forall k :: k in r ==> k in s && r[k] == s[k]
    ensures !env.available ==> r == s
    ensures forall k :: k in s && k != TestKey ==> k in r && r[k] == s[k]
  {
    if env.available then s - {TestKey} else s
  }

  lemma ProbeIdempotent(s: map<string, string>, env: Env)
    ensures Probe(Probe(s, env), env) == Probe(s, env)
  {
  }

  /** What `safeGetItem` returns: the decoded value when storage is available,
      the key is present and its text parses; the default otherwise. */
  function Get<T>(s: map<string, string>, key: string, default: T, c: Codec<T>, env: Env): (v: T)
    ensures !env.available || key !in s || key == TestKey ==> v == default
    ensures env.available && key in s && key != TestKey && c.decode(s[key]).None? ==> v == default
    ensures env.available && key in s && key != TestKey && c.decode(s[key]).Some? ==>
              v == c.decode(s[key]).value
  {
    var p := Probe(s, env);
    if env.available && key in p then
      match c.decode(p[key])
      case Some(x) => x
      case None => default
    else default
  }

  lemma GetAfterProbe<T>(s: map<string, string>, key: string, default: T, c: Codec<T>, env: Env)
    ensures Get(Probe(s, env), key, default, c, env) == Get(s, key, default, c, env)
  {
  }

  /** Whether `safeSetItem` reports success. */
  predicate Stored(key: string, text: string, env: Env) {
    env.available && env.accepts(key, text)
  }

  /** Whether two stores hold the same thing under `k`. */
  predicate Agree(a: map<string, string>, b: map<string, string>, k: string) {
    (k in a <==> k in b) && (k in a ==> a[k] == b[k])
  }

  /** Stores that agree on a key read the same value from it. */
  lemma GetAgree<T>(a: map<string, string>, b: map<string, string>, key: string, default: T, c: Codec<T>, env: Env)
    requires Agree(a, b, key) && key != TestKey
    ensures Get(a, key, default, c, env) == Get(b, key, default, c, env)
  {
  }

  /** The store after `safeSetItem(key, ·)` wrote `text`: on success the key holds
      the text; otherwise only the probe's effect remains. */
  function Put(s: map<string, string>, key: string, text: string, env: Env): (r: map<string, string>)
    ensures Stored(key, text, env) ==> key in r && r[key] == text
    ensures !Stored(key, text, env) ==> r == Probe(s, env)
    ensures forall k :: k != key && k != TestKey ==> Agree(r, s, k)
  {
    if Stored(key, text, env) then Probe(s, env)[key := text] else Probe(s, env)
  }

  /** A write that happens only when `write` holds. */
  function PutWhen(s: map<string, string>, write: bool, key: string, text: string, env: Env): (r: map<string, string>)
    ensures !write ==> r == s
    ensures write ==> r == Put(s, key, text, env)
    ensures forall k :: k != key && k != TestKey ==> Agree(r, s, k)
  {
    if write then Put(s, key, text, env) else s
  }

  /** Writes the encoding of an optional value only when it is present. */
  function PutSome<T>(s: map<string, string>, key: string, v: Option<T>, c: Codec<T>, env: Env): (r: map<string, string>)
    ensures v.None? ==> r == s
    ensures v.Some? ==> r == Put(s, key, c.encode(v.value), env)
    ensures forall k :: k != key && k != TestKey ==> Agree(r, s, k)
  {
    if v.Some? then Put(s, key, c.encode(v.value), env) else s
  }

  /** A successful write is read back as the value written. */
  lemma PutThenGet<T(!new)>(s: map<string, string>, key: string, x: T, default: T, c: Codec<T>, env: Env)
    requires RoundTrips(c) && key != TestKey && Stored(key, c.encode(x), env)
    ensures Get(Put(s, key, c.encode(x), env), key, default, c, env) == x
  {
  }

  /** The store after `clearAll`: the namespace removed (after the probe), or
      nothing changed when storage is unavailable. */
  function Cleared(s: map<string, string>, env: Env): (r: map<string, string>)
    ensures forall k :: k in Namespace ==> k !in r || !env.available
    ensures forall k :: k !in Namespace && k != TestKey ==> Agree(r, s, k)
  {
    if env.available then Probe(s, env) - Namespace else s
  }

  /** The store after `checkVersion` found a marker other than `AppVersion`. */
  function Reset(s: map<string, string>, c: Codecs, env: Env): map<string, string> {
    Put(Cleared(s, env), VersionKey, c.text.encode(Some(AppVersion)), env)
  }

  /** Whether `checkVersion` accepts the store as it is. */
  predicate VersionValid(s: map<string, string>, c: Codecs, env: Env) {
    Get(s, VersionKey, None, c.text, env) == Some(AppVersion)
  }

  /** After a reset, the five data keys are gone and, when the marker write is
      accepted, a second check succeeds. */
  lemma ResetSettles(s: map<string, string>, c: Codecs, env: Env)
    requires RoundTrips(c.text)
    requires env.available && env.accepts(VersionKey, c.text.encode(Some(AppVersion)))
    ensures forall k :: k in Namespace && k != VersionKey ==> k !in Reset(s, c, env)
    ensures VersionValid(Reset(s, c, env), c, env)
  {
    PutThenGet(Cleared(s, env), VersionKey, Some(AppVersion), None, c.text, env);
  }

  /** `getMoodEntries`' post-pass: an entry without a reaction list gets an empty
      one; everything else, order and length included, is kept. */
  function Restore(entries: seq<MoodEntry>): (r: seq<MoodEntry>)
    ensures |r| == |entries|
    ensures forall i :: 0 <= i < |r| ==> r[i].reactions.Some?
    ensures forall i :: 0 <= i < |r| ==> ReactionsOf(r[i]) == ReactionsOf(entries[i])
    ensures forall i :: 0 <= i < |r| ==> r[i].(reactions := entries[i].reactions) == entries[i]
  {
    seq(|entries|, i requires 0 <= i < |entries| => entries[i].(reactions := Some(ReactionsOf(entries[i]))))
  }

  /** Restoring twice is restoring once, and restoring distributes over concatenation. */
  lemma RestoreLaws(a: seq<MoodEntry>, b: seq<MoodEntry>)
    ensures Restore(Restore(a)) == Restore(a)
    ensures Restore(a + b) == Restore(a) + Restore(b)
  {
  }

  /** The entries `getMoodEntries` returns for a store. */
  function StoredEntries(s: map<string, string>, c: Codecs, env: Env): seq<MoodEntry> {
    Restore(Get(s, MoodEntriesKey, [], c.entries, env))
  }

  /** The document `exportData` builds (before it is stringified). */
  function ExportDocument(s: map<string, string>, c: Codecs, env: Env, now: int): (d: Document)
    ensures d.version == Some(AppVersion) && d.timestamp == Some(now)
    ensures d.entries == Some(StoredEntries(s, c, env))
    ensures d.currentUser == Get(s, CurrentUserKey, None, c.user, env)
    ensures d.users == Some(Get(s, UsersKey, [], c.users, env))
    ensures d.channels == Some(Get(s, ChannelsKey, [], c.channels, env))
    ensures d.selectedChannel == Get(s, SelectedChannelKey, None, c.text, env)
  {
    Document(Some(AppVersion), Some(now), Some(StoredEntries(s, c, env)),
             Get(s, CurrentUserKey, None, c.user, env),
             Some(Get(s, UsersKey, [], c.users, env)),
             Some(Get(s, ChannelsKey, [], c.channels, env)),
             Get(s, SelectedChannelKey, None, c.text, env))
  }

  /** The store after `importData` parsed `d`: each collection is written only
      when its field is present, a selected channel only when non-empty. */
  function ImportInto(s: map<string, string>, d: Document, c: Codecs, env: Env): map<string, string> {
    var s1 := PutSome(s, MoodEntriesKey, d.entries, c.entries, env);
    var s2 := PutWhen(s1, d.currentUser.Some?, CurrentUserKey, c.user.encode(d.currentUser), env);
    var s3 := PutSome(s2, UsersKey, d.users, c.users, env);
    var s4 := PutSome(s3, ChannelsKey, d.channels, c.channels, env);
    PutWhen(s4, d.selectedChannel.Some? && d.selectedChannel.value != "",
            SelectedChannelKey, c.text.encode(d.selectedChannel), env)
  }

  /** Import writes nothing when the document carries nothing. */
  lemma ImportNothing(s: map<string, string>, d: Document, c: Codecs, env: Env)
    requires d.entries.None? && d.currentUser.None? && d.users.None? && d.channels.None?
    requires d.selectedChannel.None? || d.selectedChannel == Some("")
    ensures ImportInto(s, d, c, env) == s
  {
  }

  /** Import never touches a key outside the five data keys; in particular it
      leaves the version marker as it was. */
  lemma ImportFrame(s: map<string, string>, d: Document, c: Codecs, env: Env, k: string)
    requires k != MoodEntriesKey && k != CurrentUserKey && k != UsersKey
    requires k != ChannelsKey && k != SelectedChannelKey && k != TestKey
    ensures Agree(ImportInto(s, d, c, env), s, k)
  {
    var s1 := PutSome(s, MoodEntriesKey, d.entries, c.entries, env);
    var s2 := PutWhen(s1, d.currentUser.Some?, CurrentUserKey, c.user.encode(d.currentUser), env);
    var s3 := PutSome(s2, UsersKey, d.users, c.users, env);
    var s4 := PutSome(s3, ChannelsKey, d.channels, c.channels, env);
    assert Agree(s1, s, k) && Agree(s2, s1, k) && Agree(s3, s2, k) && Agree(s4, s3, k);
    assert Agree(ImportInto(s, d, c, env), s4, k);
  }

  /** The stores `ImportInto(map[], d, c, env)` passes through, one per write. */
  function ImportStages(d: Document, c: Codecs, env: Env): seq<map<string, string>> {
    var s1 := PutSome(map[], MoodEntriesKey, d.entries, c.entries, env);
    var s2 := PutWhen(s1, d.currentUser.Some?, CurrentUserKey, c.user.encode(d.currentUser), env);
    var s3 := PutSome(s2, UsersKey, d.users, c.users, env);
    var s4 := PutSome(s3, ChannelsKey, d.channels, c.channels, env);
    [map[], s1, s2, s3, s4, ImportInto(map[], d, c, env)]
  }

  lemma ImportReadsEntries(d: Document, c: Codecs, env: Env)
    requires RoundTrips(c.entries)
    requires env.available && forall k, t :: env.accepts(k, t)
    ensures d.entries.Some? ==> Get(ImportInto(map[], d, c, env), MoodEntriesKey, [], c.entries, env) == d.entries.value
  {
    var st := ImportStages(d, c, env);
    if d.entries.Some? {
      assert Agree(st[5], st[4], MoodEntriesKey) && Agree(st[4], st[3], MoodEntriesKey);
      assert Agree(st[3], st[2], MoodEntriesKey) && Agree(st[2], st[1], MoodEntriesKey);
      PutThenGet(map[], MoodEntriesKey, d.entries.value, [], c.entries, env);
      GetAgree(st[5], st[1], MoodEntriesKey, [], c.entries, env);
    }
  }

  lemma ImportReadsUser(d: Document, c: Codecs, env: Env)
    requires RoundTrips(c.user)
    requires env.available && forall k, t :: env.accepts(k, t)
    ensures Get(ImportInto(map[], d, c, env), CurrentUserKey, None, c.user, env) == d.currentUser
  {
    var st := ImportStages(d, c, env);
    assert Agree(st[5], st[4], CurrentUserKey) && Agree(st[4], st[3], CurrentUserKey);
    assert Agree(st[3], st[2], CurrentUserKey);
    if d.currentUser.Some? {
      PutThenGet(st[1], CurrentUserKey, d.currentUser, None, c.user, env);
    } else {
      assert Agree(st[2], st[1], CurrentUserKey) && Agree(st[1], map[], CurrentUserKey);
    }
    GetAgree(st[5], st[2], CurrentUserKey, None, c.user, env);
  }

  lemma ImportReadsUsers(d: Document, c: Codecs, env: Env)
    requires RoundTrips(c.users)
    requires env.available && forall k, t :: env.accepts(k, t)
    ensures d.users.Some? ==> Get(ImportInto(map[], d, c, env), UsersKey, [], c.users, env) == d.users.value
  {
    var st := ImportStages(d, c, env);
    if d.users.Some? {
      assert Agree(st[5], st[4], UsersKey) && Agree(st[4], st[3], UsersKey);
      PutThenGet(st[2], UsersKey, d.users.value, [], c.users, env);
      GetAgree(st[5], st[3], UsersKey, [], c.users, env);
    }
  }

  lemma ImportReadsChannels(d: Document, c: Codecs, env: Env)
    requires RoundTrips(c.channels)
    requires env.available && forall k, t :: env.accepts(k, t)
    ensures d.channels.Some? ==> Get(ImportInto(map[], d, c, env), ChannelsKey, [], c.channels, env) == d.channels.value
  {
    var st := ImportStages(d, c, env);
    if d.channels.Some? {
      assert Agree(st[5], st[4], ChannelsKey);
      PutThenGet(st[3], ChannelsKey, d.channels.value, [], c.channels, env);
      GetAgree(st[5], st[4], ChannelsKey, [], c.channels, env);
    }
  }

  lemma ImportReadsSelected(d: Document, c: Codecs, env: Env)
    requires RoundTrips(c.text)
    requires env.available && forall k, t :: env.accepts(k, t)
    ensures d.selectedChannel != Some("") ==>
              Get(ImportInto(map[], d, c, env), SelectedChannelKey, None, c.text, env) == d.selectedChannel
  {
    var st := ImportStages(d, c, env);
    if d.selectedChannel.Some? && d.selectedChannel.value != "" {
      PutThenGet(st[4], SelectedChannelKey, d.selectedChannel, None, c.text, env);
    } else if d.selectedChannel.None? {
      assert Agree(st[1], map[], SelectedChannelKey) && Agree(st[2], st[1], SelectedChannelKey);
      assert Agree(st[3], st[2], SelectedChannelKey) && Agree(st[4], st[3], SelectedChannelKey);
      assert Agree(st[5], st[4], SelectedChannelKey);
    }
  }

  /** What a fresh store reads back after importing `d` with every write
      accepted: each collection the document carries, the current user whatever
      it is, and the selected channel when it is a non-empty id. */
  lemma ImportReads(d: Document, c: Codecs, env: Env)
    requires ValidCodecs(c)
    requires env.available && forall k, t :: env.accepts(k, t)
    ensures var f := ImportInto(map[], d, c, env);
            && (d.entries.Some? ==> Get(f, MoodEntriesKey, [], c.entries, env) == d.entries.value)
            && Get(f, CurrentUserKey, None, c.user, env) == d.currentUser
            && (d.users.Some? ==> Get(f, UsersKey, [], c.users, env) == d.users.value)
            && (d.channels.Some? ==> Get(f, ChannelsKey, [], c.channels, env) == d.channels.value)
            && (d.selectedChannel != Some("") ==> Get(f, SelectedChannelKey, None, c.text, env) == d.selectedChannel)
  {
    ImportReadsEntries(d, c, env);
    ImportReadsUser(d, c, env);
    ImportReadsUsers(d, c, env);
    ImportReadsChannels(d, c, env);
    ImportReadsSelected(d, c, env);
  }

  /** Exporting a store and importing the document into an empty store, with every
      write accepted, reproduces the entries, the current user, the roster, the
      channels and the selected channel; the one exception is an empty selected
      channel id, which import skips. */
  lemma {:induction false} ExportImportRoundTrip(s: map<string, string>, c: Codecs, env: Env, now: int)
    requires ValidCodecs(c)
    requires env.available && forall k, t :: env.accepts(k, t)
    ensures var json := c.document.encode(ExportDocument(s, c, env, now));
            c.document.decode(json).Some? &&
            var f := ImportInto(map[], c.document.decode(json).value, c, env);
            && StoredEntries(f, c, env) == StoredEntries(s, c, env)
            && Get(f, CurrentUserKey, None, c.user, env) == Get(s, CurrentUserKey, None, c.user, env)
            && Get(f, UsersKey, [], c.users, env) == Get(s, UsersKey, [], c.users, env)
            && Get(f, ChannelsKey, [], c.channels, env) == Get(s, ChannelsKey, [], c.channels, env)
            && (Get(s, SelectedChannelKey, None, c.text, env) != Some("") ==>
                Get(f, SelectedChannelKey, None, c.text, env) == Get(s, SelectedChannelKey, None, c.text, env))
  {
    var d := ExportDocument(s, c, env, now);
    assert c.document.decode(c.document.encode(d)) == Some(d);
    ImportReads(d, c, env);
    RestoreLaws(Get(s, MoodEntriesKey, [], c.entries, env), []);
  }

  /** JavaScript's `length` of a string: UTF-16 code units, so a character
      outside the Basic Multilingual Plane (an emoji) counts twice. */
  function Utf16Length(s: string): (n: nat)
    ensures |s| <= n <= 2 * |s|
    ensures n == |s| <==> forall i :: 0 <= i < |s| ==> s[i] as int < 0x1_0000
  {
    if s == [] then 0
    else
      assert forall i :: 1 <= i < |s| ==> s[i] == s[1..][i - 1];
      (if s[0] as int < 0x1_0000 then 1 else 2) + Utf16Length(s[1..])
  }

  /** A reaction emoji is two code units long, a plain letter one. */
  lemma EmojiCountsTwice()
    ensures Utf16Length("\U{1F60A}") == 2 && Utf16Length("a") == 1
  {
  }

  /** Code units a key and its value occupy; nothing for an absent key. */
  function Cost(m: map<string, string>, k: string): nat {
    if k in m then Utf16Length(m[k]) + Utf16Length(k) else 0
  }

  /** Characters held under the keys `ks`. */
  function Used(m: map<string, string>, ks: seq<string>): (n: nat)
    ensures ks == [] ==> n == 0
  {
    if ks == [] then 0 else Cost(m, ks[0]) + Used(m, ks[1..])
  }

  lemma {:induction false} UsedAppend(m: map<string, string>, a: seq<string>, b: seq<string>)
    ensures Used(m, a + b) == Used(m, a) + Used(m, b)
  {
    if a != [] {
      assert (a + b)[1..] == a[1..] + b;
      UsedAppend(m, a[1..], b);
    } else {
      assert a + b == b;
    }
  }

  /** Taking one key out of the enumeration takes out exactly its cost. */
  lemma UsedRemove(m: map<string, string>, b: seq<string>, j: nat)
    requires j < |b|
    ensures Used(m, b) == Cost(m, b[j]) + Used(m, b[..j] + b[j + 1..])
  {
    assert b == b[..j] + ([b[j]] + b[j + 1..]);
    UsedAppend(m, b[..j], [b[j]] + b[j + 1..]);
    UsedAppend(m, b[..j], b[j + 1..]);
    assert ([b[j]] + b[j + 1..])[1..] == b[j + 1..];
  }

  /** The total does not depend on the order in which the keys are enumerated. */
  lemma {:induction false} UsedPermutation(m: map<string, string>, a: seq<string>, b: seq<string>)
    requires multiset(a) == multiset(b)
    ensures Used(m, a) == Used(m, b)
    decreases |a|
  {
    if a == [] {
      assert |b| == |multiset(b)| == 0;
    } else {
      var j := PermutationTail(a, b);
      UsedPermutation(m, a[1..], b[..j] + b[j + 1..]);
      UsedRemove(m, b, j);
    }
  }

  datatype Usage = Usage(used: nat, total: nat, percentage: real)

  class LocalStorageService {
    var store: map<string, string>
    const codecs: Codecs

    constructor (initial: map<string, string>, codecs: Codecs)
      ensures store == initial && this.codecs == codecs
    {
      store := initial;
      this.codecs := codecs;
    }

    /** Probes the store by writing and removing `TestKey`; a store that did not
        hold that key is left as it was. */
    method IsAvailable(env: Env) returns (ok: bool)
      modifies this
      ensures ok == env.available
      ensures store == Probe(old(store), env)
      ensures TestKey !in old(store) ==> store == old(store)
    {
      if env.available {
        store := store[TestKey := "test"];
        store := store - {TestKey};
        ok := true;
      } else {
        ok := false;
      }
    }

    /** Reads and decodes `key`, falling back to `default`; never fails. */
    method SafeGetItem<T>(key: string, default: T, c: Codec<T>, env: Env) returns (v: T)
      modifies this
      ensures v == Get(old(store), key, default, c, env)
      ensures store == Probe(old(store), env)
    {
      var ok := IsAvailable(env);
      if !ok {
        return default;
      }
      if key !in store {
        return default;
      }
      var parsed := c.decode(store[key]);
      if parsed.None? {
        return default;
      }
      return parsed.value;
    }

    /** Encodes and writes `value` under `key`; reports false, writing nothing,
        when storage is unavailable or the write is refused. */
    method SafeSetItem<T>(key: string, value: T, c: Codec<T>, env: Env) returns (ok: bool)
      modifies this
      ensures ok == Stored(key, c.encode(value), env)
      ensures store == Put(old(store), key, c.encode(value), env)
    {
      var available := IsAvailable(env);
      if !available {
        return false;
      }
      var text := c.encode(value);
      if env.accepts(key, text) {
        store := store[key := text];
        ok := true;
      } else {
        ok := false;
      }
    }

    /** Removes every key of the namespace, one at a time; does nothing when
        storage is unavailable. */
    method ClearAll(env: Env)
      modifies this
      ensures store == Cleared(old(store), env)
    {
      var available := IsAvailable(env);
      if !available {
        return;
      }
      var i := 0;
      while i < |StorageKeys|
        invariant 0 <= i <= |StorageKeys|
        invariant store == Probe(old(store), env) - set k | k in StorageKeys[..i]
      {
        assert StorageKeys[..i + 1] == StorageKeys[..i] + [StorageKeys[i]];
        store := store - {StorageKeys[i]};
        i := i + 1;
      }
      assert StorageKeys[..i] == StorageKeys;
      assert (set k | k in StorageKeys) == Namespace;
    }

    /** Accepts the store when its marker is `AppVersion`; otherwise clears the
        namespace, writes the marker and reports false. */
    method CheckVersion(env: Env) returns (valid: bool)
      modifies this
      ensures valid == VersionValid(old(store), codecs, env)
      ensures valid ==> store == Probe(old(store), env)
      ensures !valid ==> store == Reset(old(store), codecs, env)
    {
      var storedVersion := SafeGetItem(VersionKey, None, codecs.text, env);
      if storedVersion != Some(AppVersion) {
        ClearAll(env);
        var _ := SafeSetItem(VersionKey, Some(AppVersion), codecs.text, env);
        return false;
      }
      return true;
    }

    /** Reads the entry log, giving every entry a reaction list. */
    method GetMoodEntries(env: Env) returns (entries: seq<MoodEntry>)
      modifies this
      ensures entries == StoredEntries(old(store), codecs, env)
      ensures store == Probe(old(store), env)
    {
      var raw := SafeGetItem(MoodEntriesKey, [], codecs.entries, env);
      entries := seq(|raw|, i requires 0 <= i < |raw| =>
        raw[i].(reactions := Some(if raw[i].reactions.Some? then raw[i].reactions.value else [])));
    }

    method SaveMoodEntries(entries: seq<MoodEntry>, env: Env) returns (ok: bool)
      modifies this
      ensures ok == Stored(MoodEntriesKey, codecs.entries.encode(entries), env)
      ensures store == Put(old(store), MoodEntriesKey, codecs.entries.encode(entries), env)
    {
      ok := SafeSetItem(MoodEntriesKey, entries, codecs.entries, env);
    }

    /** Persists `entry` in front of the stored log. */
    method AddMoodEntry(entry: MoodEntry, env: Env) returns (ok: bool)
      modifies this
      ensures var text := codecs.entries.encode([entry] + StoredEntries(old(store), codecs, env));
              ok == Stored(MoodEntriesKey, text, env) && store == Put(old(store), MoodEntriesKey, text, env)
    {
      var entries := GetMoodEntries(env);
      entries := [entry] + entries;
      ok := SaveMoodEntries(entries, env);
    }

    method GetCurrentUser(env: Env) returns (user: Option<User>)
      modifies this
      ensures user == Get(old(store), CurrentUserKey, None, codecs.user, env)
      ensures store == Probe(old(store), env)
    {
      user := SafeGetItem(CurrentUserKey, None, codecs.user, env);
    }

    method SaveCurrentUser(user: User, env: Env) returns (ok: bool)
      modifies this
      ensures ok == Stored(CurrentUserKey, codecs.user.encode(Some(user)), env)
      ensures store == Put(old(store), CurrentUserKey, codecs.user.encode(Some(user)), env)
    {
      ok := SafeSetItem(CurrentUserKey, Some(user), codecs.user, env);
    }

    method GetUsers(env: Env) returns (users: seq<User>)
      modifies this
      ensures users == Get(old(store), UsersKey, [], codecs.users, env)
      ensures store == Probe(old(store), env)
    {
      users := SafeGetItem(UsersKey, [], codecs.users, env);
    }

    method SaveUsers(users: seq<User>, env: Env) returns (ok: bool)
      modifies this
      ensures ok == Stored(UsersKey, codecs.users.encode(users), env)
      ensures store == Put(old(store), UsersKey, codecs.users.encode(users), env)
    {
      ok := SafeSetItem(UsersKey, users, codecs.users, env);
    }

    method GetChannels(env: Env) returns (channels: seq<MoodChannel>)
      modifies this
      ensures channels == Get(old(store), ChannelsKey, [], codecs.channels, env)
      ensures store == Probe(old(store), env)
    {
      channels := SafeGetItem(ChannelsKey, [], codecs.channels, env);
    }

    method SaveChannels(channels: seq<MoodChannel>, env: Env) returns (ok: bool)
      modifies this
      ensures ok == Stored(ChannelsKey, codecs.channels.encode(channels), env)
      ensures store == Put(old(store), ChannelsKey, codecs.channels.encode(channels), env)
    {
      ok := SafeSetItem(ChannelsKey, channels, codecs.channels, env);
    }

    method GetSelectedChannel(env: Env) returns (id: Option<string>)
      modifies this
      ensures id == Get(old(store), SelectedChannelKey, None, codecs.text, env)
      ensures store == Probe(old(store), env)
    {
      id := SafeGetItem(SelectedChannelKey, None, codecs.text, env);
    }

    method SaveSelectedChannel(channelId: string, env: Env) returns (ok: bool)
      modifies this
      ensures ok == Stored(SelectedChannelKey, codecs.text.encode(Some(channelId)), env)
      ensures store == Put(old(store), SelectedChannelKey, codecs.text.encode(Some(channelId)), env)
    {
      ok := SafeSetItem(SelectedChannelKey, Some(channelId), codecs.text, env);
    }

    /** Serialises the version, `now` and every persisted collection. */
    method ExportData(env: Env, now: int) returns (json: string)
      modifies this
      ensures json == codecs.document.encode(ExportDocument(old(store), codecs, env, now))
      ensures store == Probe(old(store), env)
    {
      ghost var s0 := store;
      var entries := GetMoodEntries(env);
      GetAfterProbe(s0, CurrentUserKey, None, codecs.user, env);
      var currentUser := GetCurrentUser(env);
      GetAfterProbe(s0, UsersKey, [], codecs.users, env);
      var users := GetUsers(env);
      GetAfterProbe(s0, ChannelsKey, [], codecs.channels, env);
      var channels := GetChannels(env);
      GetAfterProbe(s0, SelectedChannelKey, None, codecs.text, env);
      var selectedChannel := GetSelectedChannel(env);
      var data := Document(Some(AppVersion), Some(now), Some(entries), currentUser,
                           Some(users), Some(channels), selectedChannel);
      json := codecs.document.encode(data);
    }

    /** Parses `json` and writes each collection the document carries; reports
        false, writing nothing, when the text does not parse. */
    method ImportData(json: string, env: Env) returns (ok: bool)
      modifies this
      ensures ok == codecs.document.decode(json).Some?
      ensures !ok ==> store == old(store)
      ensures ok ==> store == ImportInto(old(store), codecs.document.decode(json).value, codecs, env)
    {
      var parsed := codecs.document.decode(json);
      if parsed.None? {
        return false;
      }
      var data := parsed.value;
      if data.entries.Some? {
        var _ := SaveMoodEntries(data.entries.value, env);
      }
      if data.currentUser.Some? {
        var _ := SaveCurrentUser(data.currentUser.value, env);
      }
      if data.users.Some? {
        var _ := SaveUsers(data.users.value, env);
      }
      if data.channels.Some? {
        var _ := SaveChannels(data.channels.value, env);
      }
      if data.selectedChannel.Some? && data.selectedChannel.value != "" {
        var _ := SaveSelectedChannel(data.selectedChannel.value, env);
      }
      return true;
    }

    /** Adds up key and value lengths over the store's keys, enumerated in the
        browser's order `keys`; all zeros when storage is unavailable. */
    method GetStorageUsage(keys: seq<string>, env: Env) returns (u: Usage)
      requires forall k :: k in keys <==> k in Probe(store, env)
      requires Distinct(keys)
      modifies this
      ensures !env.available ==> u == Usage(0, 0, 0.0)
      ensures env.available ==> u.total == QuotaEstimate && u.used == Used(store, keys)
      ensures env.available ==> u.percentage == u.used as real / QuotaEstimate as real * 100.0
      ensures store == Probe(old(store), env)
    {
      var ok := IsAvailable(env);
      if !ok {
        return Usage(0, 0, 0.0);
      }
      var used := 0;
      var i := 0;
      while i < |keys|
        invariant 0 <= i <= |keys|
        invariant used == Used(store, keys[..i])
        invariant store == Probe(old(store), env)
        invariant forall k :: k in keys ==> k in store
      {
        UsedAppend(store, keys[..i], [keys[i]]);
        assert keys[..i + 1] == keys[..i] + [keys[i]];
        used := used + Utf16Length(store[keys[i]]) + Utf16Length(keys[i]);
        i := i + 1;
      }
      assert keys[..i] == keys;
      var total := 5 * 1024 * 1024;
      return Usage(used, total, used as real / total as real * 100.0);
    }
  }

  /** Two version checks in a row: whatever the first finds, the second accepts
      the store when storage is available and the marker write is accepted. */
  method CheckVersionTwice(service: LocalStorageService, env: Env) returns (first: bool, second: bool)
    requires RoundTrips(service.codecs.text)
    requires env.available && env.accepts(VersionKey, service.codecs.text.encode(Some(AppVersion)))
    modifies service
    ensures second
    ensures first ==> service.store == Probe(old(service.store), env)
    ensures !first ==> service.store == Probe(Reset(old(service.store), service.codecs, env), env)
  {
    ghost var s0 := service.store;
    first := service.CheckVersion(env);
    if first {
      GetAfterProbe(s0, VersionKey, None, service.codecs.text, env);
    } else {
      ResetSettles(s0, service.codecs, env);
    }
    second := service.CheckVersion(env);
  }
}
