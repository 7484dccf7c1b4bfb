/** The channel slice of the application state: the channel list and the id
    of the selected channel. */
module ChannelSlice {
  import opened Types
  import opened Seqs

  /** The five channels the application starts with. */
  function InitialChannels(): (r: seq<MoodChannel>)
    ensures |r| == 5
    ensures forall i, j :: 0 <= i < j < |r| ==> r[i].id != r[j].id
    ensures r[0].id == "general"
  {
    [ MoodChannel("general", "General", "General mood updates and check-ins",
                  "#6264A7", "\U{1F4AC}", 24, true),
      MoodChannel("happy", "Happy Vibes", "Share your good moments and wins",
                  "#00BCF2", "\U{1F60A}", 18, true),
      MoodChannel("stressed", "Stress Support", "Support each other through challenging times",
                  "#FF8C00", "\U{1F630}", 12, true),
      MoodChannel("motivated", "Motivation Station", "Share goals and inspire each other",
                  "#237B4B", "\U{1F4AA}", 20, true),
      MoodChannel("wellness", "Wellness Tips", "Mental health resources and tips",
                  "#8B5A9A", "\U{1F9D8}\U{200D}\U{2640}\U{FE0F}", 15, true) ]
  }

  /** A partial channel record with its id: the fields that are present overwrite. */
  datatype ChannelPatch = ChannelPatch(
    id: string,
    name: Option<string>,
    description: Option<string>,
    color: Option<string>,
    icon: Option<string>,
    memberCount: Option<int>,
    isActive: Option<bool>)

  function Pick<T>(o: Option<T>, keep: T): T {
    if o.Some? then o.value else keep
  }

  /** `Object.assign(channel, patch)`: every field present in the patch overwrites. */
  function Merge(c: MoodChannel, p: ChannelPatch): MoodChannel {
    MoodChannel(p.id, Pick(p.name, c.name), Pick(p.description, c.description),
                Pick(p.color, c.color), Pick(p.icon, c.icon),
                Pick(p.memberCount, c.memberCount), Pick(p.isActive, c.isActive))
  }

  /** A patch carrying only the channel's own id changes nothing, and applying
      the same patch twice is the same as applying it once. */
  lemma MergeLaws(c: MoodChannel, p: ChannelPatch)
    ensures Merge(c, ChannelPatch(c.id, None, None, None, None, None, None)) == c
    ensures Merge(Merge(c, p), p) == Merge(c, p)
  {
  }

  /** The list after `updateChannel`: the patch is merged into the first channel
      with its id; ids and length are kept; an unknown id changes nothing. */
  function MergeInto(channels: seq<MoodChannel>, p: ChannelPatch): (r: seq<MoodChannel>)
    ensures |r| == |channels|
    ensures forall i :: 0 <= i < |r| ==> r[i].id == channels[i].id
    ensures (forall i :: 0 <= i < |channels| ==> channels[i].id != p.id) ==> r == channels
    ensures forall k :: 0 <= k < |channels| && channels[k].id == p.id &&
                        (forall j :: 0 <= j < k ==> channels[j].id != p.id) ==>
              r == channels[k := Merge(channels[k], p)]
  {
    match FindIndex(channels, (c: MoodChannel) => c.id == p.id)
    case None => channels
    case Some(k) => channels[k := Merge(channels[k], p)]
  }

  /** The list after `updateMemberCount`: only the member count of the first
      channel with that id changes; an unknown id changes nothing. */
  function WithMemberCount(channels: seq<MoodChannel>, channelId: string, count: int): (r: seq<MoodChannel>)
    ensures |r| == |channels|
    ensures (forall i :: 0 <= i < |channels| ==> channels[i].id != channelId) ==> r == channels
    ensures forall k :: 0 <= k < |channels| && channels[k].id == channelId &&
                        (forall j :: 0 <= j < k ==> channels[j].id != channelId) ==>
              r == channels[k := channels[k].(memberCount := count)]
  {
    match FindIndex(channels, (c: MoodChannel) => c.id == channelId)
    case None => channels
    case Some(k) => channels[k := channels[k].(memberCount := count)]
  }

  /** A member-count update is the merge of a patch that carries only that count. */
  lemma MemberCountIsMerge(channels: seq<MoodChannel>, channelId: string, count: int)
    ensures WithMemberCount(channels, channelId, count) ==
            MergeInto(channels, ChannelPatch(channelId, None, None, None, None, Some(count), None))
  {
    var p := ChannelPatch(channelId, None, None, None, None, Some(count), None);
    match FindIndex(channels, (c: MoodChannel) => c.id == channelId)
    case None =>
    case Some(k) =>
      assert Merge(channels[k], p) == channels[k].(memberCount := count);
  }

  class ChannelState {
    var channels: seq<MoodChannel>
    var selectedChannelId: Option<string>
    var isLoading: bool
    var error: Option<string>

    /** The initial state: the five channels, with 'general' selected. */
    constructor ()
      ensures channels == InitialChannels() && selectedChannelId == Some("general")
      ensures exists i :: 0 <= i < |channels| && channels[i].id == selectedChannelId.value
      ensures !isLoading && error == None
    {
      channels := InitialChannels();
      selectedChannelId := Some("general");
      isLoading := false;
      error := None;
    }

    /** Selects any id, whether or not a channel carries it. */
    method SetSelectedChannel(id: string)
      modifies this
      ensures selectedChannelId == Some(id)
      ensures channels == old(channels) && isLoading == old(isLoading) && error == old(error)
    {
      selectedChannelId := Some(id);
    }

    /** Replaces the list; the selection is kept even if it no longer names a channel. */
    method SetChannels(newChannels: seq<MoodChannel>)
      modifies this
      ensures channels == newChannels
      ensures selectedChannelId == old(selectedChannelId)
      ensures isLoading == old(isLoading) && error == old(error)
    {
      channels := newChannels;
    }

    /** Appends a channel. */
    method AddChannel(channel: MoodChannel)
      modifies this
      ensures channels == old(channels) + [channel]
      ensures selectedChannelId == old(selectedChannelId)
      ensures isLoading == old(isLoading) && error == old(error)
    {
      channels := channels + [channel];
    }

    /** Merges the patch into the first channel with its id. */
    method UpdateChannel(patch: ChannelPatch)
      modifies this
      ensures channels == MergeInto(old(channels), patch)
      ensures selectedChannelId == old(selectedChannelId)
      ensures isLoading == old(isLoading) && error == old(error)
    {
      var found := FindIndex(channels, (c: MoodChannel) => c.id == patch.id);
      if found.Some? {
        var k := found.value;
        channels := channels[k := Merge(channels[k], patch)];
      }
    }

    /** Sets the member count of the first channel with that id. */
    method UpdateMemberCount(channelId: string, count: int)
      modifies this
      ensures channels == WithMemberCount(old(channels), channelId, count)
      ensures selectedChannelId == old(selectedChannelId)
      ensures isLoading == old(isLoading) && error == old(error)
    {
      var found := FindIndex(channels, (c: MoodChannel) => c.id == channelId);
      if found.Some? {
        var k := found.value;
        channels := channels[k := channels[k].(memberCount := count)];
      }
    }
  }
}
