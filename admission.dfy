/**
 * The decision logic of the chat bot's `$play` command: the command gate,
 * the lookup of the voice-channel category, and first-fit admission of the
 * requester to a voice channel of that category.
 *
 * The platform is seen only through snapshots: a guild is the list that
 * `guild.by_category()` yields, a channel carries the members it has at the
 * moment of the request.
 */
module Admission {
  import opened Wrappers

  /** Default of the participant limit (CHAT_NUM_PARTICIPANTS). */
  const DEFAULT_NUM_PARTICIPANTS: int := 5

  type MemberId = nat

  datatype VoiceChannel = VoiceChannel(id: nat, name: string, members: seq<MemberId>)

  datatype Category = Category(id: nat, name: string)

  /**
   * One entry of `guild.by_category()`: a category and its channels in
   * display order. Channels that belong to no category come in an entry
   * whose category is absent.
   */
  datatype Group = Group(category: Option<Category>, channels: seq<VoiceChannel>)

  /** The command context: who sent the command, in which text channel, in which guild. */
  datatype Context = Context(author: MemberId, channelId: int, guild: seq<Group>)

  // ---------------------------------------------------------------------
  // Command gate

  /** `are_we_allowed_to_chat`: commands are accepted everywhere, or only in the configured channel. */
  predicate AreWeAllowedToChat(ctx: Context, channelId: Option<int>)
  {
    channelId.None? || channelId.value == ctx.channelId
  }

  /** Without a configured channel every context passes the gate. */
  lemma GateOpenWithoutChannel(ctx: Context)
    ensures AreWeAllowedToChat(ctx, None)
  {
  }

  /** With a configured channel, exactly the commands sent in that channel pass. */
  lemma GateOnlyConfiguredChannel(ctx: Context, id: int)
    ensures AreWeAllowedToChat(ctx, Some(id)) <==> ctx.channelId == id
  {
  }

  // ---------------------------------------------------------------------
  // Category lookup

  predicate NamedAs(g: Group, name: string)
  {
    g.category.Some? && g.category.value.name == name
  }

  /**
   * The position of the first entry whose category is called `name`;
   * entries without a category never match.
   */
  function CategoryIndex(guild: seq<Group>, name: string): (r: Option<nat>)
    ensures r.Some? ==> r.value < |guild| && NamedAs(guild[r.value], name)
    ensures r.Some? ==> forall j :: 0 <= j < r.value ==> !NamedAs(guild[j], name)
    ensures r.None? <==> forall j :: 0 <= j < |guild| ==> !NamedAs(guild[j], name)
  {
    FirstIndex(guild, g => NamedAs(g, name))
  }

  /** What the lookup loop, as written, ends in. */
  datatype Scan = Raised | NotFound | FoundAt(index: nat)

  /**
   * The lookup loop as written: it reads `cat.name` on every entry it
   * passes, which raises AttributeError on the entry of uncategorised
   * channels (its category is None).
   */
  function CategoryIndexAsWritten(guild: seq<Group>, name: string): (r: Scan)
    ensures r.FoundAt? ==> CategoryIndex(guild, name) == Some(r.index)
    ensures r.NotFound? ==> CategoryIndex(guild, name) == None
    ensures r.Raised? ==> exists j :: 0 <= j < |guild| && guild[j].category.None?
  {
    if guild == [] then NotFound
    else if guild[0].category.None? then Raised
    else if guild[0].category.value.name == name then FoundAt(0)
    else match CategoryIndexAsWritten(guild[1..], name)
      case Raised => (assert guild[1..][0] == guild[1]; Raised)
      case NotFound => NotFound
      case FoundAt(k) => FoundAt(k + 1)
  }

  /** In a guild where every channel has a category, the loop as written and the corrected lookup agree. */
  lemma {:induction false} AsWrittenAgreesWhenAllCategorised(guild: seq<Group>, name: string)
    requires forall j :: 0 <= j < |guild| ==> guild[j].category.Some?
    ensures CategoryIndexAsWritten(guild, name)
         == match CategoryIndex(guild, name) case None => NotFound case Some(k) => FoundAt(k)
  {
    if guild != [] && !NamedAs(guild[0], name) {
      AsWrittenAgreesWhenAllCategorised(guild[1..], name);
    }
  }

  /**
   * Conversely, an entry without a category that comes before every entry
   * with the name makes the loop as written raise.
   */
  lemma {:induction false} RaisesIfUncategorisedFirst(guild: seq<Group>, name: string, j: nat)
    requires j < |guild| && guild[j].category.None?
    requires forall i :: 0 <= i < j ==> !NamedAs(guild[i], name)
    ensures CategoryIndexAsWritten(guild, name) == Raised
  {
    if guild[0].category.Some? {
      RaisesIfUncategorisedFirst(guild[1..], name, j - 1);
    }
  }

  /** One uncategorised text channel, listed before the category, makes the loop as written raise. */
  lemma UncategorisedChannelBreaksLookup()
    ensures var guild := [Group(None, [VoiceChannel(1, "general", [])]),
                          Group(Some(Category(2, "Social")), [VoiceChannel(3, "room", [])])];
            CategoryIndexAsWritten(guild, "Social") == Raised
            && CategoryIndex(guild, "Social") == Some(1)
  {
  }

  // ---------------------------------------------------------------------
  // First-fit admission

  predicate HasMember(ch: VoiceChannel, m: MemberId)
  {
    m in ch.members
  }

  /** A channel has a free slot when it has fewer members than the global participant limit. */
  predicate HasFreeSlot(ch: VoiceChannel, limit: int)
  {
    |ch.members| < limit
  }

  /** The position of the first element of `s` that satisfies `p`, in list order. */
  function FirstIndex<T>(s: seq<T>, p: T -> bool): (r: Option<nat>)
    ensures r.Some? ==> r.value < |s| && p(s[r.value])
    ensures r.Some? ==> forall j :: 0 <= j < r.value ==> !p(s[j])
    ensures r.None? <==> forall j :: 0 <= j < |s| ==> !p(s[j])
  {
    if s == [] then None
    else if p(s[0]) then Some(0)
    else match FirstIndex(s[1..], p)
      case None => None
      case Some(k) => Some(k + 1)
  }

  function FirstWithMember(chs: seq<VoiceChannel>, m: MemberId): (r: Option<nat>)
  {
    FirstIndex(chs, ch => HasMember(ch, m))
  }

  function FirstWithFreeSlot(chs: seq<VoiceChannel>, limit: int): (r: Option<nat>)
  {
    FirstIndex(chs, ch => HasFreeSlot(ch, limit))
  }

  /** The direct message `$play` ends with. */
  datatype Reply =
    | ConfigError                           // the category is missing: "we are having problems"
    | AlreadyChatting(channel: VoiceChannel) // the requester already sits in `channel`
    | Invite(channel: VoiceChannel)          // a single-use invite to `channel`
    | AllChannelsFull                        // "All channels are full. Please try again later"

  /** `member or ctx.author`. */
  function Requester(ctx: Context, member: Option<MemberId>): (r: MemberId)
  {
    member.GetOr(ctx.author)
  }

  /**
   * The reply to a `$play` request: `lookup` is the channel list of the
   * category (None when it is missing), `limit` the participant limit,
   * `canCreate` the channel-creation flag and `created` what the platform
   * answers to a creation request (None when it raises).
   */
  function Admit(lookup: Option<seq<VoiceChannel>>, requester: MemberId, limit: int,
                 canCreate: bool, created: Option<VoiceChannel>): (r: Reply)
  {
    match lookup
    case None => ConfigError
    case Some(chs) =>
      match FirstWithMember(chs, requester)
      case Some(i) => AlreadyChatting(chs[i])
      case None =>
        match FirstWithFreeSlot(chs, limit)
        case Some(i) => Invite(chs[i])
        case None => if canCreate && created.Some? then Invite(created.value) else AllChannelsFull
  }

  /** The cached channel list after the request (`self._voice_chs`). */
  function CacheAfter(lookup: Option<seq<VoiceChannel>>, requester: MemberId, limit: int,
                      canCreate: bool, created: Option<VoiceChannel>): (r: Option<seq<VoiceChannel>>)
  {
    match lookup
    case None => None
    case Some(chs) =>
      if FirstWithMember(chs, requester).None? && FirstWithFreeSlot(chs, limit).None?
         && canCreate && created.Some?
      then Some(chs + [created.value])
      else lookup
  }

  /** A missing category gives the configuration-error reply whatever else holds, and clears the cache. */
  lemma ConfigErrorWithoutCategory(requester: MemberId, limit: int, canCreate: bool, created: Option<VoiceChannel>)
    ensures Admit(None, requester, limit, canCreate, created) == ConfigError
    ensures CacheAfter(None, requester, limit, canCreate, created) == None
  {
  }

  /**
   * A requester who sits in some channel is told so, naming the first such
   * channel, even when that channel or an earlier one has a free slot.
   */
  lemma AlreadyChattingNamesFirstChannel(chs: seq<VoiceChannel>, requester: MemberId, limit: int,
                                         canCreate: bool, created: Option<VoiceChannel>, i: nat)
    requires i < |chs| && HasMember(chs[i], requester)
    requires forall j :: 0 <= j < i ==> !HasMember(chs[j], requester)
    ensures Admit(Some(chs), requester, limit, canCreate, created) == AlreadyChatting(chs[i])
    ensures CacheAfter(Some(chs), requester, limit, canCreate, created) == Some(chs)
  {
  }

  /** A requester in no channel is invited to the first channel with a free slot, never a later one. */
  lemma InviteToFirstFreeChannel(chs: seq<VoiceChannel>, requester: MemberId, limit: int,
                                 canCreate: bool, created: Option<VoiceChannel>, i: nat)
    requires forall j :: 0 <= j < |chs| ==> !HasMember(chs[j], requester)
    requires i < |chs| && HasFreeSlot(chs[i], limit)
    requires forall j :: 0 <= j < i ==> !HasFreeSlot(chs[j], limit)
    ensures Admit(Some(chs), requester, limit, canCreate, created) == Invite(chs[i])
    ensures CacheAfter(Some(chs), requester, limit, canCreate, created) == Some(chs)
  {
  }

  /** When every channel is full and creation is enabled and succeeds, the new channel is appended and invited to. */
  lemma InviteToCreatedChannel(chs: seq<VoiceChannel>, requester: MemberId, limit: int, ch: VoiceChannel)
    requires forall j :: 0 <= j < |chs| ==> !HasMember(chs[j], requester)
    requires forall j :: 0 <= j < |chs| ==> !HasFreeSlot(chs[j], limit)
    ensures Admit(Some(chs), requester, limit, true, Some(ch)) == Invite(ch)
    ensures CacheAfter(Some(chs), requester, limit, true, Some(ch)) == Some(chs + [ch])
  {
  }

  /** When every channel is full and creation is disabled or fails, the request is refused and the cache not extended. */
  lemma RefusedWhenFull(chs: seq<VoiceChannel>, requester: MemberId, limit: int,
                        canCreate: bool, created: Option<VoiceChannel>)
    requires forall j :: 0 <= j < |chs| ==> !HasMember(chs[j], requester)
    requires forall j :: 0 <= j < |chs| ==> !HasFreeSlot(chs[j], limit)
    requires !canCreate || created.None?
    ensures Admit(Some(chs), requester, limit, canCreate, created) == AllChannelsFull
    ensures CacheAfter(Some(chs), requester, limit, canCreate, created) == Some(chs)
  {
  }

  /**
   * Conversely, an invite goes only to a requester who sits nowhere, and
   * names either the first channel with a free slot or, when none has one,
   * the channel just created.
   */
  lemma InviteOnlyFirstFreeOrCreated(chs: seq<VoiceChannel>, requester: MemberId, limit: int,
                                     canCreate: bool, created: Option<VoiceChannel>, ch: VoiceChannel)
    requires Admit(Some(chs), requester, limit, canCreate, created) == Invite(ch)
    ensures forall j :: 0 <= j < |chs| ==> !HasMember(chs[j], requester)
    ensures || (exists i :: 0 <= i < |chs| && ch == chs[i] && HasFreeSlot(chs[i], limit)
                            && forall j :: 0 <= j < i ==> !HasFreeSlot(chs[j], limit))
            || ((forall j :: 0 <= j < |chs| ==> !HasFreeSlot(chs[j], limit))
                && canCreate && created == Some(ch))
  {
  }

  /**
   * The cache is either the scanned list unchanged or that list with
   * exactly the created channel appended, and the latter only when the
   * reply invites to the created channel.
   */
  lemma CacheOnlyAppendsCreated(lookup: Option<seq<VoiceChannel>>, requester: MemberId, limit: int,
                                canCreate: bool, created: Option<VoiceChannel>)
    ensures var cache := CacheAfter(lookup, requester, limit, canCreate, created);
            || cache == lookup
            || (&& lookup.Some? && created.Some?
                && cache == Some(lookup.value + [created.value])
                && Admit(lookup, requester, limit, canCreate, created) == Invite(created.value))
  {
  }

  /** Two channels of five: the first full, the second with three members; the requester goes to the second. */
  lemma ScenarioSecondChannelHasRoom(x: MemberId)
    ensures var a := VoiceChannel(1, "A", [10, 11, 12, 13, 14]);
            var b := VoiceChannel(2, "B", [20, 21, 22]);
            x !in a.members && x !in b.members ==>
              Admit(Some([a, b]), x, DEFAULT_NUM_PARTICIPANTS, false, None) == Invite(b)
  {
    var a := VoiceChannel(1, "A", [10, 11, 12, 13, 14]);
    var b := VoiceChannel(2, "B", [20, 21, 22]);
    if x !in a.members && x !in b.members {
      InviteToFirstFreeChannel([a, b], x, DEFAULT_NUM_PARTICIPANTS, false, None, 1);
    }
  }

  /** A requester already in a full channel is told so rather than refused. */
  lemma ScenarioAlreadyInFullChannel(ch: VoiceChannel)
    requires ch.members == [10, 11, 12, 13, 14]
    ensures Admit(Some([ch]), 12, DEFAULT_NUM_PARTICIPANTS, true, None) == AlreadyChatting(ch)
  {
    AlreadyChattingNamesFirstChannel([ch], 12, DEFAULT_NUM_PARTICIPANTS, true, None, 0);
  }
}
