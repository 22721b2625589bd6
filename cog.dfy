/**
 * The bot's command cog: the state it keeps between events (the category it
 * found last, the channel list it scanned last, the watermark of the help
 * announcer) and the methods that update it.
 */
module Cog {
  import opened Wrappers
  import opened Admission
  import opened Announcer

  class ChatCog {
    /** The text channel the help text goes to. */
    const channelId: Option<int>
    /** Name of the category whose voice channels `$play` hands out. */
    const voiceCatName: string
    const helpMsg: string
    /** Both the announcement threshold (messages) and the sleep between checks. */
    const helpMsgEvery: int

    /** The category found by the last lookup that succeeded. */
    var voiceCat: Option<Category>
    /** The channel list of the last `$play` (None when its lookup failed). */
    var voiceChs: Option<seq<VoiceChannel>>
    /** The last help message sent, None before the first. */
    var lastHelpMsg: Option<Message>

    constructor (channelId: Option<int>, voiceCatName: string, helpMsg: string, helpMsgDelay: int)
      ensures this.channelId == channelId && this.voiceCatName == voiceCatName
      ensures this.helpMsg == helpMsg && helpMsgEvery == helpMsgDelay
      ensures voiceCat == None && voiceChs == Some([]) && lastHelpMsg == None
    {
      this.channelId := channelId;
      this.voiceCatName := voiceCatName;
      this.helpMsg := helpMsg;
      helpMsgEvery := helpMsgDelay;
      voiceCat := None;
      voiceChs := Some([]);
      lastHelpMsg := None;
    }

    /**
     * The channels of the first category called `voiceCatName`, recording
     * that category; None, with the recorded category untouched, when no
     * category has that name.
     */
    method GetVoiceChannels(guild: seq<Group>) returns (chs: Option<seq<VoiceChannel>>)
      modifies this`voiceCat
      ensures match CategoryIndex(guild, voiceCatName)
              case None => chs == None && voiceCat == old(voiceCat)
              case Some(k) => chs == Some(guild[k].channels) && voiceCat == guild[k].category
    {
      var i := 0;
      while i < |guild|
        invariant 0 <= i <= |guild|
        invariant forall j :: 0 <= j < i ==> !NamedAs(guild[j], voiceCatName)
        invariant voiceCat == old(voiceCat)
      {
        var g := guild[i];
        if NamedAs(g, voiceCatName) {
          voiceCat := g.category;
          return Some(g.channels);
        }
        i := i + 1;
      }
      return None;
    }

    /**
     * The state and reply that `$play` leaves: the category and cache the
     * lookup sets, the reply `Admit` gives and the cache `CacheAfter` gives,
     * with `provision` answering the creation request made in the found
     * category with the global participant limit.
     */
    twostate predicate PlayedAs(ctx: Context, member: Option<MemberId>, limit: int, canCreate: bool,
                                provision: (Category, int) -> Option<VoiceChannel>, reply: Reply)
      reads this
    {
      var requester := Requester(ctx, member);
      match CategoryIndex(ctx.guild, voiceCatName)
      case None =>
        && reply == Admit(None, requester, limit, canCreate, None)
        && voiceChs == None
        && voiceCat == old(voiceCat)
      case Some(k) =>
        var g := ctx.guild[k];
        var created := provision(g.category.value, limit);
        && voiceCat == g.category
        && reply == Admit(Some(g.channels), requester, limit, canCreate, created)
        && voiceChs == CacheAfter(Some(g.channels), requester, limit, canCreate, created)
    }

    /**
     * `$play [member]`: scan the category's channels in order, stop at the
     * first one the requester already sits in, else invite to the first
     * with a free slot, else create one when allowed, else refuse.
     */
    method Play(ctx: Context, member: Option<MemberId>, numParticipants: int, canCreateChannels: bool,
                provision: (Category, int) -> Option<VoiceChannel>) returns (reply: Reply)
      modifies this`voiceCat, this`voiceChs
      ensures PlayedAs(ctx, member, numParticipants, canCreateChannels, provision, reply)
    {
      var requester := Requester(ctx, member);
      var found := GetVoiceChannels(ctx.guild);
      voiceChs := found;
      if found.None? {
        return ConfigError;
      }
      var chs := found.value;
      var available: seq<VoiceChannel> := [];
      ghost var first: nat := 0;
      var i := 0;
      while i < |chs|
        invariant 0 <= i <= |chs|
        invariant forall j :: 0 <= j < i ==> !HasMember(chs[j], requester)
        invariant available == [] <==> forall j :: 0 <= j < i ==> !HasFreeSlot(chs[j], numParticipants)
        invariant available != [] ==>
                    && first < i && available[0] == chs[first] && HasFreeSlot(chs[first], numParticipants)
                    && forall j :: 0 <= j < first ==> !HasFreeSlot(chs[j], numParticipants)
      {
        var ch := chs[i];
        if |ch.members| < numParticipants {
          if available == [] {
            first := i;
          }
          available := available + [ch];
        }
        if requester in ch.members {
          return AlreadyChatting(ch);
        }
        i := i + 1;
      }
      var ch: VoiceChannel;
      if available == [] && canCreateChannels {
        var created := provision(voiceCat.value, numParticipants);
        if created.None? {
          return AllChannelsFull;
        }
        ch := created.value;
        voiceChs := Some(chs + [ch]);
      } else if available != [] {
        ch := available[0];
      } else {
        return AllChannelsFull;
      }
      return Invite(ch);
    }

    /**
     * A `$play` command as the bot dispatches it: the gate runs first, with
     * its own default channel id (the module's CHAT_CHANNEL_ID, not this
     * cog's field), and when it rejects the context nothing is replied and
     * nothing changes.
     */
    method InvokePlay(gateChannelId: Option<int>, ctx: Context, member: Option<MemberId>, numParticipants: int,
                      canCreateChannels: bool, provision: (Category, int) -> Option<VoiceChannel>)
      returns (reply: Option<Reply>)
      modifies this`voiceCat, this`voiceChs
      ensures reply.None? <==> !AreWeAllowedToChat(ctx, gateChannelId)
      ensures reply.None? ==> voiceCat == old(voiceCat) && voiceChs == old(voiceChs)
      ensures reply.Some? ==> PlayedAs(ctx, member, numParticipants, canCreateChannels, provision, reply.value)
    {
      if !AreWeAllowedToChat(ctx, gateChannelId) {
        return None;
      }
      var r := Play(ctx, member, numParticipants, canCreateChannels, provision);
      return Some(r);
    }

    /**
     * One iteration of `resend_help`: announce when enough messages came
     * since the watermark, and return the announcement flag and how long
     * to sleep.
     */
    method ResendHelpStep(t: Tick) returns (announced: bool, delay: int)
      modifies this`lastHelpMsg
      ensures announced <==> |After(t.log, old(lastHelpMsg))| >= helpMsgEvery
      ensures lastHelpMsg == Step(helpMsgEvery, helpMsg, old(lastHelpMsg), t)
      ensures delay == helpMsgEvery
    {
      var messages := After(t.log, lastHelpMsg);
      announced := |messages| >= helpMsgEvery;
      if announced {
        lastHelpMsg := Some(Message(t.sentId, helpMsg));
      }
      delay := helpMsgEvery;
    }

    /** The announcer loop over a finite run of ticks. */
    method ResendHelp(ticks: seq<Tick>)
      modifies this`lastHelpMsg
      ensures lastHelpMsg == Run(helpMsgEvery, helpMsg, old(lastHelpMsg), ticks)
    {
      for i := 0 to |ticks|
        invariant lastHelpMsg == Run(helpMsgEvery, helpMsg, old(lastHelpMsg), ticks[..i])
      {
        RunOneMore(helpMsgEvery, helpMsg, old(lastHelpMsg), ticks[..i], ticks[i]);
        assert ticks[..i + 1] == ticks[..i] + [ticks[i]];
        var announced, delay := ResendHelpStep(ticks[i]);
      }
      assert ticks[..|ticks|] == ticks;
    }
  }
}
