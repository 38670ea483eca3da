/**
 * The AI relay side of the bot: the per-guild channel configuration that
 * `/setup` writes, the test deciding whether a message is answered, and the
 * splitting of a long answer into replies of at most 2000 characters.
 */
module Relay {
  import opened Wrappers
  import opened Text

  /** The longest reply the bot sends in one message. */
  const ReplyLimit: nat := 2000

  /** The configuration key of a guild: its id in decimal (`str(guild_id)`). */
  function GuildKey(guild: int): string {
    IntToString(guild)
  }

  /** The designated channel of a guild, if one is configured. */
  function Lookup(channels: map<string, int>, guild: int): Option<int> {
    var key := GuildKey(guild);
    if key in channels then Some(channels[key]) else None
  }

  /** The configuration after `save_channel_config(guild, channel)`; `None` removes the entry. */
  function Saved(channels: map<string, int>, guild: int, channel: Option<int>): (saved: map<string, int>)
    ensures GuildKey(guild) in saved <==> channel.Some?
    ensures channel.Some? ==> saved[GuildKey(guild)] == channel.value
    ensures forall k :: k != GuildKey(guild) ==> (k in saved <==> k in channels)
    ensures forall k :: k != GuildKey(guild) && k in saved ==> saved[k] == channels[k]
  {
    match channel
    case None => channels - {GuildKey(guild)}
    case Some(c) => channels[GuildKey(guild) := c]
  }

  /**
   * Saving records the new channel (or its absence) for that guild and leaves
   * every other guild's entry as it was.
   */
  lemma SavedLookup(channels: map<string, int>, guild: int, channel: Option<int>, other: int)
    ensures Lookup(Saved(channels, guild, channel), other) == (if other == guild then channel else Lookup(channels, other))
  {
    IntToStringInjective(guild, other);
  }

  /** The stored configuration file, as the bot reads and rewrites it. */
  class ChannelConfig {
    var channels: map<string, int>

    /** A missing or unreadable file reads as a configuration without entries. */
    constructor ()
      ensures channels == map[]
    {
      channels := map[];
    }

    method Save(guild: int, channel: Option<int>)
      modifies this
      ensures channels == Saved(old(channels), guild, channel)
    {
      var key := GuildKey(guild);
      if channel.None? {
        channels := channels - {key};
      } else {
        channels := channels[key := channel.value];
      }
    }
  }

  /**
   * `on_message` answers a message from a person when the guild's configured
   * channel is set (present and non-zero) and is the message's channel, or
   * when the bot is mentioned.
   */
  predicate ShouldRespond(channels: map<string, int>, guild: int, channel: int, mentioned: bool)
    ensures mentioned ==> ShouldRespond(channels, guild, channel, mentioned)
    ensures channel == 0 && !mentioned ==> !ShouldRespond(channels, guild, channel, mentioned)
    ensures Lookup(channels, guild).None? ==> (ShouldRespond(channels, guild, channel, mentioned) <==> mentioned)
  {
    var configured := Lookup(channels, guild);
    (configured.Some? && configured.value != 0 && channel == configured.value) || mentioned
  }

  /**
   * After `/setup` in channel `c` of guild `g`, messages there are answered
   * without a mention, in that channel only; once the entry is removed, the
   * guild's messages are answered only when the bot is mentioned. Other guilds
   * answer as before.
   */
  lemma SetupDecidesResponses(channels: map<string, int>, g: int, c: int, channel: int, other: int, mentioned: bool)
    requires c != 0
    ensures ShouldRespond(Saved(channels, g, Some(c)), g, channel, false) <==> channel == c
    ensures ShouldRespond(Saved(channels, g, None), g, channel, mentioned) <==> mentioned
    ensures other != g ==>
              && ShouldRespond(Saved(channels, g, Some(c)), other, channel, mentioned) == ShouldRespond(channels, other, channel, mentioned)
              && ShouldRespond(Saved(channels, g, None), other, channel, mentioned) == ShouldRespond(channels, other, channel, mentioned)
  {
    SavedLookup(channels, g, Some(c), g);
    SavedLookup(channels, g, None, g);
    SavedLookup(channels, g, Some(c), other);
    SavedLookup(channels, g, None, other);
  }

  /** The text to send: the completion, or "AI Error: ..." when the request failed. */
  function AiReply(completion: Result<string, string>): string {
    match completion
    case Success(content) => content
    case Failure(e) => "AI Error: " + e
  }

  /**
   * The replies `response[i:i+2000]` for `i` in `range(0, len(response), 2000)`:
   * together they are the response, each is 1 to 2000 characters, and all but
   * the last are exactly 2000.
   */
  method ReplyChunks(response: string) returns (chunks: seq<string>)
    ensures Concat(chunks) == response
    ensures forall k :: 0 <= k < |chunks| ==> 0 < |chunks[k]| <= ReplyLimit
    ensures forall k :: 0 <= k < |chunks| - 1 ==> |chunks[k]| == ReplyLimit
    ensures |chunks| == (|response| + ReplyLimit - 1) / ReplyLimit
  {
    chunks := [];
    var i := 0;
    while i < |response|
      invariant i == |chunks| * ReplyLimit
      invariant Concat(chunks) == response[..Min(i, |response|)]
      invariant forall k :: 0 <= k < |chunks| ==> 0 < |chunks[k]| <= ReplyLimit
      invariant i <= |response| ==> forall k :: 0 <= k < |chunks| ==> |chunks[k]| == ReplyLimit
      invariant i > |response| ==> forall k :: 0 <= k < |chunks| - 1 ==> |chunks[k]| == ReplyLimit
      invariant i < |response| + ReplyLimit
    {
      var piece := response[i..Min(i + ReplyLimit, |response|)];
      assert response[..Min(i + ReplyLimit, |response|)] == response[..i] + piece;
      chunks := chunks + [piece];
      i := i + ReplyLimit;
    }
    assert response[..Min(i, |response|)] == response;
  }

  /**
   * `on_message`: messages from bots are dropped; otherwise, when the message is
   * to be answered, the completion for it is sent back in chunks, and the
   * message is then passed on to command processing.
   */
  method OnMessage(channels: map<string, int>, fromBot: bool, guild: int, channel: int, mentioned: bool,
                   completion: Result<string, string>)
    returns (replies: seq<string>, processCommands: bool)
    ensures processCommands == !fromBot
    ensures fromBot || !ShouldRespond(channels, guild, channel, mentioned) ==> replies == []
    ensures !fromBot && ShouldRespond(channels, guild, channel, mentioned) ==>
              && Concat(replies) == AiReply(completion)
              && |replies| == (|AiReply(completion)| + ReplyLimit - 1) / ReplyLimit
              && (forall k :: 0 <= k < |replies| - 1 ==> |replies[k]| == ReplyLimit)
    ensures forall k :: 0 <= k < |replies| ==> 0 < |replies[k]| <= ReplyLimit
  {
    if fromBot {
      return [], false;
    }
    replies := [];
    if ShouldRespond(channels, guild, channel, mentioned) {
      replies := ReplyChunks(AiReply(completion));
    }
    processCommands := true;
  }
}
