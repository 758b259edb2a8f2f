/**
 * What the bot sees of Discord. The client is not modelled: each operation is
 * given the platform's answers (which guilds the client knows, which channels
 * and messages can be fetched, where a send succeeds) and records the calls it
 * makes that have an effect as `Effect`s.
 */
module Discord {
  import opened Wrappers
  import Probe

  /**
   * A Discord snowflake: an unsigned 64-bit integer, carried as its decimal
   * string. The bot only stores and compares ids, so the number stands for the
   * string; a non-empty id string is truthy, so a stored id is truthy exactly
   * when it is present.
   */
  newtype Snowflake = n: int | 0 <= n < 0x1_0000_0000_0000_0000
  type GuildId = Snowflake
  type ChannelId = Snowflake
  type MessageId = Snowflake

  /** The platform's answers, fixed for the duration of one operation. */
  datatype Platform = Platform(
    guilds: seq<GuildId>,        // client.guilds.cache, in its iteration order
    channels: set<ChannelId>,    // ids that guild.channels.fetch resolves
    messages: set<MessageId>,    // ids that channel.messages.fetch resolves
    writable: set<ChannelId>)    // channels where channel.send succeeds

  /** The messages the bot posts, stripped of their presentation. */
  datatype Message =
    | SetupPrompt(id: MessageId, checkEnabled: bool)
    | ActivationNotice
    | ConfiguredNotice(ip: string, port: int, edition: Probe.Edition)
    | HackAlert(player: string, reason: string)
    | ActionNotice(action: string, colour: int, icon: string, player: string,
                   reason: string, duration: Option<string>)

  /** A platform call that succeeded: a channel created or a message delivered. */
  datatype Effect =
    | ChannelCreated(guild: GuildId, channel: ChannelId)
    | Posted(channel: ChannelId, message: Message)

  /** A send to the guild's stored alert channel reaches it only when the channel can be fetched and written. */
  function NoticeTarget(channel: Option<ChannelId>, p: Platform): (c: Option<ChannelId>)
    ensures c.Some? <==> channel.Some? && channel.value in p.channels && channel.value in p.writable
    ensures c.Some? ==> c == channel
  {
    if channel.Some? && channel.value in p.channels && channel.value in p.writable then channel else None
  }

  /** The one-element effect list of a send that went through, or nothing. */
  function PostedAt(target: Option<ChannelId>, m: Message): (e: seq<Effect>)
    ensures |e| <= 1
    ensures e != [] <==> target.Some?
    ensures target.Some? ==> e == [Posted(target.value, m)]
  {
    if target.Some? then [Posted(target.value, m)] else []
  }
}
