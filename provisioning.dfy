/**
 * createAlertChannel on one guild's record: keep a channel that still exists,
 * forget a stale one, create a new one otherwise.
 */
module Provisioning {
  import opened Wrappers
  import opened Discord
  import opened ServersConfig

  /** The alert channel forgotten, and with it the setup message, which lives in that channel. */
  function ForgetChannel(r: GuildRecord): (r': GuildRecord)
    ensures r'.alertChannelId.None? && r'.setupMessageId.None?
    ensures r'.mcServerIp == r.mcServerIp && r'.mcServerPort == r.mcServerPort && r'.isSetup == r.isSetup
  {
    r.(alertChannelId := None, setupMessageId := None)
  }

  /** The stored alert channel can still be fetched. */
  predicate ChannelAlive(r: GuildRecord, channels: set<ChannelId>)
  {
    r.alertChannelId.Some? && r.alertChannelId.value in channels
  }

  /** The record afterwards, the channel returned (None for null) and whether a channel was created. */
  datatype Provisioned = Provisioned(record: GuildRecord, channel: Option<ChannelId>, created: bool)

  /**
   * createAlertChannel given the channels that can be fetched and the outcome
   * of the creation call (the new channel's id, or None when it throws).
   */
  function Provision(r: GuildRecord, channels: set<ChannelId>, creation: Option<ChannelId>): (o: Provisioned)
    // a live channel is returned as it is, nothing created, nothing changed
    ensures ChannelAlive(r, channels) ==> o == Provisioned(r, r.alertChannelId, false)
    // otherwise exactly the creation's outcome is returned
    ensures !ChannelAlive(r, channels) ==> o.created == creation.Some? && o.channel == creation
    // a stale id is replaced by the creation's outcome, and the prompt posted in it is forgotten
    ensures !ChannelAlive(r, channels) ==> o.record.alertChannelId == creation
    ensures r.alertChannelId.Some? && !ChannelAlive(r, channels) ==> o.record.setupMessageId.None?
    // the record names the channel returned, and a new channel has no prompt yet
    ensures o.channel.Some? ==> o.record.alertChannelId == o.channel
    ensures o.created ==> o.record.setupMessageId.None?
    // the server part of the record is never touched
    ensures o.record.mcServerIp == r.mcServerIp && o.record.mcServerPort == r.mcServerPort
    ensures o.record.isSetup == r.isSetup
    ensures r.alertChannelId.None? && creation.None? ==> o.record == r
  {
    if ChannelAlive(r, channels) then Provisioned(r, r.alertChannelId, false)
    else
      var cleared := if r.alertChannelId.Some? then ForgetChannel(r) else r;
      match creation
      case Some(c) => Provisioned(cleared.(alertChannelId := Some(c), setupMessageId := None), creation, true)
      case None => Provisioned(cleared, None, false)
  }

  /** Once a channel is provisioned and can be fetched, provisioning again creates nothing and changes nothing. */
  lemma ProvisionIdempotent(r: GuildRecord, channels: set<ChannelId>, creation: Option<ChannelId>,
                            later: set<ChannelId>, laterCreation: Option<ChannelId>)
    requires Provision(r, channels, creation).channel.Some?
    requires Provision(r, channels, creation).channel.value in later
    ensures var o := Provision(r, channels, creation);
            Provision(o.record, later, laterCreation) == Provisioned(o.record, o.channel, false)
  {
  }
}
