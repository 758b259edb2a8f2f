/**
 * The bot's mutable state and the handlers that change it: serversConfig
 * (records and key order), the console's active guild, and the platform calls
 * that took effect, in order.
 */
module VexBot {
  import opened Wrappers
  import opened Probe
  import opened JsText
  import opened Discord
  import opened ServersConfig
  import opened Provisioning
  import opened SetupWorkflow
  import opened Recovery
  import opened Dispatch
  import opened Console

  datatype ResetResult = NoActiveGuild | WasReset(guild: GuildId)

  class Bot {
    var servers: map<GuildId, GuildRecord>
    var order: seq<GuildId>
    var activeGuild: Option<GuildId>
    var effects: seq<Effect>

    /** serversConfig as a value. */
    function Snapshot(): Store
      reads this
    {
      Store(servers, order)
    }

    ghost predicate Valid()
      reads this
    {
      ServersConfig.Valid(Snapshot())
    }

    /** Start-up state: no guild records, no active guild, nothing sent. */
    constructor ()
      ensures Valid()
      ensures servers == map[] && order == [] && activeGuild.None? && effects == []
    {
      servers := map[];
      order := [];
      activeGuild := None;
      effects := [];
    }

    /** getServerConfig: the guild's record, created with defaults on first access. */
    method GetServerConfig(g: GuildId) returns (r: GuildRecord)
      requires Valid()
      modifies this`servers, this`order
      ensures Valid()
      ensures Snapshot() == Touch(old(Snapshot()), g)
      ensures r == Lookup(old(servers), g) && servers == old(servers)[g := r]
      ensures Consistent(r)
    {
      TouchValid(Snapshot(), g);
      if g !in servers {
        servers := servers[g := DefaultRecord];
        order := order + [g];
      }
      r := servers[g];
      ListedConsistent(servers, order, g);
    }

    /**
     * Replace g's record; the write-back every handler makes before saving
     * serversConfig.
     */
    method Save(g: GuildId, r: GuildRecord, ghost base: map<GuildId, GuildRecord>)
      requires Valid() && g in servers && Consistent(r)
      requires servers == base[g := servers[g]]
      modifies this`servers
      ensures Valid()
      ensures servers == base[g := r]
    {
      ListedPut(servers, order, g, r);
      servers := servers[g := r];
    }

    /** createAlertChannel: reuse a live channel, forget a stale one, create one otherwise. */
    method CreateAlertChannel(g: GuildId, p: Platform, creation: Option<ChannelId>) returns (channel: Option<ChannelId>)
      requires Valid()
      modifies this`servers, this`order, this`effects
      ensures Valid()
      ensures var o := Provision(Lookup(old(servers), g), p.channels, creation);
              && channel == o.channel
              && servers == old(servers)[g := o.record] && order == Touch(old(Snapshot()), g).order
              && effects == old(effects) + (if o.created then [ChannelCreated(g, o.channel.value)] else [])
    {
      var conf := GetServerConfig(g);
      if conf.alertChannelId.Some? {
        if conf.alertChannelId.value in p.channels {
          return conf.alertChannelId;
        }
        conf := ForgetChannel(conf);
        Save(g, conf, old(servers));
      }
      match creation {
        case Some(c) =>
          conf := conf.(alertChannelId := Some(c), setupMessageId := None);
          Save(g, conf, old(servers));
          effects := effects + [ChannelCreated(g, c)];
          channel := Some(c);
        case None =>
          channel := None;
      }
    }

    /** sendSetupForm: post the setup prompt in channel unless a fetchable one exists and force is off. */
    method SendSetupForm(g: GuildId, channel: ChannelId, force: bool, p: Platform, sent: Option<MessageId>)
      returns (msg: Option<MessageId>)
      requires Valid()
      modifies this`servers, this`order, this`effects
      ensures Valid()
      ensures var o := Prompt(Lookup(old(servers), g), force, p.messages, sent);
              && msg == o.message
              && servers == old(servers)[g := o.record] && order == Touch(old(Snapshot()), g).order
              && effects == old(effects) + (if o.posted.Some? then [Posted(channel, o.posted.value)] else [])
    {
      var conf := GetServerConfig(g);
      if conf.setupMessageId.Some? && !force {
        if conf.setupMessageId.value in p.messages {
          return conf.setupMessageId;
        }
        conf := conf.(setupMessageId := None);
        Save(g, conf, old(servers));
      }
      var checkEnabled := HasEndpoint(conf);
      match sent {
        case Some(m) =>
          conf := conf.(setupMessageId := Some(m));
          Save(g, conf, old(servers));
          effects := effects + [Posted(channel, SetupPrompt(m, checkEnabled))];
          msg := sent;
        case None =>
          msg := None;
      }
    }

    /** sendHackAlert: true exactly when the alert reached the guild's alert channel. */
    method SendHackAlert(g: GuildId, player: string, reason: string, p: Platform) returns (ok: bool)
      requires Valid()
      modifies this`servers, this`order, this`effects
      ensures Valid()
      ensures Snapshot() == Touch(old(Snapshot()), g)
      ensures var target := AlertTarget(g, Lookup(old(servers), g), p);
              ok == target.Some? && effects == old(effects) + PostedAt(target, HackAlert(player, reason))
    {
      var conf := GetServerConfig(g);
      if !conf.isSetup || conf.alertChannelId.None? {
        return false;
      }
      if g !in p.guilds {
        return false;
      }
      var c := conf.alertChannelId.value;
      if c !in p.channels {
        return false;
      }
      if c !in p.writable {
        return false;
      }
      effects := effects + [Posted(c, HackAlert(player, reason))];
      ok := true;
    }

    /** sendActionNotification: as sendHackAlert, with the action's colour and icon. */
    method SendActionNotification(g: GuildId, action: string, player: string, reason: string,
                                  duration: Option<string>, p: Platform) returns (ok: bool)
      requires Valid()
      modifies this`servers, this`order, this`effects
      ensures Valid()
      ensures Snapshot() == Touch(old(Snapshot()), g)
      ensures var target := AlertTarget(g, Lookup(old(servers), g), p);
              ok == target.Some? && effects == old(effects) + PostedAt(target, ActionMessage(action, player, reason, duration))
    {
      var conf := GetServerConfig(g);
      if !conf.isSetup || conf.alertChannelId.None? {
        return false;
      }
      if g !in p.guilds {
        return false;
      }
      var c := conf.alertChannelId.value;
      if c !in p.channels {
        return false;
      }
      var style := ActionStyle(action);
      var notice := ActionNotice(action, style.0, style.1, player, ReasonText(reason), DurationField(duration));
      if c !in p.writable {
        return false;
      }
      effects := effects + [Posted(c, notice)];
      ok := true;
    }

    /** The check_mc_status button of guild g, given what the status queries answer for its stored address. */
    method CheckMcStatus(g: GuildId, answers: ProbeAnswers, p: Platform) returns (reply: CheckReply)
      requires Valid()
      modifies this`servers, this`order, this`effects
      ensures Valid()
      ensures var o := CheckStatus(Lookup(old(servers), g), CheckMinecraftServer(answers), p);
              && reply == o.reply
              && servers == old(servers)[g := o.record] && order == Touch(old(Snapshot()), g).order
              && effects == old(effects) + o.posted
    {
      var conf := GetServerConfig(g);
      if !HasEndpoint(conf) {
        return NeedsEndpoint;
      }
      var status := CheckMinecraftServer(answers);
      if status.Online? {
        if !conf.isSetup {
          conf := conf.(isSetup := true);
          Save(g, conf, old(servers));
          var c := conf.alertChannelId;
          if c.Some? && c.value in p.channels && c.value in p.writable {
            effects := effects + [Posted(c.value, ActivationNotice)];
          }
        }
        reply := ReportOnline(status);
      } else {
        reply := ReportOffline;
      }
    }

    /** The mc_server_modal submission of guild g, given what the status queries answer for the typed address. */
    method SubmitServerModal(g: GuildId, ipText: string, portText: string, answers: ProbeAnswers, p: Platform)
      returns (reply: SubmitReply)
      requires Valid()
      modifies this`servers, this`order, this`effects
      ensures Valid()
      ensures var o := Submit(Lookup(old(servers), g), Trim(ipText), PortOrDefault(portText),
                              CheckMinecraftServer(answers), p);
              && reply == o.reply
              && servers == old(servers)[g := o.record] && order == Touch(old(Snapshot()), g).order
              && effects == old(effects) + o.posted
    {
      var ip := Trim(ipText);
      var port := PortOrDefault(portText);
      var status := CheckMinecraftServer(answers);
      reply := StoreServer(g, ip, port, status, p);
    }

    /** The second half of the mc_server_modal handler: store the address and report the probe's verdict. */
    method StoreServer(g: GuildId, ip: string, port: int, status: ServerStatus, p: Platform) returns (reply: SubmitReply)
      requires Valid()
      modifies this`servers, this`order, this`effects
      ensures Valid()
      ensures var o := Submit(Lookup(old(servers), g), ip, port, status, p);
              && reply == o.reply
              && servers == old(servers)[g := o.record] && order == Touch(old(Snapshot()), g).order
              && effects == old(effects) + o.posted
    {
      ghost var o := Submit(Lookup(old(servers), g), ip, port, status, p);
      var conf := GetServerConfig(g);
      if status.Online? {
        conf := conf.(mcServerIp := Some(ip), mcServerPort := port, isSetup := true);
        assert conf == o.record;
        Save(g, conf, old(servers));
        reply := Configured(ip, port, status);
        var c := conf.alertChannelId;
        assert o.posted == PostedAt(NoticeTarget(c, p), ConfiguredNotice(ip, port, status.edition));
        if c.Some? && c.value in p.channels && c.value in p.writable {
          effects := effects + [Posted(c.value, ConfiguredNotice(ip, port, status.edition))];
        }
      } else {
        conf := conf.(mcServerIp := Some(ip), mcServerPort := port, isSetup := false);
        assert conf == o.record && o.posted == [];
        Save(g, conf, old(servers));
        reply := SavedOffline(ip, port);
      }
    }

    /** The body of the channelDelete loop for the stored guild g. */
    method RecoverOne(g: GuildId, deleted: ChannelId, p: Platform, creation: Option<ChannelId>,
                      sent: Option<MessageId>)
      requires Valid() && g in servers
      modifies this`servers, this`order, this`effects
      ensures Valid() && order == old(order)
      ensures var o := Recover(g, old(servers)[g], deleted, p, creation, sent);
              servers == old(servers)[g := o.record] && effects == old(effects) + o.effects
    {
      var conf := servers[g];
      ListedConsistent(servers, order, g);
      if conf.alertChannelId == Some(deleted) {
        var cleared := ForgetChannel(conf);
        Save(g, cleared, old(servers));
        if g in p.guilds {
          ghost var prov := Provision(cleared, p.channels, creation);
          var channel := CreateAlertChannel(g, p, creation);
          assert old(servers)[g := cleared][g := prov.record] == old(servers)[g := prov.record];
          if channel.Some? {
            ghost var pr := Prompt(prov.record, false, p.messages, sent);
            assert prov.created && prov.channel == channel;
            ghost var created := effects;
            var _ := SendSetupForm(g, channel.value, false, p, sent);
            assert old(servers)[g := prov.record][g := pr.record] == old(servers)[g := pr.record];
            ghost var prompt := if pr.posted.Some? then [Posted(channel.value, pr.posted.value)] else [];
            assert effects == created + prompt;
            assert created == old(effects) + [ChannelCreated(g, channel.value)];
            assert effects == old(effects) + ([ChannelCreated(g, channel.value)] + prompt);
            assert Recover(g, conf, deleted, p, creation, sent) == Recovered(pr.record, [ChannelCreated(g, channel.value)] + prompt);
          } else {
            assert Recover(g, conf, deleted, p, creation, sent) == Recovered(prov.record, []);
          }
        }
      }
    }

    /**
     * channelDelete: each guild whose alert channel was deleted forgets it and,
     * when the client knows the guild, gets a new channel and a new prompt.
     * created and sent give the outcome of those calls per guild (absent: the call threw).
     */
    method ChannelDelete(deleted: ChannelId, p: Platform, created: map<GuildId, ChannelId>,
                         sent: map<GuildId, MessageId>)
      requires Valid()
      modifies this`servers, this`order, this`effects
      ensures Valid()
      ensures order == old(order) && servers.Keys == old(servers).Keys
      ensures var sweep := SweepKeys(old(servers), old(order), |old(order)|, deleted, p, created, sent);
              servers == sweep.records && effects == old(effects) + sweep.effects
      ensures forall g :: g in servers ==> servers[g] == RecoverGuild(old(servers), g, deleted, p, created, sent).record
    {
      ghost var m, log := servers, effects;
      var i := 0;
      while i < |order|
        invariant 0 <= i <= |order|
        invariant Valid() && order == old(order)
        invariant servers == SweepKeys(m, order, i, deleted, p, created, sent).records
        invariant effects == log + SweepKeys(m, order, i, deleted, p, created, sent).effects
      {
        RecoverAt(i, deleted, p, created, sent, m, log);
        i := i + 1;
      }
      SweepRecoversEach(m, order, deleted, p, created, sent);
    }

    /**
     * One guild of the channelDelete loop, the i-th in key order, from the
     * state after the first i: the store and log reach the sweep of the first i + 1.
     */
    method RecoverAt(i: nat, deleted: ChannelId, p: Platform, created: map<GuildId, ChannelId>,
                     sent: map<GuildId, MessageId>, ghost m: map<GuildId, GuildRecord>, ghost log: seq<Effect>)
      requires Valid() && i < |order|
      requires servers == SweepKeys(m, order, i, deleted, p, created, sent).records
      requires effects == log + SweepKeys(m, order, i, deleted, p, created, sent).effects
      modifies this`servers, this`order, this`effects
      ensures Valid() && order == old(order)
      ensures servers == SweepKeys(m, order, i + 1, deleted, p, created, sent).records
      ensures effects == log + SweepKeys(m, order, i + 1, deleted, p, created, sent).effects
    {
      var g := order[i];
      ghost var before := SweepKeys(m, order, i, deleted, p, created, sent);
      ListedAt(servers, order, i);
      RecoverOne(g, deleted, p, Get(created, g), Get(sent, g));
      ghost var step := Recover(g, before.records[g], deleted, p, Get(created, g), Get(sent, g));
      assert (log + before.effects) + step.effects == log + (before.effects + step.effects);
      assert SweepKeys(m, order, i + 1, deleted, p, created, sent)
          == Sweep(before.records[g := step.record], before.effects + step.effects);
    }

    /** The console resetsetup on the active guild. */
    method ResetSetup() returns (result: ResetResult)
      requires Valid()
      modifies this`servers, this`order
      ensures Valid()
      ensures activeGuild.None? ==> result == NoActiveGuild && Snapshot() == old(Snapshot())
      ensures activeGuild.Some? ==>
                var g := activeGuild.value;
                && result == WasReset(g) && servers == old(servers)[g := Reset(Lookup(old(servers), g))]
                && order == Touch(old(Snapshot()), g).order
    {
      if activeGuild.None? {
        return NoActiveGuild;
      }
      var g := activeGuild.value;
      var conf := GetServerConfig(g);
      conf := conf.(isSetup := false, mcServerIp := None, mcServerPort := DefaultPort, setupMessageId := None);
      Save(g, conf, old(servers));
      result := WasReset(g);
    }

    /**
     * One guild of the alertall loop: getServerConfig, then the alert if the
     * guild is set up. Stated for the i-th guild of gs, from the state after
     * the first i: the store then reflects the first i + 1 accesses and the
     * alerts and count those of the first i + 1 guilds.
     */
    method AlertGuild(gs: seq<GuildId>, i: nat, player: string, reason: string, p: Platform,
                      ghost start: Store, ghost log: seq<Effect>, sentBefore: nat) returns (sent: nat)
      requires i < |gs| && Valid()
      requires Snapshot() == TouchAll(start, gs, i)
      requires sentBefore == Delivered(start.records, gs, i, p)
      requires effects == log + AlertEffects(start.records, gs, i, p, player, reason)
      modifies this`servers, this`order, this`effects
      ensures Valid()
      ensures Snapshot() == TouchAll(start, gs, i + 1)
      ensures sent == Delivered(start.records, gs, i + 1, p)
      ensures effects == log + AlertEffects(start.records, gs, i + 1, p, player, reason)
    {
      var g := gs[i];
      ghost var target := AlertTarget(g, Lookup(start.records, g), p);
      ghost var sentSoFar := effects;
      TouchAllLookup(start, gs, i, g);
      var conf := GetServerConfig(g);
      var ok := false;
      if conf.isSetup {
        ok := SendHackAlert(g, player, reason, p);
      }
      assert ok == target.Some?;
      assert effects == sentSoFar + PostedAt(target, HackAlert(player, reason));
      ghost var alerted := AlertEffects(start.records, gs, i, p, player, reason);
      ghost var post := PostedAt(target, HackAlert(player, reason));
      assert (log + alerted) + post == log + (alerted + post);
      sent := if ok then sentBefore + 1 else sentBefore;
    }

    /** The console alertall: the alert to every guild the client knows that is set up; the count delivered. */
    method AlertAll(args: seq<string>, p: Platform) returns (count: Option<nat>)
      requires Valid()
      modifies this`servers, this`order, this`effects
      ensures Valid()
      ensures |args| < 2 ==> count.None? && Snapshot() == old(Snapshot()) && effects == old(effects)
      ensures |args| >= 2 ==>
                && count == Some(Delivered(old(servers), p.guilds, |p.guilds|, p))
                && Snapshot() == TouchAll(old(Snapshot()), p.guilds, |p.guilds|)
                && effects == old(effects) + AlertEffects(old(servers), p.guilds, |p.guilds|, p, args[0], Join(args[1..]))
      ensures count.Some? ==> count.value <= SetupCount(old(servers), p.guilds, |p.guilds|)
    {
      if |args| < 2 {
        return None;
      }
      var player, reason := args[0], Join(args[1..]);
      var n := Broadcast(player, reason, p);
      DeliveredAtMostSetup(old(servers), p.guilds, |p.guilds|, p, player, reason);
      count := Some(n);
    }

    /** The alertall loop over the guilds the client knows, counting the alerts delivered. */
    method Broadcast(player: string, reason: string, p: Platform) returns (n: nat)
      requires Valid()
      modifies this`servers, this`order, this`effects
      ensures Valid()
      ensures n == Delivered(old(servers), p.guilds, |p.guilds|, p)
      ensures Snapshot() == TouchAll(old(Snapshot()), p.guilds, |p.guilds|)
      ensures effects == old(effects) + AlertEffects(old(servers), p.guilds, |p.guilds|, p, player, reason)
    {
      ghost var start, log := Snapshot(), effects;
      n := 0;
      var i := 0;
      while i < |p.guilds|
        invariant 0 <= i <= |p.guilds|
        invariant Valid()
        invariant Snapshot() == TouchAll(start, p.guilds, i)
        invariant n == Delivered(start.records, p.guilds, i, p)
        invariant effects == log + AlertEffects(start.records, p.guilds, i, p, player, reason)
      {
        n := AlertGuild(p.guilds, i, player, reason, p, start, log, n);
        i := i + 1;
      }
    }

    /** The console use <n>: select the n-th guild the client knows. */
    method Use(arg: string, p: Platform) returns (result: UseResult)
      requires Valid()
      modifies this`activeGuild, this`servers, this`order
      ensures Valid()
      ensures result == UseCommand(arg, |p.guilds|)
      ensures result.Select? ==>
                activeGuild == Some(p.guilds[result.index]) && Snapshot() == Touch(old(Snapshot()), p.guilds[result.index])
      ensures !result.Select? ==> activeGuild == old(activeGuild) && Snapshot() == old(Snapshot())
    {
      if arg == "" {
        return Usage;
      }
      var num := ParseInt(arg);
      if num.None? || num.value < 1 || num.value > |p.guilds| {
        return Invalid;
      }
      var g := p.guilds[num.value - 1];
      activeGuild := Some(g);
      var _ := GetServerConfig(g);
      result := Select(num.value - 1);
    }
  }
}
