/**
 * channelDelete: every guild whose alert channel was the deleted one forgets
 * it and, when the client knows the guild, gets a new channel and a new prompt.
 */
module Recovery {
  import opened Wrappers
  import opened Discord
  import opened ServersConfig
  import opened Provisioning
  import opened SetupWorkflow

  /** The record afterwards and the platform calls made for it. */
  datatype Recovered = Recovered(record: GuildRecord, effects: seq<Effect>)

  /**
   * channelDelete on one guild's record, given the outcome of creating its new
   * channel and of sending the prompt there.
   */
  function Recover(g: GuildId, r: GuildRecord, deleted: ChannelId, p: Platform,
                   creation: Option<ChannelId>, sent: Option<MessageId>): (o: Recovered)
    // a guild using another channel is untouched
    ensures r.alertChannelId != Some(deleted) ==> o == Recovered(r, [])
    // the deleted channel is forgotten; a known guild gets the new channel, if creating it worked
    ensures r.alertChannelId == Some(deleted) ==>
              o.record.alertChannelId == (if g in p.guilds then creation else None)
    ensures r.alertChannelId == Some(deleted) ==>
              o.record.setupMessageId == (if g in p.guilds && creation.Some? then sent else None)
    // the prompt is sent in the new channel although sendSetupForm is not forced
    ensures r.alertChannelId == Some(deleted) && g in p.guilds && creation.Some? ==>
              o.effects == [ChannelCreated(g, creation.value)] +
                           PostedAt(if sent.Some? then creation else None, SetupPrompt(sent.GetOr(creation.value), HasEndpoint(r)))
    ensures r.alertChannelId == Some(deleted) && (g !in p.guilds || creation.None?) ==> o.effects == []
    // the server part of the record is never touched
    ensures o.record.mcServerIp == r.mcServerIp && o.record.mcServerPort == r.mcServerPort
    ensures o.record.isSetup == r.isSetup
  {
    if r.alertChannelId != Some(deleted) then Recovered(r, [])
    else
      var cleared := ForgetChannel(r);
      if g !in p.guilds then Recovered(cleared, [])
      else
        var prov := Provision(cleared, p.channels, creation);
        match prov.channel
        case None => Recovered(prov.record, [])
        case Some(c) =>
          var pr := Prompt(prov.record, false, p.messages, sent);
          Recovered(pr.record, [ChannelCreated(g, c)] + (if pr.posted.Some? then [Posted(c, pr.posted.value)] else []))
  }

  /** Recover for guild g of the store m, with its outcomes looked up by guild (absent: the call failed). */
  function RecoverGuild(m: map<GuildId, GuildRecord>, g: GuildId, deleted: ChannelId, p: Platform,
                        created: map<GuildId, ChannelId>, sent: map<GuildId, MessageId>): Recovered
  {
    Recover(g, Lookup(m, g), deleted, p, Get(created, g), Get(sent, g))
  }

  /** The records and the platform calls after channelDelete has visited some guilds. */
  datatype Sweep = Sweep(records: map<GuildId, GuildRecord>, effects: seq<Effect>)

  /** channelDelete's loop over the first k keys of ks, each guild recovered from its current record. */
  function SweepKeys(m: map<GuildId, GuildRecord>, ks: seq<GuildId>, k: nat, deleted: ChannelId, p: Platform,
                     created: map<GuildId, ChannelId>, sent: map<GuildId, MessageId>): Sweep
    requires k <= |ks|
  {
    if k == 0 then Sweep(m, [])
    else
      var prev := SweepKeys(m, ks, k - 1, deleted, p, created, sent);
      var g := ks[k - 1];
      if g !in prev.records then prev
      else
        var o := Recover(g, prev.records[g], deleted, p, Get(created, g), Get(sent, g));
        Sweep(prev.records[g := o.record], prev.effects + o.effects)
  }

  /** The loop replaces records and never adds or removes a guild. */
  lemma {:induction false} SweepSameGuilds(m: map<GuildId, GuildRecord>, ks: seq<GuildId>, k: nat, deleted: ChannelId,
                                           p: Platform, created: map<GuildId, ChannelId>, sent: map<GuildId, MessageId>)
    requires k <= |ks|
    ensures SweepKeys(m, ks, k, deleted, p, created, sent).records.Keys == m.Keys
  {
    if k != 0 {
      SweepSameGuilds(m, ks, k - 1, deleted, p, created, sent);
    }
  }

  /**
   * Over keys listed once each, the loop gives every visited guild the record
   * Recover makes from its original one, and leaves the others alone.
   */
  lemma {:induction false} SweepPointwise(m: map<GuildId, GuildRecord>, ks: seq<GuildId>, k: nat, deleted: ChannelId,
                                          p: Platform, created: map<GuildId, ChannelId>, sent: map<GuildId, MessageId>)
    requires k <= |ks|
    requires forall i, j :: 0 <= i < j < |ks| ==> ks[i] != ks[j]
    ensures SweepKeys(m, ks, k, deleted, p, created, sent).records.Keys == m.Keys
    ensures forall g :: g in m ==>
              SweepKeys(m, ks, k, deleted, p, created, sent).records[g] ==
                if g in ks[..k] then RecoverGuild(m, g, deleted, p, created, sent).record else m[g]
  {
    SweepSameGuilds(m, ks, k, deleted, p, created, sent);
    if k != 0 {
      SweepPointwise(m, ks, k - 1, deleted, p, created, sent);
      var last := ks[k - 1];
      var before := ks[..k - 1];
      assert ks[..k] == before + [last];
      assert last !in before by {
        forall i | 0 <= i < |before|
          ensures before[i] != last
        {
          assert before[i] == ks[i];
        }
      }
    }
  }

  /** On a well-formed store, channelDelete recovers every stored guild from its original record. */
  lemma SweepRecoversEach(m: map<GuildId, GuildRecord>, order: seq<GuildId>, deleted: ChannelId, p: Platform,
                          created: map<GuildId, ChannelId>, sent: map<GuildId, MessageId>)
    requires Listed(m, order)
    ensures SweepKeys(m, order, |order|, deleted, p, created, sent).records.Keys == m.Keys
    ensures forall g :: g in m ==>
              SweepKeys(m, order, |order|, deleted, p, created, sent).records[g] ==
                RecoverGuild(m, g, deleted, p, created, sent).record
  {
    ListedShape(m, order);
    SweepPointwise(m, order, |order|, deleted, p, created, sent);
    assert order[..|order|] == order;
  }

  /**
   * Each guild visited adds at most two calls, a channel creation and a prompt,
   * and a channel is created only for a visited guild the client knows.
   */
  lemma {:induction false} RecoveryCreatesOnePerGuild(m: map<GuildId, GuildRecord>, ks: seq<GuildId>, k: nat,
                                                      deleted: ChannelId, p: Platform,
                                                      created: map<GuildId, ChannelId>, sent: map<GuildId, MessageId>)
    requires k <= |ks|
    ensures |SweepKeys(m, ks, k, deleted, p, created, sent).effects| <= 2 * k
    ensures forall e :: e in SweepKeys(m, ks, k, deleted, p, created, sent).effects && e.ChannelCreated? ==>
              e.guild in ks[..k] && e.guild in p.guilds
  {
    if k != 0 {
      RecoveryCreatesOnePerGuild(m, ks, k - 1, deleted, p, created, sent);
      assert ks[..k] == ks[..k - 1] + [ks[k - 1]];
    }
  }

  /**
   * Recover creates at most one channel, as its first call, for its own guild
   * and only when the record held the deleted channel.
   */
  lemma RecoverCreatesFirst(g: GuildId, r: GuildRecord, deleted: ChannelId, p: Platform,
                            creation: Option<ChannelId>, sent: Option<MessageId>)
    ensures var o := Recover(g, r, deleted, p, creation, sent);
            forall e :: e in o.effects && e.ChannelCreated? ==> e.guild == g && r.alertChannelId == Some(deleted)
    ensures var o := Recover(g, r, deleted, p, creation, sent);
            forall i :: 0 < i < |o.effects| ==> !o.effects[i].ChannelCreated?
  {
  }

  /** Over keys listed once each, a channel is created only for a guild whose original record held the deleted channel. */
  lemma {:induction false} RecoveryCreatesOnlyForDeleted(m: map<GuildId, GuildRecord>, ks: seq<GuildId>, k: nat,
                                                         deleted: ChannelId, p: Platform,
                                                         created: map<GuildId, ChannelId>, sent: map<GuildId, MessageId>)
    requires k <= |ks|
    requires forall i, j :: 0 <= i < j < |ks| ==> ks[i] != ks[j]
    ensures var effects := SweepKeys(m, ks, k, deleted, p, created, sent).effects;
            forall e :: e in effects && e.ChannelCreated? ==> Lookup(m, e.guild).alertChannelId == Some(deleted)
  {
    if k != 0 {
      RecoveryCreatesOnlyForDeleted(m, ks, k - 1, deleted, p, created, sent);
      SweepPointwise(m, ks, k - 1, deleted, p, created, sent);
      var prev := SweepKeys(m, ks, k - 1, deleted, p, created, sent);
      var g := ks[k - 1];
      var before := ks[..k - 1];
      assert g !in before by {
        forall i | 0 <= i < |before|
          ensures before[i] != g
        {
          assert before[i] == ks[i];
        }
      }
      if g in prev.records {
        assert prev.records[g] == m[g];
        RecoverCreatesFirst(g, m[g], deleted, p, Get(created, g), Get(sent, g));
      }
    }
  }

  /** Over keys listed once each, no two channel creations are for the same guild. */
  lemma {:induction false} RecoveryCreationsDistinct(m: map<GuildId, GuildRecord>, ks: seq<GuildId>, k: nat,
                                                     deleted: ChannelId, p: Platform,
                                                     created: map<GuildId, ChannelId>, sent: map<GuildId, MessageId>)
    requires k <= |ks|
    requires forall i, j :: 0 <= i < j < |ks| ==> ks[i] != ks[j]
    ensures var effects := SweepKeys(m, ks, k, deleted, p, created, sent).effects;
            forall i, j :: 0 <= i < j < |effects| && effects[i].ChannelCreated? && effects[j].ChannelCreated? ==>
              effects[i].guild != effects[j].guild
  {
    if k != 0 {
      RecoveryCreationsDistinct(m, ks, k - 1, deleted, p, created, sent);
      RecoveryCreatesOnePerGuild(m, ks, k - 1, deleted, p, created, sent);
      var prev := SweepKeys(m, ks, k - 1, deleted, p, created, sent);
      var g := ks[k - 1];
      var before := ks[..k - 1];
      assert g !in before by {
        forall i | 0 <= i < |before|
          ensures before[i] != g
        {
          assert before[i] == ks[i];
        }
      }
      if g in prev.records {
        var o := Recover(g, prev.records[g], deleted, p, Get(created, g), Get(sent, g));
        RecoverCreatesFirst(g, prev.records[g], deleted, p, Get(created, g), Get(sent, g));
        var effects := prev.effects + o.effects;
        var n := |prev.effects|;
        assert forall i :: n <= i < |effects| ==> effects[i] == o.effects[i - n];
        forall i, j | 0 <= i < j < |effects| && effects[i].ChannelCreated? && effects[j].ChannelCreated?
          ensures effects[i].guild != effects[j].guild
        {
          if j < n {
            assert effects[i] == prev.effects[i] && effects[j] == prev.effects[j];
          } else if i < n {
            assert effects[i] in prev.effects && effects[j] in o.effects;
          }
        }
      }
    }
  }

  /** Unless the platform handed out the deleted id again, no record refers to the deleted channel afterwards. */
  lemma DeletedChannelForgotten(m: map<GuildId, GuildRecord>, g: GuildId, deleted: ChannelId, p: Platform,
                                created: map<GuildId, ChannelId>, sent: map<GuildId, MessageId>)
    requires deleted !in created.Values
    ensures RecoverGuild(m, g, deleted, p, created, sent).record.alertChannelId != Some(deleted)
  {
    if g in created {
      assert created[g] in created.Values;
    }
  }
}
