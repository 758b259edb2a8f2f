/**
 * The setup workflow on one guild's record: the deduplicated setup prompt,
 * the check-status button, the server modal and the console reset.
 */
module SetupWorkflow {
  import opened Wrappers
  import opened Probe
  import opened Discord
  import opened ServersConfig

  /** The record afterwards, the message returned (None for null) and the prompt posted, if any. */
  datatype Prompted = Prompted(record: GuildRecord, message: Option<MessageId>, posted: Option<Message>)

  /** sendSetupForm's dedup test: not forced, and the stored prompt can still be fetched. */
  predicate PromptAlive(r: GuildRecord, force: bool, messages: set<MessageId>)
  {
    !force && r.setupMessageId.Some? && r.setupMessageId.value in messages
  }

  /**
   * sendSetupForm given the messages that can be fetched and the outcome of
   * the send (the new message's id, or None when it throws).
   */
  function Prompt(r: GuildRecord, force: bool, messages: set<MessageId>, sent: Option<MessageId>): (o: Prompted)
    // a live prompt is returned and nothing is sent
    ensures PromptAlive(r, force, messages) ==> o == Prompted(r, r.setupMessageId, None)
    // otherwise exactly one prompt is sent, and its "check status" button is enabled iff an address is stored
    ensures !PromptAlive(r, force, messages) ==> o.message == sent
    ensures o.posted.Some? <==> !PromptAlive(r, force, messages) && sent.Some?
    ensures o.posted.Some? ==> o.posted.value == SetupPrompt(sent.value, HasEndpoint(r))
    // the message returned is the one recorded; a failed send leaves no stale id unless forced
    ensures o.message.Some? ==> o.record.setupMessageId == o.message
    ensures o.message.None? ==> o.record.setupMessageId == (if force then r.setupMessageId else None)
    // nothing but the prompt id changes
    ensures o.record == r.(setupMessageId := o.record.setupMessageId)
  {
    if PromptAlive(r, force, messages) then Prompted(r, r.setupMessageId, None)
    else
      var r1 := if !force && r.setupMessageId.Some? then r.(setupMessageId := None) else r;
      match sent
      case Some(m) => Prompted(r1.(setupMessageId := Some(m)), sent, Some(SetupPrompt(m, HasEndpoint(r1))))
      case None => Prompted(r1, None, None)
  }

  /** Sending the prompt twice without force, the first still fetchable, gives the same message and one send. */
  lemma PromptIdempotent(r: GuildRecord, messages: set<MessageId>, sent: Option<MessageId>,
                         later: set<MessageId>, laterSent: Option<MessageId>)
    requires Prompt(r, false, messages, sent).message.Some?
    requires Prompt(r, false, messages, sent).message.value in later
    ensures var o := Prompt(r, false, messages, sent);
            Prompt(o.record, false, later, laterSent) == Prompted(o.record, o.message, None)
  {
  }

  datatype CheckReply = NeedsEndpoint | ReportOnline(status: ServerStatus) | ReportOffline

  /** The record afterwards, the reply to the button press and what was posted to the alert channel. */
  datatype Checked = Checked(record: GuildRecord, reply: CheckReply, posted: seq<Effect>)

  /** The check_mc_status button, given the probe's result for the stored address. */
  function CheckStatus(r: GuildRecord, status: ServerStatus, p: Platform): (o: Checked)
    // no address: rejected, nothing changes
    ensures !HasEndpoint(r) ==> o == Checked(r, NeedsEndpoint, [])
    // offline: nothing changes, whatever the record was
    ensures HasEndpoint(r) && status.Offline? ==> o == Checked(r, ReportOffline, [])
    // online: the guild is (or stays) set up and the status is reported
    ensures HasEndpoint(r) && status.Online? ==> o.reply == ReportOnline(status) && o.record == r.(isSetup := true)
    // one activation notice, only on the transition into set up, when the channel takes it
    ensures |o.posted| <= 1
    ensures o.posted != [] <==>
              HasEndpoint(r) && status.Online? && !r.isSetup && NoticeTarget(r.alertChannelId, p).Some?
    ensures o.posted != [] ==> o.posted[0] == Posted(r.alertChannelId.value, ActivationNotice)
    // once set up, a check changes nothing and posts nothing
    ensures r.isSetup ==> o.record == r && o.posted == []
    ensures Consistent(r) ==> Consistent(o.record)
  {
    if !HasEndpoint(r) then Checked(r, NeedsEndpoint, [])
    else if status.Online? then
      if !r.isSetup then
        Checked(r.(isSetup := true), ReportOnline(status), PostedAt(NoticeTarget(r.alertChannelId, p), ActivationNotice))
      else Checked(r, ReportOnline(status), [])
    else Checked(r, ReportOffline, [])
  }

  /** Pressing the button again after an activation posts no second notice and changes nothing. */
  lemma ActivationOnce(r: GuildRecord, first: ServerStatus, second: ServerStatus, p: Platform, q: Platform)
    requires first.Online?
    ensures var o := CheckStatus(r, first, p);
            CheckStatus(o.record, second, q).record == o.record && CheckStatus(o.record, second, q).posted == []
  {
  }

  datatype SubmitReply = Configured(ip: string, port: int, status: ServerStatus) | SavedOffline(ip: string, port: int)

  /** The record afterwards, the reply to the submitter and what was posted to the alert channel. */
  datatype Submitted = Submitted(record: GuildRecord, reply: SubmitReply, posted: seq<Effect>)

  /** The mc_server_modal submission of an address and port, given the probe's result for them. */
  function Submit(r: GuildRecord, ip: string, port: int, status: ServerStatus, p: Platform): (o: Submitted)
    // the address is saved whether or not the server answered, so it need not be typed again
    ensures o.record.mcServerIp == Some(ip) && o.record.mcServerPort == port
    // set up exactly when the server answered, even if it was set up before
    ensures o.record.isSetup <==> status.Online?
    ensures o.record.alertChannelId == r.alertChannelId && o.record.setupMessageId == r.setupMessageId
    ensures o.reply == if status.Online? then Configured(ip, port, status) else SavedOffline(ip, port)
    // an online submission announces itself in the alert channel every time the channel takes it
    ensures |o.posted| <= 1
    ensures o.posted != [] <==> status.Online? && NoticeTarget(r.alertChannelId, p).Some?
    ensures o.posted != [] ==> o.posted[0] == Posted(r.alertChannelId.value, ConfiguredNotice(ip, port, status.edition))
    ensures Consistent(o.record)
  {
    var saved := r.(mcServerIp := Some(ip), mcServerPort := port);
    if status.Online? then
      Submitted(saved.(isSetup := true), Configured(ip, port, status),
                PostedAt(NoticeTarget(r.alertChannelId, p), ConfiguredNotice(ip, port, status.edition)))
    else Submitted(saved.(isSetup := false), SavedOffline(ip, port), [])
  }

  /**
   * An address saved while its server was offline is activated by the button
   * once the server answers, with the one activation notice.
   */
  lemma OfflineThenRecheck(r: GuildRecord, ip: string, port: int, down: ServerStatus, up: ServerStatus, p: Platform)
    requires ip != "" && down.Offline? && up.Online?
    ensures var saved := Submit(r, ip, port, down, p).record;
            var o := CheckStatus(saved, up, p);
            o.record.isSetup && o.record.mcServerIp == Some(ip) &&
            o.posted == PostedAt(NoticeTarget(r.alertChannelId, p), ActivationNotice)
  {
  }

  /** The console resetsetup: back to a fresh record, except that the alert channel is kept. */
  function Reset(r: GuildRecord): (r': GuildRecord)
    ensures r' == DefaultRecord.(alertChannelId := r.alertChannelId)
    ensures Consistent(r')
  {
    r.(isSetup := false, mcServerIp := None, mcServerPort := DefaultRecord.mcServerPort, setupMessageId := None)
  }

  /**
   * After a reset the workflow starts over: the button is rejected, and the
   * next prompt is sent even without force, with its button disabled.
   */
  lemma ResetRestarts(r: GuildRecord, status: ServerStatus, p: Platform, messages: set<MessageId>, m: MessageId)
    ensures CheckStatus(Reset(r), status, p) == Checked(Reset(r), NeedsEndpoint, [])
    ensures Prompt(Reset(r), false, messages, Some(m)).posted == Some(SetupPrompt(m, false))
  {
  }
}
