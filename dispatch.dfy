/**
 * sendHackAlert, sendActionNotification and the alertall fan-out: sends are
 * gated on the guild being set up with an alert channel, and every failure
 * comes back as `false`.
 */
module Dispatch {
  import opened Wrappers
  import opened Discord
  import opened ServersConfig

  /** The gate both senders check first: the guild is set up and has an alert channel. */
  predicate AlertsEnabled(r: GuildRecord)
  {
    r.isSetup && r.alertChannelId.Some?
  }

  /**
   * Where an alert for guild g is delivered: None stands for a `false` result,
   * from the gate, an unknown guild, a channel fetch that throws or a send that throws.
   */
  function AlertTarget(g: GuildId, r: GuildRecord, p: Platform): (c: Option<ChannelId>)
    ensures !AlertsEnabled(r) ==> c.None?
    ensures c.Some? <==> AlertsEnabled(r) && g in p.guilds && r.alertChannelId.value in p.channels
                         && r.alertChannelId.value in p.writable
    ensures c.Some? ==> c == r.alertChannelId
  {
    if r.isSetup && g in p.guilds then NoticeTarget(r.alertChannelId, p) else None
  }

  const FallbackColour: int := 0x808080
  const FallbackIcon: string := "📋"
  const NoReason: string := "Sin razón"

  /** The moderation actions the console sends. */
  predicate IsKnownAction(action: string)
  {
    action == "BAN" || action == "UNBAN" || action == "KICK" || action == "WARN" || action == "MUTE"
  }

  /** The embed colour and title icon of an action; anything else gets grey and a clipboard. */
  function ActionStyle(action: string): (style: (int, string))
    ensures !IsKnownAction(action) ==> style == (FallbackColour, FallbackIcon)
    ensures IsKnownAction(action) ==> style.0 != FallbackColour && style.1 != FallbackIcon
    ensures 0 <= style.0 <= 0xFFFFFF
  {
    if action == "BAN" then (0xFF0000, "🔨")
    else if action == "UNBAN" then (0x00FF00, "✅")
    else if action == "KICK" then (0xFFA500, "🚪")
    else if action == "WARN" then (0xFFFF00, "⚠️")
    else if action == "MUTE" then (0x9B59B6, "🔇")
    else (FallbackColour, FallbackIcon)
  }

  /** Each known action is told apart by its colour and by its icon. */
  lemma ActionColoursDistinct(a: string, b: string)
    requires IsKnownAction(a) && IsKnownAction(b) && a != b
    ensures ActionStyle(a).0 != ActionStyle(b).0
    ensures ActionStyle(a).1 != ActionStyle(b).1
  {
  }

  /** `reason || 'Sin razón'`: the reason field is never empty. */
  function ReasonText(reason: string): (text: string)
    ensures text != ""
    ensures reason != "" ==> text == reason
    ensures reason == "" ==> text == NoReason
  {
    if reason == "" then NoReason else reason
  }

  /** `if (duration)`: a duration field only for a present, non-empty duration. */
  function DurationField(duration: Option<string>): (field: Option<string>)
    ensures field.Some? ==> field == duration && field.value != ""
    ensures duration.Some? && duration.value != "" ==> field == duration
  {
    if duration.Some? && duration.value != "" then duration else None
  }

  /** The notice sendActionNotification posts. */
  function ActionMessage(action: string, player: string, reason: string, duration: Option<string>): Message
  {
    var style := ActionStyle(action);
    ActionNotice(action, style.0, style.1, player, ReasonText(reason), DurationField(duration))
  }

  /** The alerts alertall delivers to the first k guilds of gs, guild by guild in the client's order. */
  function AlertEffects(m: map<GuildId, GuildRecord>, gs: seq<GuildId>, k: nat, p: Platform,
                        player: string, reason: string): seq<Effect>
    requires k <= |gs|
  {
    if k == 0 then []
    else
      var g := gs[k - 1];
      AlertEffects(m, gs, k - 1, p, player, reason) + PostedAt(AlertTarget(g, Lookup(m, g), p), HackAlert(player, reason))
  }

  /** How many of the first k guilds of gs receive an alert. */
  function Delivered(m: map<GuildId, GuildRecord>, gs: seq<GuildId>, k: nat, p: Platform): nat
    requires k <= |gs|
  {
    if k == 0 then 0
    else
      var g := gs[k - 1];
      Delivered(m, gs, k - 1, p) + (if AlertTarget(g, Lookup(m, g), p).Some? then 1 else 0)
  }

  /** How many of the first k guilds of gs are set up. */
  function SetupCount(m: map<GuildId, GuildRecord>, gs: seq<GuildId>, k: nat): nat
    requires k <= |gs|
  {
    if k == 0 then 0
    else SetupCount(m, gs, k - 1) + (if Lookup(m, gs[k - 1]).isSetup then 1 else 0)
  }

  /** The alertall count is the number of alerts delivered, and never more than the guilds set up. */
  lemma {:induction false} DeliveredAtMostSetup(m: map<GuildId, GuildRecord>, gs: seq<GuildId>, k: nat, p: Platform,
                                                player: string, reason: string)
    requires k <= |gs|
    ensures |AlertEffects(m, gs, k, p, player, reason)| == Delivered(m, gs, k, p)
    ensures Delivered(m, gs, k, p) <= SetupCount(m, gs, k)
  {
    if k != 0 {
      DeliveredAtMostSetup(m, gs, k - 1, p, player, reason);
    }
  }
}
