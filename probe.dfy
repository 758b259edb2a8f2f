/**
 * checkMinecraftServer: the Bedrock status query first, the Java status query
 * as fallback, offline when both fail, with defaults for missing fields.
 * The queries themselves (network, timeouts) are not modelled: their answers
 * are inputs, `None` standing for a query that threw.
 */
module Probe {
  import opened Wrappers

  /** A status response as the status library returns it; every field may be missing. */
  datatype RawStatus = RawStatus(
    versionName: Option<string>,
    playersOnline: Option<int>,
    playersMax: Option<int>,
    motdClean: Option<string>,
    sample: Option<seq<string>>)

  /** What the two status queries answered for one address. */
  datatype ProbeAnswers = ProbeAnswers(bedrock: Option<RawStatus>, java: Option<RawStatus>)

  datatype Edition = Bedrock | Java

  datatype ServerStatus =
    | Online(edition: Edition, version: string, playersOnline: int, playersMax: int,
             motd: string, playerList: seq<string>)
    | Offline(error: string)

  const UnknownVersion: string := "Unknown"
  const NoMotd: string := "Sin MOTD"
  const NotFound: string := "Servidor no encontrado o apagado"

  /** `value || fallback` on an optional string: JavaScript treats "" as false. */
  function StringOr(value: Option<string>, fallback: string): string
  {
    if value.Some? && value.value != "" then value.value else fallback
  }

  /** The result object built from a successful query of the given edition. */
  function Normalise(edition: Edition, raw: RawStatus): (s: ServerStatus)
    ensures s.Online? && s.edition == edition
    ensures s.version != "" && s.motd != ""
    ensures raw.versionName.Some? && raw.versionName.value != "" ==> s.version == raw.versionName.value
    ensures raw.motdClean.Some? && raw.motdClean.value != "" ==> s.motd == raw.motdClean.value
    ensures raw.versionName.None? || raw.versionName.value == "" ==> s.version == UnknownVersion
    ensures raw.motdClean.None? || raw.motdClean.value == "" ==> s.motd == NoMotd
    ensures s.playersOnline == (if raw.playersOnline.Some? then raw.playersOnline.value else 0)
    ensures s.playersMax == (if raw.playersMax.Some? then raw.playersMax.value else 0)
    ensures s.playerList == (if raw.sample.Some? then raw.sample.value else [])
  {
    Online(edition,
           StringOr(raw.versionName, UnknownVersion),
           raw.playersOnline.GetOr(0),
           raw.playersMax.GetOr(0),
           StringOr(raw.motdClean, NoMotd),
           raw.sample.GetOr([]))
  }

  /** The probe never fails: either edition answering makes it online, Bedrock taking precedence. */
  function CheckMinecraftServer(answers: ProbeAnswers): (s: ServerStatus)
    ensures s.Online? <==> answers.bedrock.Some? || answers.java.Some?
    ensures s.Online? ==> s.edition == (if answers.bedrock.Some? then Bedrock else Java)
    ensures answers.bedrock.Some? ==> s == Normalise(Bedrock, answers.bedrock.value)
    ensures answers.bedrock.None? && answers.java.Some? ==> s == Normalise(Java, answers.java.value)
    ensures s.Offline? ==> s.error == NotFound
  {
    match answers.bedrock
    case Some(raw) => Normalise(Bedrock, raw)
    case None =>
      match answers.java
      case Some(raw) => Normalise(Java, raw)
      case None => Offline(NotFound)
  }
}
