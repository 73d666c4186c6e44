/**
 * The game-message dispatcher of src/json_processor.rs.
 *
 * `process_data` decodes one text message into a `MessageFormat` record and,
 * by a nested match on `msgType` and `statusType`, calls at most one method of
 * the audio player: play a URL, set the volume to the fixed level 0.5, or stop.
 *
 * Lexing the text into a JSON value is left abstract: a text that is not JSON
 * at all is simply a decoding failure. What is modelled is how serde's derived
 * `Deserialize` turns a JSON value into the record (`DecodeMessage`), how the
 * derived `Serialize` writes it back (`EncodeMessage`), and the dispatch itself
 * (`Dispatch`), which takes `None` for any decoding failure.
 */
module JsonProcessor {
  import opened Wrappers

  /** A JSON value. Numbers are reals; no field of the message is numeric. */
  datatype Json =
    | Null
    | Bool(b: bool)
    | Number(n: real)
    | Str(s: string)
    | Array(items: seq<Json>)
    | Object(fields: map<string, Json>)

  /** The record the messages decode to; `msgType` is required. */
  datatype MessageFormat = MessageFormat(
    msgType: string,
    statusType: Option<string>,
    audioUrl: Option<string>)

  /** The player calls that a message can cause. */
  datatype Action = Play(url: string) | SetVolume(level: real) | Stop

  /** The fixed volume set when the player has died. */
  const DeathVolume: real := 0.5

  // ---------------------------------------------------------------------------
  // serde's derived Deserialize / Serialize for MessageFormat
  // ---------------------------------------------------------------------------

  /** A required `String` field: only a JSON string is accepted. */
  function RequiredString(j: Json): (r: Option<string>)
    ensures r.Some? <==> j.Str?
    ensures r.Some? ==> j == Str(r.value)
  {
    if j.Str? then Some(j.s) else None
  }

  /** An `Option<String>` field: `null` is `None`, a string is `Some`, anything
      else fails. The outer `None` is the failure. */
  function OptionalString(j: Json): (r: Option<Option<string>>)
    ensures r.Some? <==> j.Null? || j.Str?
    ensures r == Some(None) <==> j.Null?
    ensures r.Some? && r.value.Some? ==> j == Str(r.value.value)
  {
    match j
    case Null => Some(None)
    case Str(s) => Some(Some(s))
    case _ => None
  }

  /** An optional field of an object: a missing key reads as `null`. */
  function OptionalMember(fields: map<string, Json>, key: string): (r: Option<Option<string>>)
    ensures r == Some(None) <==> key !in fields || fields[key].Null?
    ensures r.None? <==> key in fields && !fields[key].Null? && !fields[key].Str?
    ensures r.Some? && r.value.Some? ==> key in fields && fields[key] == Str(r.value.value)
  {
    if key in fields then OptionalString(fields[key]) else Some(None)
  }

  /** Builds the record once each field has been read; any failed field fails. */
  function Assemble(msgType: Option<string>, statusType: Option<Option<string>>,
                    audioUrl: Option<Option<string>>): (r: Option<MessageFormat>)
    ensures r.Some? <==> msgType.Some? && statusType.Some? && audioUrl.Some?
    ensures r.Some? ==> r.value == MessageFormat(msgType.value, statusType.value, audioUrl.value)
  {
    if msgType.Some? && statusType.Some? && audioUrl.Some? then
      Some(MessageFormat(msgType.value, statusType.value, audioUrl.value))
    else None
  }

  /** `serde_json::from_str::<MessageFormat>` on an already-lexed value.
      An object needs a string `msgType`; its other two fields may be missing or
      `null`; keys it does not know are ignored. serde also accepts the sequence
      form of a struct: an array of exactly three elements in field order. */
  function DecodeMessage(j: Json): (r: Option<MessageFormat>)
    ensures r.Some? ==> j.Object? || (j.Array? && |j.items| == 3)
  {
    match j
    case Object(fields) =>
      if "msgType" !in fields then None
      else Assemble(RequiredString(fields["msgType"]),
                    OptionalMember(fields, "statusType"),
                    OptionalMember(fields, "audioUrl"))
    case Array(items) =>
      if |items| != 3 then None
      else Assemble(RequiredString(items[0]), OptionalString(items[1]), OptionalString(items[2]))
    case _ => None
  }

  /** `Option<String>` as serde writes it. */
  function OptionToJson(o: Option<string>): Json
  {
    match o
    case None => Null
    case Some(s) => Str(s)
  }

  /** The derived `Serialize`: an object with all three fields, `None` as `null`. */
  function EncodeMessage(m: MessageFormat): (j: Json)
    ensures j.Object? && j.fields.Keys == {"msgType", "statusType", "audioUrl"}
  {
    Object(map[
      "msgType" := Str(m.msgType),
      "statusType" := OptionToJson(m.statusType),
      "audioUrl" := OptionToJson(m.audioUrl)])
  }

  // ---------------------------------------------------------------------------
  // The dispatch
  // ---------------------------------------------------------------------------

  /** The player action that `process_data` takes for a decoded message, if any. */
  function Dispatch(m: Option<MessageFormat>): (a: Option<Action>)
    ensures m.None? ==> a.None?
    ensures a.Some? && a.value.SetVolume? ==> a.value.level == DeathVolume
  {
    match m
    case None => None
    case Some(msg) =>
      if msg.msgType == "bgm" then
        match msg.audioUrl
        case Some(url) => Some(Play(url))
        case None => None
      else if msg.msgType == "gameStatus" then
        if msg.statusType == Some("died") then Some(SetVolume(DeathVolume))
        else if msg.statusType == Some("left") then Some(Stop)
        else None
      else None
  }

  /** The whole of `process_data`'s decision: decode, then dispatch. */
  function Handle(j: Json): (r: Option<Action>)
    ensures r.Some? ==> DecodeMessage(j).Some?
    ensures !j.Object? && !j.Array? ==> r.None?
  {
    Dispatch(DecodeMessage(j))
  }

  /** A canonical message for each action, used to state that every action the
      dispatcher can take is reached. */
  function Trigger(a: Action): MessageFormat
  {
    match a
    case Play(url) => MessageFormat("bgm", None, Some(url))
    case SetVolume(_) => MessageFormat("gameStatus", Some("died"), None)
    case Stop => MessageFormat("gameStatus", Some("left"), None)
  }

  // ---------------------------------------------------------------------------
  // The audio player, as a recorder of the calls it receives
  // ---------------------------------------------------------------------------

  /** The `AudioPlayer` that `process_data` drives, reduced to the calls made on it. */
  class Player {
    /** Every call received so far, in order. */
    var performed: seq<Action>

    constructor ()
      ensures performed == []
    {
      performed := [];
    }

    method PlayAudio(url: string)
      modifies this
      ensures performed == old(performed) + [Play(url)]
    {
      performed := performed + [Play(url)];
    }

    /** `set_volume`. */
    method SetLevel(level: real)
      modifies this
      ensures performed == old(performed) + [SetVolume(level)]
    {
      performed := performed + [SetVolume(level)];
    }

    method Stop()
      modifies this
      ensures performed == old(performed) + [Action.Stop]
    {
      performed := performed + [Action.Stop];
    }
  }

  /** `process_data`: decode the message, then make at most one player call. */
  method ProcessData(data: Json, player: Player)
    modifies player
    ensures player.performed == old(player.performed) +
      (match Handle(data) case Some(a) => [a] case None => [])
    ensures |player.performed| <= |old(player.performed)| + 1
  {
    var parsed := DecodeMessage(data);
    if parsed.None? {
      return;  // a message that fails to decode is reported and dropped
    }
    var msg := parsed.value;
    if msg.msgType == "bgm" {
      if msg.audioUrl.Some? {
        player.PlayAudio(msg.audioUrl.value);
      }
    } else if msg.msgType == "gameStatus" {
      if msg.statusType == Some("died") {
        player.SetLevel(DeathVolume);
      } else if msg.statusType == Some("left") {
        player.Stop();
      }
    }
  }

  // ---------------------------------------------------------------------------
  // Lemmas
  // ---------------------------------------------------------------------------

  /** What serde writes, serde reads back unchanged. */
  lemma DecodeEncode(m: MessageFormat)
    ensures DecodeMessage(EncodeMessage(m)) == Some(m)
  {
  }

  /** A missing `statusType` or `audioUrl` key reads exactly as an explicit `null`. */
  lemma AbsentIsNull(fields: map<string, Json>, key: string)
    requires key == "statusType" || key == "audioUrl"
    requires key !in fields
    ensures DecodeMessage(Object(fields[key := Null])) == DecodeMessage(Object(fields))
  {
  }

  /** The death message as the game server sends it, without an `audioUrl` key,
      decodes with `audioUrl` as `None` and sets the fixed volume. */
  lemma DeathMessageWithoutUrl()
    ensures DecodeMessage(Object(map["msgType" := Str("gameStatus"), "statusType" := Str("died")]))
      == Some(MessageFormat("gameStatus", Some("died"), None))
    ensures Handle(Object(map["msgType" := Str("gameStatus"), "statusType" := Str("died")]))
      == Some(SetVolume(0.5))
  {
    var f := map["msgType" := Str("gameStatus"), "statusType" := Str("died")];
    assert "audioUrl" !in f;
  }

  /** A message without `msgType`, or whose `msgType` is not a string, fails. */
  lemma MsgTypeRequired(fields: map<string, Json>)
    requires "msgType" !in fields || !fields["msgType"].Str?
    ensures DecodeMessage(Object(fields)) == None
  {
  }

  /** Keys other than the three fields do not affect decoding. */
  lemma UnknownKeysIgnored(fields: map<string, Json>, extra: string, v: Json)
    requires extra !in {"msgType", "statusType", "audioUrl"}
    ensures DecodeMessage(Object(fields[extra := v])) == DecodeMessage(Object(fields))
  {
  }

  /** A message that fails to decode makes the player do nothing. */
  lemma ParseErrorDoesNothing()
    ensures Dispatch(None) == None
  {
  }

  /** A "bgm" message plays exactly the URL it carries, whatever its status. */
  lemma BgmPlaysItsUrl(m: MessageFormat)
    requires m.msgType == "bgm"
    ensures m.audioUrl.Some? ==> Dispatch(Some(m)) == Some(Play(m.audioUrl.value))
    ensures m.audioUrl.None? ==> Dispatch(Some(m)) == None
    ensures forall st :: Dispatch(Some(m.(statusType := st))) == Dispatch(Some(m))
  {
  }

  /** "gameStatus" with "died" sets the fixed level 0.5, with "left" stops, and
      with any other or no status does nothing; its URL is ignored. */
  lemma GameStatusActions(m: MessageFormat)
    requires m.msgType == "gameStatus"
    ensures m.statusType == Some("died") ==> Dispatch(Some(m)) == Some(SetVolume(0.5))
    ensures m.statusType == Some("left") ==> Dispatch(Some(m)) == Some(Stop)
    ensures m.statusType != Some("died") && m.statusType != Some("left") ==> Dispatch(Some(m)) == None
    ensures forall u :: Dispatch(Some(m.(audioUrl := u))) == Dispatch(Some(m))
  {
  }

  /** Any other message type does nothing. */
  lemma UnknownTypeDoesNothing(m: MessageFormat)
    requires m.msgType != "bgm" && m.msgType != "gameStatus"
    ensures Dispatch(Some(m)) == None
  {
  }

  /** Each action is taken for exactly the messages that call for it. */
  lemma DispatchCharacterized(m: MessageFormat, a: Action)
    ensures Dispatch(Some(m)) == Some(a) <==>
      match a
      case Play(url) => m.msgType == "bgm" && m.audioUrl == Some(url)
      case SetVolume(level) =>
        m.msgType == "gameStatus" && m.statusType == Some("died") && level == DeathVolume
      case Stop => m.msgType == "gameStatus" && m.statusType == Some("left")
  {
  }

  /** Every action the dispatcher can take is reached from its canonical
      message, sent through serde's encoding. */
  lemma TriggerRoundTrip(a: Action)
    requires a.SetVolume? ==> a.level == DeathVolume
    ensures Handle(EncodeMessage(Trigger(a))) == Some(a)
  {
  }
}
