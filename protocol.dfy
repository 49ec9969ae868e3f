/**
 * The messages a room relay exchanges with its clients, once the JSON text
 * has been parsed (inbound) or before it is serialised (outbound).
 */
module Protocol {

  datatype Option<T> = None | Some(value: T)

  /** A connection identity (a UUID string in the relay). */
  type Id = string

  /** A room name: any string a client chooses, compared case-sensitively. */
  type RoomName = string

  /** The transport's send capability for one connection, kept opaque. */
  datatype Handle = Socket(token: nat)

  /** A JSON value carried through unchanged as a message payload. */
  datatype Json =
    | JNull
    | JBool(b: bool)
    | JNumber(n: int)
    | JString(s: string)
    | JArray(items: seq<Json>)
    | JObject(entries: seq<(string, Json)>)

  /** One inbound text frame after parsing, classified by its "type" field.
    * A field the client left out is None. */
  datatype Inbound =
    | JoinRoom(room: Option<string>)
    | LeaveRoom(room: Option<string>)
    | SendRoom(room: Option<string>, payload: Option<Json>)
    | SendUser(to: Option<string>, payload: Option<Json>)
    | GetInfo(room: Option<string>, info: Option<string>)
      /** An object whose "type" is none of the five above (or is absent). */
    | Unknown(msgType: Option<string>)
      /** Text that is not JSON at all. */
    | InvalidJson
      /** Valid JSON that is not an object (`[]`, `3`, `null`, ...): the
        * lookup of its "type" field raises, which ends the session. */
    | NotAnObject

  /** Python truthiness of an optional string field: present and non-empty. */
  predicate Given(field: Option<string>)
  {
    field.Some? && field.value != ""
  }

  /** `data.get("payload", {})`: an absent payload becomes the empty object. */
  function PayloadOrEmpty(payload: Option<Json>): Json
  {
    if payload.Some? then payload.value else JObject([])
  }

  /** Why a request was refused; ErrorText gives the wording on the wire. */
  datatype ErrorKind =
    | RoomRequired
    | NotInRoom
    | RecipientMissing
    | RecipientUnknown
    | InfoRequired
    | UnknownInfo(info: string)
    | UnknownType(msgType: Option<string>)
    | MalformedJson

  /** Python's `str()` of an optional string, as an f-string renders it. */
  function Show(field: Option<string>): string
  {
    if field.Some? then field.value else "None"
  }

  function ErrorText(kind: ErrorKind): string
  {
    match kind
    case RoomRequired => "Nom de salle requis"
    case NotInRoom => "Vous n'êtes pas dans cette salle"
    case RecipientMissing => "'to' manquant pour send_user"
    case RecipientUnknown => "L'utilisateur cible n'existe pas (ou plus)"
    case InfoRequired => "Type d'information requis"
    case UnknownInfo(info) => "Type d'information inconnu: " + info
    case UnknownType(t) => "Type de message inconnu: " + Show(t)
    case MalformedJson => "JSON invalide"
  }

  /** The characters that tell the texts apart: the first, then the
    * seventh and the twentieth of those starting "Type d". */
  lemma ErrorTextMarks(k: ErrorKind)
    ensures |ErrorText(k)| > 6
    ensures ErrorText(k)[0] == match k
      case RoomRequired => 'N'
      case NotInRoom => 'V'
      case RecipientMissing => '\''
      case RecipientUnknown => 'L'
      case MalformedJson => 'J'
      case _ => 'T'
    ensures ErrorText(k)[0] == 'T' ==> ErrorText(k)[6] == if k.UnknownType? then 'e' else '\''
    ensures k.InfoRequired? || k.UnknownInfo? ==> |ErrorText(k)| > 19 && ErrorText(k)[19] == if k.InfoRequired? then 'r' else 'i'
  {
  }

  /** A client can tell the refusal from its text, except that a missing
    * message type and the type "None" read the same. */
  lemma ErrorTextDistinguishes(k1: ErrorKind, k2: ErrorKind)
    requires ErrorText(k1) == ErrorText(k2)
    ensures k1 == k2 || (k1.UnknownType? && k2.UnknownType? && Show(k1.msgType) == Show(k2.msgType))
  {
    ErrorTextMarks(k1);
    ErrorTextMarks(k2);
    if k1.UnknownInfo? && k2.UnknownInfo? {
      var p := "Type d'information inconnu: ";
      assert k1.info == ErrorText(k1)[|p|..] == ErrorText(k2)[|p|..] == k2.info;
    }
    if k1.UnknownType? && k2.UnknownType? {
      var q := "Type de message inconnu: ";
      assert Show(k1.msgType) == ErrorText(k1)[|q|..] == ErrorText(k2)[|q|..] == Show(k2.msgType);
    }
  }

  /** Server-to-client messages. UserJoined, UserLeft and CurrentUsers are
    * the three events of the `room_info` message type. Member lists, which
    * the relay builds from sets in no particular order, are sets here. */
  datatype Msg =
    | ConnectionId(id: Id)
    | JoinedRoom(room: RoomName)
    | LeftRoom(room: RoomName)
    | UserJoined(user: Id, room: RoomName)
    | UserLeft(user: Id, room: RoomName)
    | CurrentUsers(room: RoomName, users: set<Id>)
    | RoomMessage(room: RoomName, from: Id, payload: Json)
    | UserMessage(from: Id, payload: Json)
    | Error(kind: ErrorKind)
    | ActiveRooms(rooms: map<RoomName, set<Id>>)
}
