/** The vocabulary the chat client and the relay server share: the profile and
    chat-line records, the three envelope kinds and the envelope itself, as the
    client declares them in YewChat/src/components/chat.rs.

    Serialized payloads (`data`, the elements of `dataArray`) stay strings here,
    as on the wire; turning them into records is the job of decoders that the
    operations take as parameters. */
module Protocol {

  /** A value that may be absent: Rust's `Option`, or a missing JSON field. */
  datatype Option<+T> = None | Some(value: T) {
    /** The value, or `default` when absent (`unwrap_or_default`). */
    function GetOr(default: T): T
    {
      match this
      case Some(v) => v
      case None => default
    }
  }

  /** A user's public identity: name, avatar URL and free-text bio. */
  datatype UserProfile = UserProfile(name: string, avatar: string, bio: string)

  /** One relayed chat line, as the client reads it: sender name and text. */
  datatype MessageData = MessageData(from: string, message: string)

  /** The envelope kinds. */
  datatype MsgType = Users | Register | Message

  /** The wire envelope: a kind tag plus two optional payloads. Which payload is
      meaningful depends on the kind; the type does not enforce it, just as the
      source's struct does not. */
  datatype Envelope = Envelope(messageType: MsgType, dataArray: Option<seq<string>>, data: Option<string>)

  /** The lower-case wire spelling of a kind; it reads back as that kind. */
  function Tag(t: MsgType): (s: string)
    ensures ParseTag(s) == Some(t)
  {
    match t
    case Users => "users"
    case Register => "register"
    case Message => "message"
  }

  /** Reads a kind from its wire spelling; only the three exact lower-case
      spellings are recognised. */
  function ParseTag(s: string): (r: Option<MsgType>)
    ensures r == Some(Users) <==> s == "users"
    ensures r == Some(Register) <==> s == "register"
    ensures r == Some(Message) <==> s == "message"
    ensures r.None? <==> s !in {"users", "register", "message"}
  {
    if s == "users" then Some(Users)
    else if s == "register" then Some(Register)
    else if s == "message" then Some(Message)
    else None
  }

  /** Tags are distinct, so a kind is recovered from its spelling. */
  lemma TagInjective(a: MsgType, b: MsgType)
    ensures Tag(a) == Tag(b) <==> a == b
  {
  }

  /** Spelling is case-sensitive: a capitalised tag is not a kind. */
  lemma ParseTagCaseSensitive()
    ensures ParseTag("Users") == None
    ensures ParseTag("REGISTER") == None
    ensures ParseTag("Message") == None
  {
  }
}
