/** How the client (YewChat) and the relay server (SimpleWebsocketServer) fit
    together on the wire, and where they do not.

    Neither side's JSON library is modelled. The lemmas below state, as explicit
    hypotheses, the little they need of it: that a profile serialized by one
    side decodes to the same profile on the other (`ProfileCodec`), that a
    relayed chat line decodes to its sender and text (`RelayCodec`), and that
    a profile decoder only accepts text containing a JSON object or array
    (`StructShapedOnly`). */
module Interop {

  import opened Protocol
  import opened ChatSession
  import opened RosterServer

  /** The envelope the client reads from a server broadcast: a roster list has
      no `data` (serde fills the missing field with `None`), a relayed line
      carries its serialized `{from, message}` object as `data`. */
  function AsClientEnvelope(b: Broadcast, encodeRelay: (string, Option<string>) -> string): Envelope
  {
    match b
    case UsersList(items) => Envelope(Users, Some(items), None)
    case Relay(from, message) => Envelope(Message, None, Some(encodeRelay(from, message)))
  }

  /** The request the server reads from a client envelope: the lower-case tag
      and the `data` field. */
  function AsServerRequest(e: Envelope): (r: Request)
    ensures ParseTag(r.messageType) == Some(e.messageType)
    ensures r.data == e.data
  {
    Request(Tag(e.messageType), e.data)
  }

  /** Decoding undoes encoding for every profile. */
  ghost predicate ProfileCodec(encode: UserProfile -> string, decode: string -> Option<UserProfile>)
  {
    forall p :: decode(encode(p)) == Some(p)
  }

  /** A relayed line with text decodes to its sender and text (the client
      ignores the extra `time` field). */
  ghost predicate RelayCodec(encodeRelay: (string, Option<string>) -> string, decode: string -> Option<MessageData>)
  {
    forall from, text :: decode(encodeRelay(from, Some(text))) == Some(MessageData(from, text))
  }

  /** A profile decoder that only accepts the two shapes serde_json reads a
      derived struct from: an object (fields by name) or an array (fields by
      position). The text of either contains '{' or '['. */
  ghost predicate StructShapedOnly(decode: string -> Option<UserProfile>)
  {
    forall s :: decode(s).Some? ==> '{' in s || '[' in s
  }

  /** The profiles of a registry, in registry order. */
  function Profiles(reg: seq<Entry>): seq<UserProfile>
  {
    seq(|reg|, i requires 0 <= i < |reg| => reg[i].user)
  }

  /** End to end: the registration the client queues on creation
      makes the server append exactly the client's profile (name, selected
      avatar, bio) and broadcast the grown roster. */
  lemma RegistrationReachesServer(username: string, bio: string, reg: seq<Entry>, conn: ConnId,
                                  encode: UserProfile -> string, parse: string -> Option<UserProfile>)
    requires ProfileCodec(encode, parse)
    ensures var c := Create(username, bio, encode);
            var out := OnMessage(reg, conn, Some(AsServerRequest(c.registration)), parse, encode);
            && out.registry == reg + [Entry(conn, UserProfile(username, Avatar(username), bio))]
            && out.sent == [UsersList(Serialized(out.registry, encode))]
  {
  }

  /** Registering as "Miku" with bio "hi" sends a profile that
      decodes to that name, the Miku avatar and that bio. */
  lemma RegisterAsMiku(encode: UserProfile -> string, decode: string -> Option<UserProfile>)
    requires ProfileCodec(encode, decode)
    ensures var e := Create("Miku", "hi", encode).registration;
            e.data.Some? && decode(e.data.value) == Some(UserProfile("Miku", MikuAvatar, "hi"))
  {
  }

  /** The roster list a registration broadcasts is one the client can fold:
      with a faithful profile codec the client's roster becomes exactly the
      server's registry, in order, and the log is untouched. */
  lemma RegisterSyncsClientRoster(s: Session, reg: seq<Entry>, conn: ConnId, data: string,
                                  parse: string -> Option<UserProfile>, stringify: UserProfile -> string,
                                  encodeRelay: (string, Option<string>) -> string, dec: Decoders)
    requires parse(data).Some?
    requires ProfileCodec(stringify, dec.profile)
    ensures var out := RegisterUser(reg, conn, Some(data), parse, stringify);
            |out.sent| == 1 &&
            HandleMsg(s, Some(AsClientEnvelope(out.sent[0], encodeRelay)), dec)
              == Updated(Session(Profiles(out.registry), s.messages), true)
  {
  }

  /** A roster list of serialized profiles makes the client's roster exactly
      those profiles. */
  lemma SerializedRosterDecodes(s: Session, reg: seq<Entry>, stringify: UserProfile -> string,
                                encodeRelay: (string, Option<string>) -> string, dec: Decoders)
    requires ProfileCodec(stringify, dec.profile)
    ensures HandleMsg(s, Some(AsClientEnvelope(UsersList(Serialized(reg, stringify)), encodeRelay)), dec)
              == Updated(Session(Profiles(reg), s.messages), true)
  {
  }

  /** Chat round trip: text typed by a registered client is relayed under the
      name of that connection's first entry, and folding the relay appends
      exactly (name, text) to a client's log. */
  lemma ChatRoundTrip(sender: Session, receiver: Session, text: string, reg: seq<Entry>, conn: ConnId, k: nat,
                      parse: string -> Option<UserProfile>, stringify: UserProfile -> string,
                      encodeRelay: (string, Option<string>) -> string, dec: Decoders)
    requires k < |reg| && reg[k].conn == conn
    requires forall i :: 0 <= i < k ==> reg[i].conn != conn
    requires RelayCodec(encodeRelay, dec.message)
    ensures var env := Submit(sender, Some(text)).sent.value;
            var out := OnMessage(reg, conn, Some(AsServerRequest(env)), parse, stringify);
            && out.registry == reg
            && out.sent == [Relay(reg[k].user.name, Some(text))]
            && HandleMsg(receiver, Some(AsClientEnvelope(out.sent[0], encodeRelay)), dec)
                 == Updated(Session(receiver.users, receiver.messages + [MessageData(reg[k].user.name, text)]), true)
  {
  }

  /** As written, the prune broadcast breaks every client: once an entry is
      dropped, the roster list carries bare names, and a surviving name with
      neither '{' nor '[' cannot decode as a profile, so the client's update
      panics. */
  lemma PruneBroadcastPanicsClient(s: Session, reg: seq<Entry>, clients: set<ConnId>, k: nat,
                                   encodeRelay: (string, Option<string>) -> string, dec: Decoders)
    requires StructShapedOnly(dec.profile)
    requires exists i :: 0 <= i < |reg| && reg[i].conn !in clients
    requires k < |KeepLive(reg, clients)|
    requires '{' !in KeepLive(reg, clients)[k].user.name && '[' !in KeepLive(reg, clients)[k].user.name
    ensures |Prune(reg, clients).sent| == 1
    ensures HandleMsg(s, Some(AsClientEnvelope(Prune(reg, clients).sent[0], encodeRelay)), dec) == Panic
  {
    var out := Prune(reg, clients);
    var items := Names(out.registry);
    assert out.sent == [UsersList(items)];
    assert items[k] == out.registry[k].user.name;
    assert dec.profile(items[k]).None?;
  }

  /** A concrete instance: Bob and Alice are registered, Alice disconnects,
      and the broadcast roster list is the bare text `Bob`. */
  lemma PruneCounterexample(s: Session, encodeRelay: (string, Option<string>) -> string, dec: Decoders)
    requires StructShapedOnly(dec.profile)
    ensures var reg := [Entry(1, UserProfile("Bob", DefaultAvatar, "b")), Entry(2, UserProfile("Alice", DefaultAvatar, "a"))];
            && Prune(reg, {1}).sent == [UsersList(["Bob"])]
            && HandleMsg(s, Some(AsClientEnvelope(Prune(reg, {1}).sent[0], encodeRelay)), dec) == Panic
  {
    var reg := [Entry(1, UserProfile("Bob", DefaultAvatar, "b")), Entry(2, UserProfile("Alice", DefaultAvatar, "a"))];
    assert reg[1].conn !in {1};
    assert KeepLive(reg, {1}) == [reg[0]] by {
      assert reg[1..] == [reg[1]];
      assert reg[1..][1..] == [];
    }
    assert '{' !in "Bob" && '[' !in "Bob";
    PruneBroadcastPanicsClient(s, reg, {1}, 0, encodeRelay, dec);
    assert Names([reg[0]]) == ["Bob"];
  }

  /** The prune step with the evident intent of the protocol: the roster list
      carries serialized profiles, as the register broadcast does. */
  function PruneCorrected(reg: seq<Entry>, clients: set<ConnId>, stringify: UserProfile -> string): (r: Outcome)
    ensures r.registry == KeepLive(reg, clients)
    ensures r.sent == [] <==> forall i :: 0 <= i < |reg| ==> reg[i].conn in clients
    ensures r.sent != [] ==> r.sent == [UsersList(Serialized(r.registry, stringify))]
  {
    KeepLiveFull(reg, clients);
    var live := KeepLive(reg, clients);
    if |live| != |reg| then Outcome(live, [UsersList(Serialized(live, stringify))])
    else Outcome(reg, [])
  }

  /** With the corrected prune, every client folds the broadcast and ends up
      with exactly the live entries' profiles, in registry order. */
  lemma PruneCorrectedSyncsClientRoster(s: Session, reg: seq<Entry>, clients: set<ConnId>,
                                        stringify: UserProfile -> string,
                                        encodeRelay: (string, Option<string>) -> string, dec: Decoders)
    requires ProfileCodec(stringify, dec.profile)
    requires exists i :: 0 <= i < |reg| && reg[i].conn !in clients
    ensures var out := PruneCorrected(reg, clients, stringify);
            |out.sent| == 1 &&
            HandleMsg(s, Some(AsClientEnvelope(out.sent[0], encodeRelay)), dec)
              == Updated(Session(Profiles(KeepLive(reg, clients)), s.messages), true)
  {
  }
}
