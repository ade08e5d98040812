/** The relay server (SimpleWebsocketServer/src/app.ts): a registry of
    (connection, profile) entries, the handling of `register` and `message`
    requests, and the periodic prune of entries whose connection is gone.

    Each step is a pure function from the registry to the new registry plus the
    envelopes it broadcasts. `JSON.parse` and `JSON.stringify` are parameters;
    the socket server, the broadcast fan-out, the timer and the clock are not
    modelled. */
module RosterServer {

  import opened Protocol

  /** Identity of a client connection (the `ws` object the server compares). */
  type ConnId = nat

  /** One registry entry: the connection and the profile it registered. */
  datatype Entry = Entry(conn: ConnId, user: UserProfile)

  /** A parsed request: its `messageType` string and its `data`, absent when
      the request has none. */
  datatype Request = Request(messageType: string, data: Option<string>)

  /** What the server broadcasts: a roster list (`messageType` "users") or a
      relayed chat line (`messageType` "message", `data` the serialized
      sender name and text; `message` is absent when the request had no data). */
  datatype Broadcast = UsersList(dataArray: seq<string>) | Relay(from: string, message: Option<string>)

  /** The result of one server step. */
  datatype Outcome = Outcome(registry: seq<Entry>, sent: seq<Broadcast>)

  /** The serialized profile of every entry, in registry order. */
  function Serialized(reg: seq<Entry>, stringify: UserProfile -> string): seq<string>
  {
    seq(|reg|, i requires 0 <= i < |reg| => stringify(reg[i].user))
  }

  /** The bare name of every entry, in registry order. */
  function Names(reg: seq<Entry>): seq<string>
  {
    seq(|reg|, i requires 0 <= i < |reg| => reg[i].user.name)
  }

  /** The position of the first entry registered by `conn`, if any
      (`Array.prototype.find`). */
  function FindSender(reg: seq<Entry>, conn: ConnId): (r: Option<nat>)
    ensures r.None? <==> forall i :: 0 <= i < |reg| ==> reg[i].conn != conn
    ensures r.Some? ==> r.value < |reg| && reg[r.value].conn == conn
    ensures r.Some? ==> forall i :: 0 <= i < r.value ==> reg[i].conn != conn
    decreases |reg|
  {
    if reg == [] then None
    else if reg[0].conn == conn then Some(0)
    else
      match FindSender(reg[1..], conn)
      case None => None
      case Some(k) => Some(k + 1)
  }

  /** `register`: the parsed profile is appended (no de-duplication), and the
      whole registry's serialized profiles are broadcast. A missing or
      unparseable `data` throws, which the handler catches: nothing changes. */
  function RegisterUser(reg: seq<Entry>, conn: ConnId, data: Option<string>,
                    parse: string -> Option<UserProfile>, stringify: UserProfile -> string): (r: Outcome)
    ensures data.None? || parse(data.value).None? ==> r == Outcome(reg, [])
    ensures data.Some? && parse(data.value).Some? ==>
      && |r.registry| == |reg| + 1
      && r.registry[..|reg|] == reg
      && r.registry[|reg|] == Entry(conn, parse(data.value).value)
      && r.sent == [UsersList(Serialized(r.registry, stringify))]
  {
    match data
    case None => Outcome(reg, [])
    case Some(text) =>
      match parse(text)
      case None => Outcome(reg, [])
      case Some(user) =>
        var reg' := reg + [Entry(conn, user)];
        Outcome(reg', [UsersList(Serialized(reg', stringify))])
  }

  /** `message`: relayed under the name of the first entry of the sending
      connection; an unregistered sender is ignored. The registry never
      changes. */
  function RelayMessage(reg: seq<Entry>, conn: ConnId, data: Option<string>): (r: Outcome)
    ensures r.registry == reg
    ensures |r.sent| <= 1
    ensures r.sent == [] <==> forall i :: 0 <= i < |reg| ==> reg[i].conn != conn
    ensures r.sent != [] ==>
      exists k :: 0 <= k < |reg| && reg[k].conn == conn
        && (forall i :: 0 <= i < k ==> reg[i].conn != conn)
        && r.sent == [Relay(reg[k].user.name, data)]
  {
    match FindSender(reg, conn)
    case None => Outcome(reg, [])
    case Some(k) => Outcome(reg, [Relay(reg[k].user.name, data)])
  }

  /** The `message` handler: `parsed` is the result of `JSON.parse` on the raw
      text; a parse failure or an unknown `messageType` changes nothing. */
  function OnMessage(reg: seq<Entry>, conn: ConnId, parsed: Option<Request>,
                     parse: string -> Option<UserProfile>, stringify: UserProfile -> string): (r: Outcome)
    ensures parsed.None? ==> r == Outcome(reg, [])
    ensures parsed.Some? && parsed.value.messageType !in {"register", "message"} ==>
      r == Outcome(reg, [])
    ensures parsed.Some? && parsed.value.messageType == "register" ==>
      r == RegisterUser(reg, conn, parsed.value.data, parse, stringify)
    ensures parsed.Some? && parsed.value.messageType == "message" ==>
      r == RelayMessage(reg, conn, parsed.value.data)
  {
    match parsed
    case None => Outcome(reg, [])
    case Some(req) =>
      if req.messageType == "register" then RegisterUser(reg, conn, req.data, parse, stringify)
      else if req.messageType == "message" then RelayMessage(reg, conn, req.data)
      else Outcome(reg, [])
  }

  /** The entries whose connection is still among the server's clients, in
      registry order. */
  function KeepLive(reg: seq<Entry>, clients: set<ConnId>): (r: seq<Entry>)
    ensures |r| <= |reg|
    ensures forall e :: e in r <==> e in reg && e.conn in clients
    decreases |reg|
  {
    if reg == [] then []
    else if reg[0].conn in clients then [reg[0]] + KeepLive(reg[1..], clients)
    else KeepLive(reg[1..], clients)
  }

  /** Order preservation: pruning a concatenation prunes each part. */
  lemma {:induction false} KeepLiveConcat(a: seq<Entry>, b: seq<Entry>, clients: set<ConnId>)
    ensures KeepLive(a + b, clients) == KeepLive(a, clients) + KeepLive(b, clients)
    decreases |a|
  {
    if a == [] {
      assert a + b == b;
    } else {
      assert (a + b)[0] == a[0];
      assert (a + b)[1..] == a[1..] + b;
      KeepLiveConcat(a[1..], b, clients);
    }
  }

  /** Nothing is lost exactly when every connection is live, and then the
      registry comes back unchanged. */
  lemma {:induction false} KeepLiveFull(reg: seq<Entry>, clients: set<ConnId>)
    ensures |KeepLive(reg, clients)| == |reg| <==> forall i :: 0 <= i < |reg| ==> reg[i].conn in clients
    ensures |KeepLive(reg, clients)| == |reg| ==> KeepLive(reg, clients) == reg
    decreases |reg|
  {
    if reg != [] {
      KeepLiveFull(reg[1..], clients);
      if reg[0].conn in clients {
        if forall i :: 0 <= i < |reg[1..]| ==> reg[1..][i].conn in clients {
          assert forall i :: 0 <= i < |reg| ==> reg[i].conn in clients by {
            forall i | 0 <= i < |reg| ensures reg[i].conn in clients {
              if i > 0 { assert reg[i] == reg[1..][i - 1]; }
            }
          }
        }
        assert [reg[0]] + reg[1..] == reg;
      } else {
        assert |KeepLive(reg[1..], clients)| <= |reg[1..]|;
      }
    }
  }

  /** Pruning twice is pruning once. */
  lemma KeepLiveIdempotent(reg: seq<Entry>, clients: set<ConnId>)
    ensures KeepLive(KeepLive(reg, clients), clients) == KeepLive(reg, clients)
  {
  }

  /** The periodic `ping` step, as written: the live entries are kept, and
      only when some entry was dropped is the registry replaced and a roster
      list of bare names broadcast. */
  function Prune(reg: seq<Entry>, clients: set<ConnId>): (r: Outcome)
    ensures r.registry == KeepLive(reg, clients)
    ensures r.sent == [] <==> forall i :: 0 <= i < |reg| ==> reg[i].conn in clients
    ensures r.sent != [] ==> r.sent == [UsersList(Names(r.registry))]
  {
    KeepLiveFull(reg, clients);
    var live := KeepLive(reg, clients);
    if |live| != |reg| then Outcome(live, [UsersList(Names(live))])
    else Outcome(reg, [])
  }

  /** Registering twice from one connection gives two entries, and messages
      from it are then relayed under the first entry's name. */
  lemma NoDeduplication(reg: seq<Entry>, conn: ConnId, p1: UserProfile, p2: UserProfile,
                        parse: string -> Option<UserProfile>, stringify: UserProfile -> string,
                        d1: string, d2: string, text: Option<string>)
    requires forall i :: 0 <= i < |reg| ==> reg[i].conn != conn
    requires parse(d1) == Some(p1) && parse(d2) == Some(p2)
    ensures var r1 := RegisterUser(reg, conn, Some(d1), parse, stringify);
            var r2 := RegisterUser(r1.registry, conn, Some(d2), parse, stringify);
            && r2.registry == reg + [Entry(conn, p1), Entry(conn, p2)]
            && RelayMessage(r2.registry, conn, text).sent == [Relay(p1.name, text)]
  {
  }
}
