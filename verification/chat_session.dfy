/** The client's chat component (YewChat/src/components/chat.rs): registering
    the local user on creation, folding inbound envelopes into a roster and a
    message log, and building the outbound envelope for a typed message.

    serde_json is not modelled: the operations take the decoded envelope, and
    the decoders for its payloads, as inputs. Every `unwrap` on a decode result
    in the source is a panic that abandons the update, modelled as `Panic` with
    no state change. */
module ChatSession {
  import opened Protocol

  /** Avatar URLs: three special names and one shared default. */
  const MikuAvatar: string := "https://raw.githubusercontent.com/hyvos07/yewchat/refs/heads/main/YewChat/static/miku.png"
  const TetoAvatar: string := "https://raw.githubusercontent.com/hyvos07/yewchat/refs/heads/main/YewChat/static/teto.jpg"
  const NeruAvatar: string := "https://raw.githubusercontent.com/hyvos07/yewchat/refs/heads/main/YewChat/static/neru.jpg"
  const DefaultAvatar: string := "https://api.dicebear.com/9.x/lorelei/svg"

  /** The only spellings that select a special avatar: capitalised or all
      lower case, nothing else. */
  predicate IsMiku(name: string) { name == "Miku" || name == "miku" }
  predicate IsTeto(name: string) { name == "Teto" || name == "teto" }
  predicate IsNeru(name: string) { name == "Neru" || name == "neru" }

  /** The client-held state: the last roster snapshot and the message log. */
  datatype Session = Session(users: seq<UserProfile>, messages: seq<MessageData>)

  /** Payload decoders (serde_json in the source): `None` is a parse error. */
  datatype Decoders = Decoders(profile: string -> Option<UserProfile>, message: string -> Option<MessageData>)

  /** What one `update` call does: either it panics on an `unwrap`, leaving
      nothing changed, or it yields the new state and the re-render flag. */
  datatype Step = Panic | Updated(session: Session, rerender: bool)

  /** The component right after `create`: its state and the registration
      envelope it queued. */
  datatype Created = Created(session: Session, profile: UserProfile, registration: Envelope)

  /** What `SubmitMessage` does: the state (untouched), the envelope queued for
      sending, if any, the input field's content afterwards and the re-render
      flag. `input` is `None` when the field is not mounted. */
  datatype Submission = Submission(session: Session, sent: Option<Envelope>, inputAfter: Option<string>, rerender: bool)

  function Avatar(username: string): (url: string)
    ensures url == MikuAvatar <==> IsMiku(username)
    ensures url == TetoAvatar <==> IsTeto(username)
    ensures url == NeruAvatar <==> IsNeru(username)
    ensures url == DefaultAvatar <==> !IsMiku(username) && !IsTeto(username) && !IsNeru(username)
  {
    AvatarsDistinct();
    if IsMiku(username) then MikuAvatar
    else if IsTeto(username) then TetoAvatar
    else if IsNeru(username) then NeruAvatar
    else DefaultAvatar
  }

  /** The four avatar URLs differ pairwise. */
  lemma AvatarsDistinct()
    ensures MikuAvatar != TetoAvatar && MikuAvatar != NeruAvatar && TetoAvatar != NeruAvatar
    ensures DefaultAvatar != MikuAvatar && DefaultAvatar != TetoAvatar && DefaultAvatar != NeruAvatar
  {
  }

  /** The allow-list in concrete cases: exact spellings only, no case folding. */
  lemma AvatarExamples()
    ensures Avatar("Miku") == MikuAvatar && Avatar("miku") == MikuAvatar
    ensures Avatar("Teto") == TetoAvatar && Avatar("teto") == TetoAvatar
    ensures Avatar("Neru") == NeruAvatar && Avatar("neru") == NeruAvatar
    ensures Avatar("MIKU") == DefaultAvatar && Avatar("Alice") == DefaultAvatar
  {
  }

  /** The profile the component registers: the typed name and bio, with the
      avatar the name selects. */
  function LocalProfile(username: string, bio: string): (p: UserProfile)
    ensures p.name == username && p.bio == bio
    ensures p.avatar == MikuAvatar <==> IsMiku(username)
    ensures p.avatar == TetoAvatar <==> IsTeto(username)
    ensures p.avatar == NeruAvatar <==> IsNeru(username)
    ensures p.avatar == DefaultAvatar <==> !IsMiku(username) && !IsTeto(username) && !IsNeru(username)
  {
    UserProfile(username, Avatar(username), bio)
  }

  /** `create`: an empty session and a `Register` envelope whose `data` is the
      serialized local profile. */
  function Create(username: string, bio: string, encodeProfile: UserProfile -> string): (c: Created)
    ensures c.session.users == [] && c.session.messages == []
    ensures c.profile.name == username && c.profile.bio == bio && c.profile.avatar == Avatar(username)
    ensures c.registration.messageType == Register
    ensures c.registration.dataArray == None
    ensures c.registration.data == Some(encodeProfile(c.profile))
  {
    var profile := LocalProfile(username, bio);
    Created(Session([], []), profile, Envelope(Register, None, Some(encodeProfile(profile))))
  }

  /** Decodes every roster element, all or nothing: the source's `collect`
      over `unwrap` panics at the first element that does not parse. */
  function DecodeProfiles(items: seq<string>, decode: string -> Option<UserProfile>): (r: Option<seq<UserProfile>>)
    ensures r.Some? <==> forall i :: 0 <= i < |items| ==> decode(items[i]).Some?
    ensures r.Some? ==> |r.value| == |items|
    ensures r.Some? ==> forall i :: 0 <= i < |items| ==> Some(r.value[i]) == decode(items[i])
  {
    if items == [] then Some([])
    else
      match decode(items[0])
      case None => None
      case Some(p) =>
        match DecodeProfiles(items[1..], decode)
        case None => None
        case Some(rest) => Some([p] + rest)
  }

  /** `update(HandleMsg)`: fold one inbound envelope into the session.
      `decoded` is the result of parsing the raw text as an envelope. */
  function HandleMsg(s: Session, decoded: Option<Envelope>, dec: Decoders): (r: Step)
    // a malformed envelope aborts the update
    ensures decoded.None? ==> r == Panic
    // `users`: the roster is replaced, element by element and in order, by
    // the decoded `dataArray` (empty when absent); the log is untouched
    ensures decoded.Some? && decoded.value.messageType == Users ==>
      var items := decoded.value.dataArray.GetOr([]);
      && (r.Updated? <==> forall i :: 0 <= i < |items| ==> dec.profile(items[i]).Some?)
      && (r.Updated? ==>
            && r.rerender
            && r.session.messages == s.messages
            && |r.session.users| == |items|
            && forall i :: 0 <= i < |items| ==> Some(r.session.users[i]) == dec.profile(items[i]))
    // `message`: exactly one entry is appended to the log, the roster is untouched
    ensures decoded.Some? && decoded.value.messageType == Message ==>
      var data := decoded.value.data;
      && (r.Updated? <==> data.Some? && dec.message(data.value).Some?)
      && (r.Updated? ==>
            && r.rerender
            && r.session.users == s.users
            && |r.session.messages| == |s.messages| + 1
            && r.session.messages[..|s.messages|] == s.messages
            && Some(r.session.messages[|s.messages|]) == dec.message(data.value))
    // an inbound `register` changes nothing and asks for no re-render
    ensures decoded.Some? && decoded.value.messageType == Register ==> r == Updated(s, false)
  {
    match decoded
    case None => Panic
    case Some(e) =>
      match e.messageType
      case Users =>
        (match DecodeProfiles(e.dataArray.GetOr([]), dec.profile)
         case None => Panic
         case Some(roster) => Updated(Session(roster, s.messages), true))
      case Message =>
        (match e.data
         case None => Panic
         case Some(text) =>
           match dec.message(text)
           case None => Panic
           case Some(m) => Updated(Session(s.users, s.messages + [m]), true))
      case Register => Updated(s, false)
  }

  /** `update(SubmitMessage)`: the field's text, verbatim and even when empty,
      becomes the `data` of an outbound `message` envelope; the field is
      cleared and the session is not touched. */
  function Submit(s: Session, input: Option<string>): (r: Submission)
    ensures r.session == s && !r.rerender
    ensures input.None? ==> r.sent.None? && r.inputAfter.None?
    ensures input.Some? ==>
      && r.sent.Some?
      && r.sent.value.messageType == Message
      && r.sent.value.data == input
      && r.sent.value.dataArray.None?
      && r.inputAfter == Some("")
  {
    match input
    case None => Submission(s, None, None, false)
    case Some(text) => Submission(s, Some(Envelope(Message, None, Some(text))), Some(""), false)
  }

  /** A stream of inbound envelopes folded in order; the first panic ends the
      component, so nothing after it is processed. Only a `users` envelope
      can change the roster, and only a `message` envelope can change the log. */
  function Run(s: Session, inbox: seq<Option<Envelope>>, dec: Decoders): (r: Option<Session>)
    ensures r.Some? && r.value.users != s.users ==>
      exists i :: 0 <= i < |inbox| && inbox[i].Some? && inbox[i].value.messageType == Users
    ensures r.Some? && r.value.messages != s.messages ==>
      exists i :: 0 <= i < |inbox| && inbox[i].Some? && inbox[i].value.messageType == Message
    decreases |inbox|
  {
    if inbox == [] then Some(s)
    else
      match HandleMsg(s, inbox[0], dec)
      case Panic => None
      case Updated(t, _) =>
        var r := Run(t, inbox[1..], dec);
        assert forall i :: 0 <= i < |inbox[1..]| ==> inbox[1..][i] == inbox[i + 1];
        r
  }

  /** Folding a concatenation is folding the parts one after the other. */
  lemma {:induction false} RunConcat(s: Session, a: seq<Option<Envelope>>, b: seq<Option<Envelope>>, dec: Decoders)
    ensures Run(s, a + b, dec) == (match Run(s, a, dec) case None => None case Some(t) => Run(t, b, dec))
    decreases |a|
  {
    if a == [] {
      assert a + b == b;
    } else {
      assert (a + b)[0] == a[0];
      assert (a + b)[1..] == a[1..] + b;
      match HandleMsg(s, a[0], dec)
      case Panic =>
      case Updated(t, _) => RunConcat(t, a[1..], b, dec);
    }
  }

  /** A well-formed `message` envelope whose payload decodes to `m`. */
  predicate Carries(e: Option<Envelope>, m: MessageData, dec: Decoders)
  {
    && e.Some?
    && e.value.messageType == Message
    && e.value.data.Some?
    && dec.message(e.value.data.value) == Some(m)
  }

  /** Message append: folding envelopes that carry `ms` leaves the roster alone
      and extends the log by exactly `ms`, in order. */
  lemma {:induction false} MessagesAppendInOrder(s: Session, inbox: seq<Option<Envelope>>, ms: seq<MessageData>, dec: Decoders)
    requires |inbox| == |ms|
    requires forall i :: 0 <= i < |inbox| ==> Carries(inbox[i], ms[i], dec)
    ensures Run(s, inbox, dec) == Some(Session(s.users, s.messages + ms))
    decreases |inbox|
  {
    if inbox == [] {
      assert s.messages + ms == s.messages;
    } else {
      assert Carries(inbox[0], ms[0], dec);
      var t := Session(s.users, s.messages + [ms[0]]);
      assert HandleMsg(s, inbox[0], dec) == Updated(t, true);
      assert forall i :: 0 <= i < |inbox[1..]| ==> Carries(inbox[1..][i], ms[1..][i], dec) by {
        forall i | 0 <= i < |inbox[1..]| ensures Carries(inbox[1..][i], ms[1..][i], dec) {
          assert Carries(inbox[i + 1], ms[i + 1], dec);
        }
      }
      MessagesAppendInOrder(t, inbox[1..], ms[1..], dec);
      assert s.messages + [ms[0]] + ms[1..] == s.messages + ms by {
        assert [ms[0]] + ms[1..] == ms;
      }
    }
  }

  /** The log is append-only: whatever a successful fold does, the earlier log
      is a prefix of the later one. */
  lemma {:induction false} LogOnlyGrows(s: Session, inbox: seq<Option<Envelope>>, dec: Decoders)
    requires Run(s, inbox, dec).Some?
    ensures s.messages <= Run(s, inbox, dec).value.messages
    decreases |inbox|
  {
    if inbox != [] {
      match HandleMsg(s, inbox[0], dec)
      case Updated(t, _) =>
        assert s.messages <= t.messages;
        LogOnlyGrows(t, inbox[1..], dec);
    }
  }

  /** One malformed envelope anywhere in the stream means the fold does not
      complete: the source has no per-message isolation. */
  lemma {:induction false} MalformedAborts(s: Session, inbox: seq<Option<Envelope>>, dec: Decoders, k: nat)
    requires k < |inbox| && inbox[k].None?
    ensures Run(s, inbox, dec).None?
    decreases |inbox|
  {
    if k == 0 {
    } else {
      match HandleMsg(s, inbox[0], dec)
      case Panic =>
      case Updated(t, _) => MalformedAborts(t, inbox[1..], dec, k - 1);
    }
  }

  /** Roster replace: the roster after a `users` envelope depends only on the
      envelope, never on the roster before it. */
  lemma RosterForgetsPrevious(s1: Session, s2: Session, e: Envelope, dec: Decoders)
    requires e.messageType == Users
    requires s1.messages == s2.messages
    ensures HandleMsg(s1, Some(e), dec) == HandleMsg(s2, Some(e), dec)
  {
  }
}
