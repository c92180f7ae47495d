/** websocket/InvoiceWebSocketHandler.java: the registry of push sessions,
    one slot per username, and the sends that go through it. */
module WebSocket {
  import opened Wrappers
  import opened Text

  /** A WebSocket session, known by its id. */
  datatype Session = Session(id: string)

  /** One text frame sent on a session. */
  datatype Delivery = Delivery(session: Session, text: string)

  const TOKEN_PREFIX: string := "token="
  const ECHO_PREFIX: string := "Ontvangen: "

  /** The token carried by the connection's query string: everything after
      a leading `token=`, taken verbatim; none when there is no query or it
      does not start that way. */
  function TokenOf(query: Option<string>): (r: Option<string>)
    ensures r.Some? <==> query.Some? && StartsWith(query.value, TOKEN_PREFIX)
    ensures r.Some? ==> TOKEN_PREFIX + r.value == query.value
  {
    if query.Some? && StartsWith(query.value, TOKEN_PREFIX) then
      assert query.value == query.value[..|TOKEN_PREFIX|] + query.value[|TOKEN_PREFIX|..];
      Some(query.value[|TOKEN_PREFIX|..])
    else None
  }

  /** Any token put after `token=` is read back unchanged. */
  lemma TokenRoundTrip(t: string)
    ensures TokenOf(Some(TOKEN_PREFIX + t)) == Some(t)
  {
    assert (TOKEN_PREFIX + t)[..|TOKEN_PREFIX|] == TOKEN_PREFIX;
    assert (TOKEN_PREFIX + t)[|TOKEN_PREFIX|..] == t;
  }

  /** Further query parameters become part of the token, and a token that is
      not the first parameter is not found. */
  lemma QueryIsNotParsed()
    ensures TokenOf(Some("token=abc&x=1")) == Some("abc&x=1")
    ensures TokenOf(Some("x=1&token=abc")) == None
  {
    TokenRoundTrip("abc&x=1");
    assert "token=abc&x=1" == TOKEN_PREFIX + "abc&x=1";
    assert "x=1&token=abc"[0] != TOKEN_PREFIX[0];
  }

  /** The username a connection is registered under: present only when the
      query carries a token, the token validates, and the token names a
      subject (`extract` gives none where the token has no subject, which
      makes the registry's `put` throw). */
  function Admit(query: Option<string>, validate: string -> bool, extract: string -> Option<string>): (r: Option<string>)
    ensures r.Some? <==>
      TokenOf(query).Some? && validate(TokenOf(query).value) && extract(TokenOf(query).value).Some?
    ensures r.Some? ==> r == extract(TokenOf(query).value)
  {
    var token := TokenOf(query);
    if token.None? || !validate(token.value) then None else extract(token.value)
  }

  /** The registry with every entry held by the session with that id removed. */
  function WithoutSession(sessions: map<string, Session>, id: string): (r: map<string, Session>)
    ensures forall u :: u in r <==> u in sessions && sessions[u].id != id
    ensures forall u :: u in r ==> r[u] == sessions[u]
  {
    map u | u in sessions && sessions[u].id != id :: sessions[u]
  }

  /** The users a notification goes to: the creator, and the receiver as
      well when there is one and it is not the creator. */
  function Recipients(creator: string, receiver: Option<string>): (r: seq<string>)
    ensures |r| >= 1 && r[0] == creator
    ensures forall i, j :: 0 <= i < j < |r| ==> r[i] != r[j]
    ensures forall u :: u in r <==> u == creator || (receiver == Some(u))
  {
    if receiver.Some? && receiver.value != creator then [creator, receiver.value] else [creator]
  }

  /** What sending `message` to `username` puts on the wire: one frame on
      the user's session when it is registered and open and the send does
      not fail, nothing otherwise. */
  function SendTo(sessions: map<string, Session>, username: string, message: string,
                  isOpen: Session -> bool, sendFails: Session -> bool): (r: seq<Delivery>)
    ensures |r| <= 1
    ensures |r| == 1 <==> username in sessions && isOpen(sessions[username]) && !sendFails(sessions[username])
    ensures |r| == 1 ==> r[0] == Delivery(sessions[username], message)
  {
    if username in sessions && isOpen(sessions[username]) && !sendFails(sessions[username]) then
      [Delivery(sessions[username], message)]
    else []
  }

  /** `username` has a registered, open session whose send does not fail. */
  predicate Reachable(sessions: map<string, Session>, username: string, isOpen: Session -> bool, sendFails: Session -> bool)
  {
    username in sessions && isOpen(sessions[username]) && !sendFails(sessions[username])
  }

  /** The frames sent to the recipients, in order: every frame carries the
      message to the session of a reachable recipient, and every reachable
      recipient's session gets it. */
  function Fanout(sessions: map<string, Session>, users: seq<string>, message: string,
                  isOpen: Session -> bool, sendFails: Session -> bool): (r: seq<Delivery>)
    ensures |r| <= |users|
    ensures forall d :: d in r ==>
      d.text == message && exists u :: u in users && Reachable(sessions, u, isOpen, sendFails) && d.session == sessions[u]
    ensures forall u :: u in users && Reachable(sessions, u, isOpen, sendFails) ==> Delivery(sessions[u], message) in r
  {
    if users == [] then []
    else
      var first := SendTo(sessions, users[0], message, isOpen, sendFails);
      var rest := Fanout(sessions, users[1..], message, isOpen, sendFails);
      assert users[0] in users;
      assert forall u :: u in users[1..] ==> u in users;
      assert forall u :: u in users ==> u == users[0] || u in users[1..];
      first + rest
  }

  /** A receiver equal to the creator is sent to once, as if absent. */
  lemma ReceiverIsCreator(sessions: map<string, Session>, creator: string, message: string,
                          isOpen: Session -> bool, sendFails: Session -> bool)
    ensures Fanout(sessions, Recipients(creator, Some(creator)), message, isOpen, sendFails)
         == Fanout(sessions, Recipients(creator, None), message, isOpen, sendFails)
    ensures |Fanout(sessions, Recipients(creator, Some(creator)), message, isOpen, sendFails)| <= 1
  {
  }

  /** A user with no registered session is sent nothing. */
  lemma {:induction false} UnregisteredGetsNothing(sessions: map<string, Session>, users: seq<string>, message: string,
                                isOpen: Session -> bool, sendFails: Session -> bool)
    requires forall u :: u in users ==> u !in sessions
    ensures Fanout(sessions, users, message, isOpen, sendFails) == []
  {
    if users != [] {
      assert users[0] in users;
      assert forall u :: u in users[1..] ==> u in users;
      UnregisteredGetsNothing(sessions, users[1..], message, isOpen, sendFails);
    }
  }

  /** The handler's state: the registry, the ids of the sessions it closed,
      and every frame it sent. */
  class InvoiceWebSocketHandler {
    var userSessions: map<string, Session>
    var closed: set<string>
    var outbox: seq<Delivery>

    constructor ()
      ensures userSessions == map[] && closed == {} && outbox == []
    {
      userSessions, closed, outbox := map[], {}, [];
    }

    /** afterConnectionEstablished: an admitted session takes its user's slot,
        replacing any earlier one; any other session is closed and the
        registry is left as it was. */
    method AfterConnectionEstablished(session: Session, query: Option<string>,
                                      validate: string -> bool, extract: string -> Option<string>)
      modifies this
      ensures var user := Admit(query, validate, extract);
        && (user.Some? ==> userSessions == old(userSessions)[user.value := session] && closed == old(closed))
        && (user.None? ==> userSessions == old(userSessions) && closed == old(closed) + {session.id})
      ensures outbox == old(outbox)
    {
      var token := TokenOf(query);
      if token.None? {
        closed := closed + {session.id};
        return;
      }
      if !validate(token.value) {
        closed := closed + {session.id};
        return;
      }
      var username := extract(token.value);
      if username.None? {
        closed := closed + {session.id};
        return;
      }
      userSessions := userSessions[username.value := session];
    }

    /** handleTextMessage: the payload is echoed back on the same session. */
    method HandleTextMessage(session: Session, payload: string)
      modifies this
      ensures outbox == old(outbox) + [Delivery(session, ECHO_PREFIX + payload)]
      ensures userSessions == old(userSessions) && closed == old(closed)
    {
      outbox := outbox + [Delivery(session, ECHO_PREFIX + payload)];
    }

    /** afterConnectionClosed: every entry held by that session goes, all
        others stay. */
    method AfterConnectionClosed(session: Session)
      modifies this
      ensures userSessions == WithoutSession(old(userSessions), session.id)
      ensures closed == old(closed) && outbox == old(outbox)
    {
      userSessions := map u | u in userSessions && userSessions[u].id != session.id :: userSessions[u];
    }

    /** sendToSingleUser: a missing or closed session is skipped and a failing
        send is swallowed; nothing is raised. */
    method SendToSingleUser(username: string, message: string, isOpen: Session -> bool, sendFails: Session -> bool)
      modifies this
      ensures outbox == old(outbox) + SendTo(userSessions, username, message, isOpen, sendFails)
      ensures userSessions == old(userSessions) && closed == old(closed)
    {
      if username in userSessions {
        var session := userSessions[username];
        if isOpen(session) {
          if !sendFails(session) {
            outbox := outbox + [Delivery(session, message)];
          }
        }
      }
    }

    /** sendToUser: the creator first, then the receiver when present and different. */
    method SendToUser(creator: string, receiver: Option<string>, message: string,
                      isOpen: Session -> bool, sendFails: Session -> bool)
      modifies this
      ensures outbox == old(outbox) + Fanout(userSessions, Recipients(creator, receiver), message, isOpen, sendFails)
      ensures userSessions == old(userSessions) && closed == old(closed)
    {
      SendToSingleUser(creator, message, isOpen, sendFails);
      if receiver.Some? && receiver.value != creator {
        SendToSingleUser(receiver.value, message, isOpen, sendFails);
      }
    }
  }

  /** Once a user's session closes, nothing more reaches that user. */
  lemma ClosedSessionUnreachable(sessions: map<string, Session>, username: string, session: Session, message: string,
                                 isOpen: Session -> bool, sendFails: Session -> bool)
    ensures SendTo(WithoutSession(sessions[username := session], session.id), username, message, isOpen, sendFails) == []
  {
  }
}
