/** The client's transport, event registry and command encoder
    (frontend/src/services/websocketservice.ts).

    Callbacks are values of a type `H` compared by equality, which stands for
    JavaScript's reference identity. The socket is reduced to its ready state
    and to the sequence of envelopes written to it (`outbox`); inbound frames
    arrive already decoded. */
module WebSocketService {
  import opened Wrappers

  datatype User = User(id: string, username: string)

  datatype IdeaRating = IdeaRating(
    userId: string, novelty: int, feasibility: int, usefulness: int, comment: Option<string>)

  datatype Idea = Idea(
    id: string, content: string, mediaType: string, mediaURL: Option<string>,
    submittedBy: User, ratings: seq<IdeaRating>)

  /** `ISession` as the server sends it. */
  datatype SessionInfo = SessionInfo(
    id: string, name: string, guidingQuestions: seq<string>, createdAt: string,
    creator: User, users: map<string, User>, ideas: seq<Idea>)

  /** The rating form's value `{ novelty, feasibility, usefulness, comment? }`. */
  datatype Rating = Rating(novelty: int, feasibility: int, usefulness: int, comment: Option<string>)

  /** The shapes `Message.data` takes on this connection, in both directions. */
  datatype Payload =
    | Absent
    | Text(text: string)
    | Sessions(sessions: seq<SessionInfo>)
    | SessionValue(session: SessionInfo)
    | IdeaValue(idea: Idea)
    | NewSession(name: string, guidingQuestions: seq<string>)
    | IdeaSubmission(content: string, mediaType: string, mediaURL: Option<string>)
    | RatingSubmission(ideaId: string, rating: Rating)

  /** The wire envelope `{ type, sessionId?, userId?, username?, data? }`; a missing
      `type` is the empty string (both are falsy to the dispatcher). */
  datatype Message = Message(
    kind: string, sessionId: Option<string>, userId: Option<string>,
    username: Option<string>, data: Payload)

  /** `this.socket`: null, or a WebSocket whose readyState is CONNECTING or OPEN. */
  datatype SocketState = NoSocket | Connecting | Open

  // ---- The envelope each command method builds ----

  function CreateSessionMessage(username: string, name: string, questions: seq<string>): Message {
    Message("create_session", None, None, Some(username), NewSession(name, questions))
  }

  function JoinSessionMessage(username: string, sessionId: string): Message {
    Message("join_session", Some(sessionId), None, Some(username), Absent)
  }

  function LeaveSessionMessage(): Message {
    Message("leave_session", None, None, None, Absent)
  }

  function ListSessionsMessage(): Message {
    Message("list_sessions", None, None, None, Absent)
  }

  function SessionChatMessage(sessionId: string, data: Payload): Message {
    Message("session_message", Some(sessionId), None, None, data)
  }

  function SubmitIdeaMessage(
    username: string, sessionId: string, content: string, mediaType: string, mediaURL: Option<string>): Message
  {
    Message("idea_submission", Some(sessionId), None, Some(username), IdeaSubmission(content, mediaType, mediaURL))
  }

  function AggregateIdeasMessage(sessionId: string): Message {
    Message("aggregate_ideas", Some(sessionId), None, None, Absent)
  }

  function IdeaRatingMessage(sessionId: string, ideaId: string, rating: Rating): Message {
    Message("idea_rating", Some(sessionId), None, None, RatingSubmission(ideaId, rating))
  }

  function StartDiscussionMessage(sessionId: string): Message {
    Message("start_discussion", Some(sessionId), None, None, Absent)
  }

  /** What `sendMessage(m)` writes: `m` when the socket is open, nothing otherwise. */
  function Emitted(socket: SocketState, m: Message): (out: seq<Message>)
    ensures |out| <= 1
    ensures out == [m] <==> socket == Open
    ensures socket != Open ==> out == []
  {
    if socket == Open then [m] else []
  }

  // ---- The listener registry as a value ----

  /** `this.listeners[t]`, an absent key read as the empty list. */
  function ListOf<H>(listeners: map<string, seq<H>>, t: string): seq<H> {
    if t in listeners then listeners[t] else []
  }

  /** The registry after `on(t, cb)`. */
  function Subscribe<H>(listeners: map<string, seq<H>>, t: string, cb: H): (r: map<string, seq<H>>)
    ensures r.Keys == listeners.Keys + {t}
    ensures r[t] == ListOf(listeners, t) + [cb]
    ensures forall u :: u in listeners && u != t ==> r[u] == listeners[u]
  {
    listeners[t := ListOf(listeners, t) + [cb]]
  }

  /** `list.filter((x) => x !== cb)` */
  function Without<H(==)>(list: seq<H>, cb: H): (r: seq<H>)
    ensures cb !in r
    ensures cb !in list ==> r == list
  {
    if list == [] then []
    else
      assert list == [list[0]] + list[1..];
      if list[0] == cb then Without(list[1..], cb)
      else [list[0]] + Without(list[1..], cb)
  }

  /** `off` removes every registration of `cb` and keeps every other one, as often as it occurred. */
  lemma {:induction false} WithoutCounts<H>(list: seq<H>, cb: H)
    ensures multiset(Without(list, cb)) == multiset(list)[cb := 0]
  {
    if list != [] {
      WithoutCounts(list[1..], cb);
      assert list == [list[0]] + list[1..];
      assert multiset(list) == multiset{list[0]} + multiset(list[1..]);
    }
  }

  /** Filtering distributes over concatenation, so the callbacks that remain keep their order. */
  lemma {:induction false} WithoutAppend<H>(a: seq<H>, b: seq<H>, cb: H)
    ensures Without(a + b, cb) == Without(a, cb) + Without(b, cb)
  {
    if a == [] {
      assert a + b == b;
    } else {
      var ab := a + b;
      assert ab[0] == a[0] && ab[1..] == a[1..] + b;
      WithoutAppend(a[1..], b, cb);
      if a[0] == cb {
        assert Without(ab, cb) == Without(ab[1..], cb);
        assert Without(a, cb) == Without(a[1..], cb);
      } else {
        assert Without(ab, cb) == [a[0]] + Without(ab[1..], cb);
        assert Without(a, cb) == [a[0]] + Without(a[1..], cb);
      }
    }
  }

  /** The registry after `off(t, cb)`: an unknown type is left alone. */
  function Unsubscribe<H(==)>(listeners: map<string, seq<H>>, t: string, cb: H): (r: map<string, seq<H>>)
    ensures r.Keys == listeners.Keys
    ensures t in listeners ==> r[t] == Without(listeners[t], cb)
    ensures forall u :: u in listeners && u != t ==> r[u] == listeners[u]
  {
    if t in listeners then listeners[t := Without(listeners[t], cb)] else listeners
  }

  /** `off` with a callback that was never registered for `t` changes nothing. */
  lemma UnsubscribeUnregistered<H>(listeners: map<string, seq<H>>, t: string, cb: H)
    requires cb !in ListOf(listeners, t)
    ensures Unsubscribe(listeners, t, cb) == listeners
  {
  }

  /** `on(t, cb)` then `off(t, cb)` restores `t`'s list when `cb` was not registered
      for `t`; the only trace left is an empty list for a type that had none. */
  lemma SubscribeThenUnsubscribe<H>(listeners: map<string, seq<H>>, t: string, cb: H)
    requires cb !in ListOf(listeners, t)
    ensures Unsubscribe(Subscribe(listeners, t, cb), t, cb) == listeners[t := ListOf(listeners, t)]
    ensures ListOf(Unsubscribe(Subscribe(listeners, t, cb), t, cb), t) == ListOf(listeners, t)
  {
    var before := ListOf(listeners, t);
    WithoutAppend(before, [cb], cb);
    assert [cb][1..] == [];
    assert Without([cb], cb) == [];
    assert Without(before + [cb], cb) == before;
  }

  /** The callbacks an inbound message reaches, in the order they are invoked. */
  function Fanout<H>(listeners: map<string, seq<H>>, m: Message): seq<H> {
    if m.kind != "" then ListOf(listeners, m.kind) else []
  }

  /** After `on(t, cb)` a `t` message reaches what it reached before and then `cb`. */
  lemma SubscribeThenFanout<H>(listeners: map<string, seq<H>>, cb: H, m: Message)
    requires m.kind != ""
    ensures Fanout(Subscribe(listeners, m.kind, cb), m) == Fanout(listeners, m) + [cb]
  {
  }

  /** After `off(t, cb)` a `t` message never reaches `cb`, and reaches every other
      callback as often and in the same order as before. */
  lemma UnsubscribeThenFanout<H>(listeners: map<string, seq<H>>, cb: H, m: Message)
    requires m.kind != ""
    ensures cb !in Fanout(Unsubscribe(listeners, m.kind, cb), m)
    ensures Fanout(Unsubscribe(listeners, m.kind, cb), m) == Without(Fanout(listeners, m), cb)
  {
  }

  class WebSocketService<H(==)> {
    var socket: SocketState
    var username: string
    var listeners: map<string, seq<H>>
    /** Every envelope `socket.send` has written, oldest first. */
    var outbox: seq<Message>

    constructor ()
      ensures socket == NoSocket && username == "" && listeners == map[] && outbox == []
    {
      socket := NoSocket;
      username := "";
      listeners := map[];
      outbox := [];
    }

    function GetUsername(): string
      reads this
    {
      username
    }

    /** `connect(name)`: records the name, then opens a new socket (replacing the
        reference to any earlier one). */
    method Connect(name: string)
      modifies this
      ensures username == name && socket == Connecting
      ensures listeners == old(listeners) && outbox == old(outbox)
    {
      username := name;
      socket := Connecting;
    }

    /** The socket's `open` event: the socket is usable and one `list_sessions` goes out. */
    method HandleOpen()
      requires socket == Connecting
      modifies this
      ensures socket == Open
      ensures outbox == old(outbox) + [ListSessionsMessage()]
      ensures username == old(username) && listeners == old(listeners)
    {
      socket := Open;
      ListSessions();
    }

    /** The socket's `close` event drops the reference; there is no reconnection. */
    method HandleClose()
      modifies this`socket
      ensures socket == NoSocket
    {
      socket := NoSocket;
    }

    /** `disconnect()`: a second call finds no socket and does nothing. */
    method Disconnect()
      modifies this`socket
      ensures socket == NoSocket
    {
      if socket != NoSocket {
        socket := NoSocket;
      }
    }

    /** `sendMessage(m)`: written only when the socket is open, otherwise dropped. */
    method SendMessage(m: Message)
      modifies this`outbox
      ensures outbox == old(outbox) + Emitted(socket, m)
    {
      if socket == Open {
        outbox := outbox + [m];
      }
    }

    /** `on(t, cb)`: appends `cb` to `t`'s list, creating the list first if needed. */
    method On(t: string, cb: H)
      modifies this`listeners
      ensures listeners == Subscribe(old(listeners), t, cb)
    {
      if t !in listeners {
        listeners := listeners[t := []];
      }
      listeners := listeners[t := listeners[t] + [cb]];
    }

    /** `off(t, cb)`: reassigns `t`'s list without `cb`; a no-op for an unknown type. */
    method Off(t: string, cb: H)
      modifies this`listeners
      ensures listeners == Unsubscribe(old(listeners), t, cb)
    {
      if t in listeners {
        listeners := listeners[t := Without(listeners[t], cb)];
      }
    }

    /** The socket's `message` event: the callbacks invoked with `m.data`, in order,
        once per registration; none for a message without a type or without listeners. */
    method Receive(m: Message) returns (invoked: seq<H>)
      ensures invoked == Fanout(listeners, m)
      ensures m.kind == "" || m.kind !in listeners ==> invoked == []
      ensures m.kind != "" && m.kind in listeners ==> |invoked| == |listeners[m.kind]|
    {
      invoked := [];
      if m.kind != "" && m.kind in listeners {
        var list := listeners[m.kind];
        var i := 0;
        while i < |list|
          invariant 0 <= i <= |list|
          invariant invoked == list[..i]
        {
          invoked := invoked + [list[i]];
          i := i + 1;
        }
        assert list[..|list|] == list;
      }
    }

    method CreateSession(name: string, guidingQuestions: seq<string>)
      modifies this`outbox
      ensures outbox == old(outbox) + Emitted(socket, CreateSessionMessage(username, name, guidingQuestions))
    {
      SendMessage(CreateSessionMessage(username, name, guidingQuestions));
    }

    method JoinSession(sessionId: string)
      modifies this`outbox
      ensures outbox == old(outbox) + Emitted(socket, JoinSessionMessage(username, sessionId))
    {
      SendMessage(JoinSessionMessage(username, sessionId));
    }

    method LeaveSession()
      modifies this`outbox
      ensures outbox == old(outbox) + Emitted(socket, LeaveSessionMessage())
    {
      SendMessage(LeaveSessionMessage());
    }

    method ListSessions()
      modifies this`outbox
      ensures outbox == old(outbox) + Emitted(socket, ListSessionsMessage())
    {
      SendMessage(ListSessionsMessage());
    }

    method SendSessionMessage(sessionId: string, data: Payload)
      modifies this`outbox
      ensures outbox == old(outbox) + Emitted(socket, SessionChatMessage(sessionId, data))
    {
      SendMessage(SessionChatMessage(sessionId, data));
    }

    /** `submitIdea(sessionId, content, mediaType = 'text', mediaURL?)` */
    method SubmitIdea(sessionId: string, content: string, mediaType: string := "text", mediaURL: Option<string> := None)
      modifies this`outbox
      ensures outbox == old(outbox) + Emitted(socket, SubmitIdeaMessage(username, sessionId, content, mediaType, mediaURL))
    {
      SendMessage(SubmitIdeaMessage(username, sessionId, content, mediaType, mediaURL));
    }

    method AggregateIdeas(sessionId: string)
      modifies this`outbox
      ensures outbox == old(outbox) + Emitted(socket, AggregateIdeasMessage(sessionId))
    {
      SendMessage(AggregateIdeasMessage(sessionId));
    }

    method SendIdeaRating(sessionId: string, ideaId: string, rating: Rating)
      modifies this`outbox
      ensures outbox == old(outbox) + Emitted(socket, IdeaRatingMessage(sessionId, ideaId, rating))
    {
      SendMessage(IdeaRatingMessage(sessionId, ideaId, rating));
    }

    method StartDiscussion(sessionId: string)
      modifies this`outbox
      ensures outbox == old(outbox) + Emitted(socket, StartDiscussionMessage(sessionId))
    {
      SendMessage(StartDiscussionMessage(sessionId));
    }
  }

  /** The submit-idea command with its default media type sends what an explicit
      `'text'` sends. */
  method SubmitIdeaDefaultsToText<H(==)>(ws: WebSocketService<H>, sessionId: string, content: string)
    modifies ws`outbox
    ensures ws.outbox == old(ws.outbox) + Emitted(ws.socket, SubmitIdeaMessage(ws.username, sessionId, content, "text", None))
  {
    ws.SubmitIdea(sessionId, content);
  }
}
