/** The server's message router (backend/websocket/hub.go): which client is in which
    session, what each inbound message does to the session registry, and who is sent
    what. Each client's `send` channel is a mailbox: the messages queued for that
    client, in order. Broadcasts walk a Go map, so the order in which different
    clients are reached is unspecified and not modelled; each client's own order is. */
module Hub {
  import opened Wrappers
  import opened Text
  import Json
  import SM = SessionManager

  /** A connection and the user id it was given. */
  datatype Client = Client(conn: nat, userId: string)

  /** What a `Message`'s `Data` holds: nothing, a decoded inbound JSON value echoed
      back, a string, a session, a list of sessions, or an idea. Sessions are
      recorded as they were when the message was marshalled. */
  datatype Data =
    | NoData
    | Raw(value: Json.Value)
    | Str(s: string)
    | SessionData(session: SM.SessionView)
    | SessionsData(sessions: seq<SM.SessionView>)
    | IdeaData(idea: SM.Idea)

  /** The wire envelope; an omitted string field is "". */
  datatype Message = Message(kind: string, sessionId: string, userId: string, username: string, data: Data)

  /** An envelope the server composes itself: no user fields. */
  function ServerMessage(kind: string, sessionId: string, data: Data): Message {
    Message(kind, sessionId, "", "", data)
  }

  function ErrorMessage(text: string): Message {
    ServerMessage("error", "", Str(text))
  }

  function SessionsListMessage(listed: seq<SM.SessionView>): Message {
    ServerMessage("sessions_list", "", SessionsData(listed))
  }

  function SessionUpdated(id: string, view: SM.SessionView): Message {
    ServerMessage("session_updated", id, SessionData(view))
  }

  const InvalidCreateData: string := "Invalid session creation data"
  const CreateFieldsRequired: string := "Session name and guiding questions are required"
  const SessionNotFound: string := "Session not found"
  const DiscussionText: string := "Group discussion phase has started. Please join the chat."
  const AggregateHeader: string := "Aggregated Ideas:\n"

  /** The message types `HandleMessage` dispatches on. */
  const HandledKinds: set<string> := {
    "create_session", "join_session", "leave_session", "list_sessions", "session_message",
    "idea_submission", "aggregate_ideas", "idea_rating", "start_discussion"}

  // Mailboxes

  type Mailboxes = map<Client, seq<Message>>

  function Mailbox(sent: Mailboxes, c: Client): seq<Message> {
    if c in sent then sent[c] else []
  }

  /** `m` queued once for each client of `targets`. */
  function Post(sent: Mailboxes, targets: set<Client>, m: Message): Mailboxes {
    map c | c in sent.Keys + targets :: if c in targets then Mailbox(sent, c) + [m] else sent[c]
  }

  /** A post reaches exactly its targets, once each, after what they already had. */
  lemma PostReachesExactlyTargets(sent: Mailboxes, targets: set<Client>, m: Message, c: Client)
    ensures c in targets ==> Mailbox(Post(sent, targets, m), c) == Mailbox(sent, c) + [m]
    ensures c !in targets ==> Mailbox(Post(sent, targets, m), c) == Mailbox(sent, c)
  {
  }

  /** Posting to nobody changes nothing. */
  lemma PostToNobody(sent: Mailboxes, m: Message)
    ensures Post(sent, {}, m) == sent
  {
    var p := Post(sent, {}, m);
    assert p.Keys == sent.Keys;
    assert forall c :: c in sent ==> p[c] == sent[c];
  }

  /** Posting to one client appends to that client's mailbox only. */
  lemma PostToOne(sent: Mailboxes, c: Client, m: Message)
    ensures Post(sent, {c}, m) == sent[c := Mailbox(sent, c) + [m]]
  {
    var p := Post(sent, {c}, m);
    var q := sent[c := Mailbox(sent, c) + [m]];
    assert p.Keys == q.Keys;
    forall k | k in p ensures p[k] == q[k] {
    }
  }

  /** Posting to one more client, one at a time, is posting to the larger set. */
  lemma PostOneMore(sent: Mailboxes, targets: set<Client>, c: Client, m: Message)
    requires c !in targets
    ensures Post(Post(sent, targets, m), {c}, m) == Post(sent, targets + {c}, m)
  {
    var p := Post(sent, targets, m);
    var q := Post(sent, targets + {c}, m);
    var r := Post(p, {c}, m);
    assert Mailbox(p, c) == Mailbox(sent, c);
    assert r.Keys == q.Keys;
    forall k | k in q ensures r[k] == q[k] {
      assert Mailbox(p, k) == Mailbox(sent, k) + (if k in targets then [m] else []);
    }
  }

  /** The clients mapped to session `id`. */
  function Members(clientSessions: map<Client, string>, id: string): set<Client> {
    set c | c in clientSessions && clientSessions[c] == id
  }

  // Payload parsing

  /** The string elements of a decoded JSON array, in order; others are skipped. */
  function StringsOf(items: seq<Json.Value>): seq<string> {
    if items == [] then []
    else
      var last := items[|items| - 1];
      StringsOf(items[..|items| - 1]) + (if last.String? then [last.s] else [])
  }

  /** Filtering distributes over concatenation: the strings keep their order. */
  lemma {:induction false} StringsOfAppend(a: seq<Json.Value>, b: seq<Json.Value>)
    ensures StringsOf(a + b) == StringsOf(a) + StringsOf(b)
    decreases |b|
  {
    if b != [] {
      var init := b[..|b| - 1];
      assert (a + b)[..|a + b| - 1] == a + init;
      StringsOfAppend(a, init);
    } else {
      assert a + b == a;
    }
  }

  /** Exactly the strings of the array survive. */
  lemma {:induction false} StringsOfMembership(items: seq<Json.Value>, s: string)
    ensures s in StringsOf(items) <==> Json.String(s) in items
    decreases |items|
  {
    if items != [] {
      var init := items[..|items| - 1];
      StringsOfMembership(init, s);
      assert items == init + [items[|items| - 1]];
    }
  }

  /** The name and questions of a `create_session`, or the error it is refused with. */
  function CreateRequest(data: Data): Result<(string, seq<string>), string> {
    if !(data.Raw? && data.value.Object?) then Err(InvalidCreateData)
    else
      var fields := data.value.fields;
      var nameOk := "name" in fields && fields["name"].String?;
      var gqOk := "guidingQuestions" in fields && fields["guidingQuestions"].Array?;
      if !nameOk || fields["name"].s == "" || !gqOk then Err(CreateFieldsRequired)
      else Ok((fields["name"].s, StringsOf(fields["guidingQuestions"].items)))
  }

  /** A creation goes ahead exactly when the data is an object with a non-empty
      string `name` and an array `guidingQuestions`; the questions are the array's
      strings. */
  lemma CreateRequestAccepts(data: Data)
    ensures CreateRequest(data).Ok? <==>
      && data.Raw? && data.value.Object?
      && "name" in data.value.fields && data.value.fields["name"] != Json.String("")
      && data.value.fields["name"].String?
      && "guidingQuestions" in data.value.fields && data.value.fields["guidingQuestions"].Array?
    ensures CreateRequest(data).Ok? ==>
      forall q :: q in CreateRequest(data).value.1 <==> Json.String(q) in data.value.fields["guidingQuestions"].items
    ensures CreateRequest(data).Err? ==>
      CreateRequest(data).error == (if data.Raw? && data.value.Object? then CreateFieldsRequired else InvalidCreateData)
  {
    if CreateRequest(data).Ok? {
      var items := data.value.fields["guidingQuestions"].items;
      forall q ensures q in StringsOf(items) <==> Json.String(q) in items {
        StringsOfMembership(items, q);
      }
    }
  }

  /** The content and media type of an `idea_submission`, or `None` when it is
      dropped; a missing or non-string media type is "text". */
  function IdeaRequest(data: Data): Option<(string, string)> {
    if !(data.Raw? && data.value.Object?) then None
    else
      var fields := data.value.fields;
      if !("content" in fields && fields["content"].String? && fields["content"].s != "") then None
      else
        var mediaType := if "mediaType" in fields && fields["mediaType"].String? then fields["mediaType"].s else "text";
        Some((fields["content"].s, mediaType))
  }

  /** An idea is kept exactly when its content is a non-empty string; its media type
      is the one given, or "text". */
  lemma IdeaRequestAccepts(data: Data)
    ensures IdeaRequest(data).Some? <==>
      && data.Raw? && data.value.Object? && "content" in data.value.fields
      && data.value.fields["content"].String? && data.value.fields["content"] != Json.String("")
    ensures IdeaRequest(data).Some? ==>
      var fields := data.value.fields;
      && IdeaRequest(data).value.0 == fields["content"].s
      && (("mediaType" !in fields || !fields["mediaType"].String?) ==> IdeaRequest(data).value.1 == "text")
  {
  }

  /** The id an idea gets: `strconv.FormatInt(time.Now().UnixNano(), 10)`, with the
      clock reading passed in. */
  function IdeaId(nanos: int): string {
    IntToDecimal(nanos)
  }

  /** Two ideas submitted at different clock readings get different ids. */
  lemma IdeaIdInjective(a: int, b: int)
    requires a != b
    ensures IdeaId(a) != IdeaId(b)
  {
    DecimalInjective(a, b);
  }

  // Aggregation text

  /** One `- <content>\n` line per idea, in order. */
  function Bullets(ideas: seq<SM.Idea>): string {
    if ideas == [] then "" else "- " + ideas[0].content + "\n" + Bullets(ideas[1..])
  }

  function AggregateText(ideas: seq<SM.Idea>): string {
    AggregateHeader + Bullets(ideas)
  }

  lemma {:induction false} BulletsAppend(ideas: seq<SM.Idea>, idea: SM.Idea)
    ensures Bullets(ideas + [idea]) == Bullets(ideas) + "- " + idea.content + "\n"
    decreases |ideas|
  {
    if ideas == [] {
      assert ([] + [idea])[1..] == [];
    } else {
      assert (ideas + [idea])[1..] == ideas[1..] + [idea];
      BulletsAppend(ideas[1..], idea);
    }
  }

  /** The bullets read back line by line, plus the empty piece after the last newline,
      when no content has a newline of its own. */
  lemma {:induction false} BulletLines(ideas: seq<SM.Idea>)
    requires forall i :: 0 <= i < |ideas| ==> '\n' !in ideas[i].content
    ensures Split(Bullets(ideas), '\n') == seq(|ideas|, i requires 0 <= i < |ideas| => "- " + ideas[i].content) + [""]
    decreases |ideas|
  {
    if ideas != [] {
      var line := "- " + ideas[0].content;
      assert '\n' !in line by {
        assert forall k :: 0 <= k < |line| ==> line[k] == '-' || line[k] == ' ' || line[k] in ideas[0].content;
      }
      assert Bullets(ideas) == line + ['\n'] + Bullets(ideas[1..]);
      SplitAtFirst(line, Bullets(ideas[1..]), '\n');
      BulletLines(ideas[1..]);
    }
  }

  /** The aggregate text lists every idea's content once, in order: split into lines
      it is the header line, one `- <content>` line per idea and a final empty piece. */
  lemma AggregateTextLines(ideas: seq<SM.Idea>)
    requires forall i :: 0 <= i < |ideas| ==> '\n' !in ideas[i].content
    ensures Split(AggregateText(ideas), '\n') ==
      ["Aggregated Ideas:"] + seq(|ideas|, i requires 0 <= i < |ideas| => "- " + ideas[i].content) + [""]
  {
    assert AggregateText(ideas) == "Aggregated Ideas:" + ['\n'] + Bullets(ideas);
    SplitAtFirst("Aggregated Ideas:", Bullets(ideas), '\n');
    BulletLines(ideas);
  }

  /** The loop that fills `guidingQuestions`. */
  method CollectStrings(items: seq<Json.Value>) returns (questions: seq<string>)
    ensures questions == StringsOf(items)
  {
    questions := [];
    var i := 0;
    while i < |items|
      invariant 0 <= i <= |items|
      invariant questions == StringsOf(items[..i])
    {
      assert items[..i + 1][..i] == items[..i];
      if items[i].String? {
        questions := questions + [items[i].s];
      }
      i := i + 1;
    }
    assert items[..|items|] == items;
  }

  /** The type assertions of `handleCreateSession` and its question loop. */
  method ParseCreateRequest(data: Data) returns (r: Result<(string, seq<string>), string>)
    ensures r == CreateRequest(data)
  {
    if !(data.Raw? && data.value.Object?) {
      return Err(InvalidCreateData);
    }
    var dataMap := data.value.fields;
    var nameOk := "name" in dataMap && dataMap["name"].String?;
    var gqOk := "guidingQuestions" in dataMap && dataMap["guidingQuestions"].Array?;
    if !nameOk || dataMap["name"].s == "" || !gqOk {
      return Err(CreateFieldsRequired);
    }
    var guidingQuestions := CollectStrings(dataMap["guidingQuestions"].items);
    r := Ok((dataMap["name"].s, guidingQuestions));
  }

  /** The loop that builds `agg`. */
  method BuildAggregate(ideas: seq<SM.Idea>) returns (agg: string)
    ensures agg == AggregateText(ideas)
  {
    agg := AggregateHeader;
    var i := 0;
    while i < |ideas|
      invariant 0 <= i <= |ideas|
      invariant agg == AggregateHeader + Bullets(ideas[..i])
    {
      BulletsAppend(ideas[..i], ideas[i]);
      assert ideas[..i + 1] == ideas[..i] + [ideas[i]];
      agg := agg + "- " + ideas[i].content + "\n";
      i := i + 1;
    }
    assert ideas[..|ideas|] == ideas;
  }

  /** Session views, as marshalled at the moment of sending. */
  function Views(list: seq<SM.Session>): seq<SM.SessionView>
    reads list
  {
    seq(|list|, i requires 0 <= i < |list| reads list => list[i].View())
  }

  // ---- The hub mutex ----

  /** The hub's `sync.RWMutex` as one goroutine sees it: whether that goroutine
      holds the write lock and how many read locks it holds. Go's mutex is not
      re-entrant. */
  datatype MutexState = MutexState(writer: bool, readers: nat)

  const Unlocked := MutexState(false, 0)

  datatype LockOp = Lock | Unlock | RLock | RUnlock

  /** The outcome of a goroutine's lock operations: the state it ends in, `Blocked`
      when an acquisition waits on a lock the goroutine itself holds (nobody else
      can release it, so the wait never ends), `Fatal` when it releases a lock it
      does not hold (a run-time error in Go). */
  datatype LockOutcome = Holds(state: MutexState) | Blocked | Fatal

  function LockStep(st: MutexState, op: LockOp): LockOutcome {
    match op
    case Lock => if st.writer || st.readers > 0 then Blocked else Holds(MutexState(true, st.readers))
    case RLock => if st.writer then Blocked else Holds(MutexState(false, st.readers + 1))
    case Unlock => if st.writer then Holds(MutexState(false, st.readers)) else Fatal
    case RUnlock => if st.readers > 0 then Holds(MutexState(st.writer, st.readers - 1)) else Fatal
  }

  /** The lock operations run in order; the first that blocks or fails ends the run. */
  function RunLocks(st: MutexState, ops: seq<LockOp>): LockOutcome
    decreases |ops|
  {
    if ops == [] then Holds(st)
    else
      match LockStep(st, ops[0])
      case Holds(next) => RunLocks(next, ops[1..])
      case other => other
  }

  /** The lock operations of `broadcastToSession`: its `RLock` and deferred
      `RUnlock`, unless the caller already holds the write lock and the broadcast
      reads the mapping under it. */
  function BroadcastLockOps(underWriteLock: bool): seq<LockOp> {
    if underWriteLock then [] else [RLock, RUnlock]
  }

  /** Whether the unregister branch of `Run` reaches `notifySessionUpdate`: the
      client is registered and mapped to a session the registry still holds. */
  predicate UnregisterNotifies(clients: set<Client>, clientSessions: map<Client, string>, registered: set<string>, client: Client) {
    client in clients && client in clientSessions && clientSessions[client] in registered
  }

  /** The hub-mutex operations of the unregister branch: its `Lock`, the broadcast
      of the update when it notifies, and its `Unlock`. As written
      (`fixed == false`) the broadcast takes the read lock again; corrected, it
      reads under the write lock the branch already holds. */
  function UnregisterLockOps(fixed: bool, clients: set<Client>, clientSessions: map<Client, string>, registered: set<string>, client: Client): seq<LockOp> {
    [Lock]
      + (if UnregisterNotifies(clients, clientSessions, registered, client) then BroadcastLockOps(fixed) else [])
      + [Unlock]
  }

  /** A run of two blocks of operations: the second starts from where the first
      left the mutex, unless the first already blocked or failed. */
  lemma {:induction false} RunLocksAppend(st: MutexState, a: seq<LockOp>, b: seq<LockOp>)
    ensures RunLocks(st, a + b) == match RunLocks(st, a) case Holds(m) => RunLocks(m, b) case other => other
    decreases |a|
  {
    if a == [] {
      assert a + b == b;
    } else {
      assert (a + b)[0] == a[0] && (a + b)[1..] == a[1..] + b;
      match LockStep(st, a[0])
      case Holds(next) => RunLocksAppend(next, a[1..], b);
      case Blocked =>
      case Fatal =>
    }
  }

  lemma RunOne(st: MutexState, op: LockOp)
    ensures RunLocks(st, [op]) == LockStep(st, op)
  {
    assert [op][1..] == [];
  }

  /** As written, the unregister branch blocks forever exactly when it notifies:
      the `RLock` of `broadcastToSession` waits on the write lock the branch holds.
      Otherwise it releases the mutex again. */
  lemma UnregisterBlocksAsWritten(clients: set<Client>, clientSessions: map<Client, string>, registered: set<string>, client: Client)
    ensures var outcome := RunLocks(Unlocked, UnregisterLockOps(false, clients, clientSessions, registered, client));
      && (outcome == Blocked <==> UnregisterNotifies(clients, clientSessions, registered, client))
      && (!UnregisterNotifies(clients, clientSessions, registered, client) ==> outcome == Holds(Unlocked))
  {
    var held := MutexState(true, 0);
    RunOne(Unlocked, Lock);
    RunOne(held, Unlock);
    if UnregisterNotifies(clients, clientSessions, registered, client) {
      RunOne(held, RLock);
      RunLocksAppend(held, [RLock], [RUnlock]);
      assert [RLock] + [RUnlock] == BroadcastLockOps(false);
      RunLocksAppend(Unlocked, [Lock], BroadcastLockOps(false));
      RunLocksAppend(Unlocked, [Lock] + BroadcastLockOps(false), [Unlock]);
    } else {
      assert UnregisterLockOps(false, clients, clientSessions, registered, client) == [Lock] + [Unlock];
      RunLocksAppend(Unlocked, [Lock], [Unlock]);
    }
  }

  /** Corrected, the unregister branch always releases the mutex, whether or not it
      notifies. */
  lemma UnregisterFixedReleases(clients: set<Client>, clientSessions: map<Client, string>, registered: set<string>, client: Client)
    ensures RunLocks(Unlocked, UnregisterLockOps(true, clients, clientSessions, registered, client)) == Holds(Unlocked)
  {
    assert UnregisterLockOps(true, clients, clientSessions, registered, client) == [Lock] + [Unlock];
    RunOne(Unlocked, Lock);
    RunOne(MutexState(true, 0), Unlock);
    RunLocksAppend(Unlocked, [Lock], [Unlock]);
  }

  /** `handleLeaveSession` releases the write lock before it notifies, so its
      broadcasts (the update, and the list when the session emptied) complete and
      the mutex ends free. */
  lemma LeaveReleasesBeforeNotifying(notifies: bool, emptied: bool)
    ensures RunLocks(Unlocked, [Lock, Unlock]
      + (if notifies then BroadcastLockOps(false) else [])
      + (if notifies && emptied then [RLock, RUnlock] else [])) == Holds(Unlocked)
  {
    var readOps := (if notifies then BroadcastLockOps(false) else [])
      + (if notifies && emptied then [RLock, RUnlock] else []);
    var pairs := (if notifies then 1 else 0) + (if notifies && emptied then 1 else 0);
    forall i | 0 <= i < pairs ensures readOps[2 * i] == RLock && readOps[2 * i + 1] == RUnlock {
    }
    ReadPairsRelease(readOps, pairs);
    RunOne(Unlocked, Lock);
    RunOne(MutexState(true, 0), Unlock);
    RunLocksAppend(Unlocked, [Lock], [Unlock]);
    assert [Lock] + [Unlock] == [Lock, Unlock];
    RunLocksAppend(Unlocked, [Lock, Unlock], readOps);
    assert [Lock, Unlock] + readOps == [Lock, Unlock]
      + (if notifies then BroadcastLockOps(false) else [])
      + (if notifies && emptied then [RLock, RUnlock] else []);
  }

  /** Pairs of `RLock` and `RUnlock` from a free mutex leave it free. */
  lemma {:induction false} ReadPairsRelease(ops: seq<LockOp>, n: nat)
    requires |ops| == 2 * n
    requires forall i :: 0 <= i < n ==> ops[2 * i] == RLock && ops[2 * i + 1] == RUnlock
    ensures RunLocks(Unlocked, ops) == Holds(Unlocked)
    decreases n
  {
    if n > 0 {
      var rest := ops[2..];
      forall i | 0 <= i < n - 1 ensures rest[2 * i] == RLock && rest[2 * i + 1] == RUnlock {
        assert rest[2 * i] == ops[2 * (i + 1)] && rest[2 * i + 1] == ops[2 * (i + 1) + 1];
      }
      ReadPairsRelease(rest, n - 1);
      assert ops[2 * 0] == RLock && ops[2 * 0 + 1] == RUnlock;
      RunOne(Unlocked, RLock);
      RunOne(MutexState(false, 1), RUnlock);
      RunLocksAppend(Unlocked, [RLock], [RUnlock]);
      RunLocksAppend(Unlocked, [RLock, RUnlock], rest);
      assert ops == [RLock, RUnlock] + rest;
    }
  }

  class Hub {
    const sessions: SM.SessionManager
    var clients: set<Client>
    var clientSessions: map<Client, string>
    var sent: Mailboxes

    predicate Valid()
      reads this, sessions
    {
      sessions.Valid()
    }

    /** `client` is mapped to session `id`. */
    predicate InSession(client: Client, id: string)
      reads this
    {
      client in clientSessions && clientSessions[client] == id
    }

    /** The session object registered under `id`, if any: the one a handler may change. */
    function SessionAt(id: string): set<SM.Session>
      reads this, sessions
    {
      if id in sessions.sessions then {sessions.sessions[id]} else {}
    }

    /** The session object `client` is mapped to, if it is registered. */
    function SessionOf(client: Client): set<SM.Session>
      reads this, sessions
    {
      if client in clientSessions then SessionAt(clientSessions[client]) else {}
    }

    /** `listed` is the registry's sessions, each once, in some iteration order. */
    ghost predicate IsListing(listed: seq<SM.SessionView>)
      reads this, sessions, sessions.sessions.Values
    {
      exists order :: SM.EnumeratesKeys(order, sessions.sessions) && |listed| == |order|
        && forall i :: 0 <= i < |order| ==> listed[i] == sessions.sessions[order[i]].View()
    }

    /** `NewHub`: no sessions, clients or mappings. */
    constructor ()
      ensures fresh(sessions) && sessions.sessions == map[] && Valid()
      ensures clients == {} && clientSessions == map[] && sent == map[]
    {
      sessions := new SM.SessionManager();
      clients := {};
      clientSessions := map[];
      sent := map[];
    }

    /** The register branch of `Run`. */
    method Register(client: Client)
      modifies this`clients
      ensures clients == old(clients) + {client}
    {
      clients := clients + {client};
    }

    /** `client.send <- m`. */
    method Send(client: Client, m: Message)
      modifies this`sent
      ensures sent == Post(old(sent), {client}, m)
    {
      PostToOne(sent, client, m);
      sent := sent[client := Mailbox(sent, client) + [m]];
    }

    /** One more send of a broadcast in progress from mailboxes `start`. */
    method SendNext(ghost start: Mailboxes, ghost reached: set<Client>, client: Client, m: Message)
      requires sent == Post(start, reached, m) && client !in reached
      modifies this`sent
      ensures sent == Post(start, reached + {client}, m)
    {
      PostOneMore(start, reached, client, m);
      Send(client, m);
    }

    /** `broadcastToSession`: every client mapped to `id` gets `m` once; nobody else
        gets anything. */
    method BroadcastToSession(id: string, m: Message)
      modifies this`sent
      ensures sent == Post(old(sent), Members(clientSessions, id), m)
    {
      var remaining := clientSessions.Keys;
      ghost var start := sent;
      ghost var reached: set<Client> := {};
      PostToNobody(sent, m);
      while remaining != {}
        invariant remaining <= clientSessions.Keys
        invariant forall c :: c in reached <==> c in Members(clientSessions, id) && c !in remaining
        invariant sent == Post(start, reached, m)
        decreases |remaining|
      {
        var client :| client in remaining;
        if clientSessions[client] == id {
          SendNext(start, reached, client, m);
          reached := reached + {client};
        }
        remaining := remaining - {client};
      }
      assert reached == Members(clientSessions, id);
    }

    /** `sessions.ListSessions()` marshalled: every registered session's view once. */
    method ListViews() returns (listed: seq<SM.SessionView>)
      ensures IsListing(listed)
    {
      var list, order := sessions.ListSessions();
      listed := Views(list);
      assert forall i :: 0 <= i < |order| ==> listed[i] == sessions.sessions[order[i]].View();
    }

    /** `broadcastSessionsList`: one `sessions_list` to every registered client. */
    method BroadcastSessionsList() returns (ghost listed: seq<SM.SessionView>)
      modifies this`sent
      ensures IsListing(listed)
      ensures sent == Post(old(sent), clients, SessionsListMessage(listed))
    {
      var views := ListViews();
      listed := views;
      var m := SessionsListMessage(views);
      var remaining := clients;
      ghost var start := sent;
      ghost var reached: set<Client> := {};
      PostToNobody(sent, m);
      while remaining != {}
        invariant remaining <= clients
        invariant forall c :: c in reached <==> c in clients && c !in remaining
        invariant sent == Post(start, reached, m)
        decreases |remaining|
      {
        var client :| client in remaining;
        SendNext(start, reached, client, m);
        reached := reached + {client};
        remaining := remaining - {client};
      }
      assert reached == clients;
    }

    /** `notifySessionUpdate`: the session's current view to its members, or nothing
        when it is not registered. */
    method NotifySessionUpdate(id: string)
      modifies this`sent
      ensures id in sessions.sessions ==>
        sent == Post(old(sent), Members(clientSessions, id), SessionUpdated(id, sessions.sessions[id].View()))
      ensures id !in sessions.sessions ==> sent == old(sent)
    {
      var r := sessions.GetSession(id);
      if r.Err? {
        return;
      }
      BroadcastToSession(id, SessionUpdated(id, r.value.View()));
    }

    /** `handleCreateSession`. A refused request costs one `error` to the sender and
        nothing else. Otherwise a new session with the sender as creator and only
        user is registered under a fresh id, the sender is mapped to it, gets
        `session_created`, and then every client gets `sessions_list`. */
    method HandleCreateSession(client: Client, message: Message, draws: seq<nat>)
      returns (ghost created: Option<SM.Session>, ghost listed: seq<SM.SessionView>)
      requires Valid() && SM.ValidDraws(draws)
      modifies this`clientSessions, this`sent, sessions
      ensures Valid()
      ensures CreateRequest(message.data).Err? ==>
        && created.None?
        && sent == Post(old(sent), {client}, ErrorMessage(CreateRequest(message.data).error))
        && clientSessions == old(clientSessions) && sessions.sessions == old(sessions.sessions)
      ensures CreateRequest(message.data).Ok? ==>
        var request := CreateRequest(message.data).value;
        var creator := SM.User(client.userId, message.username);
        && created.Some? && fresh(created.value)
        && created.value.name == request.0 && created.value.guidingQuestions == request.1
        && created.value.creator == creator
        && created.value.users == map[client.userId := creator] && created.value.ideas == []
        && sessions.sessions == old(sessions.sessions)[created.value.id := created.value]
        && clientSessions == old(clientSessions)[client := created.value.id]
        && IsListing(listed)
        && sent == Post(
             Post(old(sent), {client}, ServerMessage("session_created", "", SessionData(created.value.View()))),
             clients, SessionsListMessage(listed))
    {
      var request := ParseCreateRequest(message.data);
      if request.Err? {
        Send(client, ErrorMessage(request.error));
        return None, [];
      }
      var user := SM.User(client.userId, message.username);
      var session := sessions.CreateSession(request.value.0, request.value.1, user, draws);
      created := Some(session);
      clientSessions := clientSessions[client := session.id];
      listed := AnnounceCreated(client, session);
    }

    /** The sends that end a successful creation: `session_created` to the creator,
        then `sessions_list` to everyone. */
    method AnnounceCreated(client: Client, session: SM.Session) returns (ghost listed: seq<SM.SessionView>)
      modifies this`sent
      ensures IsListing(listed)
      ensures sent == Post(
        Post(old(sent), {client}, ServerMessage("session_created", "", SessionData(session.View()))),
        clients, SessionsListMessage(listed))
    {
      Send(client, ServerMessage("session_created", "", SessionData(session.View())));
      listed := BroadcastSessionsList();
    }

    /** `handleJoinSession`. An unknown id costs one `error` to the sender. A known
        one gets the sender as a user (replacing any with the same id), maps the
        sender to it, sends `session_joined` to the sender and then
        `session_updated` to every member, the sender included. */
    method HandleJoinSession(client: Client, message: Message)
      requires Valid()
      modifies this`clientSessions, this`sent, SessionAt(message.sessionId)
      ensures message.sessionId !in sessions.sessions ==>
        sent == Post(old(sent), {client}, ErrorMessage(SessionNotFound)) && clientSessions == old(clientSessions)
      ensures message.sessionId in sessions.sessions ==>
        var s := sessions.sessions[message.sessionId];
        && s.users == old(s.users)[client.userId := SM.User(client.userId, message.username)]
        && s.ideas == old(s.ideas)
        && clientSessions == old(clientSessions)[client := message.sessionId]
        && sent == Post(
             Post(old(sent), {client}, ServerMessage("session_joined", "", SessionData(s.View()))),
             Members(clientSessions, message.sessionId), SessionUpdated(message.sessionId, s.View()))
    {
      var r := sessions.GetSession(message.sessionId);
      if r.Err? {
        Send(client, ErrorMessage(SessionNotFound));
        return;
      }
      var session := r.value;
      session.AddUser(SM.User(client.userId, message.username));
      clientSessions := clientSessions[client := session.id];
      Send(client, ServerMessage("session_joined", "", SessionData(session.View())));
      NotifySessionUpdate(session.id);
    }

    /** `handleLeaveSession`. An unmapped client changes nothing. Otherwise the
        mapping goes first, then the user leaves the session, the remaining members
        get `session_updated` (the leaver does not), and a session left with no
        users is removed and announced by a `sessions_list` to every client. */
    method HandleLeaveSession(client: Client) returns (ghost listed: seq<SM.SessionView>)
      requires Valid()
      modifies this`clientSessions, this`sent, sessions, SessionOf(client)
      ensures Valid()
      ensures client !in old(clientSessions) ==>
        clientSessions == old(clientSessions) && sent == old(sent) && sessions.sessions == old(sessions.sessions)
      ensures client in old(clientSessions) ==> clientSessions == old(clientSessions) - {client}
      ensures client in old(clientSessions) && old(clientSessions)[client] !in old(sessions.sessions) ==>
        sent == old(sent) && sessions.sessions == old(sessions.sessions)
      ensures client in old(clientSessions) && old(clientSessions)[client] in old(sessions.sessions) ==>
        var s := old(sessions.sessions)[old(clientSessions)[client]];
        s.users == old(s.users) - {client.userId} && s.ideas == old(s.ideas)
      ensures client in old(clientSessions) && old(clientSessions)[client] in old(sessions.sessions) ==>
        var id := old(clientSessions)[client];
        var s := old(sessions.sessions)[id];
        |s.users| > 0 ==>
          && sessions.sessions == old(sessions.sessions)
          && sent == Post(old(sent), Members(clientSessions, id), SessionUpdated(id, s.View()))
          && Mailbox(sent, client) == Mailbox(old(sent), client)
      ensures client in old(clientSessions) && old(clientSessions)[client] in old(sessions.sessions) ==>
        var id := old(clientSessions)[client];
        var s := old(sessions.sessions)[id];
        |s.users| == 0 ==>
          && sessions.sessions == old(sessions.sessions) - {id}
          && IsListing(listed)
          && sent == Post(Post(old(sent), Members(clientSessions, id), SessionUpdated(id, s.View())),
                          clients, SessionsListMessage(listed))
    {
      listed := [];
      if client !in clientSessions {
        return;
      }
      var id := clientSessions[client];
      clientSessions := clientSessions - {client};
      var r := sessions.GetSession(id);
      if r.Err? {
        return;
      }
      listed := LeaveRegistered(client, id, r.value);
    }

    /** The rest of a leave once the mapping is gone: removal from the session, the
        update to the members, and for an emptied session its deletion and a
        `sessions_list` to every client. */
    method LeaveRegistered(client: Client, id: string, session: SM.Session) returns (ghost listed: seq<SM.SessionView>)
      requires Valid() && id in sessions.sessions && session == sessions.sessions[id]
      requires client !in clientSessions
      modifies this`sent, sessions, session
      ensures Valid()
      ensures session.users == old(session.users) - {client.userId} && session.ideas == old(session.ideas)
      ensures |session.users| > 0 ==>
        && sessions.sessions == old(sessions.sessions)
        && sent == Post(old(sent), Members(clientSessions, id), SessionUpdated(id, session.View()))
        && Mailbox(sent, client) == Mailbox(old(sent), client)
      ensures |session.users| == 0 ==>
        && sessions.sessions == old(sessions.sessions) - {id}
        && IsListing(listed)
        && sent == Post(Post(old(sent), Members(clientSessions, id), SessionUpdated(id, session.View())),
                        clients, SessionsListMessage(listed))
    {
      listed := [];
      var emptied := RemoveMember(id, session, client.userId);
      PostReachesExactlyTargets(old(sent), Members(clientSessions, id), SessionUpdated(id, session.View()), client);
      if emptied {
        listed := BroadcastSessionsList();
      }
    }

    /** The steps leaving and unregistering share: the user is removed from the
        session, the session's members are sent its new view, and a session with no
        users left is deleted from the registry. */
    method RemoveMember(id: string, session: SM.Session, userId: string) returns (emptied: bool)
      requires Valid() && id in sessions.sessions && session == sessions.sessions[id]
      modifies this`sent, sessions, session
      ensures Valid()
      ensures session.users == old(session.users) - {userId} && session.ideas == old(session.ideas)
      ensures sent == Post(old(sent), Members(clientSessions, id), SessionUpdated(id, session.View()))
      ensures emptied <==> |session.users| == 0
      ensures sessions.sessions == if emptied then old(sessions.sessions) - {id} else old(sessions.sessions)
    {
      session.RemoveUser(userId);
      NotifySessionUpdate(id);
      var users, order := session.GetUsers();
      emptied := |users| == 0;
      if emptied {
        sessions.RemoveSession(id);
      }
    }

    /** The unregister branch of `Run`, corrected so that the update is broadcast
        under the write lock the branch already holds: as written it blocks forever
        whenever it notifies (`UnregisterBlocksAsWritten`). For a registered client
        it is as leaving, except that the mapping is dropped only after the
        notification (so the departing client is sent `session_updated` too) and no
        `sessions_list` follows the removal of an empty session. The client is then
        forgotten. */
    method Unregister(client: Client)
      requires Valid()
      modifies this`clients, this`clientSessions, this`sent, sessions, SessionOf(client)
      ensures Valid()
      ensures client !in old(clients) ==>
        && clients == old(clients) && clientSessions == old(clientSessions)
        && sent == old(sent) && sessions.sessions == old(sessions.sessions)
      ensures client in old(clients) ==>
        && clients == old(clients) - {client}
        && clientSessions == old(clientSessions) - {client}
        && (client in old(clientSessions) && old(clientSessions)[client] in old(sessions.sessions) ==>
             var id := old(clientSessions)[client];
             var s := old(sessions.sessions)[id];
             && s.users == old(s.users) - {client.userId}
             && sent == Post(old(sent), Members(old(clientSessions), id), SessionUpdated(id, s.View()))
             && sessions.sessions == (if |s.users| == 0 then old(sessions.sessions) - {id} else old(sessions.sessions)))
        && (client !in old(clientSessions) || old(clientSessions)[client] !in old(sessions.sessions) ==>
             sent == old(sent) && sessions.sessions == old(sessions.sessions))
    {
      if client !in clients {
        return;
      }
      if client in clientSessions {
        var id := clientSessions[client];
        var r := sessions.GetSession(id);
        if r.Ok? {
          var emptied := RemoveMember(id, r.value, client.userId);
        }
        clientSessions := clientSessions - {client};
      }
      clients := clients - {client};
    }

    /** `handleListSessions`: one `sessions_list` to the sender. */
    method HandleListSessions(client: Client)
      modifies this`sent
      ensures exists listed :: IsListing(listed) && sent == Post(old(sent), {client}, SessionsListMessage(listed))
    {
      var listed := ListViews();
      Send(client, SessionsListMessage(listed));
    }

    /** `handleSessionMessage` and `handleIdeaRating`: a sender mapped to the
        message's session has the message echoed unchanged to every member, itself
        included; anything else is dropped. */
    method HandleEcho(client: Client, message: Message)
      modifies this`sent
      ensures InSession(client, message.sessionId) ==>
        && sent == Post(old(sent), Members(clientSessions, message.sessionId), message)
        && Mailbox(sent, client) == Mailbox(old(sent), client) + [message]
      ensures !InSession(client, message.sessionId) ==> sent == old(sent)
    {
      if !(client in clientSessions && clientSessions[client] == message.sessionId) {
        return;
      }
      BroadcastToSession(message.sessionId, message);
      PostReachesExactlyTargets(old(sent), Members(clientSessions, message.sessionId), message, client);
    }

    /** `handleIdeaSubmission`. Dropped unless the sender is mapped to the message's
        session, the content is a non-empty string and the session is registered;
        otherwise the idea, with the clock-derived id, the given or default media
        type, the sender as author and no ratings, is appended to the session and
        broadcast to its members. */
    method HandleIdeaSubmission(client: Client, message: Message, nanos: int)
      modifies this`sent, SessionOf(client)
      ensures var id := message.sessionId;
        !(InSession(client, id) && IdeaRequest(message.data).Some? && id in sessions.sessions) ==>
          sent == old(sent) && unchanged(SessionOf(client))
      ensures var id := message.sessionId;
        InSession(client, id) && IdeaRequest(message.data).Some? && id in sessions.sessions ==>
          var request := IdeaRequest(message.data).value;
          var idea := SM.Idea(IdeaId(nanos), request.0, request.1, SM.User(client.userId, message.username), []);
          var s := sessions.sessions[id];
          && s.ideas == old(s.ideas) + [idea] && s.users == old(s.users)
          && sent == Post(old(sent), Members(clientSessions, id), ServerMessage("idea_submitted", "", IdeaData(idea)))
    {
      if !(client in clientSessions && clientSessions[client] == message.sessionId) {
        return;
      }
      var id := clientSessions[client];
      if !(message.data.Raw? && message.data.value.Object?) {
        return;
      }
      var dataMap := message.data.value.fields;
      var contentOk := "content" in dataMap && dataMap["content"].String?;
      if !contentOk || dataMap["content"].s == "" {
        return;
      }
      var mediaType := if "mediaType" in dataMap && dataMap["mediaType"].String? then dataMap["mediaType"].s else "text";
      var idea := SM.Idea(IdeaId(nanos), dataMap["content"].s, mediaType, SM.User(client.userId, message.username), []);
      var r := sessions.GetSession(id);
      if r.Err? {
        return;
      }
      r.value.AddIdea(idea);
      BroadcastToSession(id, ServerMessage("idea_submitted", "", IdeaData(idea)));
    }

    /** `handleAggregateIdeas`: for a sender mapped to the message's registered
        session, the members get `aggregation_result` with every idea's content in
        order; otherwise nothing happens. */
    method HandleAggregateIdeas(client: Client, message: Message)
      modifies this`sent
      ensures var id := message.sessionId;
        InSession(client, id) && id in sessions.sessions ==>
          sent == Post(old(sent), Members(clientSessions, id),
            ServerMessage("aggregation_result", id, Str(AggregateText(sessions.sessions[id].ideas))))
      ensures var id := message.sessionId;
        !(InSession(client, id) && id in sessions.sessions) ==> sent == old(sent)
    {
      if !(client in clientSessions && clientSessions[client] == message.sessionId) {
        return;
      }
      var id := clientSessions[client];
      var r := sessions.GetSession(id);
      if r.Err? {
        return;
      }
      var agg := BuildAggregate(r.value.ideas);
      BroadcastToSession(id, ServerMessage("aggregation_result", id, Str(agg)));
    }

    /** `handleStartDiscussion`: for a mapped sender, the fixed announcement to the
        members; otherwise nothing. */
    method HandleStartDiscussion(client: Client, message: Message)
      modifies this`sent
      ensures InSession(client, message.sessionId) ==>
        sent == Post(old(sent), Members(clientSessions, message.sessionId),
          ServerMessage("discussion_started", message.sessionId, Str(DiscussionText)))
      ensures !InSession(client, message.sessionId) ==> sent == old(sent)
    {
      if !(client in clientSessions && clientSessions[client] == message.sessionId) {
        return;
      }
      var id := clientSessions[client];
      BroadcastToSession(id, ServerMessage("discussion_started", id, Str(DiscussionText)));
    }

    /** `HandleMessage`: a frame that did not decode, or whose type is not one of the
        nine, changes nothing and sends nothing; the others go to their handlers.
        The random draws and the clock reading are passed in. */
    method HandleMessage(client: Client, decoded: Option<Message>, draws: seq<nat>, nanos: int)
      requires Valid() && SM.ValidDraws(draws)
      modifies this, sessions, sessions.sessions.Values
      ensures Valid()
      ensures clients == old(clients)
      ensures decoded.None? || decoded.value.kind !in HandledKinds ==>
        && sent == old(sent) && clientSessions == old(clientSessions)
        && sessions.sessions == old(sessions.sessions)
        && unchanged(sessions.sessions.Values)
    {
      if decoded.None? {
        return;
      }
      var message := decoded.value;
      match message.kind {
        case "create_session" =>
          var created, listed := HandleCreateSession(client, message, draws);
        case "join_session" =>
          HandleJoinSession(client, message);
        case "leave_session" =>
          var listed := HandleLeaveSession(client);
        case "list_sessions" =>
          HandleListSessions(client);
        case "session_message" =>
          HandleEcho(client, message);
        case "idea_submission" =>
          HandleIdeaSubmission(client, message, nanos);
        case "aggregate_ideas" =>
          HandleAggregateIdeas(client, message);
        case "idea_rating" =>
          HandleEcho(client, message);
        case "start_discussion" =>
          HandleStartDiscussion(client, message);
        case _ =>
      }
    }
  }
}
