/** The session page's state and its event wiring
    (frontend/src/components/Session.tsx, the hooks and handlers before the JSX).

    The component's `useState` hooks are the fields of class `Session`. The nine
    listeners its effect registers are reducers over the mirrored server state
    (`Reduce`); the `handle*` functions gate which commands reach the socket. */
module SessionComponent {
  import opened Wrappers
  import opened Text
  import WS = WebSocketService

  /** A closure this component hands to `on`/`off`. `Listener(mount, event)` is the
      body the effect's run number `mount` registers for `event`; each cleanup call
      writes a new `() => {}`, which is `Placeholder(cleanup, event)`. Distinct
      closures are distinct values, as distinct JavaScript functions are never `===`. */
  datatype Listener =
    | Listener(mount: nat, event: string)
    | Placeholder(cleanup: nat, event: string)

  /** The event types the effect subscribes to, in registration order. */
  const Events: seq<string> := [
    "sessions_list", "session_created", "session_joined", "session_updated",
    "session_message", "idea_submitted", "aggregation_result", "idea_rating",
    "discussion_started"]

  /** The part of the component's state the listeners write. */
  datatype Store = Store(
    sessions: seq<WS.SessionInfo>,
    currentSessionId: string,
    chatMessages: seq<WS.Message>,
    aggregatedResult: string,
    discussionStarted: bool)

  predicate DistinctIds(list: seq<WS.SessionInfo>) {
    forall i, j :: 0 <= i < j < |list| ==> list[i].id != list[j].id
  }

  /** `prev.filter((s) => s.id !== id)` */
  function WithoutId(list: seq<WS.SessionInfo>, id: string): (r: seq<WS.SessionInfo>)
    ensures |r| <= |list|
    ensures forall i :: 0 <= i < |r| ==> r[i].id != id && r[i] in list
    ensures forall s :: s in list && s.id != id ==> s in r
  {
    if list == [] then []
    else
      assert list == [list[0]] + list[1..];
      if list[0].id == id then WithoutId(list[1..], id)
      else [list[0]] + WithoutId(list[1..], id)
  }

  /** The filter keeps the entries it keeps in their original relative order. */
  lemma {:induction false} WithoutIdAppend(a: seq<WS.SessionInfo>, b: seq<WS.SessionInfo>, id: string)
    ensures WithoutId(a + b, id) == WithoutId(a, id) + WithoutId(b, id)
  {
    if a == [] {
      assert a + b == b;
    } else {
      var ab := a + b;
      assert ab[0] == a[0] && ab[1..] == a[1..] + b;
      WithoutIdAppend(a[1..], b, id);
    }
  }

  /** Filtering a list whose ids are pairwise distinct leaves them distinct. */
  lemma {:induction false} WithoutIdDistinct(list: seq<WS.SessionInfo>, id: string)
    requires DistinctIds(list)
    ensures DistinctIds(WithoutId(list, id))
  {
    if list != [] {
      var tail := list[1..];
      assert DistinctIds(tail) by {
        forall i, j | 0 <= i < j < |tail| ensures tail[i].id != tail[j].id {
          assert tail[i] == list[i + 1] && tail[j] == list[j + 1];
        }
      }
      WithoutIdDistinct(tail, id);
      if list[0].id != id {
        var rest := WithoutId(tail, id);
        var r := [list[0]] + rest;
        forall i, j | 0 <= i < j < |r| ensures r[i].id != r[j].id {
          if i == 0 {
            assert r[j] == rest[j - 1] && rest[j - 1] in tail;
            var k :| 0 <= k < |tail| && tail[k] == rest[j - 1];
            assert list[k + 1] == tail[k];
          } else {
            assert r[i] == rest[i - 1] && r[j] == rest[j - 1];
          }
        }
      }
    }
  }

  /** The `session_created` update `[data, ...prev.filter((s) => s.id !== data.id)]`. */
  function UpsertFront(list: seq<WS.SessionInfo>, s: WS.SessionInfo): seq<WS.SessionInfo> {
    [s] + WithoutId(list, s.id)
  }

  /** `session_created` puts the session first, leaves exactly one entry with its id,
      keeps every other entry, and keeps pairwise-distinct ids distinct. */
  lemma UpsertFrontSpec(list: seq<WS.SessionInfo>, s: WS.SessionInfo)
    ensures |UpsertFront(list, s)| >= 1 && UpsertFront(list, s)[0] == s
    ensures forall i :: 0 < i < |UpsertFront(list, s)| ==> UpsertFront(list, s)[i].id != s.id
    ensures forall x :: x in list && x.id != s.id ==> x in UpsertFront(list, s)
    ensures forall x :: x in UpsertFront(list, s) ==> x == s || x in list
    ensures DistinctIds(list) ==> DistinctIds(UpsertFront(list, s))
  {
    var rest := WithoutId(list, s.id);
    var r := [s] + rest;
    forall i | 0 < i < |r| ensures r[i].id != s.id {
      assert r[i] == rest[i - 1];
    }
    if DistinctIds(list) {
      WithoutIdDistinct(list, s.id);
      forall i, j | 0 <= i < j < |r| ensures r[i].id != r[j].id {
        if i > 0 { assert r[i] == rest[i - 1] && r[j] == rest[j - 1]; }
      }
    }
  }

  /** The `session_updated` update `prev.map((s) => (s.id === data.id ? data : s))`. */
  function ReplaceById(list: seq<WS.SessionInfo>, s: WS.SessionInfo): (r: seq<WS.SessionInfo>)
  {
    seq(|list|, i requires 0 <= i < |list| => if list[i].id == s.id then s else list[i])
  }

  /** `session_updated` keeps the list's length and the id at every position, swaps in
      the new value exactly where the id matches, and is a no-op when none does. */
  lemma ReplaceByIdSpec(list: seq<WS.SessionInfo>, s: WS.SessionInfo)
    ensures |ReplaceById(list, s)| == |list|
    ensures forall i :: 0 <= i < |list| ==> ReplaceById(list, s)[i].id == list[i].id
    ensures forall i :: 0 <= i < |list| && list[i].id == s.id ==> ReplaceById(list, s)[i] == s
    ensures forall i :: 0 <= i < |list| && list[i].id != s.id ==> ReplaceById(list, s)[i] == list[i]
    ensures (forall i :: 0 <= i < |list| ==> list[i].id != s.id) ==> ReplaceById(list, s) == list
    ensures DistinctIds(list) ==> DistinctIds(ReplaceById(list, s))
  {
  }

  /** One transcript entry `{ type, data }`. */
  function ChatEntry(kind: string, data: WS.Payload): WS.Message {
    WS.Message(kind, None, None, None, data)
  }

  /** The body of the listener registered for `event`, applied to the state it reads.
      A payload of the wrong shape for its event leaves the state as it was. */
  function Reduce(st: Store, event: string, data: WS.Payload): Store {
    match event
    case "sessions_list" =>
      if data.Sessions? then st.(sessions := data.sessions) else st
    case "session_created" =>
      if data.SessionValue? then
        st.(currentSessionId := data.session.id, sessions := UpsertFront(st.sessions, data.session))
      else st
    case "session_joined" =>
      if data.SessionValue? then st.(currentSessionId := data.session.id) else st
    case "session_updated" =>
      if data.SessionValue? then st.(sessions := ReplaceById(st.sessions, data.session)) else st
    case "session_message" =>
      st.(chatMessages := st.chatMessages + [ChatEntry("session_message", data)])
    case "idea_submitted" =>
      st.(chatMessages := st.chatMessages + [ChatEntry("idea_submitted", data)])
    case "aggregation_result" =>
      if data.Text? then st.(aggregatedResult := data.text) else st
    case "discussion_started" =>
      st.(discussionStarted := true, chatMessages := st.chatMessages + [ChatEntry("discussion", data)])
    case _ =>
      // idea_rating only logs; no other event has a listener here
      st
  }

  /** `sessions_list` is a full snapshot: the list becomes the payload, whatever it was. */
  lemma SessionsListReplaces(st: Store, list: seq<WS.SessionInfo>)
    ensures Reduce(st, "sessions_list", WS.Sessions(list)) == st.(sessions := list)
  {
  }

  /** `session_created` selects the new session and upserts it at the head. */
  lemma SessionCreatedSelects(st: Store, s: WS.SessionInfo)
    ensures Reduce(st, "session_created", WS.SessionValue(s)).currentSessionId == s.id
    ensures Reduce(st, "session_created", WS.SessionValue(s)).sessions[0] == s
    ensures Reduce(st, "session_created", WS.SessionValue(s)).chatMessages == st.chatMessages
    ensures DistinctIds(st.sessions) ==> DistinctIds(Reduce(st, "session_created", WS.SessionValue(s)).sessions)
  {
    UpsertFrontSpec(st.sessions, s);
  }

  /** `session_joined` changes the current session id and nothing else. */
  lemma SessionJoinedOnlySelects(st: Store, s: WS.SessionInfo)
    ensures Reduce(st, "session_joined", WS.SessionValue(s)) == st.(currentSessionId := s.id)
  {
  }

  /** `session_updated` swaps the new value in by id and changes nothing but the list,
      whose ids stay pairwise distinct. */
  lemma SessionUpdatedReplaces(st: Store, s: WS.SessionInfo)
    ensures Reduce(st, "session_updated", WS.SessionValue(s)) == st.(sessions := ReplaceById(st.sessions, s))
    ensures DistinctIds(st.sessions) ==> DistinctIds(Reduce(st, "session_updated", WS.SessionValue(s)).sessions)
  {
    ReplaceByIdSpec(st.sessions, s);
  }

  /** `aggregation_result` overwrites the aggregated text and nothing else. */
  lemma AggregationResultOverwrites(st: Store, text: string)
    ensures Reduce(st, "aggregation_result", WS.Text(text)) == st.(aggregatedResult := text)
  {
  }

  /** The three transcript events append exactly one entry and never touch the sessions;
      only `discussion_started` raises the discussion flag. */
  lemma TranscriptEventsAppendOne(st: Store, event: string, data: WS.Payload)
    requires event in {"session_message", "idea_submitted", "discussion_started"}
    ensures |Reduce(st, event, data).chatMessages| == |st.chatMessages| + 1
    ensures Reduce(st, event, data).chatMessages[..|st.chatMessages|] == st.chatMessages
    ensures Reduce(st, event, data).sessions == st.sessions
    ensures Reduce(st, event, data).currentSessionId == st.currentSessionId
    ensures Reduce(st, event, data).discussionStarted == (st.discussionStarted || event == "discussion_started")
  {
  }

  /** An `idea_rating` event, and any event without a listener body, changes no state. */
  lemma IdeaRatingChangesNothing(st: Store, data: WS.Payload)
    ensures Reduce(st, "idea_rating", data) == st
    ensures Reduce(st, "aggregation_started", data) == st
    ensures Reduce(st, "aggregation_error", data) == st
  {
  }

  /** One invocation of a registered closure. */
  function Step(st: Store, l: Listener, data: WS.Payload): Store {
    match l
    case Listener(_, event) => Reduce(st, event, data)
    case Placeholder(_, _) => st
  }

  /** The state after the closures `ls` run one after another on the same payload. */
  function StepAll(st: Store, ls: seq<Listener>, data: WS.Payload): Store
    decreases |ls|
  {
    if ls == [] then st else Step(StepAll(st, ls[..|ls| - 1], data), ls[|ls| - 1], data)
  }

  /** The registry after the effect has subscribed `Listener(mount, e)` for each `e` in `events`. */
  function SubscribeAll(listeners: map<string, seq<Listener>>, mount: nat, events: seq<string>): map<string, seq<Listener>>
    decreases |events|
  {
    if events == [] then listeners
    else SubscribeAll(WS.Subscribe(listeners, events[0], Listener(mount, events[0])), mount, events[1..])
  }

  /** The closure cleanup run `n` passes to `off` for event `e`: as written, a new
      `() => {}`; in the corrected cleanup, the body run `n` of the effect registered. */
  function OffClosure(fixed: bool, n: nat, e: string): Listener {
    if fixed then Listener(n, e) else Placeholder(n, e)
  }

  /** The registry after `off(e, OffClosure(fixed, n, e))` for each `e` in `events`. */
  function UnsubscribeAll(listeners: map<string, seq<Listener>>, fixed: bool, n: nat, events: seq<string>): map<string, seq<Listener>>
    decreases |events|
  {
    if events == [] then listeners
    else UnsubscribeAll(WS.Unsubscribe(listeners, events[0], OffClosure(fixed, n, events[0])), fixed, n, events[1..])
  }

  predicate Distinct(events: seq<string>) {
    forall i, j :: 0 <= i < j < |events| ==> events[i] != events[j]
  }

  /** No `() => {}` closure is registered anywhere. */
  predicate OnlyListeners(listeners: map<string, seq<Listener>>) {
    forall t, l :: t in listeners && l in listeners[t] ==> l.Listener?
  }

  lemma PlaceholderUnregistered(listeners: map<string, seq<Listener>>, t: string, cleanup: nat)
    requires OnlyListeners(listeners)
    ensures Placeholder(cleanup, t) !in WS.ListOf(listeners, t)
  {
    var l := Placeholder(cleanup, t);
    if t in listeners {
      assert l in listeners[t] ==> l.Listener?;
    }
  }

  lemma {:induction false} SubscribeAllOnlyListeners(listeners: map<string, seq<Listener>>, mount: nat, events: seq<string>)
    requires OnlyListeners(listeners)
    ensures OnlyListeners(SubscribeAll(listeners, mount, events))
    decreases |events|
  {
    if events != [] {
      SubscribeAllOnlyListeners(WS.Subscribe(listeners, events[0], Listener(mount, events[0])), mount, events[1..]);
    }
  }

  /** `off` with closures that were never registered changes nothing: the cleanup as
      written leaves a registry of listener bodies exactly as it found it. */
  lemma {:induction false} UnsubscribePlaceholdersChangesNothing(listeners: map<string, seq<Listener>>, cleanup: nat, events: seq<string>)
    requires OnlyListeners(listeners)
    ensures UnsubscribeAll(listeners, false, cleanup, events) == listeners
    decreases |events|
  {
    if events != [] {
      PlaceholderUnregistered(listeners, events[0], cleanup);
      WS.UnsubscribeUnregistered(listeners, events[0], Placeholder(cleanup, events[0]));
      UnsubscribePlaceholdersChangesNothing(listeners, cleanup, events[1..]);
    }
  }

  lemma DistinctTail(events: seq<string>)
    requires Distinct(events) && events != []
    ensures Distinct(events[1..]) && events[0] !in events[1..]
  {
    forall i, j | 0 <= i < j < |events[1..]| ensures events[1..][i] != events[1..][j] {
      assert events[1..][i] == events[i + 1] && events[1..][j] == events[j + 1];
    }
    forall k | 0 <= k < |events[1..]| ensures events[1..][k] != events[0] {
      assert events[1..][k] == events[k + 1];
    }
  }

  /** Mounting appends the body for `t` to `t`'s list when `t` is subscribed to. */
  lemma {:induction false} ListOfSubscribeAll(listeners: map<string, seq<Listener>>, mount: nat, events: seq<string>, t: string)
    requires Distinct(events)
    ensures WS.ListOf(SubscribeAll(listeners, mount, events), t)
      == WS.ListOf(listeners, t) + (if t in events then [Listener(mount, t)] else [])
    decreases |events|
  {
    if events != [] {
      DistinctTail(events);
      var next := WS.Subscribe(listeners, events[0], Listener(mount, events[0]));
      ListOfSubscribeAll(next, mount, events[1..], t);
      assert events == [events[0]] + events[1..];
    }
  }

  /** A cleanup that passes each registered closure back to `off` removes it from
      its event's list and touches no other list. */
  lemma {:induction false} ListOfUnsubscribeRegistered(listeners: map<string, seq<Listener>>, mount: nat, events: seq<string>, t: string)
    requires Distinct(events)
    ensures WS.ListOf(UnsubscribeAll(listeners, true, mount, events), t)
      == if t in events then WS.Without(WS.ListOf(listeners, t), Listener(mount, t)) else WS.ListOf(listeners, t)
    decreases |events|
  {
    if events != [] {
      DistinctTail(events);
      var next := WS.Unsubscribe(listeners, events[0], Listener(mount, events[0]));
      ListOfUnsubscribeRegistered(next, mount, events[1..], t);
      assert events == [events[0]] + events[1..];
    }
  }

  /** The listener ids `idea-<index>` the discussion view rates by. */
  function ChatIdeaId(index: nat): string {
    "idea-" + NatToDecimal(index)
  }

  /** A rating sent from the discussion view names an idea id of the form
      `idea-<index>`, which is never one the server generates (a decimal number),
      so the server can never attach it to an idea. */
  lemma ChatIdeaIdIsNeverAServerIdeaId(index: nat, nanos: int)
    ensures ChatIdeaId(index) != IntToDecimal(nanos)
  {
    assert ChatIdeaId(index)[0] == 'i';
  }

  /** `xs.filter(keep)`: the elements `keep` accepts, in their order. */
  function Filter<T>(xs: seq<T>, keep: T -> bool): seq<T> {
    if xs == [] then []
    else
      var last := xs[|xs| - 1];
      Filter(xs[..|xs| - 1], keep) + (if keep(last) then [last] else [])
  }

  /** Filtering goes element by element: filtering two blocks gives the two
      filtered blocks, one after the other. */
  lemma {:induction false} FilterAppend<T>(a: seq<T>, b: seq<T>, keep: T -> bool)
    ensures Filter(a + b, keep) == Filter(a, keep) + Filter(b, keep)
    decreases |b|
  {
    if b != [] {
      var init := b[..|b| - 1];
      assert (a + b)[..|a + b| - 1] == a + init;
      FilterAppend(a, init, keep);
    } else {
      assert a + b == a;
    }
  }

  /** The predicate of the question filter: `q.trim() !== ''`. */
  predicate IsQuestionLine(q: string) {
    Trim(q) != ""
  }

  /** The list `guidingQuestions.split('\n').filter((q) => q.trim() !== '')`. */
  function NonBlankLines(lines: seq<string>): seq<string> {
    Filter(lines, IsQuestionLine)
  }

  /** The filter keeps exactly the lines whose trim is not empty. */
  lemma {:induction false} NonBlankLinesSpec(lines: seq<string>)
    ensures forall q :: q in NonBlankLines(lines) <==> q in lines && Trim(q) != ""
    decreases |lines|
  {
    if lines != [] {
      NonBlankLinesSpec(lines[..|lines| - 1]);
      assert lines == lines[..|lines| - 1] + [lines[|lines| - 1]];
    }
  }

  function QuestionLines(text: string): seq<string> {
    NonBlankLines(Split(text, '\n'))
  }

  /** The filter works line by line and keeps the order of the lines it keeps:
      filtering two blocks of lines gives the two filtered blocks one after the
      other. */
  lemma NonBlankLinesAppend(a: seq<string>, b: seq<string>)
    ensures NonBlankLines(a + b) == NonBlankLines(a) + NonBlankLines(b)
  {
    FilterAppend(a, b, IsQuestionLine);
  }

  /** Typed as lines, the textarea yields exactly its non-blank lines, in the order
      they were typed and each as often as it was typed. */
  lemma QuestionLinesOfLines(lines: seq<string>)
    requires |lines| >= 1
    requires forall i :: 0 <= i < |lines| ==> '\n' !in lines[i]
    ensures QuestionLines(Join(lines, '\n')) == NonBlankLines(lines)
  {
    SplitJoin(lines, '\n');
  }

  /** The first line of the textarea comes first among the questions, when it is
      not blank, and the rest of the text gives the rest of them. */
  lemma QuestionLinesFirstLine(line: string, rest: string)
    requires '\n' !in line
    ensures QuestionLines(line + ['\n'] + rest) ==
      (if Trim(line) != "" then [line] else []) + QuestionLines(rest)
  {
    SplitAtFirst(line, rest, '\n');
    NonBlankLinesAppend([line], Split(rest, '\n'));
    NonBlankLinesOne(line);
  }

  /** A single line is kept exactly when it is not blank. */
  lemma NonBlankLinesOne(line: string)
    ensures NonBlankLines([line]) == if Trim(line) != "" then [line] else []
  {
    assert [line][..0] == [];
    assert NonBlankLines([line]) == Filter([], IsQuestionLine) + (if IsQuestionLine(line) then [line] else []);
  }

  /** A text with some non-whitespace character has some non-blank piece after a
      split on a whitespace separator. */
  lemma {:induction false} NonBlankJoinHasNonBlankPart(parts: seq<string>, sep: char)
    requires |parts| >= 1 && IsWhitespace(sep)
    requires !IsBlank(Join(parts, sep))
    ensures exists i :: 0 <= i < |parts| && !IsBlank(parts[i])
    decreases |parts|
  {
    if |parts| > 1 {
      var rest := Join(parts[1..], sep);
      var whole := parts[0] + [sep] + rest;
      if IsBlank(parts[0]) && IsBlank(rest) {
        forall i | 0 <= i < |whole| ensures IsWhitespace(whole[i]) {
          if i < |parts[0]| { assert whole[i] == parts[0][i]; }
          else if i > |parts[0]| { assert whole[i] == rest[i - |parts[0]| - 1]; }
        }
        assert false;
      }
      if !IsBlank(parts[0]) {
        assert !IsBlank(parts[0 + 0]);
      } else {
        NonBlankJoinHasNonBlankPart(parts[1..], sep);
        var i :| 0 <= i < |parts[1..]| && !IsBlank(parts[1..][i]);
        assert parts[i + 1] == parts[1..][i];
      }
    }
  }

  /** The questions sent with `create_session`: non-blank, free of newlines, every
      non-blank line kept; and at least one whenever the textarea is not blank. */
  lemma QuestionLinesSpec(text: string)
    ensures forall q :: q in QuestionLines(text) ==> !IsBlank(q) && '\n' !in q
    ensures forall q :: q in Split(text, '\n') && !IsBlank(q) ==> q in QuestionLines(text)
    ensures Trim(text) != "" ==> |QuestionLines(text)| >= 1
  {
    var parts := Split(text, '\n');
    NonBlankLinesSpec(parts);
    forall q | q in QuestionLines(text) ensures !IsBlank(q) {
      TrimEmptyIffBlank(q);
    }
    forall q | q in parts && !IsBlank(q) ensures q in QuestionLines(text) {
      TrimEmptyIffBlank(q);
    }
    if Trim(text) != "" {
      QuestionLinesOfNonBlankText(text);
    }
  }

  /** A textarea that is not blank yields at least one question. */
  lemma QuestionLinesOfNonBlankText(text: string)
    requires Trim(text) != ""
    ensures |QuestionLines(text)| >= 1
  {
    var parts := Split(text, '\n');
    TrimEmptyIffBlank(text);
    JoinSplit(text, '\n');
    NonBlankJoinHasNonBlankPart(parts, '\n');
    var i :| 0 <= i < |parts| && !IsBlank(parts[i]);
    TrimEmptyIffBlank(parts[i]);
    NonBlankLinesSpec(parts);
    assert parts[i] in QuestionLines(text);
  }


  class Session {
    // form inputs
    var username: string
    var connected: bool
    var sessionName: string
    var guidingQuestions: string
    var inputMessage: string
    var ideaContent: string
    var rating: WS.Rating
    var selectedIdeaId: Option<string>
    // mirrored server state
    var sessions: seq<WS.SessionInfo>
    var currentSessionId: string
    var chatMessages: seq<WS.Message>
    var aggregatedResult: string
    var discussionStarted: bool

    /** The `useState` initial values. */
    constructor ()
      ensures Snapshot() == Store([], "", [], "", false)
      ensures username == "" && !connected && sessionName == "" && guidingQuestions == ""
      ensures inputMessage == "" && ideaContent == "" && selectedIdeaId == None
      ensures rating == DefaultRating()
    {
      username, connected, sessionName, guidingQuestions := "", false, "", "";
      inputMessage, ideaContent, rating, selectedIdeaId := "", "", DefaultRating(), None;
      sessions, currentSessionId, chatMessages, aggregatedResult, discussionStarted := [], "", [], "", false;
    }

    static function DefaultRating(): WS.Rating {
      WS.Rating(1, 1, 1, None)
    }

    function Snapshot(): Store
      reads this
    {
      Store(sessions, currentSessionId, chatMessages, aggregatedResult, discussionStarted)
    }

    /** The form inputs, which no listener touches. */
    function Inputs(): (string, bool, string, string, string, string, WS.Rating, Option<string>)
      reads this
    {
      (username, connected, sessionName, guidingQuestions, inputMessage, ideaContent, rating, selectedIdeaId)
    }

    /** The effect body: one `on` per event type, in source order. */
    method Mount(ws: WS.WebSocketService<Listener>, mount: nat)
      modifies ws`listeners
      ensures ws.listeners == SubscribeAll(old(ws.listeners), mount, Events)
      ensures OnlyListeners(old(ws.listeners)) ==> OnlyListeners(ws.listeners)
    {
      ghost var before := ws.listeners;
      ws.On("sessions_list", Listener(mount, "sessions_list"));
      ws.On("session_created", Listener(mount, "session_created"));
      ws.On("session_joined", Listener(mount, "session_joined"));
      ws.On("session_updated", Listener(mount, "session_updated"));
      ws.On("session_message", Listener(mount, "session_message"));
      ws.On("idea_submitted", Listener(mount, "idea_submitted"));
      ws.On("aggregation_result", Listener(mount, "aggregation_result"));
      ws.On("idea_rating", Listener(mount, "idea_rating"));
      ws.On("discussion_started", Listener(mount, "discussion_started"));
      UnfoldSubscribeAll(before, mount);
      if OnlyListeners(before) {
        SubscribeAllOnlyListeners(before, mount, Events);
      }
    }

    /** The effect's cleanup as written: each `off` gets a new `() => {}`. */
    method Cleanup(ws: WS.WebSocketService<Listener>, cleanup: nat)
      modifies ws`listeners
      ensures ws.listeners == UnsubscribeAll(old(ws.listeners), false, cleanup, Events)
      ensures OnlyListeners(old(ws.listeners)) ==> ws.listeners == old(ws.listeners)
    {
      ghost var before := ws.listeners;
      ws.Off("sessions_list", Placeholder(cleanup, "sessions_list"));
      ws.Off("session_created", Placeholder(cleanup, "session_created"));
      ws.Off("session_joined", Placeholder(cleanup, "session_joined"));
      ws.Off("session_updated", Placeholder(cleanup, "session_updated"));
      ws.Off("session_message", Placeholder(cleanup, "session_message"));
      ws.Off("idea_submitted", Placeholder(cleanup, "idea_submitted"));
      ws.Off("aggregation_result", Placeholder(cleanup, "aggregation_result"));
      ws.Off("idea_rating", Placeholder(cleanup, "idea_rating"));
      ws.Off("discussion_started", Placeholder(cleanup, "discussion_started"));
      UnfoldUnsubscribeAll(before, false, cleanup);
      if OnlyListeners(before) {
        UnsubscribePlaceholdersChangesNothing(before, cleanup, Events);
      }
    }

    /** The cleanup the effect evidently intends: `off` with the closure run `mount`
        registered for each event. */
    method CleanupFixed(ws: WS.WebSocketService<Listener>, mount: nat)
      modifies ws`listeners
      ensures ws.listeners == UnsubscribeAll(old(ws.listeners), true, mount, Events)
    {
      ghost var before := ws.listeners;
      ws.Off("sessions_list", Listener(mount, "sessions_list"));
      ws.Off("session_created", Listener(mount, "session_created"));
      ws.Off("session_joined", Listener(mount, "session_joined"));
      ws.Off("session_updated", Listener(mount, "session_updated"));
      ws.Off("session_message", Listener(mount, "session_message"));
      ws.Off("idea_submitted", Listener(mount, "idea_submitted"));
      ws.Off("aggregation_result", Listener(mount, "aggregation_result"));
      ws.Off("idea_rating", Listener(mount, "idea_rating"));
      ws.Off("discussion_started", Listener(mount, "discussion_started"));
      UnfoldUnsubscribeAll(before, true, mount);
    }

    /** One closure invocation with `data`: a listener body runs its reducer;
        `() => {}` does nothing. */
    method Invoke(l: Listener, data: WS.Payload)
      modifies this
      ensures Snapshot() == Step(old(Snapshot()), l, data)
      ensures Inputs() == old(Inputs())
    {
      match l {
        case Placeholder(_, _) =>
        case Listener(_, event) =>
          var st := Reduce(Snapshot(), event, data);
          sessions, currentSessionId, chatMessages := st.sessions, st.currentSessionId, st.chatMessages;
          aggregatedResult, discussionStarted := st.aggregatedResult, st.discussionStarted;
      }
    }

    /** An inbound frame: the service fans it out and each reached closure runs in turn. */
    method Deliver(ws: WS.WebSocketService<Listener>, m: WS.Message)
      modifies this
      ensures Snapshot() == StepAll(old(Snapshot()), WS.Fanout(ws.listeners, m), m.data)
      ensures Inputs() == old(Inputs())
    {
      var calls := ws.Receive(m);
      var i := 0;
      while i < |calls|
        invariant 0 <= i <= |calls|
        invariant Snapshot() == StepAll(old(Snapshot()), calls[..i], m.data)
        invariant Inputs() == old(Inputs())
      {
        assert calls[..i + 1][..i] == calls[..i];
        Invoke(calls[i], m.data);
        i := i + 1;
      }
      assert calls[..|calls|] == calls;
    }

    /** `handleConnect`: connects only with a non-blank username. */
    method HandleConnect(ws: WS.WebSocketService<Listener>)
      modifies ws
      ensures IsBlank(username) ==> ws.socket == old(ws.socket) && ws.username == old(ws.username)
      ensures !IsBlank(username) ==> ws.socket == WS.Connecting && ws.username == username
      ensures ws.listeners == old(ws.listeners) && ws.outbox == old(ws.outbox)
    {
      TrimEmptyIffBlank(username);
      if Trim(username) != "" {
        ws.Connect(username);
      }
    }

    /** The socket opens and `connect`'s promise resolves: `setConnected(true)`. */
    method HandleConnected(ws: WS.WebSocketService<Listener>)
      requires ws.socket == WS.Connecting
      modifies ws, this`connected
      ensures connected && ws.socket == WS.Open
      ensures ws.outbox == old(ws.outbox) + [WS.ListSessionsMessage()]
      ensures ws.listeners == old(ws.listeners)
    {
      ws.HandleOpen();
      connected := true;
    }

    /** `handleCreateSession`: sends only when both inputs are non-blank, with the
        non-blank lines of the textarea as questions. */
    method HandleCreateSession(ws: WS.WebSocketService<Listener>)
      modifies ws`outbox
      ensures IsBlank(sessionName) || IsBlank(guidingQuestions) ==> ws.outbox == old(ws.outbox)
      ensures !IsBlank(sessionName) && !IsBlank(guidingQuestions) ==>
        ws.outbox == old(ws.outbox) + WS.Emitted(ws.socket, WS.CreateSessionMessage(ws.username, sessionName, QuestionLines(guidingQuestions)))
    {
      TrimEmptyIffBlank(sessionName);
      TrimEmptyIffBlank(guidingQuestions);
      if Trim(sessionName) != "" && Trim(guidingQuestions) != "" {
        var questions := QuestionLines(guidingQuestions);
        ws.CreateSession(sessionName, questions);
      }
    }

    /** `handleJoinSession`: no guard. */
    method HandleJoinSession(ws: WS.WebSocketService<Listener>, sessionId: string)
      modifies ws`outbox
      ensures ws.outbox == old(ws.outbox) + WS.Emitted(ws.socket, WS.JoinSessionMessage(ws.username, sessionId))
    {
      ws.JoinSession(sessionId);
    }

    /** `handleLeaveSession`: with no current session nothing happens; otherwise one
        `leave_session` goes out and the session-scoped state is reset. The session
        list is kept. */
    method HandleLeaveSession(ws: WS.WebSocketService<Listener>)
      modifies this, ws`outbox
      ensures old(currentSessionId) == "" ==> Snapshot() == old(Snapshot()) && ws.outbox == old(ws.outbox)
      ensures old(currentSessionId) != "" ==>
        && Snapshot() == Store(old(sessions), "", [], "", false)
        && ws.outbox == old(ws.outbox) + WS.Emitted(ws.socket, WS.LeaveSessionMessage())
      ensures Inputs() == old(Inputs())
    {
      if currentSessionId != "" {
        ws.LeaveSession();
        currentSessionId := "";
        aggregatedResult := "";
        discussionStarted := false;
        chatMessages := [];
      }
    }

    /** `handleSendChat`: needs a current session and a non-blank message; the input
        is cleared only when the message is sent. */
    method HandleSendChat(ws: WS.WebSocketService<Listener>)
      modifies this`inputMessage, ws`outbox
      ensures currentSessionId == "" || IsBlank(old(inputMessage)) ==>
        ws.outbox == old(ws.outbox) && inputMessage == old(inputMessage)
      ensures currentSessionId != "" && !IsBlank(old(inputMessage)) ==>
        && ws.outbox == old(ws.outbox) + WS.Emitted(ws.socket, WS.SessionChatMessage(currentSessionId, WS.Text(old(inputMessage))))
        && inputMessage == ""
    {
      TrimEmptyIffBlank(inputMessage);
      if currentSessionId != "" && Trim(inputMessage) != "" {
        ws.SendSessionMessage(currentSessionId, WS.Text(inputMessage));
        inputMessage := "";
      }
    }

    /** `handleSubmitIdea`: needs a current session and non-blank content; sends a
        `'text'` idea and clears the input only then. */
    method HandleSubmitIdea(ws: WS.WebSocketService<Listener>)
      modifies this`ideaContent, ws`outbox
      ensures currentSessionId == "" || IsBlank(old(ideaContent)) ==>
        ws.outbox == old(ws.outbox) && ideaContent == old(ideaContent)
      ensures currentSessionId != "" && !IsBlank(old(ideaContent)) ==>
        && ws.outbox == old(ws.outbox) + WS.Emitted(ws.socket, WS.SubmitIdeaMessage(ws.username, currentSessionId, old(ideaContent), "text", None))
        && ideaContent == ""
    {
      TrimEmptyIffBlank(ideaContent);
      if currentSessionId != "" && Trim(ideaContent) != "" {
        ws.SubmitIdea(currentSessionId, ideaContent, "text");
        ideaContent := "";
      }
    }

    method HandleAggregateIdeas(ws: WS.WebSocketService<Listener>)
      modifies ws`outbox
      ensures currentSessionId == "" ==> ws.outbox == old(ws.outbox)
      ensures currentSessionId != "" ==>
        ws.outbox == old(ws.outbox) + WS.Emitted(ws.socket, WS.AggregateIdeasMessage(currentSessionId))
    {
      if currentSessionId != "" {
        ws.AggregateIdeas(currentSessionId);
      }
    }

    /** `handleSubmitRating(ideaId)`: sends the form's rating and resets the form. */
    method HandleSubmitRating(ws: WS.WebSocketService<Listener>, ideaId: string)
      modifies this`selectedIdeaId, this`rating, ws`outbox
      ensures currentSessionId == "" ==>
        ws.outbox == old(ws.outbox) && rating == old(rating) && selectedIdeaId == old(selectedIdeaId)
      ensures currentSessionId != "" ==>
        && ws.outbox == old(ws.outbox) + WS.Emitted(ws.socket, WS.IdeaRatingMessage(currentSessionId, ideaId, old(rating)))
        && rating == DefaultRating() && selectedIdeaId == None
    {
      if currentSessionId != "" {
        ws.SendIdeaRating(currentSessionId, ideaId, rating);
        selectedIdeaId := None;
        rating := DefaultRating();
      }
    }

    method HandleStartDiscussion(ws: WS.WebSocketService<Listener>)
      modifies ws`outbox
      ensures currentSessionId == "" ==> ws.outbox == old(ws.outbox)
      ensures currentSessionId != "" ==>
        ws.outbox == old(ws.outbox) + WS.Emitted(ws.socket, WS.StartDiscussionMessage(currentSessionId))
    {
      if currentSessionId != "" {
        ws.StartDiscussion(currentSessionId);
      }
    }
  }

  lemma UnfoldSubscribeAll(listeners: map<string, seq<Listener>>, mount: nat)
    ensures SubscribeAll(listeners, mount, Events) ==
      var l0 := WS.Subscribe(listeners, "sessions_list", Listener(mount, "sessions_list"));
      var l1 := WS.Subscribe(l0, "session_created", Listener(mount, "session_created"));
      var l2 := WS.Subscribe(l1, "session_joined", Listener(mount, "session_joined"));
      var l3 := WS.Subscribe(l2, "session_updated", Listener(mount, "session_updated"));
      var l4 := WS.Subscribe(l3, "session_message", Listener(mount, "session_message"));
      var l5 := WS.Subscribe(l4, "idea_submitted", Listener(mount, "idea_submitted"));
      var l6 := WS.Subscribe(l5, "aggregation_result", Listener(mount, "aggregation_result"));
      var l7 := WS.Subscribe(l6, "idea_rating", Listener(mount, "idea_rating"));
      WS.Subscribe(l7, "discussion_started", Listener(mount, "discussion_started"))
  {
    var e := Events;
    assert e[1..][1..][1..][1..][1..][1..][1..][1..][1..] == [];
  }

  lemma UnfoldUnsubscribeAll(listeners: map<string, seq<Listener>>, fixed: bool, n: nat)
    ensures UnsubscribeAll(listeners, fixed, n, Events) ==
      var l0 := WS.Unsubscribe(listeners, "sessions_list", OffClosure(fixed, n, "sessions_list"));
      var l1 := WS.Unsubscribe(l0, "session_created", OffClosure(fixed, n, "session_created"));
      var l2 := WS.Unsubscribe(l1, "session_joined", OffClosure(fixed, n, "session_joined"));
      var l3 := WS.Unsubscribe(l2, "session_updated", OffClosure(fixed, n, "session_updated"));
      var l4 := WS.Unsubscribe(l3, "session_message", OffClosure(fixed, n, "session_message"));
      var l5 := WS.Unsubscribe(l4, "idea_submitted", OffClosure(fixed, n, "idea_submitted"));
      var l6 := WS.Unsubscribe(l5, "aggregation_result", OffClosure(fixed, n, "aggregation_result"));
      var l7 := WS.Unsubscribe(l6, "idea_rating", OffClosure(fixed, n, "idea_rating"));
      WS.Unsubscribe(l7, "discussion_started", OffClosure(fixed, n, "discussion_started"))
  {
    var e := Events;
    assert e[1..][1..][1..][1..][1..][1..][1..][1..][1..] == [];
  }

  // ---- The effect run again on the same instance ----
  // One `Store` stands for one component instance. The sequence below (effect,
  // its cleanup, effect again on that instance) is what React's StrictMode does
  // in development, and what any re-run of the effect on a live instance does.

  /** The nine event types are distinct, so each list gets one body per mount. */
  lemma EventsDistinct()
    ensures Distinct(Events)
    ensures "session_message" in Events
  {
  }

  /** As written, running the effect (`m0`), its cleanup (`c0`) and the effect
      again (`m1`) leaves both bodies registered for every subscribed event. */
  lemma RemountKeepsStaleListeners(listeners: map<string, seq<Listener>>, events: seq<string>, m0: nat, c0: nat, m1: nat, t: string)
    requires OnlyListeners(listeners) && Distinct(events) && t in events
    ensures WS.ListOf(SubscribeAll(UnsubscribeAll(SubscribeAll(listeners, m0, events), false, c0, events), m1, events), t)
      == WS.ListOf(listeners, t) + [Listener(m0, t), Listener(m1, t)]
  {
    var mounted := SubscribeAll(listeners, m0, events);
    SubscribeAllOnlyListeners(listeners, m0, events);
    UnsubscribePlaceholdersChangesNothing(mounted, c0, events);
    ListOfSubscribeAll(listeners, m0, events, t);
    ListOfSubscribeAll(mounted, m1, events, t);
  }

  /** With the corrected cleanup, the second effect run leaves exactly its own
      body registered. */
  lemma RemountFixedReplacesListeners(listeners: map<string, seq<Listener>>, events: seq<string>, m0: nat, m1: nat, t: string)
    requires Listener(m0, t) !in WS.ListOf(listeners, t) && Distinct(events) && t in events
    ensures WS.ListOf(SubscribeAll(UnsubscribeAll(SubscribeAll(listeners, m0, events), true, m0, events), m1, events), t)
      == WS.ListOf(listeners, t) + [Listener(m1, t)]
  {
    var mounted := SubscribeAll(listeners, m0, events);
    var cleaned := UnsubscribeAll(mounted, true, m0, events);
    ListOfSubscribeAll(listeners, m0, events, t);
    ListOfUnsubscribeRegistered(mounted, m0, events, t);
    WS.WithoutAppend(WS.ListOf(listeners, t), [Listener(m0, t)], Listener(m0, t));
    assert [Listener(m0, t)][1..] == [];
    ListOfSubscribeAll(cleaned, m1, events, t);
  }

  /** A `session_message` body appends one transcript entry. */
  lemma StepSessionMessage(st: Store, n: nat, data: WS.Payload)
    ensures Step(st, Listener(n, "session_message"), data).chatMessages
      == st.chatMessages + [ChatEntry("session_message", data)]
  {
  }

  /** The consequence on screen: when the effect has run, been cleaned up and run
      again on the same instance, one inbound `session_message` adds two
      identical entries to that instance's transcript. */
  lemma RemountDuplicatesChatEntries(st: Store, events: seq<string>, m: WS.Message)
    requires m.kind == "session_message" && Distinct(events) && m.kind in events
    ensures
      var asWritten := SubscribeAll(UnsubscribeAll(SubscribeAll(map[], 0, events), false, 0, events), 1, events);
      StepAll(st, WS.Fanout(asWritten, m), m.data).chatMessages
        == st.chatMessages + [ChatEntry("session_message", m.data), ChatEntry("session_message", m.data)]
  {
    var empty: map<string, seq<Listener>> := map[];
    RemountKeepsStaleListeners(empty, events, 0, 0, 1, m.kind);
    var asWritten := SubscribeAll(UnsubscribeAll(SubscribeAll(empty, 0, events), false, 0, events), 1, events);
    var two := [Listener(0, m.kind), Listener(1, m.kind)];
    assert WS.Fanout(asWritten, m) == two;
    assert two[..1] == [Listener(0, m.kind)] && two[..1][..0] == [];
    var once := Step(st, Listener(0, m.kind), m.data);
    assert StepAll(st, two[..1], m.data) == once;
    assert StepAll(st, two, m.data) == Step(once, Listener(1, m.kind), m.data);
    StepSessionMessage(st, 0, m.data);
    StepSessionMessage(once, 1, m.data);
  }

  /** With the corrected cleanup, the same sequence and the same frame add one entry. */
  lemma RemountFixedSingleChatEntry(st: Store, events: seq<string>, m: WS.Message)
    requires m.kind == "session_message" && Distinct(events) && m.kind in events
    ensures
      var fixed := SubscribeAll(UnsubscribeAll(SubscribeAll(map[], 0, events), true, 0, events), 1, events);
      StepAll(st, WS.Fanout(fixed, m), m.data).chatMessages
        == st.chatMessages + [ChatEntry("session_message", m.data)]
  {
    var empty: map<string, seq<Listener>> := map[];
    RemountFixedReplacesListeners(empty, events, 0, 1, m.kind);
    var fixed := SubscribeAll(UnsubscribeAll(SubscribeAll(empty, 0, events), true, 0, events), 1, events);
    assert WS.Fanout(fixed, m) == [Listener(1, m.kind)];
    assert [Listener(1, m.kind)][..0] == [];
    StepSessionMessage(st, 1, m.data);
  }
}
