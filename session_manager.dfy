/** The server's session model (backend/models/session_manager.go): a session holds a
    map of users keyed by id and an append-only list of ideas; the manager holds the
    registry of sessions by id. Sessions are shared objects, as Go's `*Session`
    references are: the hub mutates the session it got from the registry. */
module SessionManager {
  import opened Wrappers

  datatype User = User(id: string, username: string)

  datatype IdeaRating = IdeaRating(userId: string, novelty: int, feasibility: int, usefulness: int, comment: string)

  datatype Idea = Idea(id: string, content: string, mediaType: string, submittedBy: User, ratings: seq<IdeaRating>)

  /** What `json.Marshal(session)` shows of a session at the moment it is sent. */
  datatype SessionView = SessionView(
    id: string,
    name: string,
    guidingQuestions: seq<string>,
    creator: User,
    users: map<string, User>,
    ideas: seq<Idea>)

  /** Every user is stored under its own id. */
  predicate KeyedById(users: map<string, User>) {
    forall k :: k in users ==> users[k].id == k
  }

  /** `order` lists each key of `m` exactly once. */
  predicate EnumeratesKeys<V>(order: seq<string>, m: map<string, V>) {
    && |order| == |m|
    && (forall i, j :: 0 <= i < j < |order| ==> order[i] != order[j])
    && (forall i :: 0 <= i < |order| ==> order[i] in m)
  }

  /** An enumeration reaches every key. */
  lemma EnumerationIsComplete<V>(order: seq<string>, m: map<string, V>)
    requires EnumeratesKeys(order, m)
    ensures forall k :: k in m ==> k in order
  {
    var s := set i | 0 <= i < |order| :: order[i];
    assert s <= m.Keys;
    CardinalityOfDistinct(order);
    if s < m.Keys {
      SubsetCardinality(s, m.Keys);
      assert false;
    }
  }

  lemma {:induction false} CardinalityOfDistinct(order: seq<string>)
    requires forall i, j :: 0 <= i < j < |order| ==> order[i] != order[j]
    ensures |set i | 0 <= i < |order| :: order[i]| == |order|
    decreases |order|
  {
    if order != [] {
      var init := order[..|order| - 1];
      CardinalityOfDistinct(init);
      var s := set i | 0 <= i < |order| :: order[i];
      var t := set i | 0 <= i < |init| :: init[i];
      assert s == t + {order[|order| - 1]};
      assert order[|order| - 1] !in t;
    }
  }

  lemma SubsetCardinality(a: set<string>, b: set<string>)
    requires a < b
    ensures |a| < |b|
  {
    var x :| x in b && x !in a;
    SubsetAtMost(a, b - {x});
  }

  lemma {:induction false} SubsetAtMost(a: set<string>, b: set<string>)
    requires a <= b
    ensures |a| <= |b|
    decreases |a|
  {
    if a != {} {
      var y :| y in a;
      SubsetAtMost(a - {y}, b - {y});
    }
  }

  class Session {
    const id: string
    const name: string
    const guidingQuestions: seq<string>
    const creator: User
    var users: map<string, User>
    var ideas: seq<Idea>

    /** `NewSession`: the creator is the only user and there are no ideas yet. */
    constructor (id: string, name: string, guidingQuestions: seq<string>, creator: User)
      ensures this.id == id && this.name == name && this.guidingQuestions == guidingQuestions
      ensures this.creator == creator
      ensures users == map[creator.id := creator] && ideas == []
      ensures KeyedById(users)
    {
      this.id := id;
      this.name := name;
      this.guidingQuestions := guidingQuestions;
      this.creator := creator;
      users := map[creator.id := creator];
      ideas := [];
    }

    function View(): SessionView
      reads this
    {
      SessionView(id, name, guidingQuestions, creator, users, ideas)
    }

    /** Inserts `user` under its id, replacing any user with the same id. */
    method AddUser(user: User)
      modifies this`users
      ensures users == old(users)[user.id := user]
      ensures KeyedById(old(users)) ==> KeyedById(users)
    {
      users := users[user.id := user];
    }

    /** Deletes the entry for `userId`; an absent id leaves the map as it was. */
    method RemoveUser(userId: string)
      modifies this`users
      ensures users == old(users) - {userId}
      ensures userId !in old(users) ==> users == old(users)
      ensures KeyedById(old(users)) ==> KeyedById(users)
    {
      users := users - {userId};
    }

    /** The users in map iteration order, which Go leaves unspecified: `order` is the
        key order this run happened to take. Each user appears exactly once. */
    method GetUsers() returns (list: seq<User>, ghost order: seq<string>)
      ensures |list| == |users|
      ensures EnumeratesKeys(order, users)
      ensures |order| == |list| && forall i :: 0 <= i < |list| ==> list[i] == users[order[i]]
    {
      list, order := [], [];
      var remaining := users.Keys;
      while remaining != {}
        invariant remaining <= users.Keys
        invariant |order| == |list| && |order| + |remaining| == |users.Keys|
        invariant forall i :: 0 <= i < |order| ==> order[i] in users && order[i] !in remaining && list[i] == users[order[i]]
        invariant forall i, j :: 0 <= i < j < |order| ==> order[i] != order[j]
        decreases |remaining|
      {
        var k :| k in remaining;
        list, order := list + [users[k]], order + [k];
        remaining := remaining - {k};
      }
      assert |users.Keys| == |users|;
    }

    /** Appends at the end; earlier ideas are untouched. */
    method AddIdea(idea: Idea)
      modifies this`ideas
      ensures ideas == old(ideas) + [idea]
    {
      ideas := ideas + [idea];
    }
  }

  /** The 36 characters a session id is drawn from, and its length. */
  const Charset: string := "ABCDEFGHIJKLMNOPQRSTUVWXYZ0123456789"
  const IdLength: nat := 6

  predicate IsIdChar(c: char) {
    'A' <= c <= 'Z' || '0' <= c <= '9'
  }

  /** Draws as `r.Intn(len(charset))` returns them: one per character, each below 36. */
  predicate ValidDraws(draws: seq<nat>) {
    |draws| == IdLength && forall i :: 0 <= i < |draws| ==> draws[i] < |Charset|
  }

  lemma CharsetIsIdChars()
    ensures forall i :: 0 <= i < |Charset| ==> IsIdChar(Charset[i])
  {
  }

  /** `generateSessionID`, with the pseudo-random draws passed in: six characters,
      each an upper-case letter or a digit, the `i`-th chosen by the `i`-th draw. */
  method GenerateSessionId(draws: seq<nat>) returns (id: string)
    requires ValidDraws(draws)
    ensures |id| == IdLength
    ensures forall i :: 0 <= i < |id| ==> id[i] == Charset[draws[i]] && IsIdChar(id[i])
  {
    CharsetIsIdChars();
    var buf := new char[IdLength];
    var i := 0;
    while i < IdLength
      invariant 0 <= i <= IdLength
      invariant forall j :: 0 <= j < i ==> buf[j] == Charset[draws[j]]
    {
      buf[i] := Charset[draws[i]];
      i := i + 1;
    }
    id := buf[..];
  }

  class SessionManager {
    var sessions: map<string, Session>

    /** Every session is registered under its own id. */
    predicate Valid()
      reads this
    {
      forall id :: id in sessions ==> sessions[id].id == id
    }

    constructor ()
      ensures sessions == map[] && Valid()
    {
      sessions := map[];
    }

    /** Registers a new session under a generated id; a colliding id silently
        replaces the session registered before. */
    method CreateSession(name: string, guidingQuestions: seq<string>, creator: User, draws: seq<nat>) returns (session: Session)
      requires ValidDraws(draws)
      modifies this
      ensures fresh(session)
      ensures |session.id| == IdLength && forall i :: 0 <= i < IdLength ==> session.id[i] == Charset[draws[i]]
      ensures session.name == name && session.guidingQuestions == guidingQuestions && session.creator == creator
      ensures session.users == map[creator.id := creator] && session.ideas == []
      ensures sessions == old(sessions)[session.id := session]
      ensures old(Valid()) ==> Valid()
    {
      var id := GenerateSessionId(draws);
      session := new Session(id, name, guidingQuestions, creator);
      sessions := sessions[id := session];
    }

    /** The session registered under `id`, or the error `session does not exist`. */
    method GetSession(id: string) returns (r: Result<Session, string>)
      ensures r.Ok? <==> id in sessions
      ensures r.Ok? ==> r.value == sessions[id]
      ensures r.Err? ==> r.error == "session does not exist"
    {
      if id in sessions {
        r := Ok(sessions[id]);
      } else {
        r := Err("session does not exist");
      }
    }

    /** The registered sessions in map iteration order: each exactly once. */
    method ListSessions() returns (list: seq<Session>, ghost order: seq<string>)
      ensures |list| == |sessions|
      ensures EnumeratesKeys(order, sessions)
      ensures |order| == |list| && forall i :: 0 <= i < |list| ==> list[i] == sessions[order[i]]
    {
      list, order := [], [];
      var remaining := sessions.Keys;
      while remaining != {}
        invariant remaining <= sessions.Keys
        invariant |order| == |list| && |order| + |remaining| == |sessions.Keys|
        invariant forall i :: 0 <= i < |order| ==> order[i] in sessions && order[i] !in remaining && list[i] == sessions[order[i]]
        invariant forall i, j :: 0 <= i < j < |order| ==> order[i] != order[j]
        decreases |remaining|
      {
        var k :| k in remaining;
        list, order := list + [sessions[k]], order + [k];
        remaining := remaining - {k};
      }
      assert |sessions.Keys| == |sessions|;
    }

    /** Deletes only `id`. */
    method RemoveSession(id: string)
      modifies this
      ensures sessions == old(sessions) - {id}
      ensures old(Valid()) ==> Valid()
    {
      sessions := sessions - {id};
    }
  }

  /** A session created and then looked up by its id is found, unless the lookup
      comes after a later session took the same id. */
  method CreateThenGet(sm: SessionManager, name: string, questions: seq<string>, creator: User, draws: seq<nat>)
    returns (created: Session, found: Result<Session, string>)
    requires ValidDraws(draws)
    modifies sm
    ensures found == Ok(created) && created.users == map[creator.id := creator]
  {
    created := sm.CreateSession(name, questions, creator, draws);
    found := sm.GetSession(created.id);
  }
}
