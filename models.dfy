/** The earlier session type of backend/models/models.go: a name, a creator and a
    map of users keyed by id, without questions or ideas. Its three-argument
    `NewSession` is the one backend/models/session_test.go exercises. */
module Models {

  datatype User = User(id: string, username: string)

  class Session {
    const id: string
    const name: string
    const creator: User
    var users: map<string, User>

    /** `NewSession`: exactly one user, the creator, under the creator's id. */
    constructor (id: string, name: string, creator: User)
      ensures this.id == id && this.name == name && this.creator == creator
      ensures users == map[creator.id := creator]
      ensures |users| == 1 && creator.id in users && users[creator.id].username == creator.username
    {
      this.id := id;
      this.name := name;
      this.creator := creator;
      users := map[creator.id := creator];
    }

    /** Inserts or overwrites the entry for `user.id`: a new id grows the map by one,
        a known id keeps its size. */
    method AddUser(user: User)
      modifies this`users
      ensures users == old(users)[user.id := user]
      ensures user.id !in old(users) ==> |users| == |old(users)| + 1
      ensures user.id in old(users) ==> |users| == |old(users)|
    {
      users := users[user.id := user];
    }

    /** Deletes `userId` only; every other user stays. */
    method RemoveUser(userId: string)
      modifies this`users
      ensures users == old(users) - {userId}
      ensures userId in old(users) ==> |users| == |old(users)| - 1
      ensures userId !in old(users) ==> users == old(users)
      ensures forall k :: k in old(users) && k != userId ==> k in users && users[k] == old(users)[k]
    {
      users := users - {userId};
    }

    /** Every user once, in the map's iteration order (recorded in `order`). */
    method GetUsers() returns (list: seq<User>, ghost order: seq<string>)
      ensures |list| == |users| && |order| == |list|
      ensures forall i, j :: 0 <= i < j < |order| ==> order[i] != order[j]
      ensures forall i :: 0 <= i < |list| ==> order[i] in users && list[i] == users[order[i]]
    {
      list, order := [], [];
      var remaining := users.Keys;
      while remaining != {}
        invariant remaining <= users.Keys
        invariant |order| == |list| && |order| + |remaining| == |users.Keys|
        invariant forall i :: 0 <= i < |order| ==> order[i] in users && order[i] !in remaining && list[i] == users[order[i]]
        invariant forall i, j :: 0 <= i < j < |order| ==> order[i] != order[j]
        decreases |remaining|
      {
        var k :| k in remaining;
        list, order := list + [users[k]], order + [k];
        remaining := remaining - {k};
      }
      assert |users.Keys| == |users|;
    }
  }

  /** `TestNewSession`: the fields are copied and the creator is the one user. */
  method NewSessionScenario() returns (s: Session)
    ensures s.id == "test-session-id" && s.name == "Test Session" && s.creator.id == "test-user-id"
    ensures |s.users| == 1 && "test-user-id" in s.users && s.users["test-user-id"].username == "testuser"
  {
    var creator := User("test-user-id", "testuser");
    s := new Session("test-session-id", "Test Session", creator);
  }

  /** `TestAddUser`: a second user with a new id makes two entries. */
  method AddUserScenario() returns (s: Session)
    ensures |s.users| == 2 && "user-id" in s.users && s.users["user-id"].username == "testuser"
  {
    var creator := User("creator-id", "creator");
    s := new Session("test-session", "Test Session", creator);
    s.AddUser(User("user-id", "testuser"));
  }

  /** `TestRemoveUser`: removing the second user leaves exactly the creator. */
  method RemoveUserScenario() returns (s: Session)
    ensures |s.users| == 1 && "user-id" !in s.users && "creator-id" in s.users
  {
    var creator := User("creator-id", "creator");
    s := new Session("test-session", "Test Session", creator);
    var newUser := User("user-id", "testuser");
    s.AddUser(newUser);
    assert |s.users| == 2;
    s.RemoveUser(newUser.id);
  }
}
