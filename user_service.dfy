/** service/impl/UserServiceImpl.java: the user accounts the JWT filter looks
    callers up in, registered under a unique username. */
module UserService {
  import opened Wrappers
  import opened Text
  import opened Exceptions
  import opened Entities
  import opened Store

  datatype UserRole = USER | ADMIN

  /** The stored account; `role` is a nullable column (an update may clear it). */
  datatype User = User(username: string, password: string, role: Option<UserRole>)

  /** RegisterRequest: the role is optional. */
  datatype RegisterRequest = RegisterRequest(username: string, password: string, role: Option<UserRole>)

  /** UpdateUserRequest. */
  datatype UpdateUserRequest = UpdateUserRequest(username: string, role: Option<UserRole>)

  /** UserDTO: id, username and role, never the password. */
  datatype UserDTO = UserDTO(id: Id, username: string, role: Option<UserRole>)

  const USERNAME_TAKEN: string := "Gebruikersnaam word al gebruikt"

  function NoUserWithId(id: Id): string
  {
    "Gebruiker met ID " + IntToString(id) + " niet gevonden"
  }

  function NoUserWithName(username: string): string
  {
    "Gebruiker met gebruikersnaam '" + username + "' niet gevonden"
  }

  /** No two stored accounts share a username. */
  predicate UniqueUsernames(users: map<Id, User>)
  {
    forall a, b :: a in users && b in users && users[a].username == users[b].username ==> a == b
  }

  /** The stored accounts below `hi` with that username, ascending. */
  function NameIds(users: map<Id, User>, hi: int, username: string): (ids: seq<Id>)
    ensures forall k :: k in ids <==> 0 <= k < hi && k in users && users[k].username == username
    ensures forall i, j :: 0 <= i < j < |ids| ==> ids[i] < ids[j]
  {
    IdsWhere(users, (u: User) => u.username == username, hi)
  }

  /** `findByUsername(username)`: the one account with that username, none,
      or an exception when several accounts share it. */
  function FindByUsername(users: map<Id, User>, hi: int, username: string): Result<Option<Id>, Exception>
  {
    SingleResult(NameIds(users, hi, username))
  }

  /** The lookup finds nothing exactly when no account below `hi` has the name. */
  lemma FoundNoneMeaning(users: map<Id, User>, hi: int, username: string)
    ensures FindByUsername(users, hi, username) == Success(None) <==>
      forall k :: 0 <= k < hi && k in users ==> users[k].username != username
  {
    var ids := NameIds(users, hi, username);
    if |ids| > 0 {
      assert ids[0] in ids;
    }
  }

  /** A single match is the only account below `hi` with the name. */
  lemma FoundOneMeaning(users: map<Id, User>, hi: int, username: string)
    requires FindByUsername(users, hi, username).Success? && FindByUsername(users, hi, username).value.Some?
    ensures var k := FindByUsername(users, hi, username).value.value;
      && 0 <= k < hi && k in users && users[k].username == username
      && forall j :: 0 <= j < hi && j in users && users[j].username == username ==> j == k
  {
    var ids := NameIds(users, hi, username);
    assert ids[0] in ids;
    forall j | 0 <= j < hi && j in users && users[j].username == username ensures j == ids[0] {
      assert j in ids;
    }
  }

  /** The lookup throws only when two accounts share the name. */
  lemma FoundManyMeaning(users: map<Id, User>, hi: int, username: string)
    requires FindByUsername(users, hi, username).Failure?
    ensures FindByUsername(users, hi, username).error == IncorrectResultSize
    ensures exists a, b :: a != b && a in users && b in users && users[a].username == username && users[b].username == username
  {
    var ids := NameIds(users, hi, username);
    assert ids[0] in ids && ids[1] in ids && ids[0] < ids[1];
  }

  /** With unique usernames the lookup never throws. */
  lemma UniqueNeverAmbiguous(users: map<Id, User>, hi: int, username: string)
    requires UniqueUsernames(users)
    ensures FindByUsername(users, hi, username).Success?
  {
    if FindByUsername(users, hi, username).Failure? {
      FoundManyMeaning(users, hi, username);
    }
  }

  /** `request.getRole() != null ? request.getRole() : UserRole.USER`. */
  function DefaultRole(role: Option<UserRole>): (r: UserRole)
    ensures role.Some? ==> r == role.value
    ensures role.None? ==> r == USER
  {
    if role.Some? then role.value else USER
  }

  /** The account registerUser builds: the encoder's output stands in for the password. */
  function NewUser(request: RegisterRequest, encode: string -> string): User
  {
    User(request.username, encode(request.password), Some(DefaultRole(request.role)))
  }

  /** Registering a username nobody holds keeps usernames unique. */
  lemma RegisterKeepsUnique(users: map<Id, User>, hi: int, request: RegisterRequest, encode: string -> string)
    requires IdsBelow(users.Keys, hi) && UniqueUsernames(users)
    requires FindByUsername(users, hi, request.username) == Success(None)
    ensures UniqueUsernames(users[hi := NewUser(request, encode)])
  {
    FoundNoneMeaning(users, hi, request.username);
  }

  /** A registered account can be read back by its username. */
  lemma RegisteredIsFound(users: map<Id, User>, hi: int, request: RegisterRequest, encode: string -> string)
    requires 1 <= hi && IdsBelow(users.Keys, hi)
    requires FindByUsername(users, hi, request.username) == Success(None)
    ensures FindByUsername(users[hi := NewUser(request, encode)], hi + 1, request.username) == Success(Some(hi))
  {
    var users' := users[hi := NewUser(request, encode)];
    FoundNoneMeaning(users, hi, request.username);
    var ids := NameIds(users', hi + 1, request.username);
    assert hi in ids;
    assert forall k :: k in ids ==> k == hi;
    assert ids[0] in ids;
    if |ids| > 1 {
      assert false;
    }
  }

  /** The account after updateUser's two setters. */
  function Updated(user: User, request: UpdateUserRequest): (r: User)
    ensures r.password == user.password
  {
    user.(username := request.username, role := request.role)
  }

  /** updateUser checks no uniqueness: renaming one account to another's
      name leaves two accounts with that name, after which looking it up throws. */
  lemma UpdateCanDuplicate()
    ensures var users := map[1 := User("fays", "h1", Some(USER)), 2 := User("omar", "h2", Some(USER))];
      var after := users[2 := Updated(users[2], UpdateUserRequest("fays", Some(ADMIN)))];
      && UniqueUsernames(users)
      && !UniqueUsernames(after)
      && FindByUsername(after, 3, "fays") == Failure(IncorrectResultSize)
  {
    var users := map[1 := User("fays", "h1", Some(USER)), 2 := User("omar", "h2", Some(USER))];
    var after := users[2 := Updated(users[2], UpdateUserRequest("fays", Some(ADMIN)))];
    assert "omar" != "fays" by { assert "omar"[0] != "fays"[0]; }
    var ids := NameIds(after, 3, "fays");
    assert 1 in ids && 2 in ids;
    var i :| 0 <= i < |ids| && ids[i] == 1;
    var j :| 0 <= j < |ids| && ids[j] == 2;
    assert i != j;
  }

  /** The store behind the owner-scoped user service. */
  class UserStore {
    var users: map<Id, User>
    var nextUserId: Id

    predicate Valid()
      reads this
    {
      1 <= nextUserId && IdsBelow(users.Keys, nextUserId)
    }

    constructor ()
      ensures Valid() && users == map[] && nextUserId == 1
    {
      users, nextUserId := map[], 1;
    }

    /** registerUser: a username that is already held fails with nothing
        saved; otherwise the account is saved under the next id with the
        encoded password and the requested role, USER when none was given. */
    method RegisterUser(request: RegisterRequest, encode: string -> string) returns (r: Result<UserDTO, Exception>)
      requires Valid()
      modifies this
      ensures Valid()
      ensures var found := FindByUsername(old(users), old(nextUserId), request.username);
        && (found.Failure? ==> r == Failure(found.error) && unchanged(this))
        && (found.Success? && found.value.Some? ==> r == Failure(IllegalArgument(USERNAME_TAKEN)) && unchanged(this))
        && (found == Success(None) ==>
              && users == old(users)[old(nextUserId) := NewUser(request, encode)]
              && nextUserId == old(nextUserId) + 1
              && r == Success(UserDTO(old(nextUserId), request.username, Some(DefaultRole(request.role)))))
      ensures UniqueUsernames(old(users)) ==> UniqueUsernames(users)
    {
      var found := FindByUsername(users, nextUserId, request.username);
      if found.Failure? {
        return Failure(found.error);
      }
      if found.value.Some? {
        return Failure(IllegalArgument(USERNAME_TAKEN));
      }
      var user := NewUser(request, encode);
      var id := nextUserId;
      if UniqueUsernames(users) {
        RegisterKeepsUnique(users, id, request, encode);
      }
      users := users[id := user];
      nextUserId := id + 1;
      r := Success(UserDTO(id, user.username, user.role));
    }

    /** updateUser: an absent id fails with nothing changed; otherwise exactly
        the username and the role are set, with no uniqueness check. */
    method UpdateUser(id: Id, request: UpdateUserRequest) returns (r: Result<UserDTO, Exception>)
      requires Valid()
      modifies this
      ensures Valid()
      ensures id !in old(users) ==> r == Failure(UserNotFound(NoUserWithId(id))) && unchanged(this)
      ensures id in old(users) ==>
        && users == old(users)[id := Updated(old(users)[id], request)]
        && nextUserId == old(nextUserId)
        && r == Success(UserDTO(id, request.username, request.role))
    {
      if id !in users {
        return Failure(UserNotFound(NoUserWithId(id)));
      }
      var user := Updated(users[id], request);
      users := users[id := user];
      r := Success(UserDTO(id, user.username, user.role));
    }

    /** deleteUser: an absent id fails; otherwise exactly that account goes. */
    method DeleteUser(id: Id) returns (r: Result<(), Exception>)
      requires Valid()
      modifies this
      ensures Valid()
      ensures id !in old(users) ==> r == Failure(UserNotFound(NoUserWithId(id))) && unchanged(this)
      ensures id in old(users) ==> r.Success? && users == old(users) - {id} && nextUserId == old(nextUserId)
      ensures UniqueUsernames(old(users)) ==> UniqueUsernames(users)
    {
      if id !in users {
        return Failure(UserNotFound(NoUserWithId(id)));
      }
      users := users - {id};
      r := Success(());
    }
  }

  /** The response for a stored account. */
  function ToDTO(id: Id, user: User): UserDTO
  {
    UserDTO(id, user.username, user.role)
  }

  /** getUserById: the account's response, or UserNotFoundException. */
  function GetUserById(store: UserStore, id: Id): (r: Result<UserDTO, Exception>)
    reads store
    ensures r.Success? <==> id in store.users
    ensures r.Success? ==> r.value.id == id && r.value.username == store.users[id].username && r.value.role == store.users[id].role
    ensures r.Failure? ==> r.error == UserNotFound(NoUserWithId(id))
  {
    if id in store.users then Success(ToDTO(id, store.users[id])) else Failure(UserNotFound(NoUserWithId(id)))
  }

  /** getUserByUsername: the account with that username, or UserNotFoundException;
      the lookup throws when several accounts share the name. */
  function GetUserByUsername(store: UserStore, username: string): (r: Result<UserDTO, Exception>)
    requires store.Valid()
    reads store
    ensures r.Success? ==>
      (r.value.id in store.users && r.value.username == username && r.value == ToDTO(r.value.id, store.users[r.value.id]))
    ensures r == Failure(UserNotFound(NoUserWithName(username))) <==>
      (forall k :: k in store.users ==> store.users[k].username != username)
    ensures r.Failure? && r.error == IncorrectResultSize ==> !UniqueUsernames(store.users)
  {
    var users := store.users;
    var found := FindByUsername(users, store.nextUserId, username);
    FoundNoneMeaning(users, store.nextUserId, username);
    if found.Success? && found.value.Some? then
      FoundOneMeaning(users, store.nextUserId, username);
      Success(ToDTO(found.value.value, users[found.value.value]))
    else if found.Success? then
      Failure(UserNotFound(NoUserWithName(username)))
    else
      FoundManyMeaning(users, store.nextUserId, username);
      Failure(found.error)
  }

  /** getAllUsers: one response per stored account, in id order. */
  function GetAllUsers(store: UserStore): (r: seq<UserDTO>)
    requires store.Valid()
    reads store
    ensures var ids := IdsWhere(store.users, (u: User) => true, store.nextUserId);
      && |r| == |ids|
      && (forall i :: 0 <= i < |ids| ==> ids[i] in store.users && r[i] == ToDTO(ids[i], store.users[ids[i]]))
      && (forall k :: k in store.users <==> k in ids)
  {
    var users := store.users;
    var ids := IdsWhere(users, (u: User) => true, store.nextUserId);
    assert forall i :: 0 <= i < |ids| ==> ids[i] in ids;
    seq(|ids|, i requires 0 <= i < |ids| && ids[i] in users => ToDTO(ids[i], users[ids[i]]))
  }
}
