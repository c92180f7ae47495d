/** Service/impl/UserServiceImpl.java: the older user registry, keyed on a
    unique email address and without passwords. */
module LegacyUserService {
  import opened Wrappers
  import opened Text
  import opened Exceptions
  import opened Entities
  import opened Store
  import opened UserService

  /** The older account: username, email and role. */
  datatype LegacyUser = LegacyUser(username: string, email: string, role: UserRole)

  /** The registration request this service reads: username, email and an optional role. */
  datatype LegacyRegisterRequest = LegacyRegisterRequest(username: string, email: string, role: Option<UserRole>)

  /** The four-field response of getAllUsers. */
  datatype LegacyUserDTO = LegacyUserDTO(id: Id, username: string, email: string, role: UserRole)

  const EMAIL_IN_USE: string := "Email already in use"

  function NoUserWithIdMessage(id: Id): string
  {
    "User with ID " + IntToString(id) + " not found."
  }

  /** No two stored accounts share an email address. */
  predicate UniqueEmails(users: map<Id, LegacyUser>)
  {
    forall a, b :: a in users && b in users && users[a].email == users[b].email ==> a == b
  }

  /** The stored accounts below `hi` with that email, ascending. */
  function EmailIds(users: map<Id, LegacyUser>, hi: int, email: string): (ids: seq<Id>)
    ensures forall k :: k in ids <==> 0 <= k < hi && k in users && users[k].email == email
    ensures forall i, j :: 0 <= i < j < |ids| ==> ids[i] < ids[j]
  {
    IdsWhere(users, (u: LegacyUser) => u.email == email, hi)
  }

  /** `findByEmail(email)`: none, the one match, or an exception when
      several accounts share the address. */
  function FindByEmail(users: map<Id, LegacyUser>, hi: int, email: string): Result<Option<Id>, Exception>
  {
    SingleResult(EmailIds(users, hi, email))
  }

  /** The lookup finds nothing exactly when no account below `hi` has the address. */
  lemma EmailAbsentMeaning(users: map<Id, LegacyUser>, hi: int, email: string)
    ensures FindByEmail(users, hi, email) == Success(None) <==>
      forall k :: 0 <= k < hi && k in users ==> users[k].email != email
  {
    var ids := EmailIds(users, hi, email);
    if |ids| > 0 {
      assert ids[0] in ids;
    }
  }

  /** With unique addresses the lookup never throws. */
  lemma UniqueEmailsNeverAmbiguous(users: map<Id, LegacyUser>, hi: int, email: string)
    requires UniqueEmails(users)
    ensures FindByEmail(users, hi, email).Success?
  {
    if FindByEmail(users, hi, email).Failure? {
      EmailHeldTwice(users, hi, email);
    }
  }

  /** The lookup throws only when two accounts share the address. */
  lemma EmailHeldTwice(users: map<Id, LegacyUser>, hi: int, email: string)
    requires FindByEmail(users, hi, email).Failure?
    ensures exists a, b :: a != b && a in users && b in users && users[a].email == email && users[b].email == email
  {
    var ids := EmailIds(users, hi, email);
    assert ids[0] in ids && ids[1] in ids && ids[0] < ids[1];
  }

  /** The account registerUser builds from the request. */
  function NewLegacyUser(request: LegacyRegisterRequest): (u: LegacyUser)
    ensures u.username == request.username && u.email == request.email
    ensures u.role == DefaultRole(request.role)
  {
    LegacyUser(request.username, request.email, DefaultRole(request.role))
  }

  /** Registering an unused address keeps addresses unique. */
  lemma {:induction false} RegisterKeepsEmailsUnique(users: map<Id, LegacyUser>, hi: int, request: LegacyRegisterRequest)
    requires IdsBelow(users.Keys, hi) && UniqueEmails(users)
    requires FindByEmail(users, hi, request.email) == Success(None)
    ensures UniqueEmails(users[hi := NewLegacyUser(request)])
  {
    EmailAbsentMeaning(users, hi, request.email);
  }

  /** The store behind the older user service. */
  class LegacyUserStore {
    var users: map<Id, LegacyUser>
    var nextUserId: Id

    predicate Valid()
      reads this
    {
      1 <= nextUserId && IdsBelow(users.Keys, nextUserId) && UniqueEmails(users)
    }

    constructor ()
      ensures Valid() && users == map[] && nextUserId == 1
    {
      users, nextUserId := map[], 1;
    }

    /** registerUser: an address already held fails with nothing saved;
        otherwise the account is saved under the next id and returned with it. */
    method RegisterUser(request: LegacyRegisterRequest) returns (r: Result<(Id, LegacyUser), Exception>)
      requires Valid()
      modifies this
      ensures Valid()
      ensures (exists k :: k in old(users) && old(users)[k].email == request.email) ==>
        r == Failure(IllegalArgument(EMAIL_IN_USE)) && unchanged(this)
      ensures (forall k :: k in old(users) ==> old(users)[k].email != request.email) ==>
        && users == old(users)[old(nextUserId) := NewLegacyUser(request)]
        && nextUserId == old(nextUserId) + 1
        && r == Success((old(nextUserId), NewLegacyUser(request)))
    {
      UniqueEmailsNeverAmbiguous(users, nextUserId, request.email);
      EmailAbsentMeaning(users, nextUserId, request.email);
      var found := FindByEmail(users, nextUserId, request.email);
      if found.value.Some? {
        return Failure(IllegalArgument(EMAIL_IN_USE));
      }
      var user := NewLegacyUser(request);
      var id := nextUserId;
      RegisterKeepsEmailsUnique(users, id, request);
      users := users[id := user];
      nextUserId := id + 1;
      r := Success((id, user));
    }

    /** deleteUser: an absent id fails; otherwise exactly that account goes. */
    method DeleteUser(id: Id) returns (r: Result<(), Exception>)
      requires Valid()
      modifies this
      ensures Valid()
      ensures id !in old(users) ==> r == Failure(IllegalArgument(NoUserWithIdMessage(id))) && unchanged(this)
      ensures id in old(users) ==> r.Success? && users == old(users) - {id} && nextUserId == old(nextUserId)
    {
      if id !in users {
        return Failure(IllegalArgument(NoUserWithIdMessage(id)));
      }
      users := users - {id};
      r := Success(());
    }
  }

  /** The response for one stored account. */
  function LegacyDTO(id: Id, user: LegacyUser): LegacyUserDTO
  {
    LegacyUserDTO(id, user.username, user.email, user.role)
  }

  /** getAllUsers: one response per stored account, in id order. */
  function GetAllLegacyUsers(store: LegacyUserStore): (r: seq<LegacyUserDTO>)
    requires store.Valid()
    reads store
    ensures var ids := IdsWhere(store.users, (u: LegacyUser) => true, store.nextUserId);
      && |r| == |ids|
      && (forall i :: 0 <= i < |ids| ==> ids[i] in store.users && r[i] == LegacyDTO(ids[i], store.users[ids[i]]))
      && (forall k :: k in store.users <==> k in ids)
  {
    var users := store.users;
    var ids := IdsWhere(users, (u: LegacyUser) => true, store.nextUserId);
    assert forall i :: 0 <= i < |ids| ==> ids[i] in ids;
    seq(|ids|, i requires 0 <= i < |ids| && ids[i] in users => LegacyDTO(ids[i], users[ids[i]]))
  }

  /** Each stored account appears in the listing exactly once. */
  lemma ListedOnce(store: LegacyUserStore, k: Id)
    requires store.Valid() && k in store.users
    ensures var r := GetAllLegacyUsers(store);
      exists i :: 0 <= i < |r| && r[i].id == k && forall j :: 0 <= j < |r| && r[j].id == k ==> j == i
  {
    var r := GetAllLegacyUsers(store);
    var ids := IdsWhere(store.users, (u: LegacyUser) => true, store.nextUserId);
    assert k in ids;
    var i :| 0 <= i < |ids| && ids[i] == k;
    forall j | 0 <= j < |r| && r[j].id == k ensures j == i {
      assert ids[j] == ids[i];
    }
  }
}
