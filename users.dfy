/** `UsersService` of the user service: lookup by id through a projection of seven
    columns, lookup by e-mail, and a merge-style profile update. The repository is an
    in-memory table of users. */
module Users {
  import opened Wrappers

  datatype User = User(
    id: string,
    email: string,
    password: string,
    firstName: Option<string>,
    lastName: Option<string>,
    phone: Option<string>,
    isEmailVerified: bool,
    isAdmin: bool,
    createdAt: nat)

  /** The columns `findById` selects: id, email, firstName, lastName, phone, isAdmin,
      createdAt. The password hash is not among them. */
  datatype UserView = UserView(
    id: string,
    email: string,
    firstName: Option<string>,
    lastName: Option<string>,
    phone: Option<string>,
    isAdmin: bool,
    createdAt: nat)

  /** The profile fields a client may send; `None` is a property the body omits. */
  datatype UpdateUserDto = UpdateUserDto(firstName: Option<string>, lastName: Option<string>, phone: Option<string>)

  /** `NotFoundError('User', id)`. */
  datatype NotFound = NotFound(resource: string, id: string)

  function View(u: User): (v: UserView)
    ensures v.id == u.id && v.email == u.email && v.isAdmin == u.isAdmin && v.createdAt == u.createdAt
    ensures v.firstName == u.firstName && v.lastName == u.lastName && v.phone == u.phone
  {
    UserView(u.id, u.email, u.firstName, u.lastName, u.phone, u.isAdmin, u.createdAt)
  }

  /** `Object.assign(target, dto)` on one optional column. */
  function Assigned(target: Option<string>, dto: Option<string>): Option<string> {
    if dto.Some? then dto else target
  }

  /** The profile properties the DTO carries overwrite the projected user. */
  function MergeView(v: UserView, dto: UpdateUserDto): (r: UserView)
    ensures r.id == v.id && r.email == v.email && r.isAdmin == v.isAdmin && r.createdAt == v.createdAt
    ensures dto.firstName.Some? ==> r.firstName == dto.firstName
    ensures dto.firstName.None? ==> r.firstName == v.firstName
    ensures dto.lastName.Some? ==> r.lastName == dto.lastName
    ensures dto.lastName.None? ==> r.lastName == v.lastName
    ensures dto.phone.Some? ==> r.phone == dto.phone
    ensures dto.phone.None? ==> r.phone == v.phone
  {
    v.(firstName := Assigned(v.firstName, dto.firstName),
       lastName := Assigned(v.lastName, dto.lastName),
       phone := Assigned(v.phone, dto.phone))
  }

  /** What `save` of the merged projection does to the stored row: the projected
      columns are written back, the unselected ones (the password hash, the e-mail
      verification flag) are kept. */
  function Saved(u: User, v: UserView): (r: User)
    requires v.id == u.id
    ensures View(r) == v
    ensures r.password == u.password && r.isEmailVerified == u.isEmailVerified
  {
    u.(email := v.email, firstName := v.firstName, lastName := v.lastName, phone := v.phone,
       isAdmin := v.isAdmin, createdAt := v.createdAt)
  }

  /** A stored row after an update: only the DTO's profile fields differ. */
  lemma UpdateChangesOnlyDtoFields(u: User, dto: UpdateUserDto)
    ensures var r := Saved(u, MergeView(View(u), dto));
      && r.id == u.id && r.email == u.email && r.password == u.password
      && r.isEmailVerified == u.isEmailVerified && r.isAdmin == u.isAdmin && r.createdAt == u.createdAt
      && r.firstName == Assigned(u.firstName, dto.firstName)
      && r.lastName == Assigned(u.lastName, dto.lastName)
      && r.phone == Assigned(u.phone, dto.phone)
  {
  }

  /** The same update twice is the update once. */
  lemma UpdateIdempotent(u: User, dto: UpdateUserDto)
    ensures var once := Saved(u, MergeView(View(u), dto));
      Saved(once, MergeView(View(once), dto)) == once
  {
  }

  /** Ids and e-mail addresses are unique, as the table's keys say. */
  predicate UniqueKeys(users: seq<User>) {
    && (forall i, j :: 0 <= i < j < |users| ==> users[i].id != users[j].id)
    && (forall i, j :: 0 <= i < j < |users| ==> users[i].email != users[j].email)
  }

  /** The row with a given id. */
  function IndexOfId(users: seq<User>, id: string): (r: Option<nat>)
    ensures r.Some? ==> r.value < |users| && users[r.value].id == id
    ensures r.None? ==> forall i :: 0 <= i < |users| ==> users[i].id != id
  {
    if |users| == 0 then None
    else if users[0].id == id then Some(0)
    else match IndexOfId(users[1..], id)
      case Some(k) => Some(k + 1)
      case None => None
  }

  /** The row with a given e-mail address. */
  function IndexOfEmail(users: seq<User>, email: string): (r: Option<nat>)
    ensures r.Some? ==> r.value < |users| && users[r.value].email == email
    ensures r.None? ==> forall i :: 0 <= i < |users| ==> users[i].email != email
  {
    if |users| == 0 then None
    else if users[0].email == email then Some(0)
    else match IndexOfEmail(users[1..], email)
      case Some(k) => Some(k + 1)
      case None => None
  }

  class UsersService {
    var users: seq<User>

    constructor(users: seq<User>)
      ensures this.users == users
    {
      this.users := users;
    }

    /** `findById`: the projection of the user with that id, or not-found. */
    method FindById(id: string) returns (r: Result<UserView, NotFound>)
      requires UniqueKeys(users)
      ensures r.Failure? <==> forall i :: 0 <= i < |users| ==> users[i].id != id
      ensures r.Failure? ==> r.error == NotFound("User", id)
      ensures r.Success? ==> exists i :: 0 <= i < |users| && users[i].id == id && r.value == View(users[i])
    {
      var found := IndexOfId(users, id);
      if found.None? {
        return Failure(NotFound("User", id));
      }
      r := Success(View(users[found.value]));
    }

    /** `findByEmail`: the whole row, or null. */
    method FindByEmail(email: string) returns (r: Option<User>)
      requires UniqueKeys(users)
      ensures r.None? <==> forall i :: 0 <= i < |users| ==> users[i].email != email
      ensures r.Some? ==> r.value in users && r.value.email == email
    {
      var found := IndexOfEmail(users, email);
      if found.None? {
        return None;
      }
      r := Some(users[found.value]);
    }

    /** `update`: look the user up (failing before any write), merge the DTO into the
        projection and save it. */
    method Update(id: string, updateUserDto: UpdateUserDto) returns (r: Result<UserView, NotFound>)
      requires UniqueKeys(users)
      modifies this
      ensures UniqueKeys(users) && |users| == |old(users)|
      ensures r.Failure? ==> r == Failure(NotFound("User", id)) && users == old(users)
      ensures r.Failure? <==> forall i :: 0 <= i < |old(users)| ==> old(users)[i].id != id
      ensures r.Success? ==>
                exists i :: 0 <= i < |old(users)| && old(users)[i].id == id
                  && r.value == MergeView(View(old(users)[i]), updateUserDto)
                  && users == old(users)[i := Saved(old(users)[i], r.value)]
    {
      var user := FindById(id);
      if user.Failure? {
        return user;
      }
      var merged := MergeView(user.value, updateUserDto);
      var k := IndexOfId(users, id).value;
      users := users[k := Saved(users[k], merged)];
      r := Success(merged);
    }
  }
}
