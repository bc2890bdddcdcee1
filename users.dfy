/** The user service: an in-memory array of users whose password is never
    part of what the service returns. */
module Users {
  import opened Common
  import opened Uuid
  import opened Lists

  /** `createdAt` and `updatedAt` are `Date.now()` readings. */
  datatype User = User(id: string, login: string, password: string, version: int, createdAt: int, updatedAt: int)

  /** `Omit<User, "password">`: the shape every service result has. */
  datatype UserView = UserView(id: string, login: string, version: int, createdAt: int, updatedAt: int)

  datatype CreateUserDto = CreateUserDto(login: Field<string>, password: Field<string>)

  datatype UpdatePasswordDto = UpdatePasswordDto(oldPassword: string, newPassword: string)

  /** `const { password, ...rest } = user; return rest;` */
  function WithoutPassword(u: User): (r: UserView)
    ensures r.id == u.id && r.login == u.login && r.version == u.version
    ensures r.createdAt == u.createdAt && r.updatedAt == u.updatedAt
  {
    UserView(u.id, u.login, u.version, u.createdAt, u.updatedAt)
  }

  /** The projection forgets the password and nothing else: two users look
      the same exactly when they differ at most in their passwords. */
  lemma WithoutPasswordForgetsOnlyPassword(u: User, w: User)
    ensures WithoutPassword(u) == WithoutPassword(w) <==> u == w.(password := u.password)
    ensures WithoutPassword(u).id == u.id && WithoutPassword(u).login == u.login
  {
  }

  /** `users.map(({ password, ...rest }) => rest)`. */
  function WithoutPasswords(users: seq<User>): (r: seq<UserView>)
    ensures |r| == |users|
    ensures forall i :: 0 <= i < |r| ==> r[i] == WithoutPassword(users[i])
  {
    if users == [] then [] else [WithoutPassword(users[0])] + WithoutPasswords(users[1..])
  }

  function UserId(u: User): string
  {
    u.id
  }

  /** `users.findIndex((u) => u.id === id)`. */
  function UserPosition(users: seq<User>, id: string): (r: int)
    ensures -1 <= r < |users|
    ensures r == -1 <==> forall j :: 0 <= j < |users| ==> users[j].id != id
    ensures r >= 0 ==> users[r].id == id && forall j :: 0 <= j < r ==> users[j].id != id
  {
    FindIndex(users, (u: User) => u.id == id)
  }

  /** A successful password change: the new password, the next version and
      the new `updatedAt`; id, login and `createdAt` stay. */
  function ChangedPassword(u: User, newPassword: string, now: int): (r: User)
    ensures r.id == u.id && r.login == u.login && r.createdAt == u.createdAt
    ensures r.password == newPassword && r.version == u.version + 1 && r.updatedAt == now
  {
    u.(password := newPassword, version := u.version + 1, updatedAt := now)
  }

  class UserService {
    var users: seq<User>

    /** Ids are unique and every version counts from 1. */
    ghost predicate Valid()
      reads this
    {
      UniqueBy(users, UserId) && forall i :: 0 <= i < |users| ==> users[i].version >= 1
    }

    constructor ()
      ensures Valid() && users == []
    {
      users := [];
    }

    /** `getAll`: every user, in order, without the password. */
    function GetAll(): (r: seq<UserView>)
      reads this
      ensures |r| == |users|
      ensures forall i :: 0 <= i < |r| ==>
        && r[i].id == users[i].id && r[i].login == users[i].login && r[i].version == users[i].version
        && r[i].createdAt == users[i].createdAt && r[i].updatedAt == users[i].updatedAt
    {
      WithoutPasswords(users)
    }

    /** `getById`: the stored user with this id, without the password. */
    function GetById(id: string): (r: Result<UserView>)
      reads this
      ensures !MatchesFlat(id) ==> r == Err(BadRequest("Invalid UUID"))
      ensures r.Ok? <==> MatchesFlat(id) && exists i :: 0 <= i < |users| && users[i].id == id
      ensures r.Err? && MatchesFlat(id) ==> r == Err(NotFound("User not found"))
      ensures r.Ok? ==> exists i :: 0 <= i < |users| && users[i].id == id && r.value == WithoutPassword(users[i])
    {
      if !MatchesFlat(id) then Err(BadRequest("Invalid UUID"))
      else
        var i := UserPosition(users, id);
        if i == -1 then Err(NotFound("User not found")) else Ok(WithoutPassword(users[i]))
    }

    /** `create`: `newId` stands for `randomUUID()` and `now` for
        `Date.now()`. The login is not checked for uniqueness. */
    method Create(dto: CreateUserDto, newId: string, now: int) returns (r: Result<UserView>)
      requires Valid()
      requires MatchesFlat(newId) && forall i :: 0 <= i < |users| ==> users[i].id != newId
      modifies this
      ensures Valid()
      ensures !Filled(dto.login) || !Filled(dto.password) ==>
        r == Err(BadRequest("Missing required fields")) && users == old(users)
      ensures Filled(dto.login) && Filled(dto.password) ==>
        && users == old(users) + [User(newId, dto.login.value, dto.password.value, 1, now, now)]
        && r == Ok(UserView(newId, dto.login.value, 1, now, now))
      ensures r.Ok? ==> GetById(newId) == r
    {
      if !Filled(dto.login) || !Filled(dto.password) {
        return Err(BadRequest("Missing required fields"));
      }
      var user := User(newId, dto.login.value, dto.password.value, 1, now, now);
      users := users + [user];
      r := Ok(WithoutPassword(user));
      assert users[|users| - 1] == user;
      ghost var p := UserPosition(users, newId);
      assert p != -1 by { assert users[|users| - 1].id == newId; }
    }

    /** `updatePassword`: the stored password must equal `oldPassword`. */
    method UpdatePassword(id: string, dto: UpdatePasswordDto, now: int) returns (r: Result<UserView>)
      requires Valid()
      modifies this
      ensures Valid()
      ensures !MatchesFlat(id) ==> r == Err(BadRequest("Invalid UUID"))
      ensures MatchesFlat(id) && UserPosition(old(users), id) == -1 ==> r == Err(NotFound("User not found"))
      ensures MatchesFlat(id) && UserPosition(old(users), id) != -1 ==>
        var i := UserPosition(old(users), id);
        if old(users)[i].password != dto.oldPassword then
          r == Err(Forbidden("Old password is wrong"))
        else
          && users == old(users)[i := ChangedPassword(old(users)[i], dto.newPassword, now)]
          && r == Ok(WithoutPassword(users[i]))
      ensures r.Err? ==> users == old(users)
    {
      var v := ValidateFlat(id);
      if v.Fail? {
        return Err(v.error);
      }
      var i := UserPosition(users, id);
      if i == -1 {
        return Err(NotFound("User not found"));
      }
      var user := users[i];
      if user.password != dto.oldPassword {
        return Err(Forbidden("Old password is wrong"));
      }
      user := user.(password := dto.newPassword);
      user := user.(version := user.version + 1);
      user := user.(updatedAt := now);
      users := users[i := user];
      r := Ok(WithoutPassword(user));
    }

    method Delete(id: string) returns (r: Outcome)
      requires Valid()
      modifies this
      ensures Valid()
      ensures !MatchesFlat(id) ==> r == Fail(BadRequest("Invalid UUID"))
      ensures MatchesFlat(id) && UserPosition(old(users), id) == -1 ==> r == Fail(NotFound("User not found"))
      ensures r.Fail? ==> users == old(users)
      ensures r.Done? <==> MatchesFlat(id) && UserPosition(old(users), id) != -1
      ensures r.Done? ==> users == RemoveAt(old(users), UserPosition(old(users), id))
      ensures r.Done? ==> forall j :: 0 <= j < |users| ==> users[j].id != id
    {
      var v := ValidateFlat(id);
      if v.Fail? {
        return v;
      }
      var idx := UserPosition(users, id);
      if idx == -1 {
        return Fail(NotFound("User not found"));
      }
      ghost var before := users;
      RemoveAtKeepsUniqueBy(users, idx, UserId);
      users := RemoveAt(users, idx);
      forall j | 0 <= j < |users| ensures users[j].version >= 1 {
        var j' := if j < idx then j else j + 1;
        assert users[j] == before[j'];
      }
      r := Done;
    }
  }
}
