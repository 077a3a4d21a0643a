/**
 * userDAO.ts: the users table, keyed by username, and the statements
 * UserDAO runs on it. The password and its salt are not part of the model,
 * so a row is the User object the DAO builds from it.
 */
module UserStore {
  import opened Errors
  import opened Results
  import opened Tables

  /** A row of the users table, as `new User(...)` reads it back. A new row
      has no address and no birthdate (both null). */
  datatype User = User(
    username: string,
    name: string,
    surname: string,
    role: string,
    address: Option<string>,
    birthdate: Option<string>)

  function UsernameOf(u: User): string { u.username }

  /** `WHERE role = r` */
  function HasRole(r: string): User -> bool { (u: User) => u.role == r }

  /** `WHERE role = "Admin"`, the rows `DELETE ... WHERE role != "Admin"` keeps. */
  predicate IsAdmin(u: User) { u.role == "Admin" }

  /** `SET name = ?, surname = ?, address = ?, birthdate = ?` */
  function SetInfo(name: string, surname: string, address: Option<string>, birthdate: Option<string>): User -> User {
    (u: User) => u.(name := name, surname := surname, address := address, birthdate := birthdate)
  }

  /** The `UNIQUE` constraint on `users.username`. */
  ghost predicate UniqueUsernames(us: seq<User>) {
    UniqueBy(us, UsernameOf)
  }

  /** The check of getUsers (userDAO.ts:91): username, name, surname and role all truthy. */
  predicate WellFormed(u: User) {
    u.username != "" && u.name != "" && u.surname != "" && u.role != ""
  }

  /** createUser (userDAO.ts:49-63): the insert fails on a taken username. */
  function CreateUser(us: seq<User>, username: string, name: string, surname: string, role: string): (s: Step<seq<User>, bool>)
    ensures s.result.Err? <==> exists i | 0 <= i < |us| :: us[i].username == username
    ensures s.result.Err? ==> s == Step(us, Err(UserAlreadyExists))
    ensures s.result.Ok? ==> s.result.value && |s.state| == |us| + 1 && s.state[..|us|] == us
  {
    if FindBy(us, UsernameOf, username).Some? then Step(us, Err(UserAlreadyExists))
    else
      var r := us + [User(username, name, surname, role, None, None)];
      assert r[..|us|] == us;
      Step(r, Ok(true))
  }

  /** getUserByUsername (userDAO.ts:70-80). */
  function GetUserByUsername(us: seq<User>, username: string): (r: Result<User>)
    ensures r.Ok? ==> r.value in us && r.value.username == username
    ensures r.Err? <==> forall i | 0 <= i < |us| :: us[i].username != username
    ensures r.Err? ==> r.error == UserNotFound
  {
    match FindBy(us, UsernameOf, username)
    case None => Err(UserNotFound)
    case Some(u) => Ok(u)
  }

  /** getUsers (userDAO.ts:82-106): the rows in order, or "Data format error"
      at the first row with a missing field. */
  function GetUsers(us: seq<User>): (r: Result<seq<User>>)
    ensures r.Ok? <==> forall i | 0 <= i < |us| :: WellFormed(us[i])
    ensures r.Ok? ==> r.value == us
    ensures r.Err? ==> r.error == Plain("Data format error")
  {
    if |us| == 0 then Ok([])
    else match GetUsers(us[..|us| - 1])
      case Err(e) => Err(e)
      case Ok(vs) =>
        if !WellFormed(us[|us| - 1]) then Err(Plain("Data format error"))
        else
          assert us == us[..|us| - 1] + [us[|us| - 1]];
          Ok(vs + [us[|us| - 1]])
  }

  /** getUsersByRole (userDAO.ts:108-120). */
  function GetUsersByRole(us: seq<User>, role: string): (r: Result<seq<User>>)
    ensures r.Ok? && |r.value| <= |us|
    ensures forall u :: u in r.value <==> u in us && u.role == role
  {
    Ok(Filter(us, HasRole(role)))
  }

  /** deleteUser (userDAO.ts:122-134): false for a missing user. */
  function DeleteUser(us: seq<User>, username: string): (t: Step<seq<User>, bool>)
    ensures t.result.Ok? && (t.result.value <==> exists i | 0 <= i < |us| :: us[i].username == username)
    ensures !t.result.value ==> t.state == us
    ensures forall u :: u in t.state <==> u in us && u.username != username
  {
    match GetUserByUsername(us, username)
    case Err(_) => Step(us, Ok(false))
    case Ok(_) => Step(RemoveBy(us, UsernameOf, username), Ok(true))
  }

  /** deleteNonAdmin (userDAO.ts:136-144). */
  function DeleteNonAdmin(us: seq<User>): (t: Step<seq<User>, bool>)
    ensures t.result == Ok(true) && |t.state| <= |us|
    ensures forall u :: u in t.state <==> u in us && u.role == "Admin"
  {
    Step(Filter(us, IsAdmin), Ok(true))
  }

  /** updateInfo (userDAO.ts:146-162): false for a missing user. */
  function UpdateInfo(us: seq<User>, u: User): (t: Step<seq<User>, bool>)
    ensures t.result.Ok? && (t.result.value <==> exists i | 0 <= i < |us| :: us[i].username == u.username)
    ensures |t.state| == |us|
    ensures forall i | 0 <= i < |us| :: t.state[i].username == us[i].username && t.state[i].role == us[i].role
  {
    match GetUserByUsername(us, u.username)
    case Err(_) => Step(us, Ok(false))
    case Ok(_) => Step(UpdateBy(us, UsernameOf, u.username, SetInfo(u.name, u.surname, u.address, u.birthdate)), Ok(true))
  }

  /** A new user is found under its username with the given fields and no
      address or birthdate; every other username finds what it found before,
      and usernames stay unique. */
  lemma CreateUserSpec(us: seq<User>, username: string, name: string, surname: string, role: string, other: string)
    requires UniqueUsernames(us)
    requires CreateUser(us, username, name, surname, role).result.Ok?
    ensures var t := CreateUser(us, username, name, surname, role).state;
      && UniqueUsernames(t)
      && GetUserByUsername(t, username) == Ok(User(username, name, surname, role, None, None))
      && (other != username ==> GetUserByUsername(t, other) == GetUserByUsername(us, other))
  {
    var u := User(username, name, surname, role, None, None);
    AppendKeepsUnique(us, UsernameOf, u);
    FindAppend(us, UsernameOf, u, username);
    FindAppend(us, UsernameOf, u, other);
  }

  /** deleteUser resolves false and changes nothing for a missing user;
      otherwise it resolves true having deleted exactly that username. */
  lemma DeleteUserSpec(us: seq<User>, username: string, other: string)
    requires UniqueUsernames(us)
    ensures var t := DeleteUser(us, username);
      && (t.result == Ok(false) <==> GetUserByUsername(us, username).Err?)
      && (t.result == Ok(false) ==> t.state == us)
      && t.result.Ok?
      && UniqueUsernames(t.state)
      && GetUserByUsername(t.state, username).Err?
      && (other != username ==> GetUserByUsername(t.state, other) == GetUserByUsername(us, other))
      && (forall u :: u in t.state <==> u in us && u.username != username)
  {
    RemoveKeepsUnique(us, UsernameOf, username);
    FindRemove(us, UsernameOf, username, username);
    FindRemove(us, UsernameOf, username, other);
  }

  /** deleteNonAdmin keeps exactly the Admin rows. */
  lemma DeleteNonAdminSpec(us: seq<User>)
    requires UniqueUsernames(us)
    ensures var t := DeleteNonAdmin(us);
      && t.result == Ok(true)
      && UniqueUsernames(t.state)
      && (forall u :: u in t.state <==> u in us && u.role == "Admin")
  {
    FilterKeepsUnique(us, IsAdmin, UsernameOf);
  }

  /** updateInfo resolves false and changes nothing for a missing user;
      otherwise it rewrites name, surname, address and birthdate of that
      username only, keeping its role, and usernames stay unique. */
  lemma UpdateInfoSpec(us: seq<User>, u: User, other: string)
    requires UniqueUsernames(us)
    ensures GetUserByUsername(us, u.username).Err? ==> UpdateInfo(us, u) == Step(us, Ok(false))
    ensures GetUserByUsername(us, u.username).Ok? ==>
      var before := GetUserByUsername(us, u.username).value;
      var t := UpdateInfo(us, u);
      && t.result == Ok(true)
      && UniqueUsernames(t.state)
      && GetUserByUsername(t.state, u.username)
           == Ok(before.(name := u.name, surname := u.surname, address := u.address, birthdate := u.birthdate))
      && (other != u.username ==> GetUserByUsername(t.state, other) == GetUserByUsername(us, other))
  {
    var f := SetInfo(u.name, u.surname, u.address, u.birthdate);
    assert KeepsKey(UsernameOf, f) by {
      forall x ensures UsernameOf(f(x)) == UsernameOf(x) { assert f(x).username == x.username; }
    }
    UpdateKeepsUnique(us, UsernameOf, u.username, f);
    FindUpdate(us, UsernameOf, u.username, f, u.username);
    FindUpdate(us, UsernameOf, u.username, f, other);
  }
}

/** The class UserDAO of userDAO.ts, owning the users table. */
module UserDAO {
  import opened Errors
  import opened Results
  import opened Tables
  import opened UserStore

  /** Every method performs its statements on `users` and is tied to the
      UserStore function that describes it. */
  class UserDAO {
    var users: seq<User>

    ghost predicate Valid()
      reads this
    {
      UniqueUsernames(users)
    }

    constructor()
      ensures Valid() && users == []
    {
      users := [];
    }

    /** createUser: the insert, refused by the unique username. */
    method CreateUser(username: string, name: string, surname: string, role: string) returns (r: Result<bool>)
      requires Valid()
      modifies this
      ensures Valid()
      ensures Step(users, r) == UserStore.CreateUser(old(users), username, name, surname, role)
    {
      if FindBy(users, UsernameOf, username).Some? {
        return Err(UserAlreadyExists);
      }
      var u := User(username, name, surname, role, None, None);
      AppendKeepsUnique(users, UsernameOf, u);
      users := users + [u];
      r := Ok(true);
    }

    method GetUserByUsername(username: string) returns (r: Result<User>)
      ensures r == UserStore.GetUserByUsername(users, username)
    {
      var row := FindBy(users, UsernameOf, username);
      if row.None? {
        return Err(UserNotFound);
      }
      r := Ok(row.value);
    }

    /** getUsers: checks each row in turn while building the result. */
    method GetUsers() returns (r: Result<seq<User>>)
      ensures r == UserStore.GetUsers(users)
    {
      var result: seq<User> := [];
      var i := 0;
      while i < |users|
        invariant 0 <= i <= |users|
        invariant UserStore.GetUsers(users[..i]) == Ok(result)
      {
        assert users[..i + 1][..i] == users[..i];
        if !WellFormed(users[i]) {
          GetUsersStops(users, i + 1);
          return Err(Plain("Data format error"));
        }
        result := result + [users[i]];
        i := i + 1;
      }
      assert users[..|users|] == users;
      r := Ok(result);
    }

    method GetUsersByRole(role: string) returns (r: Result<seq<User>>)
      ensures r == UserStore.GetUsersByRole(users, role)
    {
      r := Ok(Filter(users, HasRole(role)));
    }

    /** deleteUser: looks the user up, then deletes the row. */
    method DeleteUser(username: string) returns (r: Result<bool>)
      requires Valid()
      modifies this
      ensures Valid()
      ensures Step(users, r) == UserStore.DeleteUser(old(users), username)
    {
      var found := GetUserByUsername(username);
      if found.Err? {
        return Ok(false);
      }
      RemoveKeepsUnique(users, UsernameOf, username);
      users := RemoveBy(users, UsernameOf, username);
      r := Ok(true);
    }

    method DeleteNonAdmin() returns (r: Result<bool>)
      requires Valid()
      modifies this
      ensures Valid()
      ensures Step(users, r) == UserStore.DeleteNonAdmin(old(users))
    {
      FilterKeepsUnique(users, IsAdmin, UsernameOf);
      users := Filter(users, IsAdmin);
      r := Ok(true);
    }

    /** updateInfo: looks the user up, then updates the row. */
    method UpdateInfo(u: User) returns (r: Result<bool>)
      requires Valid()
      modifies this
      ensures Valid()
      ensures Step(users, r) == UserStore.UpdateInfo(old(users), u)
    {
      var found := GetUserByUsername(u.username);
      if found.Err? {
        return Ok(false);
      }
      UpdateInfoSpec(users, u, u.username);
      users := UpdateBy(users, UsernameOf, u.username, SetInfo(u.name, u.surname, u.address, u.birthdate));
      r := Ok(true);
    }
  }

  /** A malformed row after well-formed ones rejects the whole read. */
  lemma GetUsersStops(us: seq<User>, n: int)
    requires 0 < n <= |us|
    requires UserStore.GetUsers(us[..n - 1]).Ok? && !WellFormed(us[n - 1])
    ensures UserStore.GetUsers(us) == Err(Plain("Data format error"))
  {
    assert us[..n][n - 1] == us[n - 1];
  }
}
