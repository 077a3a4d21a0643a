/**
 * userController.ts: input checks and the authorization rules the
 * controller applies around UserDAO. `caller` is the logged-in user the
 * route hands to the controller; `today` is the day the clock reads, as an
 * ISO date.
 */
module UserService {
  import opened Errors
  import opened Results
  import opened Text
  import opened Tables
  import opened UserStore

  /** The values of the Role enum. */
  const Roles: set<string> := {"Manager", "Customer", "Admin"}

  /** createUser (userController.ts:30-40): every field truthy, a known role,
      then the insert. The password is only checked for presence. */
  function CreateUser(us: seq<User>, username: string, name: string, surname: string, password: string, role: string): (s: Step<seq<User>, bool>)
    ensures s.result.Err? ==> s.state == us
  {
    if username == "" || name == "" || surname == "" || password == "" || role == "" then Step(us, Err(Plain("Invalid input")))
    else if role !in Roles then Step(us, Err(Plain("Invalid role")))
    else UserStore.CreateUser(us, username, name, surname, role)
  }

  /** getUserByUsername (userController.ts:67-73): an Admin reads any row;
      anyone else gets back their own user object and nothing else. */
  function GetUserByUsername(us: seq<User>, caller: User, username: string): (r: Result<User>)
    ensures r.Ok? ==> r.value.username == username
  {
    if caller.role == "Admin" then UserStore.GetUserByUsername(us, username)
    else if caller.username == username then Ok(caller)
    else Err(UserNotAdmin)
  }

  /** deleteUser (userController.ts:83-96): a non-Admin only deletes their own
      account, nobody deletes another Admin, and a missing user is false. */
  function DeleteUser(us: seq<User>, caller: User, username: string): (s: Step<seq<User>, bool>)
    ensures s.result.Err? ==> s.state == us
  {
    if caller.role != "Admin" && caller.username != username then Step(us, Err(UserNotAdmin))
    else match UserStore.GetUserByUsername(us, username)
      case Err(_) => Step(us, Ok(false))
      case Ok(target) =>
        if target.role == "Admin" && caller.username != target.username then Step(us, Err(CannotDeleteOtherAdmin))
        else UserStore.DeleteUser(us, username)
  }

  /** updateUserInfo (userController.ts:116-139): a birthdate after today is
      refused, the target is read through getUserByUsername, another Admin
      cannot be edited, and the new user keeps the stored role. The outcome
      of the update itself is not looked at. */
  function UpdateUserInfo(
    us: seq<User>, caller: User, name: string, surname: string, address: string,
    birthdate: string, username: string, today: string
  ): (s: Step<seq<User>, User>)
    ensures s.result.Err? ==> s.state == us
  {
    if After(birthdate, today) then Step(us, Err(FutureBirthdate))
    else match GetUserByUsername(us, caller, username)
      case Err(e) => Step(us, Err(e))
      case Ok(oldUser) =>
        var newUser := User(username, name, surname, oldUser.role, Some(address), Some(birthdate));
        if oldUser.username != caller.username && oldUser.role == "Admin" then Step(us, Err(CannotDeleteOtherAdmin))
        else Step(UserStore.UpdateInfo(us, newUser).state, Ok(newUser))
  }

  /** createUser succeeds exactly when every field is given, the role is one
      of the three and the username is free; the new user is then found
      under its username and usernames stay unique. */
  lemma CreateUserSpec(us: seq<User>, username: string, name: string, surname: string, password: string, role: string)
    requires UniqueUsernames(us)
    ensures var s := CreateUser(us, username, name, surname, password, role);
      && (s.result.Ok? <==>
            && username != "" && name != "" && surname != "" && password != "" && role in Roles
            && UserStore.GetUserByUsername(us, username).Err?)
      && (s.result.Ok? ==>
            && s.result.value
            && UniqueUsernames(s.state)
            && UserStore.GetUserByUsername(s.state, username) == Ok(User(username, name, surname, role, None, None)))
  {
    var s := CreateUser(us, username, name, surname, password, role);
    if username == "" || name == "" || surname == "" || password == "" || role == "" || role !in Roles {
      assert s.result.Err?;
    } else {
      assert s == UserStore.CreateUser(us, username, name, surname, role);
      if s.result.Ok? {
        UserStore.CreateUserSpec(us, username, name, surname, role, username);
      }
    }
  }

  /** getUserByUsername: UserNotAdmin exactly for a non-Admin asking about
      someone else; an Admin gets the stored row or UserNotFound; a non-Admin
      asking about their own username gets the caller object back, whether or
      not it is still the stored row. When it is, every success is the stored
      row. */
  lemma GetUserByUsernameSpec(us: seq<User>, caller: User, username: string)
    requires UniqueUsernames(us)
    ensures var r := GetUserByUsername(us, caller, username);
      && (r.Err? && r.error == UserNotAdmin <==> caller.role != "Admin" && caller.username != username)
      && (caller.role == "Admin" ==> r == UserStore.GetUserByUsername(us, username))
      && (caller.role != "Admin" && caller.username == username ==> r == Ok(caller))
      && (caller in us && r.Ok? ==> r == UserStore.GetUserByUsername(us, username))
  {
    if caller in us && caller.role != "Admin" && caller.username == username {
      var i :| 0 <= i < |us| && us[i] == caller;
      FindUnique(us, UsernameOf, i);
    }
  }

  /** deleteUser: a non-Admin deleting someone else gets UserNotAdmin before
      any lookup; otherwise a missing user resolves false, another Admin is
      CannotDeleteOtherAdmin, and every other request deletes exactly that
      row. Any outcome but true leaves the table as it was. */
  lemma DeleteUserSpec(us: seq<User>, caller: User, username: string, other: string)
    requires UniqueUsernames(us)
    ensures var s := DeleteUser(us, caller, username);
      var stored := UserStore.GetUserByUsername(us, username);
      && (caller.role != "Admin" && caller.username != username ==> s == Step(us, Err(UserNotAdmin)))
      && ((caller.role == "Admin" || caller.username == username) && stored.Err? ==> s == Step(us, Ok(false)))
      && (caller.role == "Admin" && caller.username != username && stored.Ok? && stored.value.role == "Admin" ==>
            s == Step(us, Err(CannotDeleteOtherAdmin)))
      && (s.result == Ok(true) <==>
            && stored.Ok?
            && (caller.username == username || (caller.role == "Admin" && stored.value.role != "Admin")))
      && (s.result == Ok(true) ==>
            && UniqueUsernames(s.state)
            && UserStore.GetUserByUsername(s.state, username).Err?
            && (other != username ==> UserStore.GetUserByUsername(s.state, other) == UserStore.GetUserByUsername(us, other)))
      && (s.result != Ok(true) ==> s.state == us)
  {
    UserStore.DeleteUserSpec(us, username, other);
  }

  /** No call of deleteUser removes an Admin other than the caller. */
  lemma DeleteUserKeepsOtherAdmins(us: seq<User>, caller: User, username: string, a: User)
    requires UniqueUsernames(us) && a in us && a.role == "Admin" && a.username != caller.username
    ensures a in DeleteUser(us, caller, username).state
  {
    if username == a.username {
      var i :| 0 <= i < |us| && us[i] == a;
      FindUnique(us, UsernameOf, i);
    } else {
      UserStore.DeleteUserSpec(us, username, a.username);
    }
  }

  /** updateUserInfo: a birthdate after today is FutureBirthdate; then a
      non-Admin editing someone else is UserNotAdmin, an Admin naming a
      missing user is UserNotFound, and an Admin editing another Admin is
      CannotDeleteOtherAdmin. Every other request succeeds. The user returned
      has the new name, surname, address and birthdate and the caller's role
      when a non-Admin edits their own account (getUserByUsername hands back
      the caller object), the stored role otherwise. Only the four fields of
      the stored row change, and only when a row has that username; every
      other user is unchanged. */
  lemma UpdateUserInfoSpec(
    us: seq<User>, caller: User, name: string, surname: string, address: string,
    birthdate: string, username: string, today: string, other: string)
    requires UniqueUsernames(us)
    ensures var s := UpdateUserInfo(us, caller, name, surname, address, birthdate, username, today);
      var stored := UserStore.GetUserByUsername(us, username);
      var own := caller.role != "Admin" && caller.username == username;
      && (After(birthdate, today) ==> s == Step(us, Err(FutureBirthdate)))
      && (!After(birthdate, today) && caller.role != "Admin" && caller.username != username ==>
            s == Step(us, Err(UserNotAdmin)))
      && (!After(birthdate, today) && caller.role == "Admin" && stored.Err? ==> s == Step(us, Err(UserNotFound)))
      && ((!After(birthdate, today) && caller.role == "Admin" && caller.username != username
             && stored.Ok? && stored.value.role == "Admin") ==> s == Step(us, Err(CannotDeleteOtherAdmin)))
      && (s.result.Ok? <==>
            && !After(birthdate, today)
            && (own || (caller.role == "Admin" && stored.Ok? && (caller.username == username || stored.value.role != "Admin"))))
      && (s.result.Ok? ==>
            s.result.value
              == User(username, name, surname, if own then caller.role else stored.value.role, Some(address), Some(birthdate)))
      && (s.result.Ok? && stored.Err? ==> s.state == us)
      && (s.result.Ok? && stored.Ok? ==>
            && UniqueUsernames(s.state)
            && UserStore.GetUserByUsername(s.state, username)
                 == Ok(stored.value.(name := name, surname := surname, address := Some(address), birthdate := Some(birthdate)))
            && (other != username ==> UserStore.GetUserByUsername(s.state, other) == UserStore.GetUserByUsername(us, other)))
      && (caller in us && s.result.Ok? ==> UserStore.GetUserByUsername(s.state, username) == Ok(s.result.value))
  {
    if !After(birthdate, today) {
      GetUserByUsernameSpec(us, caller, username);
      var r := GetUserByUsername(us, caller, username);
      if r.Ok? {
        var newUser := User(username, name, surname, r.value.role, Some(address), Some(birthdate));
        UserStore.UpdateInfoSpec(us, newUser, other);
      }
    }
  }
}

/** The class UserController of userController.ts. */
module UserController {
  import opened Errors
  import opened Results
  import opened Text
  import opened UserStore
  import UserService
  import UserDAO

  /** Each method applies the controller's checks and calls its DAO, and is
      tied to the UserService function that describes it. */
  class UserController {
    const dao: UserDAO.UserDAO

    constructor(dao: UserDAO.UserDAO)
      ensures this.dao == dao
    {
      this.dao := dao;
    }

    method CreateUser(username: string, name: string, surname: string, password: string, role: string) returns (r: Result<bool>)
      requires dao.Valid()
      modifies dao
      ensures dao.Valid()
      ensures Step(dao.users, r) == UserService.CreateUser(old(dao.users), username, name, surname, password, role)
    {
      if username == "" || name == "" || surname == "" || password == "" || role == "" {
        return Err(Plain("Invalid input"));
      }
      if role !in UserService.Roles {
        return Err(Plain("Invalid role"));
      }
      r := dao.CreateUser(username, name, surname, role);
    }

    method GetUsers() returns (r: Result<seq<User>>)
      ensures r == UserStore.GetUsers(dao.users)
    {
      r := dao.GetUsers();
    }

    method GetUsersByRole(role: string) returns (r: Result<seq<User>>)
      ensures r == UserStore.GetUsersByRole(dao.users, role)
    {
      r := dao.GetUsersByRole(role);
    }

    method GetUserByUsername(caller: User, username: string) returns (r: Result<User>)
      ensures r == UserService.GetUserByUsername(dao.users, caller, username)
    {
      if caller.role == "Admin" {
        r := dao.GetUserByUsername(username);
      } else if caller.username == username {
        r := Ok(caller);
      } else {
        r := Err(UserNotAdmin);
      }
    }

    method DeleteUser(caller: User, username: string) returns (r: Result<bool>)
      requires dao.Valid()
      modifies dao
      ensures dao.Valid()
      ensures Step(dao.users, r) == UserService.DeleteUser(old(dao.users), caller, username)
    {
      if caller.role != "Admin" && caller.username != username {
        return Err(UserNotAdmin);
      }
      var target := dao.GetUserByUsername(username);
      if target.Err? {
        // only UserNotFound can come back, and it resolves false
        return Ok(false);
      }
      if target.value.role == "Admin" && caller.username != target.value.username {
        return Err(CannotDeleteOtherAdmin);
      }
      r := dao.DeleteUser(username);
    }

    /** deleteAll (userController.ts:102-104). */
    method DeleteAll() returns (r: Result<bool>)
      requires dao.Valid()
      modifies dao
      ensures dao.Valid()
      ensures Step(dao.users, r) == UserStore.DeleteNonAdmin(old(dao.users))
    {
      r := dao.DeleteNonAdmin();
    }

    method UpdateUserInfo(
      caller: User, name: string, surname: string, address: string,
      birthdate: string, username: string, today: string
    ) returns (r: Result<User>)
      requires dao.Valid()
      modifies dao
      ensures dao.Valid()
      ensures Step(dao.users, r)
           == UserService.UpdateUserInfo(old(dao.users), caller, name, surname, address, birthdate, username, today)
    {
      if After(birthdate, today) {
        return Err(FutureBirthdate);
      }
      var oldUser := GetUserByUsername(caller, username);
      if oldUser.Err? {
        return Err(oldUser.error);
      }
      var newUser := User(username, name, surname, oldUser.value.role, Some(address), Some(birthdate));
      if oldUser.value.username != caller.username && oldUser.value.role == "Admin" {
        return Err(CannotDeleteOtherAdmin);
      }
      var _ := dao.UpdateInfo(newUser);
      r := Ok(newUser);
    }
  }
}
