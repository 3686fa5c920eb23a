/** The account table of `AuthContext`: registration with case-insensitive
    unique usernames and a minimum password length, sign-in by username and
    password, and the signed-in user. Browser storage is the fields `users`
    (the stored account list) and `savedUser` (the stored session). */
module AuthContext {
  import opened Common
  import opened Types

  const MinPasswordLength := 4
  const MsgUsernameTaken := "Bu kullanıcı adı zaten kullanılıyor"
  const MsgPasswordTooShort := "Parola en az 4 karakter olmalıdır"
  const MsgBadCredentials := "Kullanıcı adı veya parola hatalı"

  /** What `register` and `login` resolve to. */
  datatype AuthResult = AuthResult(success: bool, message: Option<string>)

  /** Usernames are compared without regard to case. */
  predicate SameUsername(a: string, b: string) {
    ToLower(a) == ToLower(b)
  }

  /** `users.some(u => u.username.toLowerCase() === username.toLowerCase())` */
  function UsernameTaken(users: seq<User>, username: string): (r: bool)
    ensures r <==> exists i :: 0 <= i < |users| && SameUsername(users[i].username, username)
  {
    if users == [] then false
    else SameUsername(users[0].username, username) || UsernameTaken(users[1..], username)
  }

  /** No two accounts have usernames that differ only in case. */
  ghost predicate UniqueUsernames(users: seq<User>) {
    forall i, j :: 0 <= i < j < |users| ==> !SameUsername(users[i].username, users[j].username)
  }

  /** The account list after a registration, and what `register` resolves to. */
  datatype Registration = Registration(result: AuthResult, users: seq<User>)

  /** `register`: a username already taken (in any case) is refused first, then
      a password shorter than four characters; otherwise the new account is
      appended. Registration keeps usernames unique. */
  function RegisterOutcome(users: seq<User>, username: string, password: string, email: Option<string>, id: string)
    : (r: Registration)
    ensures UsernameTaken(users, username) ==> r == Registration(AuthResult(false, Some(MsgUsernameTaken)), users)
    ensures !UsernameTaken(users, username) && |password| < MinPasswordLength ==>
      r == Registration(AuthResult(false, Some(MsgPasswordTooShort)), users)
    ensures r.result.success <==> !UsernameTaken(users, username) && |password| >= MinPasswordLength
    ensures r.result.success ==> r.users == users + [User(id, username, email, password)] && r.result.message == None
    ensures UniqueUsernames(users) ==> UniqueUsernames(r.users)
  {
    if UsernameTaken(users, username) then Registration(AuthResult(false, Some(MsgUsernameTaken)), users)
    else if |password| < MinPasswordLength then Registration(AuthResult(false, Some(MsgPasswordTooShort)), users)
    else Registration(AuthResult(true, None), users + [User(id, username, email, password)])
  }

  /** The account `login` accepts for the given username and password. */
  predicate Matches(u: User, username: string, password: string) {
    SameUsername(u.username, username) && u.password == password
  }

  /** `users.find(...)`: the first account that matches. */
  function FindUser(users: seq<User>, username: string, password: string): (r: Option<User>)
    ensures r == None <==> forall i :: 0 <= i < |users| ==> !Matches(users[i], username, password)
    ensures r != None ==> exists k :: FirstMatchAt(users, k, username, password) && users[k] == r.value
  {
    if users == [] then None
    else if Matches(users[0], username, password) then Some(users[0])
    else
      var r := FindUser(users[1..], username, password);
      if r == None then None
      else
        var k :| FirstMatchAt(users[1..], k, username, password) && users[1..][k] == r.value;
        assert FirstMatchAt(users, k + 1, username, password);
        r
  }

  /** Position `k` holds the first account that matches. */
  predicate FirstMatchAt(users: seq<User>, k: int, username: string, password: string) {
    0 <= k < |users| && Matches(users[k], username, password) &&
    forall j :: 0 <= j < k ==> !Matches(users[j], username, password)
  }

  /** With unique usernames, a matching account is the one `login` finds. */
  lemma LoginFindsTheAccount(users: seq<User>, k: nat, password: string)
    requires UniqueUsernames(users) && k < |users| && users[k].password == password
    ensures FindUser(users, users[k].username, password) == Some(users[k])
  {
    var r := FindUser(users, users[k].username, password);
    assert Matches(users[k], users[k].username, password);
    var k' :| FirstMatchAt(users, k', users[k].username, password) && users[k'] == r.value;
  }

  /** The authentication provider's state. */
  class AuthProvider {
    var users: seq<User>
    var user: Option<User>
    var savedUser: Option<User>

    /** Mounting restores the stored session, if any. */
    constructor (users: seq<User>, savedUser: Option<User>)
      ensures this.users == users && this.savedUser == savedUser && user == savedUser
    {
      this.users := users;
      this.savedUser := savedUser;
      user := savedUser;
    }

    /** `isAuthenticated` */
    predicate IsAuthenticated()
      reads this
      ensures IsAuthenticated() <==> user != None
    {
      user != None
    }

    method Register(username: string, password: string, email: Option<string>, id: string) returns (result: AuthResult)
      modifies this
      ensures Registration(result, users) == RegisterOutcome(old(users), username, password, email, id)
      ensures user == old(user) && savedUser == old(savedUser)
    {
      if UsernameTaken(users, username) {
        return AuthResult(false, Some(MsgUsernameTaken));
      }
      if |password| < MinPasswordLength {
        return AuthResult(false, Some(MsgPasswordTooShort));
      }
      var newUser := User(id, username, email, password);
      users := users + [newUser];
      return AuthResult(true, None);
    }

    /** `login`: signs in as the first matching account; a failed attempt keeps
        the current session. */
    method Login(username: string, password: string) returns (result: AuthResult)
      modifies this
      ensures users == old(users)
      ensures FindUser(users, username, password) == None ==>
        result == AuthResult(false, Some(MsgBadCredentials)) && user == old(user) && savedUser == old(savedUser)
      ensures FindUser(users, username, password) != None ==>
        result == AuthResult(true, None) && user == FindUser(users, username, password) && savedUser == user
      ensures result.success <==> IsAuthenticated() && exists i :: 0 <= i < |users| && Matches(users[i], username, password)
    {
      var foundUser := FindUser(users, username, password);
      if foundUser == None {
        return AuthResult(false, Some(MsgBadCredentials));
      }
      user := foundUser;
      savedUser := foundUser;
      return AuthResult(true, None);
    }

    method Logout()
      modifies this
      ensures user == None && savedUser == None && !IsAuthenticated()
      ensures users == old(users)
    {
      user := None;
      savedUser := None;
    }
  }
}
