/** The sign-up form (`Register` page): checks run in a fixed order and the
    first that fails decides the message; only a form that passes them all
    reaches the account table. */
module RegisterPage {
  import opened Common
  import Types
  import AuthContext

  const MsgBlank := "Lütfen kullanıcı adı ve parola girin"
  const MsgMismatch := "Parolalar eşleşmiyor"
  const MsgTooShort := "Parola en az 4 karakter olmalıdır"
  const MsgFailed := "Kayıt başarısız"

  /** The message of the first check the form fails, in the order: blank
      username or password, password and confirmation differ, password shorter
      than four characters. */
  function FirstProblem(username: string, password: string, confirmPassword: string): (r: Option<string>)
    ensures r == None <==>
      !IsBlank(username) && !IsBlank(password) && password == confirmPassword && |password| >= 4
    ensures IsBlank(username) || IsBlank(password) ==> r == Some(MsgBlank)
    ensures !IsBlank(username) && !IsBlank(password) && password != confirmPassword ==> r == Some(MsgMismatch)
    ensures r == Some(MsgTooShort) <==>
      !IsBlank(username) && !IsBlank(password) && password == confirmPassword && |password| < 4
  {
    if IsBlank(username) || IsBlank(password) then Some(MsgBlank)
    else if password != confirmPassword then Some(MsgMismatch)
    else if |password| < 4 then Some(MsgTooShort)
    else None
  }

  /** `email || undefined`: an empty email is not passed on. */
  function EmailArgument(email: string): (r: Option<string>)
    ensures r == None <==> email == ""
    ensures r != None ==> r.value == email
  {
    if email == "" then None else Some(email)
  }

  /** `result.message || 'Kayıt başarısız'` */
  function FailureMessage(message: Option<string>): (m: string)
    ensures m != ""
    ensures message != None && message.value != "" ==> m == message.value
    ensures message == None || message.value == "" ==> m == MsgFailed
  {
    if message != None && message.value != "" then message.value else MsgFailed
  }

  /** A form that passes the page's checks can be refused by the account table
      only for a username that is already taken: the table's own length check
      never fires. */
  lemma CheckedFormOnlyFailsOnTakenName(users: seq<Types.User>, username: string, password: string,
                                        email: string, id: string)
    requires FirstProblem(username, password, password) == None
    ensures var out := AuthContext.RegisterOutcome(users, username, password, EmailArgument(email), id);
      out.result.success <==> !AuthContext.UsernameTaken(users, username)
  {
  }

  /** The form's state. */
  class RegisterForm {
    var username: string
    var password: string
    var confirmPassword: string
    var email: string
    var error: string
    var loading: bool

    constructor ()
      ensures username == password == confirmPassword == email == error == "" && !loading
    {
      username, password, confirmPassword, email, error := "", "", "", "", "";
      loading := false;
    }

    /** `handleSubmit`: runs the checks, registers only when they all pass,
        shows the outcome and always ends with `loading` off. Returns whether
        the page moves on to sign-in. */
    method HandleSubmit(auth: AuthContext.AuthProvider, id: string) returns (toLogin: bool)
      modifies this, auth
      ensures !loading
      ensures username == old(username) && password == old(password) &&
        confirmPassword == old(confirmPassword) && email == old(email)
      ensures auth.user == old(auth.user) && auth.savedUser == old(auth.savedUser)
      ensures FirstProblem(username, password, confirmPassword) != None ==>
        error == FirstProblem(username, password, confirmPassword).value && !toLogin && auth.users == old(auth.users)
      ensures FirstProblem(username, password, confirmPassword) == None ==>
        var out := AuthContext.RegisterOutcome(old(auth.users), username, password, EmailArgument(email), id);
        auth.users == out.users && toLogin == out.result.success &&
        error == (if out.result.success then "" else FailureMessage(out.result.message))
    {
      ghost var problem := FirstProblem(username, password, confirmPassword);
      error := "";
      loading := true;

      if IsBlank(username) || IsBlank(password) {
        assert problem == Some(MsgBlank);
        error := MsgBlank;
        loading := false;
        return false;
      }

      if password != confirmPassword {
        assert problem == Some(MsgMismatch);
        error := MsgMismatch;
        loading := false;
        return false;
      }

      if |password| < 4 {
        assert problem == Some(MsgTooShort);
        error := MsgTooShort;
        loading := false;
        return false;
      }

      assert problem == None;
      var result := auth.Register(username, password, EmailArgument(email), id);

      if result.success {
        toLogin := true;
      } else {
        error := FailureMessage(result.message);
        toLogin := false;
      }

      loading := false;
    }
  }
}
