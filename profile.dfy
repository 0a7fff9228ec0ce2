/**
 * The profile page (customise_profile.js): the signed-in user can change
 * the full name and the password. Each change is written to the session
 * record and to the same user in `nextEarnXUsers`.
 */
module Profile {
  import opened Common
  import opened Store
  import Login

  /** `value || 'N/A'`: how an empty field is shown. */
  function Shown(value: string): (s: string)
    ensures s != []
    ensures value != [] ==> s == value
    ensures value == [] ==> s == "N/A"
  {
    if value == [] then "N/A" else value
  }

  datatype PasswordOutcome = Mismatch | TooShort | NoUser | SameAsOld | Changed

  /** The password form's checks, in order. */
  function PasswordCheck(newPass: string, confirmPass: string, current: Option<User>): (r: PasswordOutcome)
    ensures r == Changed <==> newPass == confirmPass && Utf16Length(newPass) >= 6 && current.Some? && newPass != current.value.password
    ensures r == Mismatch <==> newPass != confirmPass
    ensures r == TooShort <==> newPass == confirmPass && Utf16Length(newPass) < 6
  {
    if newPass != confirmPass then Mismatch
    else if Utf16Length(newPass) < 6 then TooShort
    else if current.None? then NoUser
    else if newPass == current.value.password then SameAsOld
    else Changed
  }

  /** The page's copy of the session user. */
  class ProfilePage {
    var currentUser: Option<User>

    /** `getCurrentUser`: the session record. */
    constructor (st: Store)
      ensures currentUser == st.session
    {
      currentUser := st.session;
    }

    /**
     * The save icon of the full-name box: a trimmed new name that is not
     * blank and differs from the name shown replaces it in the session and
     * in the user list; otherwise nothing is written.
     */
    method SaveFullname(st: Store, input: string) returns (saved: bool)
      modifies this`currentUser, st`session, st`users
      ensures saved <==> old(currentUser).Some? && Trim(input) != [] && Trim(input) != Shown(old(currentUser).value.fullname)
      ensures !saved ==> unchanged(this) && unchanged(st)
      ensures saved ==>
        currentUser == Some(old(currentUser).value.(fullname := Trim(input))) &&
        st.session == currentUser &&
        st.users == (match UserIndex(old(st.users), currentUser.value.username)
                     case None => old(st.users)
                     case Some(i) => old(st.users)[i := currentUser.value])
    {
      var name := Trim(input);
      if currentUser.None? || name == [] || name == Shown(currentUser.value.fullname) {
        return false;
      }
      var user := currentUser.value.(fullname := name);
      currentUser := Some(user);
      st.session := Some(user);
      st.UpdateMainUserList(user);
      saved := true;
    }

    /**
     * The password form: the two entries must agree, have six or more
     * characters and differ from the current password; then the new
     * password is written to the session and to the user list.
     */
    method ChangePassword(st: Store, newPass: string, confirmPass: string) returns (r: PasswordOutcome)
      modifies this`currentUser, st`session, st`users
      ensures r == PasswordCheck(newPass, confirmPass, old(currentUser))
      ensures r != Changed ==> unchanged(this) && unchanged(st)
      ensures r == Changed ==>
        currentUser == Some(old(currentUser).value.(password := newPass)) &&
        st.session == currentUser &&
        st.users == (match UserIndex(old(st.users), currentUser.value.username)
                     case None => old(st.users)
                     case Some(i) => old(st.users)[i := currentUser.value])
    {
      r := PasswordCheck(newPass, confirmPass, currentUser);
      if r == Changed {
        var user := currentUser.value.(password := newPass);
        currentUser := Some(user);
        st.session := Some(user);
        st.UpdateMainUserList(user);
      }
    }
  }

  /** The logout button of every user page: the session record is removed. */
  method LogOut(st: Store)
    modifies st`session
    ensures st.session.None?
  {
    st.session := None;
  }

  /** Changing a stored password does not change who a login text finds. */
  lemma FindIgnoresPasswords(users: seq<User>, k: nat, p: string, login: string)
    requires k < |users|
    ensures Login.FindUserByLogin(users[k := users[k].(password := p)], login) == Login.FindUserByLogin(users, login)
  {
    var changed := users[k := users[k].(password := p)];
    assert forall j :: 0 <= j < |users| ==> (Login.Names(changed[j], login) <==> Login.Names(users[j], login));
  }

  /**
   * After a password change reaches the user list, the new password logs
   * that user in and the old one is refused.
   */
  lemma NewPasswordLogsIn(users: seq<User>, login: string, newPass: string)
    requires login != [] && newPass != []
    requires Login.FindUserByLogin(users, login).Some?
    requires Login.MayLogIn(users[Login.FindUserByLogin(users, login).value])
    requires newPass != users[Login.FindUserByLogin(users, login).value].password
    ensures var k := Login.FindUserByLogin(users, login).value;
      var changed := users[k := users[k].(password := newPass)];
      Login.LoginCheck(changed, login, newPass) == Login.OtpSent &&
      (users[k].password != [] ==> Login.LoginCheck(changed, login, users[k].password) == Login.WrongPassword)
  {
    var k := Login.FindUserByLogin(users, login).value;
    FindIgnoresPasswords(users, k, newPass, login);
  }
}
