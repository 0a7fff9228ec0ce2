/**
 * The login page (script.js): a username or email and a password are
 * checked against the stored users, banned and frozen accounts are
 * turned away, and a six-digit code valid for five minutes must then be
 * entered before the user is stored as the session.
 */
module Login {
  import opened Common
  import opened Store
  import opened Otp
  import Signup

  /** How long a login code is valid, in milliseconds. */
  const OtpValidityMs := 5 * 60 * 1000

  /** The user a login text names: by email when it has an `@`, else by username, ignoring case. */
  predicate Names(u: User, login: string)
  {
    if Contains(login, "@") then Lower(u.email) == Lower(login) else Lower(u.username) == Lower(login)
  }

  /** `findUserByLogin`: the first stored user the login text names. */
  function FindUserByLogin(users: seq<User>, login: string): (r: Option<nat>)
    ensures r.None? <==> forall k :: 0 <= k < |users| ==> !Names(users[k], login)
    ensures r.Some? ==> r.value < |users| && Names(users[r.value], login)
    ensures r.Some? ==> forall k :: 0 <= k < r.value ==> !Names(users[k], login)
  {
    if users == [] then None
    else if Names(users[0], login) then Some(0)
    else
      match FindUserByLogin(users[1..], login)
      case None => None
      case Some(i) => Some(i + 1)
  }

  /** `user.status || 'active'` */
  function Status(u: User): (s: string)
    ensures s != []
    ensures u.status.None? || u.status.value == [] ==> s == "active"
    ensures u.status.Some? && u.status.value != [] ==> s == u.status.value
  {
    if u.status.Some? && u.status.value != [] then u.status.value else "active"
  }

  /** A status that may receive a code. */
  predicate MayLogIn(u: User)
  {
    Status(u) != "banned" && Status(u) != "frozen"
  }

  datatype LoginOutcome = MissingField | NotFound | WrongPassword | Banned | Frozen | OtpSent

  /** The form's checks, in order, on the trimmed login text and the password as typed. */
  function LoginCheck(users: seq<User>, login: string, password: string): (r: LoginOutcome)
    ensures r == MissingField <==> login == [] || password == []
    ensures r == NotFound <==> login != [] && password != [] && FindUserByLogin(users, login).None?
    ensures r == OtpSent <==>
      login != [] && password != [] && FindUserByLogin(users, login).Some? &&
      users[FindUserByLogin(users, login).value].password == password &&
      MayLogIn(users[FindUserByLogin(users, login).value])
  {
    if login == [] || password == [] then MissingField
    else
      match FindUserByLogin(users, login)
      case None => NotFound
      case Some(i) =>
        if users[i].password != password then WrongPassword
        else if Status(users[i]) == "banned" then Banned
        else if Status(users[i]) == "frozen" then Frozen
        else OtpSent
  }

  datatype VerifyOutcome = EmptyOtp | Checked(check: OtpCheck)

  /** The page's code state and the user waiting for it. */
  class LoginPage {
    var otp: Option<int>
    var expires: int
    var currentUser: Option<User>

    /** A code is only ever sent to a user allowed to log in, and has six digits. */
    ghost predicate Valid()
      reads this
    {
      (otp.Some? ==> 100000 <= otp.value <= 999999 && currentUser.Some?) &&
      (currentUser.Some? ==> MayLogIn(currentUser.value))
    }

    constructor ()
      ensures Valid()
      ensures otp.None? && currentUser.None?
    {
      otp := None;
      expires := 0;
      currentUser := None;
    }

    /** `generateAndShowOtp`: a new code valid for five minutes. */
    method Generate(now: int, draw: nat)
      requires draw < 900000
      modifies this`otp, this`expires
      ensures otp == Some(NewOtp(draw)) && expires == now + OtpValidityMs
    {
      otp := Some(NewOtp(draw));
      expires := now + OtpValidityMs;
    }

    /**
     * The login form. A refused login changes nothing; an accepted one
     * remembers the user it found and sends a fresh code.
     */
    method Submit(st: Store, loginInput: string, password: string, now: int, draw: nat) returns (r: LoginOutcome)
      requires draw < 900000 && Valid()
      modifies this
      ensures Valid()
      ensures r == LoginCheck(st.users, Trim(loginInput), password)
      ensures r != OtpSent ==> unchanged(this)
      ensures r == OtpSent ==>
        currentUser == Some(st.users[FindUserByLogin(st.users, Trim(loginInput)).value]) &&
        currentUser.value.password == password &&
        otp == Some(NewOtp(draw)) && expires == now + OtpValidityMs
    {
      var login := Trim(loginInput);
      r := LoginCheck(st.users, login, password);
      if r == OtpSent {
        currentUser := Some(st.users[FindUserByLogin(st.users, login).value]);
        Generate(now, draw);
      }
    }

    /**
     * The verify button: a blank code is refused first; a match before
     * the deadline stores the waiting user as the session, and nothing
     * else writes.
     */
    method Verify(st: Store, entered: string, now: int) returns (r: VerifyOutcome)
      requires Valid()
      modifies st`session
      ensures r == EmptyOtp <==> Trim(entered) == []
      ensures r.Checked? ==> r.check == CheckOtp(otp, expires, Trim(entered), now)
      ensures r == Checked(Match) ==> st.session == currentUser && st.session.Some? && MayLogIn(st.session.value)
      ensures r != Checked(Match) ==> unchanged(st)
    {
      var code := Trim(entered);
      if code == [] {
        return EmptyOtp;
      }
      var check := CheckOtp(otp, expires, code, now);
      if check == Match {
        st.session := currentUser;
      }
      r := Checked(check);
    }

    /** The resend button: only while a user is waiting. */
    method Resend(now: int, draw: nat) returns (sent: bool)
      requires draw < 900000 && Valid()
      modifies this`otp, this`expires
      ensures Valid()
      ensures sent <==> currentUser.Some?
      ensures sent ==> otp == Some(NewOtp(draw)) && expires == now + OtpValidityMs
      ensures !sent ==> unchanged(this)
    {
      if currentUser.None? {
        return false;
      }
      Generate(now, draw);
      sent := true;
    }
  }

  /**
   * With usernames distinct ignoring case (as signup keeps them), logging
   * in with a username finds that very user.
   */
  lemma {:induction false} LoginByUsernameFindsUser(users: seq<User>, k: nat)
    requires k < |users| && Signup.NamesDistinct(users)
    requires !Contains(users[k].username, "@")
    ensures FindUserByLogin(users, users[k].username) == Some(k)
  {
    var login := users[k].username;
    assert Names(users[k], login);
    forall j | 0 <= j < k
      ensures !Names(users[j], login)
    {
      assert Lower(users[j].username) != Lower(users[k].username);
    }
  }
}
