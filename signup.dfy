/**
 * The signup page (signup.js): a mobile number is confirmed with a
 * one-time code valid for 60 seconds, and only then is the form checked
 * and the new account appended to `nextEarnXUsers`.
 */
module Signup {
  import opened Common
  import opened Store
  import opened Otp

  /** How long a signup code is valid, in milliseconds. */
  const OtpValidityMs := 60 * 1000

  /** `/^[a-zA-Z0-9_]{1,15}$/` */
  predicate UsernameOk(s: string)
  {
    1 <= |s| <= 15 && forall i :: 0 <= i < |s| ==> IsAsciiAlnum(s[i]) || s[i] == '_'
  }

  /** `/^\d{10}$/` */
  predicate MobileOk(s: string)
  {
    |s| == 10 && AllDigits(s)
  }

  /** `/^[^\s@]+@gmail\.com$/` */
  predicate GmailOk(s: string)
  {
    var suffix := "@gmail.com";
    |s| > |suffix| && EndsWith(s, suffix) &&
    forall i :: 0 <= i < |s| - |suffix| ==> !IsSpace(s[i]) && s[i] != '@'
  }

  /** Some stored user has this username, ignoring case. */
  predicate UsernameTaken(users: seq<User>, username: string)
  {
    exists u :: u in users && Lower(u.username) == Lower(username)
  }

  predicate EmailTaken(users: seq<User>, email: string)
  {
    exists u :: u in users && Lower(u.email) == Lower(email)
  }

  predicate MobileTaken(users: seq<User>, mobile: string)
  {
    exists u :: u in users && u.mobile == mobile
  }

  /** No two stored users share a username, ignoring case. */
  ghost predicate NamesDistinct(users: seq<User>)
  {
    forall i, j :: 0 <= i < j < |users| ==> Lower(users[i].username) != Lower(users[j].username)
  }

  datatype UsernameHint = InvalidName | NameTaken | NameAvailable

  /** The live message under the username box. */
  function UsernameHintFor(users: seq<User>, input: string): (r: UsernameHint)
    ensures r == NameAvailable <==> UsernameOk(Trim(input)) && !UsernameTaken(users, Trim(input))
    ensures r == InvalidName <==> !UsernameOk(Trim(input))
  {
    var v := Trim(input);
    if !UsernameOk(v) then InvalidName
    else if UsernameTaken(users, v) then NameTaken
    else NameAvailable
  }

  datatype SendOutcome = InvalidMobile | MobileRegistered | Sent

  /** The form's fields after trimming (the password is not trimmed). */
  datatype Form = Form(fullname: string, username: string, email: string, mobile: string, password: string)

  function Trimmed(f: Form): Form
  {
    Form(Trim(f.fullname), Trim(f.username), Trim(f.email), Trim(f.mobile), f.password)
  }

  datatype SignupError =
    | NotVerified | MissingField | BadUsername | BadEmail | BadMobile | ShortPassword
    | NameInUse | EmailInUse

  /** The submit checks, in order, on the trimmed form. */
  function SignupCheck(verified: bool, f: Form, users: seq<User>): (r: Option<SignupError>)
    ensures r.None? <==>
      verified && f.fullname != [] && UsernameOk(f.username) && GmailOk(f.email) && MobileOk(f.mobile) &&
      Utf16Length(f.password) >= 6 && !UsernameTaken(users, f.username) && !EmailTaken(users, f.email)
    ensures r == Some(NotVerified) <==> !verified
  {
    if !verified then Some(NotVerified)
    else if f.fullname == [] || f.username == [] || f.email == [] || f.mobile == [] || f.password == [] then Some(MissingField)
    else if !UsernameOk(f.username) then Some(BadUsername)
    else if !GmailOk(f.email) then Some(BadEmail)
    else if !MobileOk(f.mobile) then Some(BadMobile)
    else if Utf16Length(f.password) < 6 then Some(ShortPassword)
    else if UsernameTaken(users, f.username) then Some(NameInUse)
    else if EmailTaken(users, f.email) then Some(EmailInUse)
    else None
  }

  /** The record a signup appends `{fullname, username, email, mobile, password}`. */
  function NewUser(f: Form): (u: User)
    ensures u.username == f.username && u.email == f.email && u.mobile == f.mobile && u.password == f.password
    ensures u.status.None? && u.plan.None? && u.expiry.None? && !u.hasTakenFreeTrial
  {
    User(f.fullname, f.username, f.email, f.mobile, f.password, None, None, None, false)
  }

  /** The page's code state: the code, its deadline, the countdown and whether the mobile was confirmed. */
  class SignupPage {
    var otp: Option<int>
    var expires: int
    var timerRunning: bool
    var verified: bool

    /** A code, while there is one, has six digits. */
    ghost predicate Valid()
      reads this
    {
      otp.Some? ==> 100000 <= otp.value <= 999999
    }

    constructor ()
      ensures Valid()
      ensures otp.None? && !timerRunning && !verified
    {
      otp := None;
      expires := 0;
      timerRunning := false;
      verified := false;
    }

    /** `generateAndSendOtp` (also the resend button): a new code valid for 60 seconds. */
    method Generate(now: int, draw: nat)
      requires draw < 900000
      modifies this`otp, this`expires, this`timerRunning
      ensures Valid()
      ensures otp == Some(NewOtp(draw)) && expires == now + OtpValidityMs && timerRunning
    {
      otp := Some(NewOtp(draw));
      expires := now + OtpValidityMs;
      timerRunning := true;
    }

    /** The send button: the trimmed mobile must be ten digits and not registered yet. */
    method SendOtp(st: Store, mobileInput: string, now: int, draw: nat) returns (r: SendOutcome)
      requires draw < 900000 && Valid()
      modifies this`otp, this`expires, this`timerRunning
      ensures Valid()
      ensures r == InvalidMobile <==> !MobileOk(Trim(mobileInput))
      ensures r == MobileRegistered <==> MobileOk(Trim(mobileInput)) && MobileTaken(st.users, Trim(mobileInput))
      ensures r != Sent ==> unchanged(this)
      ensures r == Sent ==> otp == Some(NewOtp(draw)) && expires == now + OtpValidityMs && timerRunning
    {
      var mobile := Trim(mobileInput);
      if !MobileOk(mobile) {
        return InvalidMobile;
      }
      if MobileTaken(st.users, mobile) {
        return MobileRegistered;
      }
      Generate(now, draw);
      r := Sent;
    }

    /** The countdown tick: once the deadline has passed the code is cleared. */
    method Tick(now: int)
      requires Valid()
      modifies this`otp, this`timerRunning
      ensures Valid()
      ensures old(timerRunning) && expires - now <= 0 ==> otp.None? && !timerRunning
      ensures !(old(timerRunning) && expires - now <= 0) ==> unchanged(this)
    {
      if timerRunning && expires - now <= 0 {
        otp := None;
        timerRunning := false;
      }
    }

    /** The verify button: only a match before the deadline confirms the mobile. */
    method Verify(entered: string, now: int) returns (r: OtpCheck)
      requires Valid()
      modifies this`verified, this`timerRunning
      ensures Valid()
      ensures r == CheckOtp(otp, expires, Trim(entered), now)
      ensures r == Match ==> verified && !timerRunning
      ensures r != Match ==> unchanged(this)
    {
      r := CheckOtp(otp, expires, Trim(entered), now);
      if r == Match {
        verified := true;
        timerRunning := false;
      }
    }

    /**
     * The signup form. Refused, with no write, unless the mobile was
     * confirmed and every check passes; then exactly one user is appended.
     */
    method Submit(st: Store, form: Form) returns (r: Option<SignupError>)
      modifies st`users
      ensures r == SignupCheck(verified, Trimmed(form), old(st.users))
      ensures r.Some? ==> st.users == old(st.users)
      ensures r.None? ==> st.users == old(st.users) + [NewUser(Trimmed(form))]
    {
      r := Register(st, Trimmed(form));
    }

    /** The submit handler on the trimmed form `f`. */
    method Register(st: Store, f: Form) returns (r: Option<SignupError>)
      modifies st`users
      ensures r == SignupCheck(verified, f, old(st.users))
      ensures r.Some? ==> st.users == old(st.users)
      ensures r.None? ==> st.users == old(st.users) + [NewUser(f)]
    {
      r := SignupCheck(verified, f, st.users);
      if r.None? {
        st.users := st.users + [NewUser(f)];
      }
    }
  }

  /** A successful signup keeps usernames distinct, ignoring case. */
  lemma SignupKeepsNamesDistinct(users: seq<User>, verified: bool, f: Form)
    requires NamesDistinct(users)
    requires SignupCheck(verified, f, users).None?
    ensures NamesDistinct(users + [NewUser(f)])
  {
    var r := users + [NewUser(f)];
    forall i, j | 0 <= i < j < |r| ensures Lower(r[i].username) != Lower(r[j].username)
    {
      assert r[i] == users[i];
      if j == |users| {
        assert users[i] in users;
      } else {
        assert r[j] == users[j];
      }
    }
  }
}
