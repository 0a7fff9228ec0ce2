/**
 * Claiming a Lifafa (claim.js). Loading the page finds the record named by
 * the `id` parameter, then runs the requirement gates in order: already
 * claimed, banned mobile, access code, Telegram and referral (the last two
 * are stubs that always pass). The claim button, once enabled, credits the
 * session user's wallet by the per-claim amount, appends the claim to the
 * record and logs one credit.
 */
module ClaimLifafa {
  import opened Common
  import opened Store

  /** One entry of `claimChecksPassed`: not yet run, true, or false. */
  datatype Gate = Pending | Passed | Failed

  datatype Checks = Checks(claimed: Gate, ban: Gate, code: Gate, telegram: Gate, referral: Gate)

  /** `claimChecksPassed = {}` */
  const NoChecks := Checks(Pending, Pending, Pending, Pending, Pending)

  /** What the page shows after `loadInitialData`. */
  datatype View = ToLogin | Failure(title: string) | Shown(lifafa: Lifafa)

  /** `lifafaId`: the URL parameter; a missing or empty one is falsy. */
  function IdParam(idParam: Option<string>): (id: Option<string>)
    ensures id.Some? <==> idParam.Some? && idParam.value != []
  {
    if idParam.Some? && idParam.value != [] then idParam else None
  }

  /**
   * `loadInitialData`: no session goes to the login page; then a missing
   * id, an unknown id (first match by id) and a full record are errors.
   */
  function LoadView(session: Option<User>, idParam: Option<string>, ls: seq<Lifafa>): (v: View)
    ensures session.None? <==> v == ToLogin
    ensures v == Failure("Invalid Link") <==> session.Some? && IdParam(idParam).None?
    ensures v == Failure("Lifafa Not Found") <==>
      session.Some? && IdParam(idParam).Some? && LifafaIndex(ls, idParam.value).None?
    ensures v == Failure("Lifafa Closed") <==>
      session.Some? && IdParam(idParam).Some? && LifafaIndex(ls, idParam.value).Some? &&
      |ls[LifafaIndex(ls, idParam.value).value].claims| >= ls[LifafaIndex(ls, idParam.value).value].count
    ensures v.Shown? ==>
      IdParam(idParam).Some? && LifafaIndex(ls, idParam.value).Some? &&
      v.lifafa == ls[LifafaIndex(ls, idParam.value).value] &&
      v.lifafa.id == idParam.value && |v.lifafa.claims| < v.lifafa.count
  {
    if session.None? then ToLogin
    else if IdParam(idParam).None? then Failure("Invalid Link")
    else match LifafaIndex(ls, idParam.value)
      case None => Failure("Lifafa Not Found")
      case Some(i) =>
        if |ls[i].claims| >= ls[i].count then Failure("Lifafa Closed") else Shown(ls[i])
  }

  /** `claims.some(c => c.username === currentUser.username)` */
  predicate AlreadyClaimed(l: Lifafa, username: string)
  {
    exists k :: 0 <= k < |l.claims| && l.claims[k].username == username
  }

  /** `bannedNumbers.includes(currentUser.mobile)`: only string entries can match. */
  predicate Banned(bans: seq<Item>, mobile: string)
  {
    Str(mobile) in bans
  }

  /** `lifafaData.accessCode` is truthy. */
  predicate HasCode(l: Lifafa)
  {
    l.accessCode.Some? && l.accessCode.value != []
  }

  /**
   * `checkAllRequirements`: the claimed gate, then the ban gate; a failure
   * of either stops the run. The code gate is open only without a code;
   * the Telegram and referral gates always pass.
   */
  function RunChecks(l: Lifafa, user: User, bans: seq<Item>): (c: Checks)
    ensures c.claimed == (if AlreadyClaimed(l, user.username) then Failed else Passed)
    ensures c.ban == Failed <==> !AlreadyClaimed(l, user.username) && Banned(bans, user.mobile)
    ensures c.ban == Pending <==> AlreadyClaimed(l, user.username)
    ensures c.claimed == Failed || c.ban == Failed ==>
      c.code == Pending && c.telegram == Pending && c.referral == Pending
    ensures c.claimed == Passed && c.ban == Passed ==>
      c.telegram == Passed && c.referral == Passed && c.code == (if HasCode(l) then Failed else Passed)
  {
    if AlreadyClaimed(l, user.username) then NoChecks.(claimed := Failed)
    else if Banned(bans, user.mobile) then NoChecks.(claimed := Passed, ban := Failed)
    else Checks(Passed, Passed, if HasCode(l) then Failed else Passed, Passed, Passed)
  }

  /** The button is enabled at load exactly when every gate ran, passed, and no code is asked. */
  function EnabledAtLoad(l: Lifafa, user: User, bans: seq<Item>): (b: bool)
    ensures b <==> !AlreadyClaimed(l, user.username) && !Banned(bans, user.mobile) && !HasCode(l)
  {
    var c := RunChecks(l, user, bans);
    c.claimed == Passed && c.ban == Passed && c.telegram == Passed && c.referral == Passed && !HasCode(l)
  }

  /** The claim appended to the record. */
  function WithClaim(l: Lifafa, username: string, now: int): (r: Lifafa)
    ensures r.claims == l.claims + [Claim(username, now, l.perClaim)]
    ensures r == l.(claims := r.claims)
  {
    l.(claims := l.claims + [Claim(username, now, l.perClaim)])
  }

  /** The credit logged for a claim. */
  function ClaimEntry(l: Lifafa, now: int): (e: Entry)
    ensures e.kind == Credit && e.amount == l.perClaim && e.date == now
  {
    Entry(now, Credit, l.perClaim, "LIFAFA_CLAIM_" + l.id, "Claimed Lifafa: " + l.title)
  }

  /** The list saved by a claim: the first record with the id is replaced, or nothing is saved. */
  function SavedAfterClaim(ls: seq<Lifafa>, updated: Lifafa): (r: seq<Lifafa>)
    ensures |r| == |ls|
    ensures LifafaIndex(ls, updated.id).None? ==> r == ls
    ensures LifafaIndex(ls, updated.id).Some? ==>
      r[LifafaIndex(ls, updated.id).value] == updated &&
      forall k :: 0 <= k < |ls| && k != LifafaIndex(ls, updated.id).value ==> r[k] == ls[k]
  {
    match LifafaIndex(ls, updated.id)
    case None => ls
    case Some(i) => ls[i := updated]
  }

  /** A claim on a record that still had room keeps every record within its count. */
  lemma ClaimKeepsClaimsWithinCount(ls: seq<Lifafa>, l: Lifafa, username: string, now: int)
    requires ClaimsWithinCount(ls)
    requires |l.claims| < l.count
    ensures ClaimsWithinCount(SavedAfterClaim(ls, WithClaim(l, username, now)))
  {
    var r := SavedAfterClaim(ls, WithClaim(l, username, now));
    forall i | 0 <= i < |r|
      ensures |r[i].claims| <= r[i].count
    {
      if LifafaIndex(ls, l.id).Some? && i == LifafaIndex(ls, l.id).value {
        assert r[i] == WithClaim(l, username, now);
      } else {
        assert r[i] == ls[i];
      }
    }
  }

  /**
   * Reloading the page after a successful claim never enables the button
   * again: the saved record is either full or lists the user's claim.
   */
  lemma ReloadAfterClaim(ls: seq<Lifafa>, l: Lifafa, user: User, bans: seq<Item>, now: int)
    requires l.id != []
    requires LifafaIndex(ls, l.id).Some?
    ensures var saved := SavedAfterClaim(ls, WithClaim(l, user.username, now));
      match LoadView(Some(user), Some(l.id), saved)
      case Shown(m) => m == WithClaim(l, user.username, now) &&
                       RunChecks(m, user, bans).claimed == Failed &&
                       !EnabledAtLoad(m, user, bans)
      case Failure(title) => title == "Lifafa Closed"
      case ToLogin => false
  {
    var m := WithClaim(l, user.username, now);
    var saved := SavedAfterClaim(ls, m);
    var i := LifafaIndex(ls, l.id).value;
    LifafaIndexAfterUpdate(ls, i, m);
    assert m.claims[|l.claims|].username == user.username;
    assert AlreadyClaimed(m, user.username);
    assert IdParam(Some(l.id)).Some?;
  }

  /** Replacing the first record with an id by one with the same id keeps it first. */
  lemma {:induction false} LifafaIndexAfterUpdate(ls: seq<Lifafa>, i: nat, m: Lifafa)
    requires LifafaIndex(ls, m.id) == Some(i)
    ensures LifafaIndex(ls[i := m], m.id) == Some(i)
    decreases |ls|
  {
    if i > 0 {
      LifafaIndexAfterUpdate(ls[1..], i - 1, m);
      assert ls[i := m][1..] == ls[1..][i - 1 := m];
    }
  }

  /** The claim page and its module state. */
  class ClaimPage {
    var user: Option<User>
    var view: View
    var checks: Checks
    var enabled: bool
    var codeFormShown: bool

    /** The record held since loading (`lifafaData`). */
    function Data(): Option<Lifafa>
      reads this`view
    {
      if view.Shown? then Some(view.lifafa) else None
    }

    /** The button is enabled only over a shown, open record with every gate passed. */
    ghost predicate Valid()
      reads this
    {
      (enabled ==>
        user.Some? && view.Shown? && |view.lifafa.claims| < view.lifafa.count &&
        checks == Checks(Passed, Passed, Passed, Passed, Passed)) &&
      (codeFormShown ==>
        !enabled && user.Some? && view.Shown? && HasCode(view.lifafa) &&
        checks.ban == Passed && checks.telegram == Passed && checks.referral == Passed &&
        |view.lifafa.claims| < view.lifafa.count && checks.claimed == Passed)
    }

    /**
     * `DOMContentLoaded`: read the session and the record, then run the
     * gates. The button starts disabled.
     */
    constructor (st: Store, idParam: Option<string>)
      ensures Valid()
      ensures user == st.session
      ensures view == LoadView(st.session, idParam, st.lifafas)
      ensures view.Shown? ==> checks == RunChecks(view.lifafa, user.value, st.bans)
      ensures view.Shown? ==> enabled == EnabledAtLoad(view.lifafa, user.value, st.bans)
      ensures view.Shown? ==> codeFormShown == (RunChecks(view.lifafa, user.value, st.bans).code == Failed)
      ensures !view.Shown? ==> checks == NoChecks && !enabled && !codeFormShown
    {
      var v := LoadView(st.session, idParam, st.lifafas);
      user := st.session;
      view := v;
      if v.Shown? {
        var c := RunChecks(v.lifafa, st.session.value, st.bans);
        checks := c;
        enabled := EnabledAtLoad(v.lifafa, st.session.value, st.bans);
        codeFormShown := c.code == Failed;
      } else {
        checks := NoChecks;
        enabled := false;
        codeFormShown := false;
      }
    }

    /**
     * The access-code form: a trimmed input equal to the code opens the
     * code gate and enables the button when the other gates passed; any
     * other input marks the gate failed.
     */
    method SubmitCode(input: string)
      requires Valid()
      modifies this`checks, this`enabled, this`codeFormShown
      ensures Valid()
      ensures !old(codeFormShown) ==> unchanged(this)
      ensures old(codeFormShown) && Some(Trim(input)) == view.lifafa.accessCode ==>
        checks == old(checks).(code := Passed) && enabled && !codeFormShown
      ensures old(codeFormShown) && Some(Trim(input)) != view.lifafa.accessCode ==>
        checks == old(checks).(code := Failed) && !enabled && codeFormShown
    {
      if !codeFormShown {
        return;
      }
      var l := view.lifafa;
      if Some(Trim(input)) == l.accessCode {
        codeFormShown := false;
        checks := checks.(code := Passed);
        if checks.ban == Passed && checks.telegram == Passed && checks.referral == Passed {
          enabled := true;
        }
      } else {
        checks := checks.(code := Failed);
      }
    }

    /**
     * The claim button: a disabled button or a declined confirmation does
     * nothing; otherwise the wallet is credited, the record saved with the
     * claim appended, one credit logged and the button disabled.
     */
    method ClickClaim(st: Store, confirmed: bool, now: int)
      requires Valid()
      modifies st`balances, st`lifafas, st`histories, this`view, this`enabled
      ensures Valid()
      ensures !old(enabled) || !confirmed ==> unchanged(st) && unchanged(this)
      ensures old(enabled) && confirmed ==>
        var l := old(view.lifafa);
        var m := WithClaim(l, user.value.username, now);
        st.balances == old(st.balances)[GlobalBalanceKey := old(st.BalanceAt(GlobalBalanceKey)) + l.perClaim] &&
        st.lifafas == SavedAfterClaim(old(st.lifafas), m) &&
        st.histories == old(st.histories)[GlobalHistoryKey := old(st.HistoryAt(GlobalHistoryKey)) + [ClaimEntry(l, now)]] &&
        view == Shown(m) && !enabled
    {
      if !enabled || !confirmed {
        return;
      }
      var l := view.lifafa;
      st.SetBalance(GlobalBalanceKey, st.BalanceAt(GlobalBalanceKey) + l.perClaim);
      var m := WithClaim(l, user.value.username, now);
      view := Shown(m);
      st.lifafas := SavedAfterClaim(st.lifafas, m);
      st.PushHistory(GlobalHistoryKey, ClaimEntry(l, now));
      enabled := false;
    }
  }
}
