/**
 * The admin user manager (user_manager.js): search, delete, and the edit
 * form, which first adjusts the wallet and then merges profile changes
 * into the stored user record.
 */
module UserManager {
  import opened Common
  import opened Store

  /** `updateUser`'s `{ ...users[i], ...updates }`: the fields the edit form can set. */
  datatype Updates = Updates(password: Option<string>, status: string, plan: Option<string>, expiry: Option<int>)

  /** The shallow merge of the edit form's updates into a user record. */
  function Merge(u: User, upd: Updates): (r: User)
    ensures r.username == u.username && r.fullname == u.fullname && r.email == u.email
    ensures r.mobile == u.mobile && r.hasTakenFreeTrial == u.hasTakenFreeTrial
    ensures r.password == (if upd.password.Some? then upd.password.value else u.password)
    ensures r.status == Some(upd.status) && r.plan == upd.plan && r.expiry == upd.expiry
  {
    u.(password := if upd.password.Some? then upd.password.value else u.password,
       status := Some(upd.status), plan := upd.plan, expiry := upd.expiry)
  }

  /**
   * The profile part of the edit form: a non-blank new password (trimmed),
   * the status, which is always set, and plan and expiry, both `null` for
   * the plan `none`. `expiryTime` is `new Date(expiryDate).getTime()`,
   * `None` for an invalid date (stored as `null`).
   */
  function ProfileUpdates(passwordInput: string, status: string, plan: string, expiryTime: Option<int>): (r: Updates)
    ensures r.password.Some? <==> Trim(passwordInput) != []
    ensures r.password.Some? ==> r.password.value == Trim(passwordInput)
    ensures r.status == status
    ensures plan == "none" ==> r.plan.None? && r.expiry.None?
    ensures plan != "none" ==> r.plan == Some(plan) && r.expiry == expiryTime
  {
    Updates(
      if Trim(passwordInput) != [] then Some(Trim(passwordInput)) else None,
      status,
      if plan == "none" then None else Some(plan),
      if plan == "none" then None else expiryTime)
  }

  /** `users.filter(user => user.username !== name)` */
  function WithoutUser(users: seq<User>, name: string): (r: seq<User>)
    ensures r == Filter(users, (u: User) => u.username != name)
    ensures forall u :: u in r <==> u in users && u.username != name
  {
    if users == [] then []
    else if users[0].username == name then WithoutUser(users[1..], name)
    else [users[0]] + WithoutUser(users[1..], name)
  }

  /** The filter drops something exactly when some user has that name. */
  lemma {:induction false} WithoutUserShorter(users: seq<User>, name: string)
    ensures |WithoutUser(users, name)| < |users| <==> UserIndex(users, name).Some?
  {
    if users != [] {
      WithoutUserShorter(users[1..], name);
      if users[0].username != name {
        match UserIndex(users[1..], name)
        case None =>
        case Some(i) =>
      }
    }
  }

  /**
   * The search box: users whose username, email or full name contains
   * the lower-cased query, ignoring case, in stored order.
   */
  function Matches(u: User, query: string): bool
  {
    var q := Lower(query);
    Contains(Lower(u.username), q) || Contains(Lower(u.email), q) || Contains(Lower(u.fullname), q)
  }

  function SearchUsers(users: seq<User>, query: string): (r: seq<User>)
    ensures r == Filter(users, u => Matches(u, query))
    ensures forall u :: u in r <==> u in users && Matches(u, query)
  {
    if users == [] then []
    else if Matches(users[0], query) then [users[0]] + SearchUsers(users[1..], query)
    else SearchUsers(users[1..], query)
  }

  /** An empty query lists every user. */
  lemma {:induction false} EmptySearchListsAll(users: seq<User>)
    ensures SearchUsers(users, "") == users
  {
    if users != [] {
      assert Contains(Lower(users[0].username), Lower("")) by {
        ContainsAt(Lower(users[0].username), [], 0);
      }
      EmptySearchListsAll(users[1..]);
    }
  }

  /**
   * The balance key of `getTargetBalance` and friends: `findUser(name)`
   * must exist (otherwise the page throws, `None` here), and then the key
   * is the global one when `name === findUser(name).username`.
   */
  function TargetBalanceKey(users: seq<User>, name: string): (r: Option<string>)
    ensures r.Some? <==> UserIndex(users, name).Some?
    ensures r.Some? ==> r.value == GlobalBalanceKey
  {
    match UserIndex(users, name)
    case None => None
    case Some(i) => Some(if name == users[i].username then GlobalBalanceKey else GlobalBalanceKey + "_" + name)
  }

  /** The balance action select: `none`, `credit`, `debit` or anything else. */
  datatype Action = NoAction | CreditAction | DebitAction | OtherAction

  datatype EditOutcome =
    | Crashed          // the adjustment looked up a user that is not stored
    | Overdrawn        // a debit above the balance aborts the whole submit
    | Saved(found: bool, adjusted: bool)

  /** A balance adjustment runs only for an action other than `none` and an amount that is a positive number. */
  predicate Adjusting(action: Action, amount: Option<int>)
  {
    action != NoAction && amount.Some? && amount.value > 0
  }

  function AdjustKind(action: Action): Kind
  {
    match action
    case CreditAction => Credit
    case DebitAction => Debit
    case _ => Unknown
  }

  /** The balance after an adjustment: credit adds, debit subtracts, anything else keeps it. */
  function Adjusted(balance: int, action: Action, amount: int): int
  {
    match action
    case CreditAction => balance + amount
    case DebitAction => balance - amount
    case _ => balance
  }

  /** `balanceNoteInput.value.trim() || 'Admin Manual Adjustment'` */
  function AdminNote(input: string): string
  {
    if Trim(input) == [] then "Admin Manual Adjustment" else Trim(input)
  }

  function AdjustmentEntry(action: Action, amount: int, noteInput: string, now: nat): (e: Entry)
    ensures e.kind == AdjustKind(action) && e.amount == amount && e.date == now
  {
    Entry(now, AdjustKind(action), amount,
          "ADMIN_" + Upper(KindName(AdjustKind(action))) + "_" + NatText(now),
          "Admin Adjustment: " + AdminNote(noteInput))
  }

  /** `updateUser`: merges into the first user with that name; absent, nothing is written. */
  method UpdateUser(st: Store, name: string, upd: Updates) returns (found: bool)
    modifies st`users
    ensures found <==> UserIndex(old(st.users), name).Some?
    ensures !found ==> st.users == old(st.users)
    ensures found ==> var i := UserIndex(old(st.users), name).value;
                      st.users == old(st.users)[i := Merge(old(st.users)[i], upd)]
  {
    var i := UserIndex(st.users, name);
    if i.None? {
      return false;
    }
    st.users := st.users[i.value := Merge(st.users[i.value], upd)];
    found := true;
  }

  /** `deleteUser`: drops every user with that name; true exactly when one was dropped. */
  method DeleteUser(st: Store, name: string) returns (deleted: bool)
    modifies st`users
    ensures deleted <==> UserIndex(old(st.users), name).Some?
    ensures deleted ==> st.users == WithoutUser(old(st.users), name)
    ensures !deleted ==> st.users == old(st.users)
  {
    var kept := WithoutUser(st.users, name);
    WithoutUserShorter(st.users, name);
    if |kept| < |st.users| {
      st.users := kept;
      deleted := true;
    } else {
      deleted := false;
    }
  }

  /**
   * The wallet part of the edit form, under the global keys: a debit above
   * the balance is refused with no write; otherwise the balance is
   * adjusted and one entry of that kind and amount is logged.
   */
  method AdjustBalance(st: Store, action: Action, amount: int, noteInput: string, now: nat) returns (applied: bool)
    modifies st`balances, st`histories
    ensures applied <==> !(action == DebitAction && old(st.BalanceAt(GlobalBalanceKey)) < amount)
    ensures !applied ==> unchanged(st)
    ensures applied ==>
      st.balances == old(st.balances)[GlobalBalanceKey := Adjusted(old(st.BalanceAt(GlobalBalanceKey)), action, amount)] &&
      st.histories == old(st.histories)[GlobalHistoryKey := old(st.HistoryAt(GlobalHistoryKey)) + [AdjustmentEntry(action, amount, noteInput, now)]]
    ensures applied && amount > 0 ==>
      (st.BalanceAt(GlobalBalanceKey) > old(st.BalanceAt(GlobalBalanceKey)) <==> AdjustKind(action) == Credit) &&
      (st.BalanceAt(GlobalBalanceKey) < old(st.BalanceAt(GlobalBalanceKey)) <==> AdjustKind(action) == Debit)
    ensures amount >= 0 && old(st.BalanceAt(GlobalBalanceKey)) >= 0 ==> st.BalanceAt(GlobalBalanceKey) >= 0
  {
    var balance := st.BalanceAt(GlobalBalanceKey);
    if action == DebitAction && balance < amount {
      return false;
    }
    st.balances := st.balances[GlobalBalanceKey := Adjusted(balance, action, amount)];
    var entry := AdjustmentEntry(action, amount, noteInput, now);
    st.histories := st.histories[GlobalHistoryKey := st.HistoryAt(GlobalHistoryKey) + [entry]];
    applied := true;
  }

  /**
   * The edit form's submit for user `name`. An adjustment for a user that
   * is not stored throws and an overdrawing debit aborts: neither writes.
   * Otherwise the adjustment (if any) sets the balance and logs one entry
   * of its kind and amount under the global keys, and the profile updates
   * are merged into the user record.
   */
  method SubmitEdit(st: Store, name: string, action: Action, amount: Option<int>, noteInput: string,
                    passwordInput: string, status: string, plan: string, expiryTime: Option<int>, now: nat)
    returns (r: EditOutcome)
    modifies st`balances, st`histories, st`users
    ensures Adjusting(action, amount) && UserIndex(old(st.users), name).None? <==> r == Crashed
    ensures r == Overdrawn <==>
      Adjusting(action, amount) && UserIndex(old(st.users), name).Some? &&
      action == DebitAction && old(st.BalanceAt(GlobalBalanceKey)) < amount.value
    ensures !r.Saved? ==> unchanged(st)
    ensures r.Saved? ==>
      r.adjusted == Adjusting(action, amount) &&
      r.found == UserIndex(old(st.users), name).Some?
    ensures r.Saved? && !r.adjusted ==> st.balances == old(st.balances) && st.histories == old(st.histories)
    ensures r.Saved? && r.adjusted ==>
      st.balances == old(st.balances)[GlobalBalanceKey := Adjusted(old(st.BalanceAt(GlobalBalanceKey)), action, amount.value)] &&
      st.histories == old(st.histories)[GlobalHistoryKey := old(st.HistoryAt(GlobalHistoryKey)) + [AdjustmentEntry(action, amount.value, noteInput, now)]]
    ensures r.Saved? && r.found ==>
      var i := UserIndex(old(st.users), name).value;
      st.users == old(st.users)[i := Merge(old(st.users)[i], ProfileUpdates(passwordInput, status, plan, expiryTime))]
    ensures r.Saved? && !r.found ==> st.users == old(st.users)
    ensures old(st.BalanceAt(GlobalBalanceKey)) >= 0 ==> st.BalanceAt(GlobalBalanceKey) >= 0
  {
    var adjusted := false;
    if Adjusting(action, amount) {
      var key := TargetBalanceKey(st.users, name);
      if key.None? {
        return Crashed;
      }
      var applied := AdjustBalance(st, action, amount.value, noteInput, now);
      if !applied {
        return Overdrawn;
      }
      adjusted := true;
    }
    var found := UpdateUser(st, name, ProfileUpdates(passwordInput, status, plan, expiryTime));
    r := Saved(found, adjusted);
  }
}
