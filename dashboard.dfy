/**
 * The admin dashboard (admin_dashboard.js): the number of users, the
 * number of active subscriptions among them, and the revenue, which is
 * the sum of the UPI deposits in the global history.
 */
module Dashboard {
  import opened Common
  import opened Store
  import Purchase

  /** `user.plan && user.expiry && Date.now() < user.expiry` */
  predicate ActiveSubscriber(u: User, now: int)
  {
    u.plan.Some? && u.plan.value != [] && u.expiry.Some? && u.expiry.value != 0 && now < u.expiry.value
  }

  /** `tx.type === 'credit' && tx.note.includes('Wallet Deposit via UPI')` */
  predicate IsDeposit(e: Entry)
  {
    e.kind == Credit && Contains(e.note, Purchase.DepositNote)
  }

  /** The number of active subscribers among `users`. */
  function ActiveCount(users: seq<User>, now: int): (n: nat)
    ensures n <= |users|
  {
    if users == [] then 0
    else ActiveCount(users[..|users| - 1], now) + (if ActiveSubscriber(users[|users| - 1], now) then 1 else 0)
  }

  /** The sum of the amounts of the deposits in `history`. */
  function Revenue(history: seq<Entry>): int
  {
    if history == [] then 0
    else Revenue(history[..|history| - 1]) + (if IsDeposit(history[|history| - 1]) then history[|history| - 1].amount else 0)
  }

  datatype Stats = Stats(totalUsers: nat, activeSubs: nat, totalRevenue: int)

  /** `calculateStats`: one pass over the users and one over the global history. */
  method CalculateStats(st: Store, now: int) returns (s: Stats)
    ensures s.totalUsers == |st.users|
    ensures s.activeSubs == ActiveCount(st.users, now) && s.activeSubs <= s.totalUsers
    ensures s.totalRevenue == Revenue(st.HistoryAt(GlobalHistoryKey))
  {
    var users := st.users;
    var active := 0;
    var i := 0;
    while i < |users|
      invariant 0 <= i <= |users|
      invariant active == ActiveCount(users[..i], now)
    {
      assert users[..i + 1][..i] == users[..i];
      if ActiveSubscriber(users[i], now) {
        active := active + 1;
      }
      i := i + 1;
    }
    assert users[..|users|] == users;
    var history := st.HistoryAt(GlobalHistoryKey);
    var revenue := 0;
    var j := 0;
    while j < |history|
      invariant 0 <= j <= |history|
      invariant revenue == Revenue(history[..j])
    {
      assert history[..j + 1][..j] == history[..j];
      if IsDeposit(history[j]) {
        revenue := revenue + history[j].amount;
      }
      j := j + 1;
    }
    assert history[..|history|] == history;
    s := Stats(|users|, active, revenue);
  }

  /** A deposit confirmed on the payment page adds its amount to the revenue. */
  lemma DepositAddsRevenue(history: seq<Entry>, amount: int, txnId: string, now: int)
    ensures Revenue(history + [Purchase.DepositEntry(amount, txnId, now)]) == Revenue(history) + amount
  {
    var h := history + [Purchase.DepositEntry(amount, txnId, now)];
    ContainsAt(Purchase.DepositNote, Purchase.DepositNote, 0);
    assert h[..|h| - 1] == history;
  }

  /** Any other entry, a debit or a credit of another kind, leaves the revenue alone. */
  lemma OtherEntryKeepsRevenue(history: seq<Entry>, e: Entry)
    requires !IsDeposit(e)
    ensures Revenue(history + [e]) == Revenue(history)
  {
    var h := history + [e];
    assert h[..|h| - 1] == history;
  }

  /** As time passes the count of active subscriptions can only fall. */
  lemma {:induction false} ActiveCountFalls(users: seq<User>, now: int, later: int)
    requires now <= later
    ensures ActiveCount(users, later) <= ActiveCount(users, now)
  {
    if users != [] {
      ActiveCountFalls(users[..|users| - 1], now, later);
    }
  }
}
