/**
 * The subscription page (subscription.js): plan cards priced from the
 * global settings, a one-time free trial, and paid plans bought from the
 * wallet. Activation writes the `subscription` record, logs a debit for
 * a paid plan and flags the free trial on the user.
 */
module Plans {
  import opened Common
  import opened Store

  const FreeTrial := "1 Week Free Trial"

  /** Milliseconds in a day. */
  const DayMs := 24 * 60 * 60 * 1000

  /** `planMap[planName] || 30` */
  function PlanDays(plan: string): (d: nat)
    ensures d in {7, 30, 90, 180}
    ensures plan == FreeTrial ==> d == 7
    ensures plan == "1 Month" ==> d == 30
    ensures plan == "3 Months" ==> d == 90
    ensures plan == "6 Months" ==> d == 180
    ensures plan !in {FreeTrial, "1 Month", "3 Months", "6 Months"} ==> d == 30
  {
    if plan == "1 Month" then 30
    else if plan == "3 Months" then 90
    else if plan == "6 Months" then 180
    else if plan == FreeTrial then 7
    else 30
  }

  /** The expiry of a plan bought at `now`. */
  function ExpiryOf(plan: string, now: int): (e: int)
    ensures e - now == PlanDays(plan) * DayMs
    ensures e >= now + 7 * DayMs
  {
    now + PlanDays(plan) * DayMs
  }

  /** The page's defaults: `{ prices: {"1 Month": 59, "3 Months": 109, "6 Months": 159} }` in paise. */
  const Defaults := NoSettings.(prices := Some(map["1 Month" := Some(5900), "3 Months" := Some(10900), "6 Months" := Some(15900)]))

  /** `loadSettings`: the stored object over the defaults, or the defaults. */
  function LoadSettings(stored: Option<Settings>): (s: Settings)
    ensures stored.None? ==> s == Defaults
    ensures stored.Some? && stored.value.prices.Some? ==> s.prices == stored.value.prices
    ensures stored.Some? && stored.value.prices.None? ==> s.prices == Defaults.prices
  {
    if stored.Some? then Overlay(Defaults, stored.value) else Defaults
  }

  /**
   * A card's `data-price` after `updatePlanPricesUI`: the settings price
   * when the map has the plan (a stored `null` reads back as NaN), except
   * on the free-trial card, which keeps its own price `htmlPrice`.
   */
  function CardPrice(s: Settings, plan: string, htmlPrice: Option<int>): (p: Option<int>)
    ensures plan == FreeTrial ==> p == htmlPrice
    ensures plan != FreeTrial && s.prices.Some? && plan in s.prices.value ==> p == s.prices.value[plan]
    ensures (s.prices.None? || plan !in s.prices.value) ==> p == htmlPrice
  {
    if plan != FreeTrial && s.prices.Some? && plan in s.prices.value then s.prices.value[plan] else htmlPrice
  }

  /** The debit a paid activation logs. */
  function SubscriptionEntry(plan: string, price: int, txnId: string, now: int): (e: Entry)
    ensures e.kind == Debit && e.amount == price && e.txnId == txnId && e.date == now
  {
    Entry(now, Debit, price, txnId, "Subscription: " + plan)
  }

  /** The user with the free trial marked as taken. */
  function WithTrialTaken(u: User): (r: User)
    ensures r.hasTakenFreeTrial && r.username == u.username
  {
    u.(hasTakenFreeTrial := true)
  }

  datatype SelectOutcome = TrialUsed | InvalidPrice | Declined | ToWallet | Activated

  /**
   * `activateSubscription`: writes the subscription record, logs a debit
   * only for a positive price, and for the free trial marks the session
   * user, and the same user in the list, as having taken it.
   */
  method Activate(st: Store, plan: string, price: int, txnId: string, now: int)
    modifies st`subscription, st`histories, st`session, st`users
    ensures st.subscription == Some(Subscription(plan, Amount(price), txnId, now, ExpiryOf(plan, now)))
    ensures price > 0 ==>
      st.histories == old(st.histories)[GlobalHistoryKey := old(st.HistoryAt(GlobalHistoryKey)) + [SubscriptionEntry(plan, price, txnId, now)]]
    ensures price <= 0 ==> st.histories == old(st.histories)
    ensures plan == FreeTrial && old(st.session).Some? ==>
      st.session == Some(WithTrialTaken(old(st.session).value)) &&
      st.users == (match UserIndex(old(st.users), old(st.session).value.username)
                   case None => old(st.users)
                   case Some(i) => old(st.users)[i := WithTrialTaken(old(st.session).value)])
    ensures !(plan == FreeTrial && old(st.session).Some?) ==> st.session == old(st.session) && st.users == old(st.users)
  {
    st.subscription := Some(Subscription(plan, Amount(price), txnId, now, ExpiryOf(plan, now)));
    if price > 0 {
      st.histories := st.histories[GlobalHistoryKey := st.HistoryAt(GlobalHistoryKey) + [SubscriptionEntry(plan, price, txnId, now)]];
    }
    if plan == FreeTrial && st.session.Some? {
      var user := WithTrialTaken(st.session.value);
      st.session := Some(user);
      st.UpdateMainUserList(user);
    }
  }

  /**
   * A plan card's select button. A zero price after the trial was taken
   * and a NaN price are refused; a zero price activates at once; any
   * other price needs the wallet to cover it and a confirmation, and is
   * then debited before activation; short of funds, the page goes to the
   * wallet. Every path but activation writes nothing.
   */
  method Select(st: Store, plan: string, price: Option<int>, confirmed: bool, now: nat) returns (r: SelectOutcome)
    modifies st`balances, st`subscription, st`histories, st`session, st`users
    ensures r == TrialUsed <==>
      price == Some(0) && old(st.session).Some? && old(st.session).value.hasTakenFreeTrial
    ensures r == InvalidPrice <==> price.None?
    ensures r == ToWallet <==> price.Some? && price.value != 0 && old(st.BalanceAt(GlobalBalanceKey)) < price.value
    ensures r == Declined <==> price.Some? && price.value != 0 && old(st.BalanceAt(GlobalBalanceKey)) >= price.value && !confirmed
    ensures r != Activated ==> unchanged(st)
    ensures r == Activated ==>
      st.subscription == Some(Subscription(plan, Amount(price.value), if price.value == 0 then "FREE_TRIAL" else "WALLET_PAY_" + NatText(now), now, ExpiryOf(plan, now)))
    ensures r == Activated && price.value == 0 ==> st.balances == old(st.balances) && st.histories == old(st.histories)
    ensures r == Activated && price.value != 0 ==>
      st.balances == old(st.balances)[GlobalBalanceKey := old(st.BalanceAt(GlobalBalanceKey)) - price.value]
    ensures r == Activated && price.value > 0 ==>
      st.histories == old(st.histories)[GlobalHistoryKey := old(st.HistoryAt(GlobalHistoryKey)) + [SubscriptionEntry(plan, price.value, "WALLET_PAY_" + NatText(now), now)]]
    ensures r == Activated && price.value < 0 ==> st.histories == old(st.histories)
    ensures r == Activated && plan == FreeTrial && old(st.session).Some? ==>
      st.session == Some(WithTrialTaken(old(st.session).value)) &&
      st.users == (match UserIndex(old(st.users), old(st.session).value.username)
                   case None => old(st.users)
                   case Some(i) => old(st.users)[i := WithTrialTaken(old(st.session).value)])
    ensures !(r == Activated && plan == FreeTrial && old(st.session).Some?) ==>
      st.session == old(st.session) && st.users == old(st.users)
  {
    if price == Some(0) && st.session.Some? && st.session.value.hasTakenFreeTrial {
      return TrialUsed;
    }
    if price.None? {
      return InvalidPrice;
    }
    if price.value == 0 {
      Activate(st, plan, 0, "FREE_TRIAL", now);
      return Activated;
    }
    var balance := st.BalanceAt(GlobalBalanceKey);
    if balance < price.value {
      return ToWallet;
    }
    if !confirmed {
      return Declined;
    }
    st.balances := st.balances[GlobalBalanceKey := balance - price.value];
    Activate(st, plan, price.value, "WALLET_PAY_" + NatText(now), now);
    r := Activated;
  }

  /**
   * Taking the free trial marks the session user, so the next zero-price
   * selection, of any plan, is refused.
   */
  method TrialOnlyOnce(st: Store, plan: string, now: nat, later: nat) returns (first: SelectOutcome, second: SelectOutcome)
    requires st.session.Some?
    modifies st`balances, st`subscription, st`histories, st`session, st`users
    ensures first == (if old(st.session).value.hasTakenFreeTrial then TrialUsed else Activated)
    ensures second == TrialUsed
  {
    first := Select(st, FreeTrial, Some(0), true, now);
    second := Select(st, plan, Some(0), true, later);
  }
}
