/**
 * The payment page (purchase.js): its query string names a plan, a price
 * and where to go afterwards. After a transaction id is entered, a
 * `Deposit` credits the wallet and any other plan becomes the stored
 * subscription.
 */
module Purchase {
  import opened Common
  import opened Store
  import opened Plans

  // ------------------------------------------------------------------
  // The query string
  // ------------------------------------------------------------------

  /** `const [k, v] = pair.split('=')`: `k` is the text before the first `=`. */
  function PairKey(pair: string): (k: string)
    ensures '=' !in k
  {
    Split(pair, '=')[0]
  }

  /** `v || ''`: the text between the first and the second `=`, if there is a first. */
  function PairValue(pair: string): (v: string)
    ensures '=' !in v
  {
    var parts := Split(pair, '=');
    if |parts| >= 2 then parts[1] else []
  }

  /**
   * The parameters read from the `&`-separated pairs, in order: empty
   * pairs are skipped and a later key overwrites an earlier one.
   */
  function ParamsOf(pairs: seq<string>): map<string, string>
  {
    if pairs == [] then map[]
    else
      var before := ParamsOf(pairs[..|pairs| - 1]);
      var pair := pairs[|pairs| - 1];
      if pair == [] then before else before[PairKey(pair) := PairValue(pair)]
  }

  /** `location.search.slice(1)`: the query without its leading `?`. */
  function QueryOf(search: string): string
  {
    if search == [] then [] else search[1..]
  }

  /** The page's `forEach` over the pairs of the query. */
  method ParseQuery(search: string) returns (params: map<string, string>)
    ensures params == ParamsOf(Split(QueryOf(search), '&'))
  {
    var pairs := Split(QueryOf(search), '&');
    params := map[];
    var i := 0;
    while i < |pairs|
      invariant 0 <= i <= |pairs|
      invariant params == ParamsOf(pairs[..i])
    {
      var pair := pairs[i];
      assert pairs[..i + 1][..i] == pairs[..i];
      if pair != [] {
        params := params[PairKey(pair) := PairValue(pair)];
      }
      i := i + 1;
    }
    assert pairs[..|pairs|] == pairs;
  }

  /** One `k=v` pair as a link writes it. */
  function PairText(kv: (string, string)): string
  {
    kv.0 + "=" + kv.1
  }

  function PairsText(kvs: seq<(string, string)>): (r: seq<string>)
    ensures |r| == |kvs|
    ensures forall k :: 0 <= k < |kvs| ==> r[k] == PairText(kvs[k])
  {
    if kvs == [] then [] else PairsText(kvs[..|kvs| - 1]) + [PairText(kvs[|kvs| - 1])]
  }

  /** The parameters a list of pairs means: later keys win. */
  function MapOf(kvs: seq<(string, string)>): map<string, string>
  {
    if kvs == [] then map[] else MapOf(kvs[..|kvs| - 1])[kvs[|kvs| - 1].0 := kvs[|kvs| - 1].1]
  }

  /** Neither separator of a query occurs in the text. */
  predicate Plain(s: string)
  {
    '&' !in s && '=' !in s
  }

  /** A written pair reads back as its own key and value. */
  lemma PairOfText(k: string, v: string)
    requires Plain(k) && Plain(v)
    ensures PairKey(PairText((k, v))) == k && PairValue(PairText((k, v))) == v
  {
    SplitOfPiece(k, '=', v);
    SplitOfPiece(v, '=', []);
  }

  /** Reading the written pairs back gives the parameters they mean. */
  lemma {:induction false} ParamsOfPairsText(kvs: seq<(string, string)>)
    requires forall k :: 0 <= k < |kvs| ==> Plain(kvs[k].0) && Plain(kvs[k].1)
    ensures ParamsOf(PairsText(kvs)) == MapOf(kvs)
  {
    if kvs != [] {
      var n := |kvs| - 1;
      assert PairsText(kvs)[..n] == PairsText(kvs[..n]);
      ParamsOfPairsText(kvs[..n]);
      PairOfText(kvs[n].0, kvs[n].1);
    }
  }

  /** An empty query has no parameters. */
  lemma EmptyQuery()
    ensures ParamsOf(Split([], '&')) == map[]
  {
    var pieces := Split([], '&');
    assert pieces[..0] == [];
  }

  /** A pair written from plain text has no `&`. */
  lemma PairTextPlain(kv: (string, string))
    requires Plain(kv.0) && Plain(kv.1)
    ensures '&' !in PairText(kv)
  {
  }

  /** The query a link builds from pairs parses back to the parameters those pairs mean. */
  lemma QueryRoundTrip(kvs: seq<(string, string)>)
    requires forall k :: 0 <= k < |kvs| ==> Plain(kvs[k].0) && Plain(kvs[k].1)
    ensures ParamsOf(Split(Join(PairsText(kvs), '&'), '&')) == MapOf(kvs)
  {
    if kvs == [] {
      EmptyQuery();
    } else {
      var ps := PairsText(kvs);
      forall k | 0 <= k < |ps|
        ensures '&' !in ps[k]
      {
        PairTextPlain(kvs[k]);
      }
      SplitOfJoin(ps, '&');
      ParamsOfPairsText(kvs);
    }
  }

  /** `params[name] || fallback` */
  function ParamOr(params: map<string, string>, name: string, fallback: string): (v: string)
    ensures v != [] || fallback == []
    ensures name in params && params[name] != [] ==> v == params[name]
    ensures name !in params || params[name] == [] ==> v == fallback
  {
    if name in params && params[name] != [] then params[name] else fallback
  }

  // ------------------------------------------------------------------
  // The settings and the UPI link
  // ------------------------------------------------------------------

  const DefaultUpiId := "bharat-dass@ibl"

  /** The page's defaults: the UPI id and the plan prices in paise. */
  const Defaults := Plans.Defaults.(upiId := Some(DefaultUpiId))

  /** `loadSettings().upiId`: the stored id, or the default one. */
  function UpiId(stored: Option<Settings>): (id: string)
    ensures stored.Some? && stored.value.upiId.Some? ==> id == stored.value.upiId.value
    ensures stored.None? || stored.value.upiId.None? ==> id == DefaultUpiId
  {
    var s := if stored.Some? then Overlay(Defaults, stored.value) else Defaults;
    s.upiId.value
  }

  /** The payment parameters the QR code carries. */
  function UpiPairs(upiId: string, price: string): seq<(string, string)>
  {
    [("pa", upiId), ("pn", "NextEarnX"), ("am", price), ("cu", "INR")]
  }

  /** `upi://pay?pa=…&pn=NextEarnX&am=…&cu=INR` */
  function UpiUrl(upiId: string, price: string): string
  {
    "upi://pay?" + Join(PairsText(UpiPairs(upiId, price)), '&')
  }

  /** The QR code's link pays the page's price, in rupees, to the settings' UPI id. */
  lemma UpiUrlCarriesPayment(upiId: string, price: string)
    requires Plain(upiId) && Plain(price)
    ensures var url := UpiUrl(upiId, price);
      ParamsOf(Split(url[|"upi://pay?"|..], '&')) ==
        map["pa" := upiId, "pn" := "NextEarnX", "am" := price, "cu" := "INR"]
  {
    var kvs := UpiPairs(upiId, price);
    var query := Join(PairsText(kvs), '&');
    assert UpiUrl(upiId, price)[|"upi://pay?"|..] == query;
    assert Plain("pa") && Plain("pn") && Plain("NextEarnX") && Plain("am") && Plain("cu") && Plain("INR");
    QueryRoundTrip(kvs);
    assert MapOf(kvs[..1]) == map["pa" := upiId] by { assert kvs[..1][..0] == []; }
    assert MapOf(kvs[..2]) == map["pa" := upiId, "pn" := "NextEarnX"] by { assert kvs[..2][..1] == kvs[..1]; }
    assert MapOf(kvs[..3]) == map["pa" := upiId, "pn" := "NextEarnX", "am" := price] by { assert kvs[..3][..2] == kvs[..2]; }
  }

  // ------------------------------------------------------------------
  // Confirming the payment
  // ------------------------------------------------------------------

  /** `/^[a-zA-Z0-9]{8,}$/` */
  predicate TxnIdOk(t: string)
  {
    |t| >= 8 && forall i :: 0 <= i < |t| ==> IsAsciiAlnum(t[i])
  }

  const DepositNote := "Wallet Deposit via UPI"

  /** The credit a deposit logs. */
  function DepositEntry(amount: int, txnId: string, now: int): (e: Entry)
    ensures e.kind == Credit && e.amount == amount && e.txnId == txnId && e.date == now && e.note == DepositNote
  {
    Entry(now, Credit, amount, txnId, DepositNote)
  }

  /** A deposit: the amount is added to the wallet and one credit is logged. */
  method Deposit(st: Store, amount: int, txnId: string, now: int)
    modifies st`balances, st`histories
    ensures st.balances == old(st.balances)[GlobalBalanceKey := old(st.BalanceAt(GlobalBalanceKey)) + amount]
    ensures st.histories == old(st.histories)[GlobalHistoryKey := old(st.HistoryAt(GlobalHistoryKey)) + [DepositEntry(amount, txnId, now)]]
  {
    var balance := st.BalanceAt(GlobalBalanceKey);
    var history := st.HistoryAt(GlobalHistoryKey);
    st.balances := st.balances[GlobalBalanceKey := balance + amount];
    st.histories := st.histories[GlobalHistoryKey := history + [DepositEntry(amount, txnId, now)]];
  }

  datatype PurchaseOutcome =
    | EmptyTxn
    | InvalidTxn
    | UnreadablePrice            // a deposit whose price is not a number
    | Deposited                  // then to `wallet.html`
    | Subscribed(open: Option<string>)   // then to `index.html`, opening this feature

  /**
   * What the confirm button does with the trimmed transaction id `t`: it
   * must be present and eight or more letters and digits; then a
   * `Deposit` needs a readable price, and any other plan is a
   * subscription that goes on to reopen `redirect`.
   */
  function Verdict(t: string, plan: string, amount: Option<int>, redirect: Option<string>): (r: PurchaseOutcome)
    ensures r == EmptyTxn <==> t == []
    ensures r == InvalidTxn <==> t != [] && !TxnIdOk(t)
    ensures r == UnreadablePrice <==> TxnIdOk(t) && plan == "Deposit" && amount.None?
    ensures r == Deposited <==> TxnIdOk(t) && plan == "Deposit" && amount.Some?
    ensures r.Subscribed? <==> TxnIdOk(t) && plan != "Deposit"
    ensures r.Subscribed? ==> r.open == redirect
  {
    if t == [] then EmptyTxn
    else if !TxnIdOk(t) then InvalidTxn
    else if plan == "Deposit" then (if amount.None? then UnreadablePrice else Deposited)
    else Subscribed(redirect)
  }

  /** The page after reading its query: the plan, the price text and the feature to reopen. */
  class PurchasePage {
    const plan: string
    const price: string
    /** `parseFloat(price)`; the price never changes once the page is open. */
    const amount: Option<int>
    const redirect: Option<string>
    const upiUrl: string

    /**
     * `plan` defaults to `N/A` and `price` to `0` when missing or empty;
     * `redirect` is kept only when non-empty.
     */
    constructor (search: string, stored: Option<Settings>)
      ensures plan != [] && price != []
      ensures var params := ParamsOf(Split(QueryOf(search), '&'));
        plan == ParamOr(params, "plan", "N/A") && price == ParamOr(params, "price", "0") &&
        (redirect.Some? <==> "redirect" in params && params["redirect"] != []) &&
        (redirect.Some? ==> redirect.value == params["redirect"])
      ensures amount == ParseAmount(price)
      ensures upiUrl == UpiUrl(UpiId(stored), price)
    {
      var params := ParseQuery(search);
      plan := ParamOr(params, "plan", "N/A");
      price := ParamOr(params, "price", "0");
      amount := ParseAmount(ParamOr(params, "price", "0"));
      redirect := if "redirect" in params && params["redirect"] != [] then Some(params["redirect"]) else None;
      upiUrl := UpiUrl(UpiId(stored), ParamOr(params, "price", "0"));
    }

    /**
     * The confirm button on the trimmed transaction id `t`. A `Deposit` adds the price to the wallet and logs
     * one credit; any other plan is stored as the subscription, with the
     * price as text and the plan's length of days, and nothing else is
     * written. A refused id writes nothing.
     */
    method Settle(st: Store, t: string, now: int) returns (r: PurchaseOutcome)
      modifies st`balances, st`histories, st`subscription
      ensures r == Verdict(t, plan, amount, redirect)
      ensures !r.Deposited? && !r.Subscribed? ==> unchanged(st)
      ensures r == Deposited ==>
        st.balances == old(st.balances)[GlobalBalanceKey := old(st.BalanceAt(GlobalBalanceKey)) + amount.value] &&
        st.histories == old(st.histories)[GlobalHistoryKey := old(st.HistoryAt(GlobalHistoryKey)) + [DepositEntry(amount.value, t, now)]] &&
        st.subscription == old(st.subscription)
      ensures r.Subscribed? ==>
        st.subscription == Some(Subscription(plan, Text(price), t, now, ExpiryOf(plan, now))) &&
        st.balances == old(st.balances) && st.histories == old(st.histories)
    {
      r := Verdict(t, plan, amount, redirect);
      if r == Deposited {
        Deposit(st, amount.value, t, now);
        return;
      }
      if r.Subscribed? {
        st.subscription := Some(Subscription(plan, Text(price), t, now, ExpiryOf(plan, now)));
      }
    }

    /** The confirm button: the typed transaction id is trimmed first. */
    method Confirm(st: Store, txnInput: string, now: int) returns (r: PurchaseOutcome)
      modifies st`balances, st`histories, st`subscription
      ensures r == Verdict(Trim(txnInput), plan, amount, redirect)
      ensures !r.Deposited? && !r.Subscribed? ==> unchanged(st)
      ensures r == Deposited ==>
        st.balances == old(st.balances)[GlobalBalanceKey := old(st.BalanceAt(GlobalBalanceKey)) + amount.value] &&
        st.histories == old(st.histories)[GlobalHistoryKey := old(st.HistoryAt(GlobalHistoryKey)) + [DepositEntry(amount.value, Trim(txnInput), now)]] &&
        st.subscription == old(st.subscription)
      ensures r.Subscribed? ==>
        st.subscription == Some(Subscription(plan, Text(price), Trim(txnInput), now, ExpiryOf(plan, now))) &&
        st.balances == old(st.balances) && st.histories == old(st.histories)
    {
      r := Settle(st, Trim(txnInput), now);
    }
  }
}
