/**
 * The wallet page (wallet.js): the balance, the history newest first,
 * and the deposit form, which checks the amount against the minimum
 * deposit of the global settings and hands it to the payment page as
 * `purchase.html?plan=Deposit&price=<amount>&redirect=wallet`.
 */
module Wallet {
  import opened Common
  import opened Store
  import Purchase

  /** The page's defaults: `{ minDeposit: 60 }`, in paise. */
  const Defaults := NoSettings.(minDeposit := Set(6000))

  /**
   * `loadSettings().minDeposit` as the amount check uses it: the stored
   * minimum, or ₹60 when none is stored; a stored `null` compares as 0.
   */
  function MinDeposit(stored: Option<Settings>): (m: int)
    ensures stored.None? || stored.value.minDeposit == Unset ==> m == 6000
    ensures stored.Some? && stored.value.minDeposit == Null ==> m == 0
    ensures stored.Some? && stored.value.minDeposit.Set? ==> m == stored.value.minDeposit.value
  {
    var s := if stored.Some? then Overlay(Defaults, stored.value) else Defaults;
    if s.minDeposit.Set? then s.minDeposit.value else 0
  }

  // ------------------------------------------------------------------
  // The deposit link
  // ------------------------------------------------------------------

  /** The parameters the deposit link carries; `price` is `String(amount)`. */
  function DepositPairs(amount: int): seq<(string, string)>
  {
    [("plan", "Deposit"), ("price", NumText(amount)), ("redirect", "wallet")]
  }

  /** The `location.search` the payment page sees. */
  function DepositSearch(amount: int): string
  {
    "?" + Join(Purchase.PairsText(DepositPairs(amount)), '&')
  }

  /** `purchase.html?plan=Deposit&price=${amount}&redirect=wallet` */
  function DepositLink(amount: int): (link: string)
    ensures |link| > |"purchase.html"| && link[|"purchase.html"|..] == DepositSearch(amount)
  {
    "purchase.html" + DepositSearch(amount)
  }

  datatype DepositOutcome = BelowMinimum | ToPayment(link: string)

  /** The deposit form: a NaN or an amount under the minimum is refused, anything else goes to the payment page. */
  function DepositCheck(amount: Option<int>, minDeposit: int): (r: DepositOutcome)
    ensures r == BelowMinimum <==> amount.None? || amount.value < minDeposit
    ensures r.ToPayment? ==> r.link == DepositLink(amount.value)
  {
    if amount.None? || amount.value < minDeposit then BelowMinimum
    else ToPayment(DepositLink(amount.value))
  }

  /** The text of an amount holds neither `&` nor `=`. */
  lemma AmountTextPlain(amount: int)
    ensures Purchase.Plain(NumText(amount))
  {
    var t := NumText(amount);
    NumTextChars(amount);
    assert forall k :: 0 <= k < |t| ==> t[k] != '&' && t[k] != '=';
  }

  /** The payment page reads the deposit link's query back as exactly its three parameters. */
  lemma DepositSearchParams(amount: int)
    ensures Purchase.ParamsOf(Split(Purchase.QueryOf(DepositSearch(amount)), '&')) ==
      map["plan" := "Deposit", "price" := NumText(amount), "redirect" := "wallet"]
  {
    var kvs := DepositPairs(amount);
    var query := Join(Purchase.PairsText(kvs), '&');
    assert Purchase.QueryOf(DepositSearch(amount)) == query;
    AmountTextPlain(amount);
    assert Purchase.Plain("plan") && Purchase.Plain("Deposit") && Purchase.Plain("price");
    assert Purchase.Plain("redirect") && Purchase.Plain("wallet");
    Purchase.QueryRoundTrip(kvs);
    assert Purchase.MapOf(kvs[..1]) == map["plan" := "Deposit"] by { assert kvs[..1][..0] == []; }
    assert Purchase.MapOf(kvs[..2]) == map["plan" := "Deposit", "price" := NumText(amount)] by { assert kvs[..2][..1] == kvs[..1]; }
  }

  /** What the payment page makes of the deposit link's query: a `Deposit` of the amount's text, back to the wallet. */
  lemma DepositPageFields(amount: int)
    ensures var params := Purchase.ParamsOf(Split(Purchase.QueryOf(DepositSearch(amount)), '&'));
      Purchase.ParamOr(params, "plan", "N/A") == "Deposit" &&
      Purchase.ParamOr(params, "price", "0") == NumText(amount) &&
      "redirect" in params && params["redirect"] == "wallet"
  {
    var params := Purchase.ParamsOf(Split(Purchase.QueryOf(DepositSearch(amount)), '&'));
    DepositSearchParams(amount);
    assert "plan" in params && params["plan"] == "Deposit";
    assert "price" in params && params["price"] == NumText(amount);
    AmountOfNumText(amount);
  }

  /**
   * An accepted deposit comes back to the wallet as the same amount: once
   * a valid transaction id is entered on the payment page, the `Deposit`
   * it reads is settled and credits exactly `amount`.
   */
  lemma DepositReachesPayment(amount: Option<int>, minDeposit: int, t: string)
    requires DepositCheck(amount, minDeposit).ToPayment?
    requires Purchase.TxnIdOk(t)
    ensures Purchase.Verdict(t, "Deposit", ParseAmount(NumText(amount.value)), Some("wallet")) == Purchase.Deposited
    ensures ParseAmount(NumText(amount.value)) == Some(amount.value)
  {
    AmountOfNumText(amount.value);
  }

  // ------------------------------------------------------------------
  // The balance and the history
  // ------------------------------------------------------------------

  /** `₹ ${getBalance().toFixed(2)}` */
  function BalanceText(balance: int): string
  {
    "₹ " + Fixed2(balance)
  }

  /** The balance shown reads back as the stored balance. */
  lemma BalanceTextReadsBack(balance: int)
    ensures ParseAmount(BalanceText(balance)[2..]) == Some(balance)
  {
    assert BalanceText(balance)[2..] == Fixed2(balance);
    AmountOfFixed2(balance);
  }

  /** The head of a history line: `CREDIT: ₹`, `DEBIT: ₹` or `UNKNOWN: ₹`. */
  function LineHead(e: Entry): string
  {
    Upper(KindName(e.kind)) + ": ₹"
  }

  /** One history line: the kind in capitals and the amount with two decimals. */
  function TxLine(e: Entry): string
  {
    LineHead(e) + Fixed2(e.amount)
  }

  /** A history line shows the entry's amount. */
  lemma TxLineShowsAmount(e: Entry)
    ensures ParseAmount(TxLine(e)[|LineHead(e)|..]) == Some(e.amount)
  {
    assert TxLine(e)[|LineHead(e)|..] == Fixed2(e.amount);
    AmountOfFixed2(e.amount);
  }

  /** `updateHistoryUI`: the stored history reversed, one line per entry; no lines means the empty-history message. */
  method HistoryLines(st: Store) returns (lines: seq<string>)
    ensures |lines| == |st.HistoryAt(GlobalHistoryKey)|
    ensures var h := st.HistoryAt(GlobalHistoryKey);
      forall k :: 0 <= k < |h| ==> lines[k] == TxLine(h[|h| - 1 - k])
  {
    var shown := Reverse(st.HistoryAt(GlobalHistoryKey));
    lines := [];
    var i := 0;
    while i < |shown|
      invariant 0 <= i <= |shown|
      invariant |lines| == i
      invariant forall k :: 0 <= k < i ==> lines[k] == TxLine(shown[k])
    {
      lines := lines + [TxLine(shown[i])];
      i := i + 1;
    }
  }
}
