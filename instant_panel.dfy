/**
 * The instant service panel (instant_panel.js): an order of some units
 * for a target is charged at the unit price from the global settings,
 * debited from the wallet and logged, provided the wallet covers it.
 */
module InstantPanel {
  import opened Common
  import opened Store

  /** `DEFAULT_SERVICE_PRICE`, ₹5.00, in paise. */
  const DefaultUnitPrice := 500

  /**
   * `settings.instantPanelPrice || DEFAULT_SERVICE_PRICE`: the stored
   * price, unless it is missing or zero.
   */
  function UnitPrice(stored: Option<Settings>): (p: int)
    ensures p != 0
    ensures stored.Some? && stored.value.instantPanelPrice.Some? && stored.value.instantPanelPrice.value != 0 ==>
      p == stored.value.instantPanelPrice.value
    ensures p != DefaultUnitPrice ==> stored.Some? && stored.value.instantPanelPrice == Some(p)
  {
    if stored.Some? && stored.value.instantPanelPrice.Some? && stored.value.instantPanelPrice.value != 0
    then stored.value.instantPanelPrice.value
    else DefaultUnitPrice
  }

  /** The running total under the form: `(parseInt(q) || 0) * PRICE_PER_UNIT`. */
  function Estimate(quantityInput: string, unit: int): int
  {
    match ParseInteger(quantityInput)
    case None => 0
    case Some(q) => q * unit
  }

  datatype OrderOutcome =
    | InvalidOrder                  // blank target, or a quantity below one or not a number
    | Insufficient(cost: int)       // the wallet does not cover the cost
    | Ordered(cost: int)

  /** The submit checks on the trimmed target and the parsed quantity. */
  function OrderCheck(target: string, quantity: Option<int>, unit: int, balance: int): (r: OrderOutcome)
    ensures r == InvalidOrder <==> target == [] || quantity.None? || quantity.value < 1
    ensures r.Insufficient? <==> target != [] && quantity.Some? && quantity.value >= 1 && balance < quantity.value * unit
    ensures !r.InvalidOrder? ==> r.cost == quantity.value * unit
    ensures r.Ordered? ==> r.cost <= balance
  {
    if target == [] || quantity.None? || quantity.value < 1 then InvalidOrder
    else if balance < quantity.value * unit then Insufficient(quantity.value * unit)
    else Ordered(quantity.value * unit)
  }

  /** The debit an order logs. */
  function ServiceEntry(quantity: int, target: string, cost: int, now: nat): (e: Entry)
    ensures e.kind == Debit && e.amount == cost && e.date == now
  {
    Entry(now, Debit, cost, "SERVICE_TXN_" + NatText(now),
          "Instant Panel Service: " + IntText(quantity) + " units for " + target)
  }

  /**
   * An order on the trimmed target and the parsed quantity: refused with
   * no write, or the cost is debited and one debit of that cost logged.
   */
  method Order(st: Store, target: string, quantity: Option<int>, now: nat) returns (r: OrderOutcome)
    modifies st`balances, st`histories
    ensures r == OrderCheck(target, quantity, UnitPrice(st.settings), old(st.BalanceAt(GlobalBalanceKey)))
    ensures !r.Ordered? ==> unchanged(st)
    ensures r.Ordered? ==>
      st.balances == old(st.balances)[GlobalBalanceKey := old(st.BalanceAt(GlobalBalanceKey)) - r.cost] &&
      st.histories == old(st.histories)[GlobalHistoryKey := old(st.HistoryAt(GlobalHistoryKey)) + [ServiceEntry(quantity.value, target, r.cost, now)]]
  {
    var balance := st.BalanceAt(GlobalBalanceKey);
    var history := st.HistoryAt(GlobalHistoryKey);
    r := OrderCheck(target, quantity, UnitPrice(st.settings), balance);
    if r.Ordered? {
      st.balances := st.balances[GlobalBalanceKey := balance - r.cost];
      st.histories := st.histories[GlobalHistoryKey := history + [ServiceEntry(quantity.value, target, r.cost, now)]];
    }
  }

  /** The service form's submit: `target.trim()` and `parseInt(quantity)`. */
  method Submit(st: Store, targetInput: string, quantityInput: string, now: nat) returns (r: OrderOutcome)
    modifies st`balances, st`histories
    ensures r == OrderCheck(Trim(targetInput), ParseInteger(quantityInput), UnitPrice(st.settings), old(st.BalanceAt(GlobalBalanceKey)))
    ensures !r.Ordered? ==> unchanged(st)
    ensures r.Ordered? ==>
      st.balances == old(st.balances)[GlobalBalanceKey := old(st.BalanceAt(GlobalBalanceKey)) - r.cost] &&
      st.histories == old(st.histories)[GlobalHistoryKey := old(st.HistoryAt(GlobalHistoryKey)) +
        [ServiceEntry(ParseInteger(quantityInput).value, Trim(targetInput), r.cost, now)]]
  {
    r := Order(st, Trim(targetInput), ParseInteger(quantityInput), now);
  }

  /** What an accepted order is charged is the estimate shown for the same quantity. */
  lemma ChargeIsEstimate(target: string, quantityInput: string, unit: int, balance: int)
    requires OrderCheck(target, ParseInteger(quantityInput), unit, balance).Ordered?
    ensures OrderCheck(target, ParseInteger(quantityInput), unit, balance).cost == Estimate(quantityInput, unit)
  {
  }

  /** A `0x` quantity is read in base 16 by both the estimate and the order, so `0x10` units are sixteen. */
  lemma HexQuantityEstimate(target: string, h: string, unit: int, balance: int)
    requires |h| > 0 && AllOf(h, 16)
    ensures Estimate("0x" + h, unit) == RadixValue(h, 16) * unit
    ensures target != [] && RadixValue(h, 16) >= 1 && RadixValue(h, 16) * unit <= balance ==>
      OrderCheck(target, ParseInteger("0x" + h), unit, balance) == Ordered(RadixValue(h, 16) * unit)
  {
    IntegerOfHex(h);
  }

  /**
   * With a positive unit price an accepted order costs at least one unit
   * and leaves a wallet that started at zero or more at zero or more.
   */
  lemma OrderCharges(target: string, quantity: Option<int>, unit: int, balance: int)
    requires unit > 0
    requires OrderCheck(target, quantity, unit, balance).Ordered?
    ensures var cost := OrderCheck(target, quantity, unit, balance).cost;
      unit <= cost <= balance && balance - cost >= 0
  {
    var q := quantity.value;
    assert q * unit == unit + (q - 1) * unit;
    assert (q - 1) * unit >= 0;
  }
}
