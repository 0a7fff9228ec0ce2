/**
 * The creator's open Lifafas (unclaimed_lifafa.js): the list of the
 * session user's records that still have room, their unclaimed value,
 * refunding all of them or one, and the special-user lookup. The refund
 * handlers read the amounts back from the text the page displayed.
 */
module Unclaimed {
  import opened Common
  import opened Store
  import MakeLifafa

  /** A record of `u` that can still be claimed. */
  predicate IsOpenOf(l: Lifafa, u: string)
  {
    l.creator == u && |l.claims| < l.count
  }

  /** `getActiveUserLifafas`: the open records of `u`, in stored order. */
  function Active(ls: seq<Lifafa>, u: string): (r: seq<Lifafa>)
    ensures forall l :: l in r <==> l in ls && IsOpenOf(l, u)
  {
    if ls == [] then []
    else (if IsOpenOf(ls[0], u) then [ls[0]] else []) + Active(ls[1..], u)
  }

  /** The list the bulk refund saves: every record except the open ones of `u`. */
  function RemoveOpen(ls: seq<Lifafa>, u: string): (r: seq<Lifafa>)
    ensures |r| <= |ls|
    ensures forall l :: l in r <==> l in ls && !IsOpenOf(l, u)
  {
    if ls == [] then []
    else (if IsOpenOf(ls[0], u) then [] else [ls[0]]) + RemoveOpen(ls[1..], u)
  }

  /** The list the single refund saves: every record whose id differs. */
  function RemoveId(ls: seq<Lifafa>, id: string): (r: seq<Lifafa>)
    ensures |r| <= |ls|
  {
    if ls == [] then []
    else (if ls[0].id == id then [] else [ls[0]]) + RemoveId(ls[1..], id)
  }

  /**
   * The three lists are `filter`s of the stored list: each keeps exactly
   * the records passing its test, in stored order and as often as they
   * occur.
   */
  lemma {:induction false} RefundListsAreFilters(ls: seq<Lifafa>, u: string, id: string)
    ensures Active(ls, u) == Filter(ls, l => IsOpenOf(l, u))
    ensures RemoveOpen(ls, u) == Filter(ls, l => !IsOpenOf(l, u))
    ensures RemoveId(ls, id) == Filter(ls, (l: Lifafa) => l.id != id)
  {
    if ls != [] {
      RefundListsAreFilters(ls[1..], u, id);
    }
  }

  /** The unclaimed value of a record. */
  function Remaining(l: Lifafa): int
  {
    (l.count - |l.claims|) * l.perClaim
  }

  /** `totalUnclaimed` after the render loop has added the first records. */
  function TotalRemaining(ls: seq<Lifafa>): int
  {
    if ls == [] then 0 else TotalRemaining(ls[..|ls| - 1]) + Remaining(ls[|ls| - 1])
  }

  /** One more record added by the render loop. */
  lemma PrefixStep(ls: seq<Lifafa>, k: nat)
    requires k < |ls|
    ensures TotalRemaining(ls[..k + 1]) == TotalRemaining(ls[..k]) + Remaining(ls[k])
    ensures Buttons(ls[..k + 1]) == Buttons(ls[..k]) + [ButtonOf(ls[k])]
  {
    assert ls[..k + 1][..k] == ls[..k];
  }

  /** The open records and the records the bulk refund keeps split the list. */
  lemma {:induction false} ActivePartition(ls: seq<Lifafa>, u: string)
    ensures multiset(Active(ls, u)) + multiset(RemoveOpen(ls, u)) == multiset(ls)
    ensures |Active(ls, u)| + |RemoveOpen(ls, u)| == |ls|
  {
    if ls != [] {
      ActivePartition(ls[1..], u);
      assert ls == [ls[0]] + ls[1..];
    }
  }

  /** After a bulk refund the user has no open record left, so nothing more is owed. */
  lemma {:induction false} NothingOpenAfterRefund(ls: seq<Lifafa>, u: string)
    ensures Active(RemoveOpen(ls, u), u) == []
    ensures TotalRemaining(Active(RemoveOpen(ls, u), u)) == 0
  {
    if ls != [] {
      NothingOpenAfterRefund(ls[1..], u);
      var head := if IsOpenOf(ls[0], u) then [] else [ls[0]];
      assert RemoveOpen(ls, u) == head + RemoveOpen(ls[1..], u);
      ActiveOfConcat(head, RemoveOpen(ls[1..], u), u);
    }
  }

  lemma {:induction false} ActiveOfConcat(a: seq<Lifafa>, b: seq<Lifafa>, u: string)
    ensures Active(a + b, u) == Active(a, u) + Active(b, u)
    decreases |a|
  {
    if a != [] {
      ActiveOfConcat(a[1..], b, u);
      assert (a + b)[1..] == a[1..] + b;
    } else {
      assert a + b == b;
    }
  }

  /** An untouched record gives back exactly what its creation debited. */
  lemma UnclaimedRefundReturnsCost(f: MakeLifafa.LifafaForm, balance: int, sender: string,
                                   id: string, now: nat, channels: seq<string>)
    requires MakeLifafa.Validate(f, balance).None?
    ensures Remaining(MakeLifafa.NewRecord(f, sender, id, now, channels)) == MakeLifafa.Total(f)
    ensures IsOpenOf(MakeLifafa.NewRecord(f, sender, id, now, channels), sender)
  {
    var l := MakeLifafa.NewRecord(f, sender, id, now, channels);
    assert |l.claims| == 0 && l.count == f.count.value && l.perClaim == f.perClaim.value;
  }

  /** `₹${total.toFixed(2)}` */
  function TotalText(total: int): string
  {
    "₹" + Fixed2(total)
  }

  /** The texts shown for an empty list are those of a zero total and a zero count. */
  lemma EmptyDisplay()
    ensures TotalText(0) == "₹0.00" && NatText(0) == "0"
  {
    assert Fixed2(0) == "0.00";
  }

  /**
   * The displayed total, the displayed count and a button's `data-amount`
   * (`toFixed(2)`) are read back by `parseFloat` / `parseInt` as the
   * numbers behind them.
   */
  lemma DisplayReadsBack(total: int, count: nat)
    ensures ParseAmount(DropFirst(TotalText(total), '₹')) == Some(total)
    ensures ParseInteger(NatText(count)) == Some(count)
    ensures ParseAmount(Fixed2(total)) == Some(total)
  {
    assert TotalText(total)[1..] == Fixed2(total);
    AmountOfFixed2(total);
    IntegerOfNatText(count);
  }

  /** The credit logged by a bulk refund. */
  function BulkRefundEntry(total: int, count: nat, now: nat): (e: Entry)
    ensures e.kind == Credit && e.amount == total && e.date == now
  {
    Entry(now, Credit, total, "REFUND_BULK_" + NatText(now), "Bulk refund for " + NatText(count) + " unclaimed Lifafas")
  }

  /** The credit logged by a single refund. */
  function SingleRefundEntry(id: string, amount: int, now: nat): (e: Entry)
    ensures e.kind == Credit && e.amount == amount && e.date == now
  {
    Entry(now, Credit, amount, "REFUND_SINGLE_" + id, "Single Lifafa refund (ID: " + id + ")")
  }

  /** The records among `ls` that list `mobile` as a special user, in order. */
  function ListedFor(ls: seq<Lifafa>, mobile: string): (r: seq<Lifafa>)
    ensures r == Filter(ls, (l: Lifafa) => mobile in l.specialUsers)
    ensures forall l :: l in r <==> l in ls && mobile in l.specialUsers
  {
    if ls == [] then []
    else (if mobile in ls[0].specialUsers then [ls[0]] else []) + ListedFor(ls[1..], mobile)
  }

  /**
   * The special-user check: the trimmed input must be ten characters that
   * `isNaN` accepts as a number; then the open records listing it.
   */
  function SpecialCheck(ls: seq<Lifafa>, u: string, input: string): (r: Option<seq<Lifafa>>)
    ensures r.None? <==> |Trim(input)| != 10 || !NumberLike(Trim(input))
    ensures r.Some? ==> forall l :: l in r.value <==> l in ls && IsOpenOf(l, u) && Trim(input) in l.specialUsers
  {
    var mobile := Trim(input);
    if |mobile| != 10 || !NumberLike(mobile) then None
    else Some(ListedFor(Active(ls, u), mobile))
  }

  /** A refund button: the record's id and its unclaimed value (`data-id`, `data-amount`). */
  datatype RefundButton = RefundButton(id: string, amount: int)

  function ButtonOf(l: Lifafa): RefundButton
  {
    RefundButton(l.id, Remaining(l))
  }

  /** The buttons of the rendered records, one per record in order. */
  function Buttons(ls: seq<Lifafa>): seq<RefundButton>
  {
    if ls == [] then [] else Buttons(ls[..|ls| - 1]) + [ButtonOf(ls[|ls| - 1])]
  }

  /** The `k`-th button belongs to the `k`-th rendered record. */
  lemma {:induction false} ButtonAt(ls: seq<Lifafa>, k: nat)
    requires k < |ls|
    ensures |Buttons(ls)| == |ls| && Buttons(ls)[k] == ButtonOf(ls[k])
    decreases |ls|
  {
    if k < |ls| - 1 {
      ButtonAt(ls[..|ls| - 1], k);
    } else {
      ButtonsLength(ls[..|ls| - 1]);
    }
  }

  lemma {:induction false} ButtonsLength(ls: seq<Lifafa>)
    ensures |Buttons(ls)| == |ls|
    decreases |ls|
  {
    if ls != [] {
      ButtonsLength(ls[..|ls| - 1]);
    }
  }

  /** The writes of a refund: the amount credited, the new Lifafa list, one credit logged. */
  method Refund(st: Store, amount: int, remaining: seq<Lifafa>, e: Entry)
    modifies st`balances, st`lifafas, st`histories
    ensures st.balances == old(st.balances)[GlobalBalanceKey := old(st.BalanceAt(GlobalBalanceKey)) + amount]
    ensures st.lifafas == remaining
    ensures st.histories == old(st.histories)[GlobalHistoryKey := old(st.HistoryAt(GlobalHistoryKey)) + [e]]
  {
    st.balances := st.balances[GlobalBalanceKey := st.BalanceAt(GlobalBalanceKey) + amount];
    st.lifafas := remaining;
    st.histories := st.histories[GlobalHistoryKey := st.HistoryAt(GlobalHistoryKey) + [e]];
  }

  /**
   * The page: the total and count of the last render, its buttons and the
   * list the buttons captured. The handlers read the total, the count and
   * a button's amount back from their displayed text; `DisplayReadsBack`
   * shows that this gives the numbers held here.
   */
  class UnclaimedPage {
    var sender: string
    var shownTotal: int
    var shownCount: nat
    var refundAllEnabled: bool
    var buttons: seq<RefundButton>
    var snapshot: seq<Lifafa>
    ghost var shownActive: seq<Lifafa>

    /** `totalUnclaimedAmount` */
    function TotalLine(): string
      reads this`shownTotal
    {
      TotalText(shownTotal)
    }

    /** `totalActiveCount` */
    function CountLine(): string
      reads this`shownCount
    {
      NatText(shownCount)
    }

    /** What the page displays is the open list it rendered. */
    ghost predicate Valid()
      reads this
    {
      shownTotal == TotalRemaining(shownActive) &&
      shownCount == |shownActive| &&
      refundAllEnabled == (shownActive != []) &&
      buttons == Buttons(shownActive)
    }

    constructor (st: Store)
      ensures Valid()
      ensures sender == SessionName(st.session, "")
      ensures shownActive == Active(st.lifafas, sender)
    {
      sender := SessionName(st.session, "");
      shownTotal := 0;
      shownCount := 0;
      refundAllEnabled := false;
      buttons := [];
      snapshot := [];
      shownActive := [];
      new;
      Render(st);
    }

    /**
     * `renderLifafaList`: the open records are shown with their unclaimed
     * values, summed in a loop; the buttons capture the whole stored list.
     * An empty list shows "0" and "₹0.00" and disables refund-all.
     */
    method Render(st: Store)
      modifies this`shownTotal, this`shownCount, this`refundAllEnabled, this`buttons,
               this`snapshot, this`shownActive
      ensures Valid()
      ensures shownActive == Active(st.lifafas, sender)
      ensures shownActive != [] ==> snapshot == st.lifafas
      ensures shownActive == [] ==> snapshot == old(snapshot)
    {
      var active := Active(st.lifafas, sender);
      var total := 0;
      var bs: seq<RefundButton> := [];
      var k := 0;
      while k < |active|
        invariant 0 <= k <= |active|
        invariant total == TotalRemaining(active[..k])
        invariant bs == Buttons(active[..k])
        invariant snapshot == old(snapshot)
      {
        PrefixStep(active, k);
        total := total + Remaining(active[k]);
        bs := bs + [ButtonOf(active[k])];
        k := k + 1;
      }
      assert active[..k] == active;
      shownActive := active;
      shownCount := |active|;
      shownTotal := total;
      refundAllEnabled := active != [];
      buttons := bs;
      if active != [] {
        snapshot := st.lifafas;
      }
    }

    /**
     * Refund all: a zero total or count is refused. On confirmation the
     * total is credited, the user's open records are dropped from the
     * stored list, one credit is logged and the page is rendered again.
     */
    method RefundAll(st: Store, confirmed: bool, now: nat) returns (refunded: bool)
      requires Valid()
      modifies st`balances, st`lifafas, st`histories,
               this`shownTotal, this`shownCount, this`refundAllEnabled, this`buttons,
               this`snapshot, this`shownActive
      ensures Valid()
      ensures refunded <==> old(refundAllEnabled) && confirmed && old(shownTotal) != 0
      ensures !refunded ==> unchanged(st)
      ensures refunded ==>
        st.balances == old(st.balances)[GlobalBalanceKey := old(st.BalanceAt(GlobalBalanceKey)) + old(shownTotal)] &&
        st.lifafas == RemoveOpen(old(st.lifafas), sender) &&
        st.histories == old(st.histories)[GlobalHistoryKey := old(st.HistoryAt(GlobalHistoryKey)) +
          [BulkRefundEntry(old(shownTotal), old(shownCount), now)]] &&
        shownActive == [] && !refundAllEnabled
    {
      refunded := false;
      if !refundAllEnabled || shownTotal == 0 || shownCount == 0 || !confirmed {
        return;
      }
      Refund(st, shownTotal, RemoveOpen(st.lifafas, sender), BulkRefundEntry(shownTotal, shownCount, now));
      refunded := true;
      NothingOpenAfterRefund(old(st.lifafas), sender);
      Render(st);
    }

    /**
     * A refund button: on confirmation its amount is credited, every
     * record with its id is dropped from the list captured at the last
     * render, one credit is logged and the page is rendered again.
     */
    method RefundSingle(st: Store, k: nat, confirmed: bool, now: nat)
      requires Valid()
      requires k < |shownActive|
      modifies st`balances, st`lifafas, st`histories,
               this`shownTotal, this`shownCount, this`refundAllEnabled, this`buttons,
               this`snapshot, this`shownActive
      ensures Valid()
      ensures !confirmed ==> unchanged(st) && unchanged(this)
      ensures confirmed ==>
        var l := old(shownActive[k]);
        st.balances == old(st.balances)[GlobalBalanceKey := old(st.BalanceAt(GlobalBalanceKey)) + Remaining(l)] &&
        st.lifafas == RemoveId(old(snapshot), l.id) &&
        st.histories == old(st.histories)[GlobalHistoryKey := old(st.HistoryAt(GlobalHistoryKey)) +
          [SingleRefundEntry(l.id, Remaining(l), now)]] &&
        shownActive == Active(st.lifafas, sender) &&
        (shownActive != [] ==> snapshot == st.lifafas) &&
        (shownActive == [] ==> snapshot == old(snapshot))
    {
      if !confirmed {
        return;
      }
      ButtonAt(shownActive, k);
      var b := buttons[k];
      assert b.id == shownActive[k].id && b.amount == Remaining(shownActive[k]);
      var kept := RemoveId(snapshot, b.id);
      Refund(st, b.amount, kept, SingleRefundEntry(b.id, b.amount, now));
      Render(st);
    }
  }
}
