/**
 * Wallet-to-wallet transfers (pay_to_other.js). The recipient is looked
 * up by mobile number as it is typed; a transfer moves between ₹1 and
 * ₹100 from the session user's wallet to the recipient's, logs one debit
 * and one credit and adds to the sender's counter for the day, which may
 * not pass ₹100. The bulk form only debits the sender.
 */
module Transfer {
  import opened Common
  import opened Store

  /** ₹1 */
  const MinTransfer := 100
  /** ₹100, the largest single transfer and the daily total. */
  const MaxDailyTransfer := 10000

  datatype TransferError = NoRecipient | BelowMinimum | AboveMaximum | InsufficientFunds | DailyLimit

  datatype TransferOutcome = Rejected(reason: TransferError) | Declined | Sent

  datatype BulkError = NoNumbers | BulkBelowMinimum | BulkInsufficientFunds

  datatype BulkOutcome = BulkRejected(reason: BulkError) | BulkDeclined | BulkDebited(total: int)

  /** `${DAILY_LIMIT_KEY}_${username}_${new Date().toDateString()}` */
  function DailyKey(username: string, day: string): string
  {
    "nextEarnXDailyTransfer_" + username + "_" + day
  }

  /** The balance slot of a recipient, who is never the sender. */
  function RecipientBalanceKey(username: string): string
  {
    GlobalBalanceKey + "_" + username
  }

  function RecipientHistoryKey(username: string): string
  {
    GlobalHistoryKey + "_" + username
  }

  /** A recipient's slots are never the sender's global slots. */
  lemma RecipientKeysAreNotGlobal(username: string)
    ensures RecipientBalanceKey(username) != GlobalBalanceKey
    ensures RecipientHistoryKey(username) != GlobalHistoryKey
  {
    assert |RecipientBalanceKey(username)| > |GlobalBalanceKey|;
    assert |RecipientHistoryKey(username)| > |GlobalHistoryKey|;
  }

  /** The pages' key routing agrees: a recipient other than the sender uses the `_<username>` slots. */
  lemma RecipientKeysAgree(sender: string, username: string)
    requires Lower(username) != Lower(sender)
    ensures BalanceKey(sender, username) == RecipientBalanceKey(username)
    ensures HistoryKey(sender, username) == RecipientHistoryKey(username)
    ensures BalanceKey(sender, sender) == GlobalBalanceKey
  {
  }

  /** Index of the first user with this mobile (`users.find(user => user.mobile === mobile)`). */
  function MobileIndex(users: seq<User>, mobile: string): (r: Option<nat>)
    ensures r.Some? ==> r.value < |users| && users[r.value].mobile == mobile &&
                        forall k :: 0 <= k < r.value ==> users[k].mobile != mobile
    ensures r.None? ==> forall k :: 0 <= k < |users| ==> users[k].mobile != mobile
  {
    if users == [] then None
    else if users[0].mobile == mobile then Some(0)
    else match MobileIndex(users[1..], mobile)
      case None => None
      case Some(i) => Some(i + 1)
  }

  /**
   * The recipient input handler: the trimmed input must look like a
   * mobile number; the first user with it is the recipient unless the
   * names match ignoring case.
   */
  function FindRecipient(users: seq<User>, sender: string, input: string): (r: Option<User>)
    ensures r.Some? <==>
      MobileLike(Trim(input)) && MobileIndex(users, Trim(input)).Some? &&
      Lower(users[MobileIndex(users, Trim(input)).value].username) != Lower(sender)
    ensures r.Some? ==>
      r.value == users[MobileIndex(users, Trim(input)).value] &&
      r.value.mobile == Trim(input) && r.value.username != sender
  {
    var mobile := Trim(input);
    if !MobileLike(mobile) then None
    else match MobileIndex(users, mobile)
      case None => None
      case Some(i) => if Lower(users[i].username) == Lower(sender) then None else Some(users[i])
  }

  /** The checks of the transfer handler, in order. */
  function TransferCheck(hasRecipient: bool, amount: Option<int>, balance: int, today: int): (r: Option<TransferError>)
    ensures r.None? <==>
      hasRecipient && amount.Some? && MinTransfer <= amount.value <= MaxDailyTransfer &&
      amount.value <= balance && today + amount.value <= MaxDailyTransfer
    ensures r == Some(NoRecipient) <==> !hasRecipient
    ensures r == Some(BelowMinimum) <==> hasRecipient && (amount.None? || amount.value < MinTransfer)
    ensures r == Some(AboveMaximum) <==>
      hasRecipient && amount.Some? && MinTransfer <= amount.value && amount.value > MaxDailyTransfer
    ensures r == Some(InsufficientFunds) <==>
      hasRecipient && amount.Some? && MinTransfer <= amount.value <= MaxDailyTransfer && balance < amount.value
    ensures r == Some(DailyLimit) <==>
      hasRecipient && amount.Some? && MinTransfer <= amount.value <= MaxDailyTransfer &&
      amount.value <= balance && today + amount.value > MaxDailyTransfer
  {
    if !hasRecipient then Some(NoRecipient)
    else if amount.None? || amount.value < MinTransfer then Some(BelowMinimum)
    else if amount.value > MaxDailyTransfer then Some(AboveMaximum)
    else if balance < amount.value then Some(InsufficientFunds)
    else if today + amount.value > MaxDailyTransfer then Some(DailyLimit)
    else None
  }

  /** An accepted transfer keeps the sender's balance non-negative and the day's total within ₹100. */
  lemma AcceptedTransferBounds(hasRecipient: bool, amount: Option<int>, balance: int, today: int)
    requires TransferCheck(hasRecipient, amount, balance, today).None?
    ensures balance - amount.value >= 0
    ensures today + amount.value <= MaxDailyTransfer
    ensures amount.value > 0
  {
  }

  /** Moving `a` from slot `from` to another slot `to` keeps their sum and every other slot. */
  lemma TransferConserves(m: map<string, int>, from: string, to: string, a: int)
    requires from != to
    ensures var m' := m[from := ValueAt(m, from) - a][to := ValueAt(m, to) + a];
      ValueAt(m', from) + ValueAt(m', to) == ValueAt(m, from) + ValueAt(m, to) &&
      ValueAt(m', from) == ValueAt(m, from) - a &&
      forall k :: k != from && k != to ==> ValueAt(m', k) == ValueAt(m, k)
  {
  }

  /** `paymentCommentInput.value.trim() || 'Wallet Transfer'` */
  function Comment(input: string): string
  {
    if Trim(input) == [] then "Wallet Transfer" else Trim(input)
  }

  function SentEntry(amount: int, comment: string, recipient: string, now: nat): (e: Entry)
    ensures e.kind == Debit && e.amount == amount && e.date == now
  {
    Entry(now, Debit, amount, "TRANSFER_SENT_" + NatText(now), comment + " (To " + recipient + ")")
  }

  function ReceivedEntry(amount: int, comment: string, sender: string, now: nat): (e: Entry)
    ensures e.kind == Credit && e.amount == amount && e.date == now
  {
    Entry(now, Credit, amount, "TRANSFER_RECEIVED_" + NatText(now), comment + " (From " + sender + ")")
  }

  /** `numbersText.split(/[,. \s\n]+/).filter(Boolean)` of the trimmed text. */
  function BulkNumbers(text: string): (r: seq<string>)
    ensures forall k :: 0 <= k < |r| ==> r[k] != [] && NoDelim(r[k], false)
  {
    Tokens(Trim(text), false)
  }

  /** The checks of the bulk handler, in order. */
  function BulkCheck(count: nat, amount: Option<int>, balance: int): (r: Option<BulkError>)
    ensures r.None? <==> count > 0 && amount.Some? && amount.value >= MinTransfer && balance >= amount.value * count
    ensures r == Some(NoNumbers) <==> count == 0
    ensures r == Some(BulkBelowMinimum) <==> count > 0 && (amount.None? || amount.value < MinTransfer)
    ensures r == Some(BulkInsufficientFunds) <==> count > 0 && amount.Some? && amount.value >= MinTransfer && balance < amount.value * count
  {
    if count == 0 then Some(NoNumbers)
    else if amount.None? || amount.value < MinTransfer then Some(BulkBelowMinimum)
    else if balance < amount.value * count then Some(BulkInsufficientFunds)
    else None
  }

  /** The transfer page: the session user and the recipient found by the last lookup. */
  /**
   * The writes of a sent transfer: both balances, both histories and the
   * sender's daily counter, each computed from the values read before.
   */
  method Pay(st: Store, to: string, a: int, sent: Entry, received: Entry, dailyKey: string)
    modifies st`balances, st`histories, st`transfers
    ensures st.balances == old(st.balances)[GlobalBalanceKey := old(st.BalanceAt(GlobalBalanceKey)) - a]
                                           [RecipientBalanceKey(to) := old(st.BalanceAt(RecipientBalanceKey(to))) + a]
    ensures st.histories == old(st.histories)
      [GlobalHistoryKey := old(st.HistoryAt(GlobalHistoryKey)) + [sent]]
      [RecipientHistoryKey(to) := old(st.HistoryAt(RecipientHistoryKey(to))) + [received]]
    ensures st.transfers == old(st.transfers)[dailyKey := old(st.TransferredAt(dailyKey)) + a]
  {
    var balance := st.BalanceAt(GlobalBalanceKey);
    var toBalance := st.BalanceAt(RecipientBalanceKey(to));
    var sentLog := st.HistoryAt(GlobalHistoryKey) + [sent];
    var receivedLog := st.HistoryAt(RecipientHistoryKey(to)) + [received];
    var today := st.TransferredAt(dailyKey);
    st.balances := st.balances[GlobalBalanceKey := balance - a][RecipientBalanceKey(to) := toBalance + a];
    st.histories := st.histories[GlobalHistoryKey := sentLog][RecipientHistoryKey(to) := receivedLog];
    st.transfers := st.transfers[dailyKey := today + a];
  }

  class TransferPage {
    var sender: string
    var recipient: Option<User>

    /** A recipient is never the sender. */
    ghost predicate Valid()
      reads this
    {
      recipient.Some? ==> Lower(recipient.value.username) != Lower(sender)
    }

    constructor (st: Store)
      ensures Valid()
      ensures sender == SessionName(st.session, "") && recipient.None?
    {
      sender := SessionName(st.session, "");
      recipient := None;
    }

    /** The recipient input handler. */
    method LookupRecipient(st: Store, input: string)
      modifies this`recipient
      ensures Valid()
      ensures recipient == FindRecipient(st.users, sender, input)
    {
      recipient := FindRecipient(st.users, sender, input);
    }

    /**
     * The transfer handler. A rejection or a declined confirmation writes
     * nothing. Otherwise the sender's global slot loses the amount, the
     * recipient's slot gains it, each history gets one entry, the day's
     * counter grows by the amount and the recipient is cleared.
     */
    method Submit(st: Store, amount: Option<int>, commentInput: string, confirmed: bool, now: nat, day: string)
      returns (r: TransferOutcome)
      requires Valid()
      modifies st`balances, st`histories, st`transfers, this`recipient
      ensures Valid()
      ensures var check := TransferCheck(old(recipient).Some?, amount, old(st.BalanceAt(GlobalBalanceKey)),
                                         old(st.TransferredAt(DailyKey(sender, day))));
              (r.Rejected? <==> check.Some?) && (r.Rejected? ==> r.reason == check.value) &&
              (r == Declined <==> check.None? && !confirmed)
      ensures !r.Sent? ==> unchanged(st) && unchanged(this)
      ensures r.Sent? ==>
        var to := old(recipient).value.username;
        var a := amount.value;
        st.balances == old(st.balances)[GlobalBalanceKey := old(st.BalanceAt(GlobalBalanceKey)) - a]
                                       [RecipientBalanceKey(to) := old(st.BalanceAt(RecipientBalanceKey(to))) + a] &&
        st.histories == old(st.histories)
          [GlobalHistoryKey := old(st.HistoryAt(GlobalHistoryKey)) + [SentEntry(a, Comment(commentInput), to, now)]]
          [RecipientHistoryKey(to) := old(st.HistoryAt(RecipientHistoryKey(to))) + [ReceivedEntry(a, Comment(commentInput), sender, now)]] &&
        st.transfers == old(st.transfers)[DailyKey(sender, day) := old(st.TransferredAt(DailyKey(sender, day))) + a] &&
        recipient.None?
    {
      var balance := st.BalanceAt(GlobalBalanceKey);
      var dailyKey := DailyKey(sender, day);
      var today := st.TransferredAt(dailyKey);
      var check := TransferCheck(recipient.Some?, amount, balance, today);
      if check.Some? {
        return Rejected(check.value);
      }
      if !confirmed {
        return Declined;
      }
      var to := recipient.value.username;
      var a := amount.value;
      var comment := Comment(commentInput);
      Pay(st, to, a, SentEntry(a, comment, to, now), ReceivedEntry(a, comment, sender, now), dailyKey);
      recipient := None;
      r := Sent;
    }

    /**
     * The bulk handler: the sender pays amount × count at once; nobody is
     * credited and no history is written.
     */
    method BulkSubmit(st: Store, numbersText: string, amount: Option<int>, confirmed: bool)
      returns (r: BulkOutcome)
      modifies st`balances
      ensures var check := BulkCheck(|BulkNumbers(numbersText)|, amount, old(st.BalanceAt(GlobalBalanceKey)));
              (r.BulkRejected? <==> check.Some?) && (r.BulkRejected? ==> r.reason == check.value) &&
              (r == BulkDeclined <==> check.None? && !confirmed)
      ensures !r.BulkDebited? ==> unchanged(st)
      ensures r.BulkDebited? ==>
        r.total == amount.value * |BulkNumbers(numbersText)| &&
        st.balances == old(st.balances)[GlobalBalanceKey := old(st.BalanceAt(GlobalBalanceKey)) - r.total]
    {
      var numbers := BulkNumbers(numbersText);
      var balance := st.BalanceAt(GlobalBalanceKey);
      var check := BulkCheck(|numbers|, amount, balance);
      if check.Some? {
        return BulkRejected(check.value);
      }
      if !confirmed {
        return BulkDeclined;
      }
      var total := amount.value * |numbers|;
      st.SetBalance(GlobalBalanceKey, balance - total);
      r := BulkDebited(total);
    }
  }
}
