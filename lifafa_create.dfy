/**
 * Creating a normal Lifafa (make_lifafa.js): the form is validated
 * fail-fast, the creator confirms, then the total is debited, the record
 * is appended to `nextEarnXLifafas` and one debit is logged.
 */
module MakeLifafa {
  import opened Common
  import opened Store

  /** ₹10, the smallest total a Lifafa may hold. */
  const MinLifafaAmount := 1000

  /** ₹0.01, the smallest amount per claim. */
  const MinPerClaim := 1

  /**
   * The form as submitted: amounts already read by `parseFloat` (paise)
   * and `parseInt`, `None` for NaN; text fields untrimmed; `youtube` is
   * `None` when the page has no such field.
   */
  datatype LifafaForm = LifafaForm(
    perClaim: Option<int>, count: Option<int>,
    title: string, comment: string, redirectLink: string,
    accessCode: string, specialUsers: string,
    youtube: Option<string>, referCount: Option<int>)

  datatype Rejection = TitleRequired | PerClaimTooSmall | CountTooSmall | BelowMinimum | InsufficientBalance

  datatype CreateOutcome = Rejected(reason: Rejection) | Declined | Created(id: string)

  function Total(f: LifafaForm): int
    requires f.perClaim.Some? && f.count.Some?
  {
    f.perClaim.value * f.count.value
  }

  /**
   * The validation of the submit handler, checked in this order: a blank
   * title, a per-claim amount that is NaN or below ₹0.01, a count that is
   * NaN or below 2, a total below ₹10, a balance below the total.
   */
  function Validate(f: LifafaForm, balance: int): (r: Option<Rejection>)
    ensures r.None? <==>
      Trim(f.title) != [] && f.perClaim.Some? && f.perClaim.value >= MinPerClaim &&
      f.count.Some? && f.count.value >= 2 &&
      Total(f) >= MinLifafaAmount && balance >= Total(f)
    ensures r == Some(TitleRequired) <==> Trim(f.title) == []
    ensures r == Some(PerClaimTooSmall) <==>
      Trim(f.title) != [] && (f.perClaim.None? || f.perClaim.value < MinPerClaim)
    ensures r == Some(CountTooSmall) <==>
      Trim(f.title) != [] && f.perClaim.Some? && f.perClaim.value >= MinPerClaim &&
      (f.count.None? || f.count.value < 2)
    ensures r == Some(BelowMinimum) ==> Total(f) < MinLifafaAmount
    ensures r == Some(InsufficientBalance) ==> Total(f) >= MinLifafaAmount && balance < Total(f)
  {
    if Trim(f.title) == [] then Some(TitleRequired)
    else if f.perClaim.None? || f.perClaim.value < MinPerClaim then Some(PerClaimTooSmall)
    else if f.count.None? || f.count.value < 2 then Some(CountTooSmall)
    else if Total(f) < MinLifafaAmount then Some(BelowMinimum)
    else if balance < Total(f) then Some(InsufficientBalance)
    else None
  }

  /** An accepted form holds at least ₹10 spread over at least two claims of at least ₹0.01. */
  lemma AcceptedFormBounds(f: LifafaForm, balance: int)
    requires Validate(f, balance).None?
    ensures f.perClaim.value >= MinPerClaim && f.count.value >= 2
    ensures MinLifafaAmount <= Total(f) <= balance
    ensures balance - Total(f) >= 0
  {
  }

  /** `s.slice(0, n)` */
  function Prefix(s: string, n: nat): string
  {
    if |s| <= n then s else s[..n]
  }

  /** `s.slice(-n)` */
  function Suffix(s: string, n: nat): string
  {
    if |s| <= n then s else s[|s| - n..]
  }

  /** The first three letters of the creator, a random part and the last four digits of the time. */
  function LifafaId(sender: string, randomPart: string, now: nat): string
  {
    Upper(Prefix(sender, 3)) + Upper(randomPart) + Suffix(NatText(now), 4)
  }

  /** `specialUsers ? specialUsers.split(/[,*.\s\n]+/).filter(Boolean) : []` */
  function SpecialUsers(raw: string): seq<string>
  {
    var t := Trim(raw);
    if t == [] then [] else Tokens(t, true)
  }

  /** `text || null` for a trimmed text. */
  function NonBlank(t: string): Option<string>
  {
    if t == [] then None else Some(t)
  }

  /** The record the handler appends. */
  function NewRecord(f: LifafaForm, sender: string, id: string, now: nat, channels: seq<string>): (l: Lifafa)
    requires f.perClaim.Some? && f.count.Some?
    ensures l.creator == sender && l.id == id && l.date == now
    ensures l.count == f.count.value && l.perClaim == f.perClaim.value
    ensures l.totalAmount == l.perClaim * l.count && l.claims == []
    ensures l.accessCode.None? <==> Trim(f.accessCode) == []
    ensures l.requirements.channels == channels
    ensures l.requirements.referrals.Some? <==> f.referCount.Some? && f.referCount.value > 0
    ensures l.requirements.referrals.Some? ==> l.requirements.referrals.value == f.referCount.value
  {
    var refer := if f.referCount.Some? then f.referCount.value else 0;
    Lifafa(
      id, sender, now,
      Trim(f.title), Trim(f.comment), Trim(f.redirectLink),
      NonBlank(Trim(f.accessCode)), SpecialUsers(f.specialUsers),
      Requirements(channels,
                   if f.youtube.Some? then NonBlank(Trim(f.youtube.value)) else None,
                   if refer > 0 then Some(refer) else None),
      Total(f), f.count.value, f.perClaim.value, [])
  }

  /** The debit logged for a new Lifafa. */
  function CreationEntry(f: LifafaForm, id: string, now: nat): (e: Entry)
    requires f.perClaim.Some? && f.count.Some?
    ensures e.kind == Debit && e.amount == Total(f) && e.date == now
  {
    Entry(now, Debit, Total(f), "LIFAFA_CREATED_" + id, "Created Normal Lifafa: " + Trim(f.title))
  }

  /** Every special user the record keeps is a non-empty name without separators. */
  lemma SpecialUsersAreWords(raw: string)
    ensures forall k :: 0 <= k < |SpecialUsers(raw)| ==>
      SpecialUsers(raw)[k] != [] && NoDelim(SpecialUsers(raw)[k], true)
  {
  }

  /** Appending a new record keeps every stored Lifafa within its claim count. */
  lemma CreationKeepsClaimsWithinCount(ls: seq<Lifafa>, f: LifafaForm, balance: int,
                                       sender: string, id: string, now: nat, channels: seq<string>)
    requires ClaimsWithinCount(ls)
    requires Validate(f, balance).None?
    ensures ClaimsWithinCount(ls + [NewRecord(f, sender, id, now, channels)])
  {
    var ls' := ls + [NewRecord(f, sender, id, now, channels)];
    assert forall i :: 0 <= i < |ls| ==> ls'[i] == ls[i];
  }

  /** Special users written one per line come back as the same list. */
  lemma SpecialUsersOfLines(numbers: seq<string>)
    requires |numbers| > 0
    requires forall k :: 0 <= k < |numbers| ==> numbers[k] != [] && NoDelim(numbers[k], true)
    ensures SpecialUsers(Join(numbers, '\n')) == numbers
  {
    var j := Join(numbers, '\n');
    TokensOfJoin(numbers, '\n', true);
    JoinEnds(numbers, '\n', true);
    assert Trim(j) == j;
  }

  /** A join of delimiter-free words neither starts nor ends with white space. */
  lemma {:induction false} JoinEnds(ws: seq<string>, sep: char, star: bool)
    requires |ws| > 0
    requires forall k :: 0 <= k < |ws| ==> ws[k] != [] && NoDelim(ws[k], star)
    ensures var j := Join(ws, sep); |j| > 0 && !IsSpace(j[0]) && !IsSpace(j[|j| - 1])
    decreases |ws|
  {
    if |ws| > 1 {
      JoinEnds(ws[1..], sep, star);
      var j := Join(ws, sep);
      assert j == ws[0] + ([sep] + Join(ws[1..], sep));
      assert j[0] == ws[0][0];
      assert j[|j| - 1] == Join(ws[1..], sep)[|Join(ws[1..], sep)| - 1];
    } else {
      assert ws[0][0] == Join(ws, sep)[0];
    }
  }

  /** The status line of a Lifafa in the creator's list. */
  function StatusText(l: Lifafa): string
  {
    if |l.claims| == l.count then "CLOSED" else ClaimedLine(|l.claims|, l.count)
  }

  /** `${claims.length}/${count} Claimed` */
  function ClaimedLine(n: nat, count: int): string
  {
    NatText(n) + ClaimedTail(count)
  }

  function ClaimedTail(count: int): string
  {
    "/" + IntText(count) + " Claimed"
  }

  /** The claimed line starts with the claim count and is never the word "CLOSED". */
  lemma ClaimedLineReadsBack(n: nat, count: int)
    ensures ParseInteger(ClaimedLine(n, count)) == Some(n)
    ensures ClaimedLine(n, count) != "CLOSED"
  {
    var tail := ClaimedTail(count);
    assert tail[0] == '/';
    IntegerOfNatTextThen(n, tail);
    var w := NatText(n);
    assert (w + tail)[0] == w[0];
    assert "CLOSED"[0] == 'C';
  }

  /** The status reads "CLOSED" exactly when the Lifafa is full, otherwise it starts with the claim count. */
  lemma StatusTextShowsClaims(l: Lifafa)
    ensures StatusText(l) == "CLOSED" <==> |l.claims| == l.count
    ensures |l.claims| != l.count ==> ParseInteger(StatusText(l)) == Some(|l.claims|)
  {
    ClaimedLineReadsBack(|l.claims|, l.count);
  }

  /** `renderLifafas`: every record of the creator, in stored order. */
  function CreatorRecords(ls: seq<Lifafa>, sender: string): (r: seq<Lifafa>)
    ensures r == Filter(ls, (l: Lifafa) => l.creator == sender)
    ensures forall l :: l in r <==> l in ls && l.creator == sender
  {
    if ls == [] then []
    else if ls[0].creator == sender then [ls[0]] + CreatorRecords(ls[1..], sender)
    else CreatorRecords(ls[1..], sender)
  }

  /** The three writes of a created Lifafa: the new balance, the record, the debit. */
  method Commit(st: Store, balance: int, record: Lifafa, e: Entry)
    modifies st`balances, st`lifafas, st`histories
    ensures st.balances == old(st.balances)[GlobalBalanceKey := balance]
    ensures st.lifafas == old(st.lifafas) + [record]
    ensures st.histories == old(st.histories)[GlobalHistoryKey := old(st.HistoryAt(GlobalHistoryKey)) + [e]]
  {
    st.balances := st.balances[GlobalBalanceKey := balance];
    st.lifafas := st.lifafas + [record];
    st.histories := st.histories[GlobalHistoryKey := st.HistoryAt(GlobalHistoryKey) + [e]];
  }

  /** The create page: the session user and the settings read when it loaded. */
  class MakeLifafaPage {
    const sender: string
    const settings: Settings

    constructor (st: Store)
      ensures sender == SessionName(st.session, "")
      ensures settings == st.StoredSettings()
    {
      sender := SessionName(st.session, "");
      settings := st.StoredSettings();
    }

    function Channels(): seq<string>
    {
      if settings.telegramChannels.Some? then settings.telegramChannels.value else []
    }

    /**
     * The submit handler. The creator's balance and history sit under the
     * global keys; a rejection or a declined confirmation writes nothing.
     */
    method Submit(st: Store, f: LifafaForm, confirmed: bool, now: nat, randomPart: string)
      returns (r: CreateOutcome)
      modifies st`balances, st`lifafas, st`histories
      ensures var check := Validate(f, old(st.BalanceAt(GlobalBalanceKey)));
              (r.Rejected? <==> check.Some?) && (r.Rejected? ==> r.reason == check.value) &&
              (r == Declined <==> check.None? && !confirmed)
      ensures !r.Created? ==> unchanged(st)
      ensures r.Created? ==>
        var total := Total(f);
        var id := LifafaId(sender, randomPart, now);
        r.id == id &&
        st.balances == old(st.balances)[GlobalBalanceKey := old(st.BalanceAt(GlobalBalanceKey)) - total] &&
        st.lifafas == old(st.lifafas) + [NewRecord(f, sender, id, now, Channels())] &&
        st.histories == old(st.histories)[GlobalHistoryKey :=
          old(st.HistoryAt(GlobalHistoryKey)) + [CreationEntry(f, id, now)]]
    {
      // `getBalance(senderUsername)` and `saveHistory(senderUsername, …)` use the global keys.
      var balance := st.BalanceAt(GlobalBalanceKey);
      var check := Validate(f, balance);
      if check.Some? {
        return Rejected(check.value);
      }
      if !confirmed {
        return Declined;
      }
      var id := LifafaId(sender, randomPart, now);
      Commit(st, balance - Total(f), NewRecord(f, sender, id, now, Channels()), CreationEntry(f, id, now));
      r := Created(id);
    }
  }
}
