/**
 * The affiliate page (affiliate.js): commission earnings and a referral
 * count read from storage, and a withdrawal form that deducts a
 * confirmed withdrawal from the earnings.
 */
module Affiliate {
  import opened Common
  import opened Store

  /** `MIN_WITHDRAW`, ₹50, in paise. */
  const MinWithdraw := 5000

  /**
   * `loadEarnings` and `loadReferralCount` alike: the stored number, or
   * zero when nothing is stored.
   */
  function Earnings(stored: Option<int>): int
  {
    if stored.Some? then stored.value else 0
  }

  /** `${origin}/panel/signup.html?ref=${username}`, with an empty name without a session. */
  function ReferralLink(origin: string, session: Option<User>): string
  {
    origin + "/panel/signup.html?ref=" + SessionName(session, "")
  }

  datatype WithdrawOutcome =
    | BelowMinimum   // not a number, or under ₹50
    | ShortOfEarnings
    | NoUpi          // the trimmed UPI address is blank
    | Declined
    | Submitted(remaining: int)

  /** The form's checks, in order, on the amount, the earnings and the trimmed UPI address. */
  function WithdrawCheck(amount: Option<int>, earnings: int, upi: string): (r: Option<WithdrawOutcome>)
    ensures r == Some(BelowMinimum) <==> amount.None? || amount.value < MinWithdraw
    ensures r == Some(ShortOfEarnings) <==> amount.Some? && amount.value >= MinWithdraw && earnings < amount.value
    ensures r == Some(NoUpi) <==> amount.Some? && MinWithdraw <= amount.value <= earnings && upi == []
    ensures r.None? <==> amount.Some? && MinWithdraw <= amount.value <= earnings && upi != []
  {
    if amount.None? || amount.value < MinWithdraw then Some(BelowMinimum)
    else if earnings < amount.value then Some(ShortOfEarnings)
    else if upi == [] then Some(NoUpi)
    else None
  }

  /**
   * The withdrawal form: a refused or unconfirmed request writes nothing;
   * a confirmed one stores the earnings less the amount.
   */
  method Withdraw(st: Store, amount: Option<int>, upiInput: string, confirmed: bool) returns (r: WithdrawOutcome)
    modifies st`earnings
    ensures WithdrawCheck(amount, Earnings(old(st.earnings)), Trim(upiInput)).Some? ==>
      r == WithdrawCheck(amount, Earnings(old(st.earnings)), Trim(upiInput)).value
    ensures r == Declined <==> WithdrawCheck(amount, Earnings(old(st.earnings)), Trim(upiInput)).None? && !confirmed
    ensures r.Submitted? <==> WithdrawCheck(amount, Earnings(old(st.earnings)), Trim(upiInput)).None? && confirmed
    ensures !r.Submitted? ==> st.earnings == old(st.earnings)
    ensures r.Submitted? ==> r.remaining == Earnings(old(st.earnings)) - amount.value && st.earnings == Some(r.remaining)
  {
    var earnings := Earnings(st.earnings);
    var check := WithdrawCheck(amount, earnings, Trim(upiInput));
    if check.Some? {
      return check.value;
    }
    if !confirmed {
      return Declined;
    }
    st.earnings := Some(earnings - amount.value);
    r := Submitted(earnings - amount.value);
  }

  /** A submitted withdrawal takes at least ₹50 and never leaves negative earnings. */
  lemma WithdrawalKeepsEarningsCovered(amount: Option<int>, earnings: int, upi: string)
    requires WithdrawCheck(amount, earnings, upi).None?
    ensures 0 <= earnings - amount.value <= earnings - MinWithdraw
  {
  }
}
