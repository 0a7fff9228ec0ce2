/**
 * The admin global settings page (global_settings.js): the UPI id, the
 * minimum deposit and the plan prices. A submitted form is held as
 * pending settings and only written to `nextEarnXGlobalSettings` once a
 * six-digit code, valid for five minutes, is entered correctly.
 */
module GlobalSettings {
  import opened Common
  import opened Store
  import opened Otp

  /** How long a settings code is valid, in milliseconds. */
  const OtpValidityMs := 5 * 60 * 1000

  /** The page's defaults: the UPI id, a ₹60 minimum deposit and three plan prices, in paise. */
  const Defaults := Settings(
    Some("bharat-dass@ibl"), Set(6000),
    Some(map["1 Month" := Some(5900), "2 Months" := Some(10900), "3 Months" := Some(15900)]),
    None, None)

  /** Settings with a UPI id, a minimum deposit and prices. */
  predicate Complete(s: Settings)
  {
    s.upiId.Some? && s.minDeposit != Unset && s.prices.Some?
  }

  /**
   * What the page's `DEFAULTS` object can hold: a UPI id, a minimum
   * deposit and prices, which the general form may have overwritten,
   * and no Telegram channels or instant panel price, which nothing adds.
   */
  predicate DefaultsLike(d: Settings)
  {
    d.upiId.Some? && d.minDeposit != Unset && d.prices.Some? &&
    d.telegramChannels.None? && d.instantPanelPrice.None?
  }

  /**
   * `loadSettings`, with `defaults` the `DEFAULTS` object as it now
   * stands: a copy of the stored object over the defaults, or, when
   * nothing is stored, the defaults object itself.
   */
  function LoadSettings(defaults: Settings, stored: Option<Settings>): (s: Settings)
    requires Complete(defaults)
    ensures Complete(s)
    ensures stored.None? ==> s == defaults
    ensures stored.Some? ==> s == Overlay(defaults, stored.value)
  {
    if stored.Some? then Overlay(defaults, stored.value) else defaults
  }

  /** Complete settings read back unchanged, whatever the defaults now hold. */
  lemma SavedSettingsReadBack(defaults: Settings, s: Settings)
    requires DefaultsLike(defaults) && Complete(s)
    ensures LoadSettings(defaults, Some(s)) == s
  {
  }

  /** `parseFloat(x)` as JSON stores it: a NaN becomes `null`. */
  function Stored(v: Option<int>): (slot: Slot<int>)
    ensures slot != Unset
    ensures v.None? <==> slot == Null
    ensures v.Some? ==> slot == Set(v.value)
  {
    if v.Some? then Set(v.value) else Null
  }

  /** The general form: the trimmed UPI id and the parsed minimum deposit over the loaded settings. */
  function GeneralUpdate(loaded: Settings, upiInput: string, minDeposit: Option<int>): (s: Settings)
    ensures Complete(loaded) ==> Complete(s)
    ensures DefaultsLike(loaded) ==> DefaultsLike(s)
    ensures s.upiId == Some(Trim(upiInput)) && s.minDeposit == Stored(minDeposit)
    ensures s.prices == loaded.prices && s.telegramChannels == loaded.telegramChannels
    ensures s.instantPanelPrice == loaded.instantPanelPrice
  {
    loaded.(upiId := Some(Trim(upiInput)), minDeposit := Stored(minDeposit))
  }

  /** `newPrices[plan] = parseFloat(input.value)` over the price inputs, in page order. */
  function PricesOf(inputs: seq<(string, Option<int>)>): map<string, Option<int>>
  {
    if inputs == [] then map[]
    else PricesOf(inputs[..|inputs| - 1])[inputs[|inputs| - 1].0 := inputs[|inputs| - 1].1]
  }

  /** The price map has exactly the plans of the inputs. */
  lemma {:induction false} PricesOfPlans(inputs: seq<(string, Option<int>)>, plan: string)
    ensures plan in PricesOf(inputs) <==> exists i :: 0 <= i < |inputs| && inputs[i].0 == plan
  {
    if inputs != [] {
      var before := inputs[..|inputs| - 1];
      PricesOfPlans(before, plan);
      if exists i :: 0 <= i < |before| && before[i].0 == plan {
        var i :| 0 <= i < |before| && before[i].0 == plan;
        assert inputs[i].0 == plan;
      }
      if exists i :: 0 <= i < |inputs| && inputs[i].0 == plan {
        var i :| 0 <= i < |inputs| && inputs[i].0 == plan;
        if i < |before| {
          assert before[i].0 == plan;
        }
      }
    }
  }

  /** A plan entered more than once takes its last price. */
  lemma {:induction false} PricesOfLastWins(inputs: seq<(string, Option<int>)>, i: nat)
    requires i < |inputs|
    requires forall j :: i < j < |inputs| ==> inputs[j].0 != inputs[i].0
    ensures inputs[i].0 in PricesOf(inputs) && PricesOf(inputs)[inputs[i].0] == inputs[i].1
  {
    var n := |inputs| - 1;
    if i < n {
      var before := inputs[..n];
      assert before[i] == inputs[i];
      assert inputs[n].0 != inputs[i].0;
      PricesOfLastWins(before, i);
    }
  }

  /** The price form: the new price map replaces the loaded one. */
  function PriceUpdate(loaded: Settings, inputs: seq<(string, Option<int>)>): (s: Settings)
    ensures Complete(loaded) ==> Complete(s)
    ensures s.prices == Some(PricesOf(inputs))
    ensures s.upiId == loaded.upiId && s.minDeposit == loaded.minDeposit
    ensures s.telegramChannels == loaded.telegramChannels && s.instantPanelPrice == loaded.instantPanelPrice
  {
    loaded.(prices := Some(PricesOf(inputs)))
  }

  /**
   * A price box's value: `settings.prices[plan] || DEFAULTS.prices[plan]`,
   * falling back for a missing, `null` or zero price (the prices of
   * `DEFAULTS` are never written, so they are those of `Defaults`).
   */
  function PriceShown(s: Settings, plan: string): (p: Option<int>)
    ensures s.prices.Some? && plan in s.prices.value && s.prices.value[plan].Some? && s.prices.value[plan].value != 0 ==>
      p == s.prices.value[plan]
    ensures p.Some? ==> p.value != 0
    ensures p.None? ==> plan !in Defaults.prices.value
    ensures !(s.prices.Some? && plan in s.prices.value && s.prices.value[plan].Some? && s.prices.value[plan].value != 0) ==>
      p == (if plan in Defaults.prices.value then Defaults.prices.value[plan] else None)
  {
    if s.prices.Some? && plan in s.prices.value && s.prices.value[plan].Some? && s.prices.value[plan].value != 0
    then s.prices.value[plan]
    else if plan in Defaults.prices.value then Defaults.prices.value[plan]
    else None
  }

  datatype SaveKind = General | Prices

  /** The page's code state, the settings waiting for it and its `DEFAULTS` object. */
  class SettingsPage {
    var otp: Option<int>
    var expires: int
    var timerRunning: bool
    var pending: Option<Settings>
    var pendingKind: Option<SaveKind>
    var defaults: Settings

    /** A code, while there is one, has six digits, pending settings are complete, and the defaults keep their shape. */
    ghost predicate Valid()
      reads this
    {
      (otp.Some? ==> 100000 <= otp.value <= 999999) &&
      (pending.Some? ==> Complete(pending.value)) &&
      DefaultsLike(defaults)
    }

    constructor ()
      ensures Valid()
      ensures otp.None? && pending.None? && pendingKind.None? && !timerRunning && defaults == Defaults
    {
      defaults := Defaults;
      otp := None;
      expires := 0;
      timerRunning := false;
      pending := None;
      pendingKind := None;
    }

    /** `generateAndShowOtp` (also the resend button): a new code valid for five minutes. */
    method Generate(now: int, draw: nat)
      requires draw < 900000
      modifies this`otp, this`expires, this`timerRunning
      ensures otp == Some(NewOtp(draw)) && expires == now + OtpValidityMs && timerRunning
    {
      otp := Some(NewOtp(draw));
      expires := now + OtpValidityMs;
      timerRunning := true;
    }

    /**
     * The general form's submit: holds the new UPI id and minimum deposit
     * and sends a code. With nothing stored the loaded settings are the
     * `DEFAULTS` object itself, so the new values are written into it at
     * once, confirmed or not.
     */
    method SubmitGeneral(st: Store, upiInput: string, minDeposit: Option<int>, now: int, draw: nat)
      requires draw < 900000 && Valid()
      modifies this
      ensures Valid()
      ensures pending == Some(GeneralUpdate(LoadSettings(old(defaults), st.settings), upiInput, minDeposit))
      ensures defaults == if st.settings.None? then pending.value else old(defaults)
      ensures pendingKind == Some(General)
      ensures otp == Some(NewOtp(draw)) && expires == now + OtpValidityMs && timerRunning
    {
      var updated := GeneralUpdate(LoadSettings(defaults, st.settings), upiInput, minDeposit);
      if st.settings.None? {
        defaults := updated;
      }
      pending := Some(updated);
      pendingKind := Some(General);
      Generate(now, draw);
    }

    /** The price form's submit: holds the new price map and sends a code. */
    method SubmitPrices(st: Store, inputs: seq<(string, Option<int>)>, now: int, draw: nat)
      requires draw < 900000 && Valid()
      modifies this
      ensures Valid()
      ensures pending == Some(PriceUpdate(LoadSettings(defaults, st.settings), inputs))
      ensures defaults == old(defaults)
      ensures pendingKind == Some(Prices)
      ensures otp == Some(NewOtp(draw)) && expires == now + OtpValidityMs && timerRunning
    {
      pending := Some(PriceUpdate(LoadSettings(defaults, st.settings), inputs));
      pendingKind := Some(Prices);
      Generate(now, draw);
    }

    /** The close button: the pending settings are dropped (the code itself is kept). */
    method Close()
      requires Valid()
      modifies this`pending, this`pendingKind, this`timerRunning
      ensures Valid()
      ensures pending.None? && pendingKind.None? && !timerRunning
    {
      pending := None;
      pendingKind := None;
      timerRunning := false;
    }

    /** The countdown tick: once the deadline has passed the code is cleared. */
    method Tick(now: int)
      requires Valid()
      modifies this`otp, this`timerRunning
      ensures Valid()
      ensures old(timerRunning) && expires - now <= 0 ==> otp.None? && !timerRunning
      ensures !(old(timerRunning) && expires - now <= 0) ==> unchanged(this)
    {
      if timerRunning && expires - now <= 0 {
        otp := None;
        timerRunning := false;
      }
    }

    /**
     * The verify button. Only a match before the deadline writes, and it
     * writes exactly the pending settings (a `null` when none are pending),
     * then drops them; every other answer leaves the store alone.
     */
    method Verify(st: Store, entered: string, now: int) returns (r: OtpCheck)
      requires Valid()
      modifies st`settings, this`pending, this`pendingKind, this`timerRunning
      ensures Valid()
      ensures r == CheckOtp(otp, expires, Trim(entered), now)
      ensures r != Match ==> unchanged(st) && unchanged(this)
      ensures r == Match ==> st.settings == old(pending) && pending.None? && pendingKind.None? && !timerRunning
    {
      r := CheckOtp(otp, expires, Trim(entered), now);
      if r == Match {
        st.settings := pending;
        pending := None;
        pendingKind := None;
        timerRunning := false;
      }
    }
  }

  /** After a confirmed save the page loads back exactly what was held. */
  lemma ConfirmedSaveReadsBack(defaults: Settings, pending: Settings)
    requires DefaultsLike(defaults) && Complete(pending)
    ensures LoadSettings(defaults, Some(pending)) == pending
  {
    SavedSettingsReadBack(defaults, pending);
  }

  /** A confirmed general form shows the new UPI id and minimum deposit when the page reloads. */
  lemma GeneralSaveReadsBack(defaults: Settings, later: Settings, stored: Option<Settings>, upiInput: string, minDeposit: Option<int>)
    requires DefaultsLike(defaults) && DefaultsLike(later)
    ensures var s := LoadSettings(later, Some(GeneralUpdate(LoadSettings(defaults, stored), upiInput, minDeposit)));
      s.upiId == Some(Trim(upiInput)) && s.minDeposit == Stored(minDeposit) && s.prices == LoadSettings(defaults, stored).prices
  {
    SavedSettingsReadBack(later, GeneralUpdate(LoadSettings(defaults, stored), upiInput, minDeposit));
  }

  /** A confirmed price form shows, for each plan, the last price entered for it, unless that is zero or not a number. */
  lemma PriceSaveReadsBack(defaults: Settings, stored: Option<Settings>, inputs: seq<(string, Option<int>)>, i: nat)
    requires DefaultsLike(defaults)
    requires i < |inputs|
    requires forall j :: i < j < |inputs| ==> inputs[j].0 != inputs[i].0
    requires inputs[i].1.Some? && inputs[i].1.value != 0
    ensures PriceShown(LoadSettings(defaults, Some(PriceUpdate(LoadSettings(defaults, stored), inputs))), inputs[i].0) == inputs[i].1
  {
    SavedSettingsReadBack(defaults, PriceUpdate(LoadSettings(defaults, stored), inputs));
    PricesOfLastWins(inputs, i);
  }

  /**
   * With nothing stored, a general form that is never confirmed still
   * reaches the store: its UPI id and minimum deposit sit in `DEFAULTS`,
   * and a price form confirmed afterwards saves them.
   */
  method UnconfirmedGeneralIsSaved(st: Store, upiInput: string, minDeposit: Option<int>,
                                   inputs: seq<(string, Option<int>)>, now: int, draw1: nat, draw2: nat)
    returns (r: OtpCheck)
    requires st.settings.None? && draw1 < 900000 && draw2 < 900000
    modifies st`settings
    ensures r == Match
    ensures st.settings.Some? && st.settings.value.upiId == Some(Trim(upiInput))
    ensures st.settings.value.minDeposit == Stored(minDeposit)
    ensures st.settings.value.prices == Some(PricesOf(inputs))
  {
    var page := new SettingsPage();
    page.SubmitGeneral(st, upiInput, minDeposit, now, draw1);
    page.Close();
    page.SubmitPrices(st, inputs, now, draw2);
    var code := NewOtp(draw2);
    TrimDigits(NatText(code));
    SentCodeMatches(draw2, now + OtpValidityMs, now);
    r := page.Verify(st, NatText(code), now);
  }
}
