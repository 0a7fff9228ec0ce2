/**
 * The records the panel keeps in the browser's localStorage and the
 * storage object itself. Every page reads and writes the same keys:
 * `nextEarnXUsers`, `nextEarnXCurrentUser`, `nextEarnXLifafas`,
 * `nextEarnXBanNumbers`, `nextEarnXGlobalSettings`, `subscription`,
 * the global wallet keys `nextEarnXBalance` / `nextEarnXHistory` and the
 * per-user keys `nextEarnXBalance_<username>` / `nextEarnXHistory_<username>`.
 * Balances are stored as text with two decimals, so they are whole paise.
 */
module Store {
  import opened Common

  /** The `type` of a history entry: 'credit', 'debit', or the admin form's 'UNKNOWN'. */
  datatype Kind = Credit | Debit | Unknown

  function KindName(k: Kind): string
  {
    match k
    case Credit => "credit"
    case Debit => "debit"
    case Unknown => "UNKNOWN"
  }

  /** One wallet history entry `{date, type, amount, txnId, note}`. */
  datatype Entry = Entry(date: int, kind: Kind, amount: int, txnId: string, note: string)

  /** One claim of a Lifafa `{username, date, amount}`. */
  datatype Claim = Claim(username: string, date: int, amount: int)

  /** `requirements`: channels copied from the settings, a YouTube link, a referral count. */
  datatype Requirements = Requirements(channels: seq<string>, youtube: Option<string>, referrals: Option<int>)

  /** A Lifafa (red-envelope) record; `perClaim` and `totalAmount` in paise. */
  datatype Lifafa = Lifafa(
    id: string, creator: string, date: int,
    title: string, comment: string, redirectLink: string,
    accessCode: Option<string>, specialUsers: seq<string>, requirements: Requirements,
    totalAmount: int, count: int, perClaim: int, claims: seq<Claim>)

  /** A registered account. Missing `status`/`plan`/`expiry` are `None`. */
  datatype User = User(
    fullname: string, username: string, email: string, mobile: string, password: string,
    status: Option<string>, plan: Option<string>, expiry: Option<int>, hasTakenFreeTrial: bool)

  /** The `price` field of a subscription: a number from the wallet, the query text from a UPI payment. */
  datatype Price = Amount(paise: int) | Text(text: string)

  datatype Subscription = Subscription(plan: string, price: Price, txnId: string, purchaseAt: int, expiry: int)

  /** A JSON field that may be missing, `null` (a NaN is stored as `null`) or set. */
  datatype Slot<T> = Unset | Null | Set(value: T)

  /** `nextEarnXGlobalSettings`; prices map plan names to paise (`None` for a stored `null`). */
  datatype Settings = Settings(
    upiId: Option<string>, minDeposit: Slot<int>, prices: Option<map<string, Option<int>>>,
    telegramChannels: Option<seq<string>>, instantPanelPrice: Option<int>)

  /** `{}` */
  const NoSettings := Settings(None, Unset, None, None, None)

  /** `{ ...defaults, ...stored }`: every field the stored object has wins. */
  function Overlay(defaults: Settings, stored: Settings): (r: Settings)
    ensures r.upiId == (if stored.upiId.Some? then stored.upiId else defaults.upiId)
    ensures r.minDeposit == (if stored.minDeposit != Unset then stored.minDeposit else defaults.minDeposit)
    ensures r.prices == (if stored.prices.Some? then stored.prices else defaults.prices)
    ensures r.telegramChannels == (if stored.telegramChannels.Some? then stored.telegramChannels else defaults.telegramChannels)
    ensures r.instantPanelPrice == (if stored.instantPanelPrice.Some? then stored.instantPanelPrice else defaults.instantPanelPrice)
    ensures stored == NoSettings ==> r == defaults
  {
    Settings(
      if stored.upiId.Some? then stored.upiId else defaults.upiId,
      if stored.minDeposit != Unset then stored.minDeposit else defaults.minDeposit,
      if stored.prices.Some? then stored.prices else defaults.prices,
      if stored.telegramChannels.Some? then stored.telegramChannels else defaults.telegramChannels,
      if stored.instantPanelPrice.Some? then stored.instantPanelPrice else defaults.instantPanelPrice)
  }

  /** An element of the stored ban list: the loader keeps only strings. */
  datatype Item = Str(text: string) | NonStr

  const GlobalBalanceKey := "nextEarnXBalance"
  const GlobalHistoryKey := "nextEarnXHistory"

  /**
   * The balance key a page uses for `username`: the session user's
   * balance lives under the global key, anyone else's under
   * `nextEarnXBalance_<username>`.
   */
  function BalanceKey(sender: string, username: string): string
  {
    if username == sender then GlobalBalanceKey else GlobalBalanceKey + "_" + username
  }

  function HistoryKey(sender: string, username: string): string
  {
    if username == sender then GlobalHistoryKey else GlobalHistoryKey + "_" + username
  }

  /** Two different users never share a balance slot. */
  lemma BalanceKeyInjective(sender: string, a: string, b: string)
    requires BalanceKey(sender, a) == BalanceKey(sender, b)
    ensures a == b
  {
    var p := GlobalBalanceKey + "_";
    if a != sender && b != sender {
      assert (p + a)[|p|..] == a && (p + b)[|p|..] == b;
    }
  }

  /** Likewise for history slots. */
  lemma HistoryKeyInjective(sender: string, a: string, b: string)
    requires HistoryKey(sender, a) == HistoryKey(sender, b)
    ensures a == b
  {
    var p := GlobalHistoryKey + "_";
    if a != sender && b != sender {
      assert (p + a)[|p|..] == a && (p + b)[|p|..] == b;
    }
  }

  /** A stored amount; a missing key reads as `'0.00'`. */
  function ValueAt(m: map<string, int>, key: string): int
  {
    if key in m then m[key] else 0
  }

  /** Index of the first user with this username (`findIndex`), if any. */
  function UserIndex(users: seq<User>, username: string): (r: Option<nat>)
    ensures r.Some? ==> r.value < |users| && users[r.value].username == username &&
                        forall k :: 0 <= k < r.value ==> users[k].username != username
    ensures r.None? ==> forall k :: 0 <= k < |users| ==> users[k].username != username
  {
    if users == [] then None
    else if users[0].username == username then Some(0)
    else match UserIndex(users[1..], username)
      case None => None
      case Some(i) => Some(i + 1)
  }

  /** Index of the first Lifafa with this id (`find` / `findIndex`), if any. */
  function LifafaIndex(ls: seq<Lifafa>, id: string): (r: Option<nat>)
    ensures r.Some? ==> r.value < |ls| && ls[r.value].id == id &&
                        forall k :: 0 <= k < r.value ==> ls[k].id != id
    ensures r.None? ==> forall k :: 0 <= k < |ls| ==> ls[k].id != id
  {
    if ls == [] then None
    else if ls[0].id == id then Some(0)
    else match LifafaIndex(ls[1..], id)
      case None => None
      case Some(i) => Some(i + 1)
  }

  /**
   * The session user's name as the pages derive it,
   * `user ? user.username : fallback`: the Lifafa, transfer and affiliate
   * pages fall back to an empty name, the home page to `Guest`.
   */
  function SessionName(session: Option<User>, fallback: string): string
  {
    if session.Some? then session.value.username else fallback
  }

  /** Each stored Lifafa has at most `count` claims. */
  ghost predicate ClaimsWithinCount(ls: seq<Lifafa>)
  {
    forall i :: 0 <= i < |ls| ==> |ls[i].claims| <= ls[i].count
  }

  class Store {
    var balances: map<string, int>
    var histories: map<string, seq<Entry>>
    var lifafas: seq<Lifafa>
    var bans: seq<Item>
    var users: seq<User>
    var settings: Option<Settings>
    var transfers: map<string, int>
    var session: Option<User>
    var subscription: Option<Subscription>
    var earnings: Option<int>
    var referralCount: Option<int>

    /** An empty localStorage. */
    constructor ()
      ensures balances == map[] && histories == map[] && lifafas == [] && bans == []
      ensures users == [] && settings == None && transfers == map[] && session == None
      ensures subscription == None && earnings == None && referralCount == None
    {
      balances := map[];
      histories := map[];
      lifafas := [];
      bans := [];
      users := [];
      settings := None;
      transfers := map[];
      session := None;
      subscription := None;
      earnings := None;
      referralCount := None;
    }

    /** `parseFloat(localStorage.getItem(key) || '0.00')` */
    function BalanceAt(key: string): int
      reads this`balances
    {
      if key in balances then balances[key] else 0
    }

    /** `parseFloat(localStorage.getItem(key) || '0.00')` for a daily transfer counter. */
    function TransferredAt(key: string): int
      reads this`transfers
    {
      if key in transfers then transfers[key] else 0
    }

    /** `JSON.parse(localStorage.getItem(key) || '[]')` */
    function HistoryAt(key: string): seq<Entry>
      reads this`histories
    {
      if key in histories then histories[key] else []
    }

    /** `JSON.parse(localStorage.getItem(SETTINGS_KEY)) || {}` */
    function StoredSettings(): Settings
      reads this`settings
    {
      if settings.Some? then settings.value else NoSettings
    }

    method SetBalance(key: string, amount: int)
      modifies this`balances
      ensures balances == old(balances)[key := amount]
    {
      balances := balances[key := amount];
    }

    method PushHistory(key: string, e: Entry)
      modifies this`histories
      ensures histories == old(histories)[key := old(HistoryAt(key)) + [e]]
    {
      histories := histories[key := HistoryAt(key) + [e]];
    }

    /**
     * `updateMainUserList`: the first user with the same username is
     * replaced; without one the list is left alone.
     */
    method UpdateMainUserList(u: User)
      modifies this`users
      ensures |users| == |old(users)|
      ensures match UserIndex(old(users), u.username)
              case None => users == old(users)
              case Some(i) => users == old(users)[i := u]
    {
      var i := UserIndex(users, u.username);
      if i.Some? {
        users := users[i.value := u];
      }
    }
  }
}
