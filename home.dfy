/**
 * The user dashboard (index.js): the greeting, the balance, the
 * subscription status, the lock badges on the feature cards, the click
 * gate that sends an unsubscribed user to the plans, and the automatic
 * opening of a feature after a purchase.
 */
module Home {
  import opened Common
  import opened Store
  import Plans

  // ------------------------------------------------------------------
  // The subscription
  // ------------------------------------------------------------------

  /** The stored subscription while `now` has not passed its expiry (`Date.now() > sub.expiry` ends it). */
  function LiveSubscription(stored: Option<Subscription>, now: int): (s: Option<Subscription>)
    ensures s.Some? <==> stored.Some? && now <= stored.value.expiry
    ensures s.Some? ==> s == stored
  {
    if stored.None? || now > stored.value.expiry then None else stored
  }

  /**
   * `getSubscription`: an expired or missing record is removed and reads
   * as none; a live one is returned and kept.
   */
  method GetSubscription(st: Store, now: int) returns (sub: Option<Subscription>)
    modifies st`subscription
    ensures sub == LiveSubscription(old(st.subscription), now)
    ensures st.subscription == sub
  {
    if st.subscription.None? || now > st.subscription.value.expiry {
      st.subscription := None;
      return None;
    }
    sub := st.subscription;
  }

  /** `isSubscribed`: a live subscription exists. */
  method IsSubscribed(st: Store, now: int) returns (subscribed: bool)
    modifies st`subscription
    ensures subscribed <==> LiveSubscription(old(st.subscription), now).Some?
    ensures st.subscription == LiveSubscription(old(st.subscription), now)
  {
    var sub := GetSubscription(st, now);
    subscribed := sub.Some?;
  }

  /** Reading the subscription a second time finds what the first read left. */
  lemma LiveSubscriptionIdempotent(stored: Option<Subscription>, now: int)
    ensures LiveSubscription(LiveSubscription(stored, now), now) == LiveSubscription(stored, now)
  {
  }

  /** A subscription still live at a later time was live at every earlier one. */
  lemma LiveSubscriptionEarlier(stored: Option<Subscription>, now: int, later: int)
    requires now <= later
    ensures LiveSubscription(stored, later).Some? ==> LiveSubscription(stored, now) == stored
  {
  }

  /**
   * A plan bought at `bought` unlocks the features through the whole
   * number of days the plan names, expiry included, and not a moment
   * after.
   */
  lemma BoughtPlanIsLive(plan: string, price: Price, txnId: string, bought: int, now: int)
    requires bought <= now
    ensures var sub := Subscription(plan, price, txnId, bought, Plans.ExpiryOf(plan, bought));
      LiveSubscription(Some(sub), now).Some? <==> now - bought <= Plans.PlanDays(plan) * Plans.DayMs
  {
  }

  // ------------------------------------------------------------------
  // The greeting
  // ------------------------------------------------------------------

  /** `name.charAt(0).toUpperCase() + name.slice(1)` */
  function Capitalized(name: string): (r: string)
    ensures |r| == |name|
    ensures name != [] ==> r[0] == UpperChar(name[0]) && r[1..] == name[1..]
  {
    if name == [] then [] else [UpperChar(name[0])] + name[1..]
  }

  /** Upper-casing a letter and lower-casing it again gives the lower-cased letter. */
  lemma LowerOfUpper(c: char)
    ensures LowerChar(UpperChar(c)) == LowerChar(c)
  {
  }

  /**
   * The greeting, `getCurrentUsername` capitalised, names the session user
   * (or `Guest`): it differs from that name only in case.
   */
  lemma GreetingNamesUser(session: Option<User>)
    ensures Lower(Capitalized(SessionName(session, "Guest"))) == Lower(SessionName(session, "Guest"))
  {
    var name := SessionName(session, "Guest");
    if name != [] {
      LowerOfUpper(name[0]);
      var r := Capitalized(name);
      assert forall i :: 1 <= i < |r| ==> r[i] == name[i];
    }
  }

  // ------------------------------------------------------------------
  // The feature cards
  // ------------------------------------------------------------------

  /** The two cards `refreshFeatureLocks` never touches. */
  predicate Unlockable(feature: string)
  {
    feature == "Telegram Channel" || feature == "Contact Us"
  }

  /**
   * What `refreshFeatureLocks` does to one card: `Some(true)` locks it,
   * `Some(false)` unlocks it, `None` leaves it (the two open cards, and
   * cards without a lock badge).
   */
  function LockState(feature: string, hasBadge: bool, subscribed: bool): (r: Option<bool>)
    ensures r.None? <==> Unlockable(feature) || !hasBadge
    ensures r.Some? ==> (r.value <==> !subscribed)
  {
    if Unlockable(feature) || !hasBadge then None else Some(!subscribed)
  }

  /** A card as the page finds it: its feature name, its link and whether it is external. */
  datatype Card = Card(feature: string, href: string, external: bool, hasBadge: bool)

  /** `refreshFeatureLocks` over the cards, in page order. */
  method RefreshFeatureLocks(cards: seq<Card>, subscribed: bool) returns (locks: seq<Option<bool>>)
    ensures |locks| == |cards|
    ensures forall k :: 0 <= k < |cards| ==> locks[k] == LockState(cards[k].feature, cards[k].hasBadge, subscribed)
  {
    locks := [];
    var i := 0;
    while i < |cards|
      invariant 0 <= i <= |cards|
      invariant |locks| == i
      invariant forall k :: 0 <= k < i ==> locks[k] == LockState(cards[k].feature, cards[k].hasBadge, subscribed)
    {
      locks := locks + [LockState(cards[i].feature, cards[i].hasBadge, subscribed)];
      i := i + 1;
    }
  }

  datatype ClickOutcome =
    | UnderConstruction        // the link is `#`
    | Follow                   // the browser follows the link
    | ToPlans(link: string)    // `subscription.html?redirect=<feature>`

  /** The click handler of a feature link, in order: a `#` link, an external link, the subscription gate. */
  function FeatureClick(c: Card, subscribed: bool): (r: ClickOutcome)
    ensures r == UnderConstruction <==> c.href == "#"
    ensures r.ToPlans? <==> c.href != "#" && !c.external && !subscribed
    ensures r.ToPlans? ==> r.link == "subscription.html?redirect=" + c.feature
  {
    if c.href == "#" then UnderConstruction
    else if c.external then Follow
    else if !subscribed then ToPlans("subscription.html?redirect=" + c.feature)
    else Follow
  }

  /** A card shown with a lock is one whose click sends the user to the plans. */
  lemma LockedCardGoesToPlans(c: Card, subscribed: bool)
    requires LockState(c.feature, c.hasBadge, subscribed) == Some(true)
    requires c.href != "#" && !c.external
    ensures FeatureClick(c, subscribed).ToPlans?
  {
  }

  /** A subscriber's click is never gated. */
  lemma SubscriberNeverGated(c: Card)
    ensures !FeatureClick(c, true).ToPlans?
  {
  }

  /** The first card of the feature `feature` (`querySelector`), if any. */
  function FindCard(cards: seq<Card>, feature: string): (r: Option<nat>)
    ensures r.Some? ==> r.value < |cards| && cards[r.value].feature == feature &&
                        forall k :: 0 <= k < r.value ==> cards[k].feature != feature
    ensures r.None? ==> forall k :: 0 <= k < |cards| ==> cards[k].feature != feature
  {
    if cards == [] then None
    else if cards[0].feature == feature then Some(0)
    else match FindCard(cards[1..], feature)
      case None => None
      case Some(i) => Some(i + 1)
  }

  /**
   * `autoOpenFeature`: with an `open` parameter and a live subscription,
   * the page goes to the link of the first card of that feature.
   */
  function AutoOpen(open: Option<string>, subscribed: bool, cards: seq<Card>): (target: Option<string>)
    ensures target.Some? <==> open.Some? && subscribed && FindCard(cards, open.value).Some?
    ensures target.Some? ==> exists k :: 0 <= k < |cards| && cards[k].feature == open.value && cards[k].href == target.value
  {
    if open.Some? && subscribed then
      match FindCard(cards, open.value)
      case None => None
      case Some(k) => Some(cards[k].href)
    else None
  }
}
