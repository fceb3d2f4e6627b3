/**
 * The daily sweep that reminds buyers of gift vouchers about to expire
 * (functions/voucher-expiry-reminder.js).
 *
 * The sweep selects active vouchers expiring within seven days, computes the
 * whole days left (rounded up) and the whole days since the last reminder
 * (rounded down), picks a reminder tier by a first-match policy, hands a
 * composed message to the mail queue and records the reminder on the voucher.
 */
module VoucherReminder {
  import opened Common

  const LOOKAHEAD_DAYS: int := 7
  const DEFAULT_VOUCHER_VALUE: int := 50
  const DEFAULT_BUYER_NAME: string := "Cher client"
  const DEFAULT_SHOP_NAME: string := "la boutique"

  const URGENT_SUBJECT_TODAY: string := "⚠️ URGENT : Votre bon cadeau expire aujourd'hui !"
  const URGENT_SUBJECT_TOMORROW: string := "⚠️ URGENT : Votre bon cadeau expire demain !"

  /** The reminder tiers, by ascending urgency; stored as '7days', '3days', 'urgent'. */
  datatype Tier = SevenDays | ThreeDays | Urgent

  function TierName(t: Tier): string {
    match t
    case SevenDays => "7days"
    case ThreeDays => "3days"
    case Urgent => "urgent"
  }

  function Rank(t: Tier): nat {
    match t
    case SevenDays => 0
    case ThreeDays => 1
    case Urgent => 2
  }

  /**
   * A voucher document. Times are milliseconds. An empty `boutiqueId` or
   * `shopId` is a missing (falsy) reference; `expiry` is None when the
   * document has no expiry date.
   */
  datatype Voucher = Voucher(
    id: string,
    code: string,
    value: Option<int>,
    expiry: Option<int>,
    status: string,
    buyerId: string,
    boutiqueId: string,
    shopId: string,
    lastReminderSent: Option<int>,
    lastReminderType: Option<Tier>,
    daysAtReminder: Option<int>)

  /** The store query: status 'active' and expiry within [now, now + 7 days]. */
  predicate Selected(v: Voucher, now: int) {
    && v.status == "active"
    && v.expiry.Some?
    && now <= v.expiry.value <= now + LOOKAHEAD_DAYS * DAY_MS
  }

  /** Whole days left before expiry, rounded up. */
  function DaysUntilExpiry(v: Voucher, now: int): int
    requires v.expiry.Some?
  {
    CeilDays(v.expiry.value - now)
  }

  /** Whole days since the last reminder, rounded down; None when never reminded. */
  function DaysSinceLastReminder(v: Voucher, now: int): (e: Option<int>)
    ensures e.Some? <==> v.lastReminderSent.Some?
    ensures e.Some? ==> e.value * DAY_MS <= now - v.lastReminderSent.value < (e.value + 1) * DAY_MS
  {
    match v.lastReminderSent
    case None => None
    case Some(sent) => Some(FloorDays(now - sent))
  }

  /**
   * The first-match tier policy. `since` is None when no reminder was ever sent.
   * The source tests `!daysSinceLastReminder`, which also holds for 0 elapsed
   * days, so a reminder sent less than a whole day ago blocks neither the
   * urgent nor the three-day rule.
   */
  function ChooseTier(d: int, since: Option<int>): (t: Option<Tier>)
    // a voucher never reminded gets the tier its days left call for
    ensures since.None? && d <= 1 ==> t == Some(Urgent)
    ensures since.None? && 1 < d <= 3 ==> t == Some(ThreeDays)
    ensures since.None? && 3 < d <= 7 ==> t == Some(SevenDays)
    // the seven-day reminder is first contact only
    ensures since.Some? ==> t != Some(SevenDays)
    // a reminder one or two days ago silences the three-day window
    ensures since.Some? && 1 <= since.value <= 2 && 1 < d <= 3 ==> t.None?
    // zero elapsed days does not block an urgent reminder
    ensures since == Some(0) && d <= 1 ==> t == Some(Urgent)
    // each tier only inside its own window
    // after the cooldown the reminder comes back
    ensures since.Some? && since.value >= 1 && d <= 1 ==> t == Some(Urgent)
    ensures since.Some? && since.value >= 3 && 1 < d <= 3 ==> t == Some(ThreeDays)
    // each tier exactly when its window and its cooldown allow it, in order
    ensures t == Some(Urgent) <==> d <= 1 && (since.None? || since.value >= 0)
    ensures t == Some(ThreeDays) <==>
      && (d > 1 || (since.Some? && since.value < 0))
      && d <= 3 && (since.None? || since.value == 0 || since.value >= 3)
    ensures t == Some(SevenDays) <==> 3 < d <= 7 && since.None?
    ensures t == Some(Urgent) ==> d <= 1
    ensures t == Some(ThreeDays) ==> 1 < d <= 3
    ensures d > 7 ==> t.None?
  {
    var unblocked := since.None? || since.value == 0;
    if d <= 1 && (unblocked || since.value >= 1) then Some(Urgent)
    else if d <= 3 && (unblocked || since.value >= 3) then Some(ThreeDays)
    else if d <= 7 && since.None? then Some(SevenDays)
    else None
  }

  /** The decision for one voucher of the store at time `now`. */
  function Decide(v: Voucher, now: int): (t: Option<Tier>)
    ensures !Selected(v, now) ==> t.None?
  {
    if Selected(v, now) then ChooseTier(DaysUntilExpiry(v, now), DaysSinceLastReminder(v, now))
    else None
  }

  /** The voucher after the sweep: the reminder bookkeeping when a tier was chosen. */
  function Remind(v: Voucher, now: int): (r: Voucher)
    ensures Decide(v, now).None? ==> r == v
    ensures Decide(v, now).Some? ==>
      && r.lastReminderSent == Some(now)
      && r.lastReminderType == Decide(v, now)
      && r.daysAtReminder == Some(DaysUntilExpiry(v, now))
    ensures r.id == v.id && r.expiry == v.expiry && r.status == v.status && r.code == v.code
    ensures r.value == v.value && r.buyerId == v.buyerId
    ensures r.boutiqueId == v.boutiqueId && r.shopId == v.shopId
  {
    match Decide(v, now)
    case None => v
    case Some(t) =>
      v.(lastReminderSent := Some(now), lastReminderType := Some(t),
         daysAtReminder := Some(DaysUntilExpiry(v, now)))
  }

  // ---------------------------------------------------------------------------
  // Composing and dispatching one reminder (sendReminderEmail)
  // ---------------------------------------------------------------------------

  /** A buyer's user document; an empty name is a missing one. */
  datatype Buyer = Buyer(email: Option<string>, name: string)

  /** An establishment document; `userId` is its owner. */
  datatype Shop = Shop(id: string, userId: string, name: string, usageConditions: string)

  datatype ShopInfo = ShopInfo(name: string, usageConditions: string)

  /** The establishment document with the given id, if any. */
  function FindShopById(shops: seq<Shop>, id: string): (r: Option<Shop>)
    ensures r.Some? ==> r.value in shops && r.value.id == id
    ensures r.None? ==> forall s :: s in shops ==> s.id != id
  {
    if shops == [] then None
    else if shops[0].id == id then Some(shops[0])
    else FindShopById(shops[1..], id)
  }

  /** The first establishment owned by the given user, if any (a query with limit 1). */
  function FindShopByUser(shops: seq<Shop>, userId: string): (r: Option<Shop>)
    ensures r.Some? ==> r.value in shops && r.value.userId == userId
    ensures r.None? ==> forall s :: s in shops ==> s.userId != userId
  {
    if shops == [] then None
    else if shops[0].userId == userId then Some(shops[0])
    else FindShopByUser(shops[1..], userId)
  }

  function InfoOf(s: Shop): ShopInfo {
    ShopInfo(OrDefault(s.name, DEFAULT_SHOP_NAME), s.usageConditions)
  }

  /**
   * Shop name and usage conditions: through `boutique_id` when set, else
   * through the older `shop_id` owner reference, else the defaults.
   */
  function ShopInfoFor(v: Voucher, shops: seq<Shop>): (r: ShopInfo)
    ensures r.name != ""
    ensures v.boutiqueId == "" && v.shopId == "" ==> r == ShopInfo(DEFAULT_SHOP_NAME, "")
    ensures v.boutiqueId != "" && FindShopById(shops, v.boutiqueId).None? ==> r == ShopInfo(DEFAULT_SHOP_NAME, "")
    ensures v.boutiqueId != "" && FindShopById(shops, v.boutiqueId).Some? ==>
      var shop := FindShopById(shops, v.boutiqueId).value;
      && r.name == OrDefault(shop.name, DEFAULT_SHOP_NAME)
      && r.usageConditions == shop.usageConditions
    // the legacy owner reference is used only without a boutique id
    ensures v.boutiqueId == "" && v.shopId != "" && FindShopByUser(shops, v.shopId).None? ==>
      r == ShopInfo(DEFAULT_SHOP_NAME, "")
    ensures v.boutiqueId == "" && v.shopId != "" && FindShopByUser(shops, v.shopId).Some? ==>
      var shop := FindShopByUser(shops, v.shopId).value;
      && r.name == OrDefault(shop.name, DEFAULT_SHOP_NAME)
      && r.usageConditions == shop.usageConditions
  {
    if v.boutiqueId != "" then
      match FindShopById(shops, v.boutiqueId)
      case Some(s) => InfoOf(s)
      case None => ShopInfo(DEFAULT_SHOP_NAME, "")
    else if v.shopId != "" then
      match FindShopByUser(shops, v.shopId)
      case Some(s) => InfoOf(s)
      case None => ShopInfo(DEFAULT_SHOP_NAME, "")
    else ShopInfo(DEFAULT_SHOP_NAME, "")
  }

  /**
   * The mail document of one reminder, reduced to its interpolated values and
   * its conditional blocks: the urgency banner, the expiry warning and the
   * usage-conditions block are present or absent.
   */
  datatype ReminderEmail = ReminderEmail(
    to: string,
    subject: string,
    buyerName: string,
    voucherCode: string,
    voucherValue: int,
    shopName: string,
    urgencyColor: string,
    urgencyMessage: string,
    urgencyBanner: Option<string>,
    expiryWarning: Option<string>,
    usageConditions: Option<string>)

  function Subject(t: Tier, d: int): string {
    match t
    case Urgent => if d == 0 then URGENT_SUBJECT_TODAY else URGENT_SUBJECT_TOMORROW
    case ThreeDays => "⏰ Rappel : Votre bon cadeau expire dans " + IntToString(d) + " jours"
    case SevenDays => "📅 Information : Votre bon cadeau expire dans " + IntToString(d) + " jours"
  }

  function UrgencyColor(t: Tier): string {
    match t
    case Urgent => "#ff0000"
    case ThreeDays => "#ff6b35"
    case SevenDays => "#ff9500"
  }

  function UrgencyMessage(t: Tier, d: int): string {
    match t
    case Urgent => if d == 0 then "🔴 Ce bon expire AUJOURD'HUI !" else "🟠 Ce bon expire DEMAIN !"
    case ThreeDays => "⏰ Plus que " + IntToString(d) + " jours pour utiliser votre bon !"
    case SevenDays => "📅 Il vous reste " + IntToString(d) + " jours pour profiter de votre bon cadeau."
  }

  function ExpiryWarning(d: int): string {
    if d == 0 then "expire aujourd'hui" else "expire demain"
  }

  /** `voucher.value || 50`. */
  function VoucherValue(v: Voucher): int {
    match v.value
    case Some(x) => if x != 0 then x else DEFAULT_VOUCHER_VALUE
    case None => DEFAULT_VOUCHER_VALUE
  }

  /** The reminder message for a buyer whose document and address were found. */
  function ComposeReminder(v: Voucher, d: int, t: Tier, buyer: Buyer, shop: ShopInfo): (m: ReminderEmail)
    requires buyer.email.Some?
    ensures m.to == buyer.email.value
    ensures m.buyerName == (if buyer.name != "" then buyer.name else DEFAULT_BUYER_NAME)
    ensures m.voucherValue == (if v.value.Some? && v.value.value != 0 then v.value.value else DEFAULT_VOUCHER_VALUE)
    ensures m.voucherCode == v.code && m.shopName == shop.name
    ensures m.urgencyBanner.Some? <==> t == Urgent
    ensures m.urgencyBanner.Some? ==> m.urgencyBanner.value == m.urgencyMessage
    ensures m.expiryWarning.Some? <==> t == Urgent
    ensures m.usageConditions.Some? <==> shop.usageConditions != ""
    ensures t == Urgent ==> (m.subject == URGENT_SUBJECT_TODAY <==> d == 0)
    ensures t == Urgent ==> (m.subject == URGENT_SUBJECT_TOMORROW <==> d != 0)
  {
    var message := UrgencyMessage(t, d);
    ReminderEmail(
      buyer.email.value,
      Subject(t, d),
      OrDefault(buyer.name, DEFAULT_BUYER_NAME),
      v.code,
      VoucherValue(v),
      shop.name,
      UrgencyColor(t),
      message,
      if t == Urgent then Some(message) else None,
      if t == Urgent then Some(ExpiryWarning(d)) else None,
      if shop.usageConditions != "" then Some(shop.usageConditions) else None)
  }

  /**
   * sendReminderEmail: the mail document queued for one voucher, or None. It
   * never fails: a missing buyer returns early, and any error (`fails`: a
   * lookup or the queue write throwing, or a missing address that the store
   * refuses) is caught.
   */
  function SendReminderEmail(v: Voucher, d: int, t: Tier, users: map<string, Buyer>,
                             shops: seq<Shop>, fails: bool): (m: Option<ReminderEmail>)
    ensures m.Some? <==>
      v.buyerId != "" && v.buyerId in users && users[v.buyerId].email.Some? && !fails
    ensures m.Some? ==> m.value == ComposeReminder(v, d, t, users[v.buyerId], ShopInfoFor(v, shops))
  {
    if v.buyerId == "" || v.buyerId !in users || fails then None
    else
      var buyer := users[v.buyerId];
      if buyer.email.None? then None
      else Some(ComposeReminder(v, d, t, buyer, ShopInfoFor(v, shops)))
  }

  // ---------------------------------------------------------------------------
  // The sweep
  // ---------------------------------------------------------------------------

  /** The three summary lists of the sweep. */
  datatype Summary = Summary(sevenDays: seq<Voucher>, threeDays: seq<Voucher>, oneDayOrLess: seq<Voucher>)

  function Last<T>(s: seq<T>): T
    requires s != []
  {
    s[|s| - 1]
  }

  function Front<T>(s: seq<T>): seq<T>
    requires s != []
  {
    s[..|s| - 1]
  }

  /** The vouchers, in order, for which the sweep chooses tier `t`. */
  function Reminded(vs: seq<Voucher>, now: int, t: Tier): (r: seq<Voucher>)
    ensures |r| <= |vs|
    decreases |vs|
  {
    if vs == [] then []
    else Reminded(Front(vs), now, t) + (if Decide(Last(vs), now) == Some(t) then [Last(vs)] else [])
  }

  /** The list of tier `t` holds exactly the vouchers for which `t` is chosen. */
  lemma {:induction false} RemindedMembers(vs: seq<Voucher>, now: int, t: Tier)
    ensures forall v :: v in Reminded(vs, now, t) <==> v in vs && Decide(v, now) == Some(t)
    decreases |vs|
  {
    if vs != [] {
      RemindedMembers(Front(vs), now, t);
      assert vs == Front(vs) + [Last(vs)];
    }
  }

  /** The vouchers, in order, that get any reminder. */
  function Chosen(vs: seq<Voucher>, now: int): (r: seq<Voucher>)
    ensures forall v :: v in r <==> v in vs && Decide(v, now).Some?
    decreases |vs|
  {
    if vs == [] then []
    else Chosen(Front(vs), now) + (if Decide(Last(vs), now).Some? then [Last(vs)] else [])
  }

  /** What the reminder of voucher `v` puts in the mail queue, if anything. */
  function MailFor(v: Voucher, now: int, users: map<string, Buyer>, shops: seq<Shop>,
                   failing: set<string>): seq<ReminderEmail>
  {
    match Decide(v, now)
    case None => []
    case Some(t) =>
      match SendReminderEmail(v, DaysUntilExpiry(v, now), t, users, shops, v.id in failing)
      case Some(m) => [m]
      case None => []
  }

  /** The mail documents queued by a sweep over `vs`, in order. */
  function Outbox(vs: seq<Voucher>, now: int, users: map<string, Buyer>, shops: seq<Shop>,
                  failing: set<string>): seq<ReminderEmail>
    decreases |vs|
  {
    if vs == [] then []
    else Outbox(Front(vs), now, users, shops, failing) + MailFor(Last(vs), now, users, shops, failing)
  }

  /**
   * The body of the sweep for one voucher of the collection: the query test,
   * the day arithmetic, the tier, the dispatch and the bookkeeping update.
   */
  method ProcessVoucher(v: Voucher, now: int, users: map<string, Buyer>, shops: seq<Shop>,
                        failing: set<string>)
    returns (tier: Option<Tier>, mail: seq<ReminderEmail>, updated: Voucher)
    ensures tier == Decide(v, now)
    ensures mail == MailFor(v, now, users, shops, failing)
    ensures updated == Remind(v, now)
  {
    tier, mail, updated := None, [], v;
    if Selected(v, now) {
      var d := DaysUntilExpiry(v, now);
      tier := ChooseTier(d, DaysSinceLastReminder(v, now));
      if tier.Some? {
        var sent := SendReminderEmail(v, d, tier.value, users, shops, v.id in failing);
        if sent.Some? {
          mail := [sent.value];
        }
        updated := v.(lastReminderSent := Some(now), lastReminderType := tier,
                      daysAtReminder := Some(d));
      }
    }
  }

  /**
   * sendVoucherExpiryReminders. `vouchers` is the voucher collection; the
   * store query is the `Selected` test inside the loop. `failing` holds the
   * ids of vouchers whose dispatch throws. Every chosen voucher gets its
   * bookkeeping, whether or not its mail was queued.
   */
  method SendVoucherExpiryReminders(vouchers: array<Voucher>, now: int, users: map<string, Buyer>,
                                    shops: seq<Shop>, failing: set<string>)
    returns (reminders: Summary, outbox: seq<ReminderEmail>)
    modifies vouchers
    ensures forall i :: 0 <= i < vouchers.Length ==> vouchers[i] == Remind(old(vouchers[i]), now)
    ensures reminders == Summary(Reminded(old(vouchers[..]), now, SevenDays),
                                 Reminded(old(vouchers[..]), now, ThreeDays),
                                 Reminded(old(vouchers[..]), now, Urgent))
    ensures outbox == Outbox(old(vouchers[..]), now, users, shops, failing)
  {
    ghost var initial := vouchers[..];
    var sevenDays: seq<Voucher> := [];
    var threeDays: seq<Voucher> := [];
    var oneDayOrLess: seq<Voucher> := [];
    outbox := [];
    var i := 0;
    while i < vouchers.Length
      invariant 0 <= i <= vouchers.Length
      invariant forall k :: 0 <= k < i ==> vouchers[k] == Remind(initial[k], now)
      invariant forall k :: i <= k < vouchers.Length ==> vouchers[k] == initial[k]
      invariant sevenDays == Reminded(initial[..i], now, SevenDays)
      invariant threeDays == Reminded(initial[..i], now, ThreeDays)
      invariant oneDayOrLess == Reminded(initial[..i], now, Urgent)
      invariant outbox == Outbox(initial[..i], now, users, shops, failing)
    {
      var v := vouchers[i];
      assert initial[..i + 1] == initial[..i] + [v];
      SweepStep(initial[..i], v, now, users, shops, failing);
      var tier, mail, updated := ProcessVoucher(v, now, users, shops, failing);
      if tier == Some(Urgent) {
        oneDayOrLess := oneDayOrLess + [v];
      } else if tier == Some(ThreeDays) {
        threeDays := threeDays + [v];
      } else if tier == Some(SevenDays) {
        sevenDays := sevenDays + [v];
      }
      outbox := outbox + mail;
      ghost var before := vouchers[..];
      vouchers[i] := updated;
      assert vouchers[..] == before[i := updated];
      i := i + 1;
    }
    assert initial[..vouchers.Length] == initial;
    reminders := Summary(sevenDays, threeDays, oneDayOrLess);
  }

  /** One more voucher extends each summary list and the outbox by its own contribution. */
  lemma SweepStep(vs: seq<Voucher>, v: Voucher, now: int, users: map<string, Buyer>,
                  shops: seq<Shop>, failing: set<string>)
    ensures forall t :: (Reminded(vs + [v], now, t) ==
      Reminded(vs, now, t) + (if Decide(v, now) == Some(t) then [v] else []))
    ensures Outbox(vs + [v], now, users, shops, failing) ==
      Outbox(vs, now, users, shops, failing) + MailFor(v, now, users, shops, failing)
  {
    assert Front(vs + [v]) == vs;
  }

  // ---------------------------------------------------------------------------
  // Properties of the policy and the sweep
  // ---------------------------------------------------------------------------

  /** A voucher the query selects has 0 to 7 days left. */
  lemma DaysInWindow(v: Voucher, now: int)
    requires Selected(v, now)
    ensures 0 <= DaysUntilExpiry(v, now) <= LOOKAHEAD_DAYS
  {
    var x := v.expiry.value - now;
    var d := DaysUntilExpiry(v, now);
    assert (d - 1) * DAY_MS < x <= d * DAY_MS;
    assert 0 <= x <= 7 * DAY_MS;
  }

  /** A never-reminded selected voucher is always reminded; its tier depends on the days left alone. */
  lemma FirstContactTier(v: Voucher, now: int)
    requires Selected(v, now) && v.lastReminderSent.None?
    ensures var d := DaysUntilExpiry(v, now);
      Decide(v, now) == Some(if d <= 1 then Urgent else if d <= 3 then ThreeDays else SevenDays)
  {
    DaysInWindow(v, now);
  }

  /** Rounding the days left up is monotone: later means no more days left. */
  lemma CeilDaysMonotone(x: int, y: int)
    requires x <= y
    ensures CeilDays(x) <= CeilDays(y)
  {
    var a, b := CeilDays(x), CeilDays(y);
    assert (a - 1) * DAY_MS < b * DAY_MS;
  }

  /**
   * Tier escalation: once a voucher was reminded at `sent`, any later sweep
   * chooses a tier at least as urgent, and never the seven-day tier again.
   */
  lemma TierNeverRegresses(v: Voucher, sent: int, later: int)
    requires Decide(v, sent).Some?
    requires sent <= later
    ensures var again := Decide(Remind(v, sent), later);
      again.Some? ==> again.value != SevenDays && Rank(again.value) >= Rank(Decide(v, sent).value)
  {
    var r := Remind(v, sent);
    var first := Decide(v, sent).value;
    var again := Decide(r, later);
    if again.Some? {
      var d0 := DaysUntilExpiry(v, sent);
      var d1 := DaysUntilExpiry(r, later);
      CeilDaysMonotone(v.expiry.value - later, v.expiry.value - sent);
      assert d1 <= d0;
      var since := DaysSinceLastReminder(r, later);
      assert since.Some? && since.value >= 0;
      if first == Urgent {
        assert d0 <= 1;
        assert again.value == Urgent;
      } else if first == ThreeDays {
        assert d0 <= 3;
        assert again.value != SevenDays;
      }
    }
  }

  /**
   * Running the sweep twice at the same instant: because zero elapsed days
   * counts as "no reminder yet", every urgent and three-day reminder is sent
   * again; only the seven-day reminder is not repeated.
   */
  lemma SameInstantRerun(v: Voucher, now: int)
    ensures Decide(Remind(v, now), now) ==
      if Decide(v, now) == Some(SevenDays) then None else Decide(v, now)
  {
    var t := Decide(v, now);
    if t.Some? {
      var r := Remind(v, now);
      assert DaysSinceLastReminder(r, now) == Some(0);
      assert DaysUntilExpiry(r, now) == DaysUntilExpiry(v, now);
      if t.value == SevenDays {
        assert DaysUntilExpiry(v, now) > 3;
      }
    }
  }

  /**
   * The summary lists partition the reminded vouchers: their lengths add up
   * to the number of vouchers reminded, and no voucher sits in two lists.
   */
  lemma {:induction false} SummaryPartition(vs: seq<Voucher>, now: int)
    ensures |Reminded(vs, now, SevenDays)| + |Reminded(vs, now, ThreeDays)| + |Reminded(vs, now, Urgent)|
            == |Chosen(vs, now)|
    ensures forall v, t1, t2 :: v in Reminded(vs, now, t1) && v in Reminded(vs, now, t2) ==> t1 == t2
    decreases |vs|
  {
    if vs != [] {
      SummaryPartition(Front(vs), now);
    }
    RemindedMembers(vs, now, SevenDays);
    RemindedMembers(vs, now, ThreeDays);
    RemindedMembers(vs, now, Urgent);
  }

  /** At most one mail is queued per reminded voucher. */
  lemma {:induction false} OutboxBounded(vs: seq<Voucher>, now: int, users: map<string, Buyer>,
                                         shops: seq<Shop>, failing: set<string>)
    ensures |Outbox(vs, now, users, shops, failing)| <= |Chosen(vs, now)|
    decreases |vs|
  {
    if vs != [] {
      OutboxBounded(Front(vs), now, users, shops, failing);
    }
  }

  /** When every buyer resolves to an address and nothing fails, every reminded voucher gets its mail. */
  lemma {:induction false} OutboxComplete(vs: seq<Voucher>, now: int, users: map<string, Buyer>,
                                          shops: seq<Shop>)
    requires forall v :: v in vs ==> v.buyerId != "" && v.buyerId in users && users[v.buyerId].email.Some?
    ensures |Outbox(vs, now, users, shops, {})| == |Chosen(vs, now)|
    decreases |vs|
  {
    if vs != [] {
      OutboxComplete(Front(vs), now, users, shops);
    }
  }
}
