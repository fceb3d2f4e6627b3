/**
 * The payment-provider webhook and the manual payment confirmation
 * (functions/stripe-webhook.js). A verified `checkout.session.completed`
 * event updates the buyer's establishment according to the purchase type,
 * may add a welcome gift voucher and ask for a recurring subscription, and
 * marks the stored checkout-session document as processed. Every verified
 * event is acknowledged, whatever the handler did; an error inside the
 * handler stops it after the writes already made.
 */
module StripeWebhook {
  import opened Common

  const CHECKOUT_COMPLETED: string := "checkout.session.completed"
  const FIRST_YEAR_ANNUAL: string := "first_year_annual"
  const FIRST_YEAR_MONTHLY: string := "first_year_monthly"
  const CATEGORY_SLOT: string := "additional_category_slot"
  const SLOTS_KEY: string := "enterprise_category_slots"
  /** `enterprise_category_slots || 2`. */
  const DEFAULT_SLOTS: int := 2
  const DEFAULT_SUBSCRIPTION: string := "monthly"
  const WELCOME_PREFIX: string := "WELCOME-"
  const WELCOME_AMOUNT: int := 50
  const SESSION_PREFIX: string := "cs_"
  /** 365 days, in milliseconds and in seconds. */
  const YEAR_MS: int := 365 * DAY_MS
  const YEAR_SECONDS: int := 365 * 24 * 60 * 60

  datatype Establishment = Establishment(id: string, fields: Doc)

  /** A document of the `gift_vouchers` collection; `createdAt` is the server timestamp. */
  datatype GiftVoucher = GiftVoucher(
    establishmentId: string,
    amount: int,
    voucherType: string,
    status: string,
    createdAt: Value,
    expiresAt: int,
    code: string)

  /** A subscription the handler asks the payment provider to create (trial end in seconds). */
  datatype SubscriptionRequest = SubscriptionRequest(customer: Value, price: Value, trialEnd: int, establishmentId: string)

  /**
   * The documents the handlers read and write: the establishments in query
   * order, the gift vouchers, the checkout-session documents keyed by
   * (user id, document id), and the subscription requests sent so far.
   */
  datatype Store = Store(
    establishments: seq<Establishment>,
    giftVouchers: seq<GiftVoucher>,
    checkoutSessions: map<(string, string), Doc>,
    subscriptionRequests: seq<SubscriptionRequest>)

  /** A webhook event whose signature was verified; `payload` is the event's data object. */
  datatype Event = Event(eventType: string, payload: Doc)

  /** HTTP 400 on a failed signature check, otherwise `{received: true}`. */
  datatype WebhookResponse = BadSignature | Received

  /** The store after a handler ran, and whether it stopped on an error. */
  datatype Run = Run(store: Store, threw: bool)

  /** The callable's outcomes: success, or the error code it throws. */
  datatype CallResult = Confirmed | Unauthenticated | Internal

  // ---------------------------------------------------------------------------
  // Values the handlers compute
  // ---------------------------------------------------------------------------

  /** The first establishment whose `user_id` equals the user id (a query with limit 1). */
  function FirstEstablishment(ests: seq<Establishment>, userId: Value): (r: Option<nat>)
    ensures r.Some? ==> r.value < |ests| && Get(ests[r.value].fields, "user_id") == userId
    ensures r.Some? ==> forall j :: 0 <= j < r.value ==> Get(ests[j].fields, "user_id") != userId
    ensures r.None? ==> forall j :: 0 <= j < |ests| ==> Get(ests[j].fields, "user_id") != userId
  {
    if ests == [] then None
    else if Get(ests[0].fields, "user_id") == userId then Some(0)
    else match FirstEstablishment(ests[1..], userId)
      case Some(j) => Some(j + 1)
      case None => None
  }

  /** The subscription type of a first-year purchase; None for any other purchase type. */
  function SubscriptionType(purchaseType: Value): (r: Option<string>)
    ensures r == Some("annual") <==> purchaseType == Str(FIRST_YEAR_ANNUAL)
    ensures r == Some("monthly") <==> purchaseType == Str(FIRST_YEAR_MONTHLY)
    ensures r.Some? ==> r.value == "annual" || r.value == "monthly"
  {
    if purchaseType == Str(FIRST_YEAR_ANNUAL) then Some("annual")
    else if purchaseType == Str(FIRST_YEAR_MONTHLY) then Some("monthly")
    else None
  }

  /** The establishment update written for a first-year purchase. */
  function FirstYearUpdate(session: Doc, subscriptionType: string, now: int): (r: Doc)
    ensures r.Keys == {"has_accepted_contract", "has_active_subscription", "subscription_status",
      "subscription_start_date", "subscription_end_date", "payment_option", "stripe_session_id",
      "stripe_customer_id", "temporary_mode"}
  {
    map[
      "has_accepted_contract" := Bool(true),
      "has_active_subscription" := Bool(true),
      "subscription_status" := Str(subscriptionType),
      "subscription_start_date" := ServerTime,
      "subscription_end_date" := Time(now + YEAR_MS),
      "payment_option" := Str(subscriptionType),
      "stripe_session_id" := Get(session, "id"),
      "stripe_customer_id" := Get(session, "customer"),
      "temporary_mode" := Bool(false)]
  }

  /** The update written by the manual confirmation. */
  function ManualUpdate(subscriptionType: Value, now: int): (r: Doc)
    ensures r.Keys == {"has_accepted_contract", "has_active_subscription", "subscription_status",
      "subscription_start_date", "subscription_end_date", "payment_option", "manual_activation"}
  {
    map[
      "has_accepted_contract" := Bool(true),
      "has_active_subscription" := Bool(true),
      "subscription_status" := subscriptionType,
      "subscription_start_date" := ServerTime,
      "subscription_end_date" := Time(now + YEAR_MS),
      "payment_option" := subscriptionType,
      "manual_activation" := Bool(true)]
  }

  /** The welcome gift voucher of an establishment, created at `now`. */
  function WelcomeVoucher(establishmentId: string, now: int): (v: GiftVoucher)
    ensures v.establishmentId == establishmentId && v.amount == WELCOME_AMOUNT
    ensures v.voucherType == "welcome" && v.status == "active"
    ensures v.expiresAt == now + YEAR_MS
    ensures StartsWith(v.code, WELCOME_PREFIX)
  {
    GiftVoucher(establishmentId, WELCOME_AMOUNT, "welcome", "active", ServerTime, now + YEAR_MS,
      WELCOME_PREFIX + IntToString(now))
  }

  /** `Math.floor(now / 1000) + 365 * 24 * 60 * 60`: a one-year trial, in seconds. */
  function TrialEnd(now: int): (t: int)
    ensures (t - YEAR_SECONDS) * 1000 <= now < (t - YEAR_SECONDS + 1) * 1000
  {
    now / 1000 + YEAR_SECONDS
  }

  /**
   * `(current || 2) + 1` with JavaScript's `+`: a missing or zero slot count
   * counts as 2, a number is incremented, a string gets "1" appended.
   */
  function SlotsAfter(current: Value): (r: Value)
    ensures !Truthy(current) ==> r == Int(DEFAULT_SLOTS + 1)
    ensures Truthy(current) && current.Int? ==> r == Int(current.i + 1)
    ensures Truthy(current) && current.Str? ==> r == Str(current.s + "1")
    ensures r != Undefined
  {
    match OrElse(current, Int(DEFAULT_SLOTS))
    case Int(n) => Int(n + 1)
    case Str(s) => Str(s + "1")
    case Bool(_) => Int(2)
    case Euros(c) => Euros(c + 100)
    case _ => NaN
  }

  /** `session.id.replace("cs_", "")`: the first occurrence of the prefix is removed. */
  function SessionDocId(sessionId: string): (r: string)
    ensures IndexOf(sessionId, SESSION_PREFIX).Some? ==> |r| == |sessionId| - |SESSION_PREFIX|
    ensures IndexOf(sessionId, SESSION_PREFIX).None? ==> r == sessionId
  {
    ReplaceFirst(sessionId, SESSION_PREFIX, "")
  }

  /** A document path segment the store accepts. */
  predicate ValidSegment(s: string) {
    s != "" && '/' !in s
  }

  /** The fields written on the checkout-session document. */
  const SESSION_UPDATE: Doc := map[
    "payment_status" := Str("paid"),
    "status" := Str("complete"),
    "processed" := Bool(true),
    "processed_at" := ServerTime]

  // ---------------------------------------------------------------------------
  // The handlers as transitions of the store
  // ---------------------------------------------------------------------------

  /** `update` on establishment `i`: the given fields replace or join its fields. */
  function UpdateFields(st: Store, i: nat, update: Doc): (r: Store)
    requires i < |st.establishments|
    ensures |r.establishments| == |st.establishments|
    ensures r.establishments[i] == Establishment(st.establishments[i].id, st.establishments[i].fields + update)
    ensures forall j :: 0 <= j < |st.establishments| && j != i ==> r.establishments[j] == st.establishments[j]
    ensures r.giftVouchers == st.giftVouchers && r.checkoutSessions == st.checkoutSessions
    ensures r.subscriptionRequests == st.subscriptionRequests
  {
    var e := st.establishments[i];
    st.(establishments := st.establishments[i := Establishment(e.id, e.fields + update)])
  }

  /** createRecurringSubscription: the request is sent; a created subscription's id is saved. */
  function Subscribe(st: Store, i: nat, request: SubscriptionRequest, subscriptionId: Option<string>): (r: Store)
    requires i < |st.establishments|
    ensures r.subscriptionRequests == st.subscriptionRequests + [request]
    ensures r.giftVouchers == st.giftVouchers && r.checkoutSessions == st.checkoutSessions
    ensures |r.establishments| == |st.establishments|
  {
    var asked := st.(subscriptionRequests := st.subscriptionRequests + [request]);
    match subscriptionId
    case None => asked
    case Some(id) => UpdateFields(asked, i, map["stripe_subscription_id" := Str(id)])
  }

  /**
   * A first-year purchase: the establishment update (refused when the session
   * lacks an id or a customer), the welcome voucher, and the subscription when
   * the metadata asks for one with a price.
   */
  function FirstYear(st: Store, i: nat, session: Doc, metadata: Value, subscriptionType: string,
                     now: int, subscriptionId: Option<string>): (r: Run)
    requires i < |st.establishments|
    ensures r.threw <==> !Writable(FirstYearUpdate(session, subscriptionType, now))
    ensures r.threw ==> r.store == st
    ensures r.store.checkoutSessions == st.checkoutSessions
    ensures |r.store.establishments| == |st.establishments|
  {
    var update := FirstYearUpdate(session, subscriptionType, now);
    if !Writable(update) then Run(st, true)
    else
      var est := st.establishments[i];
      var updated := UpdateFields(st, i, update);
      var gifted := updated.(giftVouchers := updated.giftVouchers + [WelcomeVoucher(est.id, now)]);
      var price := Field(metadata, "subscription_price_id");
      if Field(metadata, "needs_subscription") == Str("true") && Truthy(price) then
        var request := SubscriptionRequest(Get(session, "customer"), price, TrialEnd(now), est.id);
        Run(Subscribe(gifted, i, request, subscriptionId), false)
      else Run(gifted, false)
  }

  /** The update of the establishment by purchase type; other purchase types write nothing. */
  function Purchase(st: Store, i: nat, session: Doc, metadata: Value, now: int,
                    subscriptionId: Option<string>): (r: Run)
    requires i < |st.establishments|
    ensures r.store.checkoutSessions == st.checkoutSessions
    ensures |r.store.establishments| == |st.establishments|
  {
    match SubscriptionType(Field(metadata, "purchase_type"))
    case Some(t) => FirstYear(st, i, session, metadata, t, now, subscriptionId)
    case None =>
      if Field(metadata, "type") == Str(CATEGORY_SLOT) then
        var current := Get(st.establishments[i].fields, SLOTS_KEY);
        Run(UpdateFields(st, i, map[SLOTS_KEY := SlotsAfter(current)]), false)
      else Run(st, false)
  }

  /**
   * Marking the checkout-session document processed: the user id and the
   * derived document id must name a document path (otherwise the handler
   * throws); the document is updated only when it exists.
   */
  function MarkProcessed(st: Store, userId: Value, session: Doc): (r: Run)
    ensures r.store.establishments == st.establishments && r.store.giftVouchers == st.giftVouchers
    ensures r.store.subscriptionRequests == st.subscriptionRequests
    ensures r.store.checkoutSessions.Keys == st.checkoutSessions.Keys
  {
    match (userId, Get(session, "id"))
    case (Str(u), Str(sessionId)) =>
      var key := (u, SessionDocId(sessionId));
      if !ValidSegment(key.0) || !ValidSegment(key.1) then Run(st, true)
      else if key in st.checkoutSessions then
        Run(st.(checkoutSessions := st.checkoutSessions[key := st.checkoutSessions[key] + SESSION_UPDATE]), false)
      else Run(st, false)
    case _ => Run(st, true)
  }

  /** `session.metadata || {}`. */
  function Metadata(session: Doc): Value {
    OrElse(Get(session, "metadata"), Record(map[]))
  }

  /** handleCheckoutSessionCompleted as a transition of the store. */
  function Checkout(st: Store, session: Doc, now: int, subscriptionId: Option<string>): (r: Run)
    ensures !Truthy(Field(Metadata(session), "user_id")) ==> r == Run(st, false)
    ensures FirstEstablishment(st.establishments, Field(Metadata(session), "user_id")).None? ==> r == Run(st, false)
    ensures r.store.checkoutSessions.Keys == st.checkoutSessions.Keys
    ensures |r.store.establishments| == |st.establishments|
  {
    var metadata := Metadata(session);
    var userId := Field(metadata, "user_id");
    if !Truthy(userId) then Run(st, false)
    else match FirstEstablishment(st.establishments, userId)
      case None => Run(st, false)
      case Some(i) =>
        var purchased := Purchase(st, i, session, metadata, now, subscriptionId);
        if purchased.threw then purchased else MarkProcessed(purchased.store, userId, session)
  }

  /**
   * stripeWebhook: a failed signature check answers 400 and runs nothing;
   * every verified event is acknowledged, a completed checkout after its
   * handler ran (its errors are swallowed), any other type without a write.
   */
  function Webhook(st: Store, event: Option<Event>, now: int, subscriptionId: Option<string>): (r: (WebhookResponse, Store))
    ensures event.None? ==> r == (BadSignature, st)
    ensures event.Some? ==> r.0 == Received
    ensures event.Some? && event.value.eventType != CHECKOUT_COMPLETED ==> r.1 == st
    // a completed checkout leaves the store as its handler left it, even when the handler threw
    ensures event.Some? && event.value.eventType == CHECKOUT_COMPLETED ==>
      r.1 == Checkout(st, event.value.payload, now, subscriptionId).store
  {
    match event
    case None => (BadSignature, st)
    case Some(e) =>
      if e.eventType == CHECKOUT_COMPLETED then (Received, Checkout(st, e.payload, now, subscriptionId).store)
      else (Received, st)
  }

  /**
   * confirmPaymentSuccess: unauthenticated callers are refused before any
   * read; every later error, the missing establishment included, surfaces as
   * 'internal'. The subscription type defaults to "monthly".
   */
  function Confirm(st: Store, auth: Option<string>, data: Value, now: int): (r: (CallResult, Store))
    ensures auth.None? ==> r == (Unauthenticated, st)
    ensures auth.Some? && FirstEstablishment(st.establishments, Str(auth.value)).None? ==> r == (Internal, st)
    ensures r.0 != Confirmed ==> r.1 == st
    ensures r.1.checkoutSessions == st.checkoutSessions && r.1.subscriptionRequests == st.subscriptionRequests
  {
    match auth
    case None => (Unauthenticated, st)
    case Some(uid) =>
      match FirstEstablishment(st.establishments, Str(uid))
      case None => (Internal, st)
      case Some(i) =>
        if data.Null? || data.Undefined? then (Internal, st)
        else
          var subscriptionType := OrElse(Field(data, "subscriptionType"), Str(DEFAULT_SUBSCRIPTION));
          var updated := UpdateFields(st, i, ManualUpdate(subscriptionType, now));
          (Confirmed, updated.(giftVouchers := updated.giftVouchers + [WelcomeVoucher(st.establishments[i].id, now)]))
  }

  // ---------------------------------------------------------------------------
  // Properties of the handlers
  // ---------------------------------------------------------------------------

  /** A field after an update: the update's value when it names the field, the old one otherwise. */
  lemma MergedField(fields: Doc, update: Doc, k: string)
    ensures Get(fields + update, k) == if k in update then update[k] else Get(fields, k)
  {
  }

  /** The first-year update is refused exactly when the session has no id or no customer. */
  lemma FirstYearUpdateWritable(session: Doc, subscriptionType: string, now: int)
    ensures Writable(FirstYearUpdate(session, subscriptionType, now))
      <==> Get(session, "id") != Undefined && Get(session, "customer") != Undefined
  {
    var u := FirstYearUpdate(session, subscriptionType, now);
    assert u["stripe_session_id"] == Get(session, "id");
    assert u["stripe_customer_id"] == Get(session, "customer");
  }

  /** Two welcome vouchers created at different instants have different codes. */
  lemma WelcomeCodesDistinct(e1: string, e2: string, t1: int, t2: int)
    requires t1 != t2
    ensures WelcomeVoucher(e1, t1).code != WelcomeVoucher(e2, t2).code
  {
    var c1 := WelcomeVoucher(e1, t1).code;
    var c2 := WelcomeVoucher(e2, t2).code;
    if c1 == c2 {
      assert c1[|WELCOME_PREFIX|..] == IntToString(t1);
      assert c2[|WELCOME_PREFIX|..] == IntToString(t2);
      IntToStringInjective(t1, t2);
    }
  }

  /** A session id that starts with "cs_" loses exactly that prefix. */
  lemma SessionDocIdStripsPrefix(sessionId: string)
    requires StartsWith(sessionId, SESSION_PREFIX)
    ensures SessionDocId(sessionId) == sessionId[|SESSION_PREFIX|..]
  {
    assert IndexOf(sessionId, SESSION_PREFIX) == Some(0);
  }

  /** A session id without "cs_" anywhere is the document id unchanged; one with it loses its first occurrence. */
  lemma SessionDocIdFirstOccurrence(sessionId: string)
    ensures (forall j: nat :: !OccursAt(sessionId, SESSION_PREFIX, j)) ==> SessionDocId(sessionId) == sessionId
    ensures forall i: nat ::
      (OccursAt(sessionId, SESSION_PREFIX, i) && forall j: nat :: j < i ==> !OccursAt(sessionId, SESSION_PREFIX, j))
      ==> SessionDocId(sessionId) == sessionId[..i] + sessionId[i + |SESSION_PREFIX|..]
  {
    IndexOfFirst(sessionId, SESSION_PREFIX);
  }

  /** What a first-year purchase writes on top of the update: the subscription id, when one was created. */
  function SubscriptionFields(asked: bool, subscriptionId: Option<string>): (r: Doc)
    ensures r.Keys <= {"stripe_subscription_id"}
  {
    if asked && subscriptionId.Some? then map["stripe_subscription_id" := Str(subscriptionId.value)] else map[]
  }

  /**
   * A first-year purchase: the update is written, then the subscription id
   * when one was asked for and created; one welcome voucher is added for the
   * establishment; no other establishment changes.
   */
  lemma FirstYearWrites(st: Store, i: nat, session: Doc, metadata: Value, t: string, now: int,
                        subscriptionId: Option<string>)
    requires i < |st.establishments|
    requires Writable(FirstYearUpdate(session, t, now))
    ensures var r := FirstYear(st, i, session, metadata, t, now, subscriptionId).store;
      var asked := Field(metadata, "needs_subscription") == Str("true")
        && Truthy(Field(metadata, "subscription_price_id"));
      && r.establishments[i].fields
        == st.establishments[i].fields + FirstYearUpdate(session, t, now) + SubscriptionFields(asked, subscriptionId)
      && (forall j :: 0 <= j < |st.establishments| && j != i ==> r.establishments[j] == st.establishments[j])
      && r.giftVouchers == st.giftVouchers + [WelcomeVoucher(st.establishments[i].id, now)]
  {
    var fields := st.establishments[i].fields + FirstYearUpdate(session, t, now);
    assert fields + map[] == fields;
  }

  /** The subscription request of a first-year purchase is sent exactly when asked for. */
  lemma FirstYearSubscription(st: Store, i: nat, session: Doc, metadata: Value, t: string, now: int,
                              subscriptionId: Option<string>)
    requires i < |st.establishments|
    ensures var r := FirstYear(st, i, session, metadata, t, now, subscriptionId).store;
      var asked := Writable(FirstYearUpdate(session, t, now))
        && Field(metadata, "needs_subscription") == Str("true")
        && Truthy(Field(metadata, "subscription_price_id"));
      && (asked ==> r.subscriptionRequests == st.subscriptionRequests + [SubscriptionRequest(
            Get(session, "customer"), Field(metadata, "subscription_price_id"), TrialEnd(now), st.establishments[i].id)])
      && (!asked ==> r.subscriptionRequests == st.subscriptionRequests)
  {
  }

  /** Marking the session leaves the establishments, the vouchers and the requests as the purchase left them. */
  lemma CheckoutAfterPurchase(st: Store, session: Doc, now: int, subscriptionId: Option<string>, i: nat)
    requires Truthy(Field(Metadata(session), "user_id"))
    requires FirstEstablishment(st.establishments, Field(Metadata(session), "user_id")) == Some(i)
    ensures var p := Purchase(st, i, session, Metadata(session), now, subscriptionId).store;
      var r := Checkout(st, session, now, subscriptionId).store;
      && r.establishments == p.establishments
      && r.giftVouchers == p.giftVouchers
      && r.subscriptionRequests == p.subscriptionRequests
  {
  }

  /**
   * A completed first-year checkout: the establishment is marked subscribed with
   * the type the purchase names ("annual" or "monthly"), leaves temporary mode,
   * keeps its slot count, and gets exactly one welcome voucher.
   */
  lemma FirstYearCheckout(st: Store, session: Doc, now: int, subscriptionId: Option<string>, i: nat, t: string)
    requires Truthy(Field(Metadata(session), "user_id"))
    requires FirstEstablishment(st.establishments, Field(Metadata(session), "user_id")) == Some(i)
    requires SubscriptionType(Field(Metadata(session), "purchase_type")) == Some(t)
    requires Get(session, "id") != Undefined && Get(session, "customer") != Undefined
    ensures var r := Checkout(st, session, now, subscriptionId).store;
      && Get(r.establishments[i].fields, "subscription_status") == Str(t)
      && Get(r.establishments[i].fields, "payment_option") == Str(t)
      && Get(r.establishments[i].fields, "has_active_subscription") == Bool(true)
      && Get(r.establishments[i].fields, "temporary_mode") == Bool(false)
      && Get(r.establishments[i].fields, SLOTS_KEY) == Get(st.establishments[i].fields, SLOTS_KEY)
      && r.giftVouchers == st.giftVouchers + [WelcomeVoucher(st.establishments[i].id, now)]
  {
    var metadata := Metadata(session);
    var asked := Field(metadata, "needs_subscription") == Str("true")
      && Truthy(Field(metadata, "subscription_price_id"));
    FirstYearUpdateWritable(session, t, now);
    FirstYearWrites(st, i, session, metadata, t, now, subscriptionId);
    CheckoutAfterPurchase(st, session, now, subscriptionId, i);
    PurchaseFirstYear(st, i, session, metadata, t, now, subscriptionId);
    FirstYearFieldsRead(st.establishments[i].fields, session, t, now, SubscriptionFields(asked, subscriptionId));
  }

  lemma PurchaseFirstYear(st: Store, i: nat, session: Doc, metadata: Value, t: string, now: int,
                          subscriptionId: Option<string>)
    requires i < |st.establishments|
    requires SubscriptionType(Field(metadata, "purchase_type")) == Some(t)
    ensures Purchase(st, i, session, metadata, now, subscriptionId)
      == FirstYear(st, i, session, metadata, t, now, subscriptionId)
  {
  }

  /** The subscription fields read back after a first-year update. */
  lemma FirstYearFieldsRead(fields: Doc, session: Doc, t: string, now: int, extra: Doc)
    requires extra.Keys <= {"stripe_subscription_id"}
    ensures var f := fields + FirstYearUpdate(session, t, now) + extra;
      && Get(f, "subscription_status") == Str(t)
      && Get(f, "payment_option") == Str(t)
      && Get(f, "has_active_subscription") == Bool(true)
      && Get(f, "temporary_mode") == Bool(false)
      && Get(f, SLOTS_KEY) == Get(fields, SLOTS_KEY)
  {
    var update := FirstYearUpdate(session, t, now);
    FirstYearUpdateValues(session, t, now);
    MergedField(fields + update, extra, "subscription_status");
    MergedField(fields + update, extra, "payment_option");
    MergedField(fields + update, extra, "has_active_subscription");
    MergedField(fields + update, extra, "temporary_mode");
    MergedField(fields + update, extra, SLOTS_KEY);
    MergedField(fields, update, "subscription_status");
    MergedField(fields, update, "payment_option");
    MergedField(fields, update, "has_active_subscription");
    MergedField(fields, update, "temporary_mode");
    MergedField(fields, update, SLOTS_KEY);
  }

  lemma FirstYearUpdateValues(session: Doc, t: string, now: int)
    ensures var update := FirstYearUpdate(session, t, now);
      && update["subscription_status"] == Str(t)
      && update["payment_option"] == Str(t)
      && update["has_active_subscription"] == Bool(true)
      && update["temporary_mode"] == Bool(false)
      && SLOTS_KEY !in update
  {
  }

  /**
   * A category-slot purchase writes `(slots || 2) + 1` on the establishment and
   * nothing else: no voucher, no subscription, no other establishment.
   */
  lemma SlotCheckout(st: Store, session: Doc, now: int, subscriptionId: Option<string>, i: nat)
    requires Truthy(Field(Metadata(session), "user_id"))
    requires FirstEstablishment(st.establishments, Field(Metadata(session), "user_id")) == Some(i)
    requires SubscriptionType(Field(Metadata(session), "purchase_type")).None?
    requires Field(Metadata(session), "type") == Str(CATEGORY_SLOT)
    ensures var r := Checkout(st, session, now, subscriptionId).store;
      var before := st.establishments[i].fields;
      && r.establishments[i].fields == before[SLOTS_KEY := SlotsAfter(Get(before, SLOTS_KEY))]
      && (forall j :: 0 <= j < |st.establishments| && j != i ==> r.establishments[j] == st.establishments[j])
      && r.giftVouchers == st.giftVouchers
      && r.subscriptionRequests == st.subscriptionRequests
  {
    CheckoutAfterPurchase(st, session, now, subscriptionId, i);
    var before := st.establishments[i].fields;
    assert before + map[SLOTS_KEY := SlotsAfter(Get(before, SLOTS_KEY))]
      == before[SLOTS_KEY := SlotsAfter(Get(before, SLOTS_KEY))];
  }

  /** Any other purchase type writes nothing on the establishments, vouchers or subscriptions. */
  lemma OtherPurchaseCheckout(st: Store, session: Doc, now: int, subscriptionId: Option<string>, i: nat)
    requires Truthy(Field(Metadata(session), "user_id"))
    requires FirstEstablishment(st.establishments, Field(Metadata(session), "user_id")) == Some(i)
    requires SubscriptionType(Field(Metadata(session), "purchase_type")).None?
    requires Field(Metadata(session), "type") != Str(CATEGORY_SLOT)
    ensures var r := Checkout(st, session, now, subscriptionId).store;
      r.establishments == st.establishments && r.giftVouchers == st.giftVouchers
      && r.subscriptionRequests == st.subscriptionRequests
  {
    CheckoutAfterPurchase(st, session, now, subscriptionId, i);
  }

  /**
   * The checkout-session document: after a purchase that did not fail, an
   * existing document `customers/<user>/checkout_sessions/<id without "cs_">`
   * is marked paid, complete and processed; no document is ever created.
   */
  lemma SessionMarkedProcessed(st: Store, session: Doc, now: int, subscriptionId: Option<string>, i: nat)
    requires Field(Metadata(session), "user_id").Str? && Get(session, "id").Str?
    requires Truthy(Field(Metadata(session), "user_id"))
    requires FirstEstablishment(st.establishments, Field(Metadata(session), "user_id")) == Some(i)
    requires !Purchase(st, i, session, Metadata(session), now, subscriptionId).threw
    ensures var key := (Field(Metadata(session), "user_id").s, SessionDocId(Get(session, "id").s));
      var r := Checkout(st, session, now, subscriptionId).store;
      && (ValidSegment(key.0) && ValidSegment(key.1) && key in st.checkoutSessions ==>
            && r.checkoutSessions[key] == st.checkoutSessions[key] + SESSION_UPDATE
            && Get(r.checkoutSessions[key], "status") == Str("complete")
            && Get(r.checkoutSessions[key], "processed") == Bool(true))
      && (forall other :: other in st.checkoutSessions && other != key ==>
            r.checkoutSessions[other] == st.checkoutSessions[other])
  {
    var key := (Field(Metadata(session), "user_id").s, SessionDocId(Get(session, "id").s));
    var p := Purchase(st, i, session, Metadata(session), now, subscriptionId).store;
    assert p.checkoutSessions == st.checkoutSessions;
    if ValidSegment(key.0) && ValidSegment(key.1) && key in st.checkoutSessions {
      MergedField(st.checkoutSessions[key], SESSION_UPDATE, "status");
      MergedField(st.checkoutSessions[key], SESSION_UPDATE, "processed");
    }
  }

  /**
   * A confirmed payment: the establishment gets the subscription type the
   * caller sent (or "monthly"), the manual-activation flag and one welcome voucher.
   */
  lemma ConfirmWrites(st: Store, uid: string, data: Value, now: int, i: nat)
    requires FirstEstablishment(st.establishments, Str(uid)) == Some(i)
    ensures var r := Confirm(st, Some(uid), data, now);
      var t := OrElse(Field(data, "subscriptionType"), Str(DEFAULT_SUBSCRIPTION));
      && (r.0 == Confirmed <==> !data.Null? && !data.Undefined?)
      && (r.0 == Confirmed ==>
            && Get(r.1.establishments[i].fields, "subscription_status") == t
            && Get(r.1.establishments[i].fields, "payment_option") == t
            && Get(r.1.establishments[i].fields, "manual_activation") == Bool(true)
            && r.1.giftVouchers == st.giftVouchers + [WelcomeVoucher(st.establishments[i].id, now)])
  {
    var t := OrElse(Field(data, "subscriptionType"), Str(DEFAULT_SUBSCRIPTION));
    var fields := st.establishments[i].fields;
    MergedField(fields, ManualUpdate(t, now), "subscription_status");
    MergedField(fields, ManualUpdate(t, now), "payment_option");
    MergedField(fields, ManualUpdate(t, now), "manual_activation");
  }

  /** Without a subscription type from the caller, the establishment is set to "monthly". */
  lemma ConfirmDefaultsMonthly(st: Store, uid: string, data: Value, now: int, i: nat)
    requires FirstEstablishment(st.establishments, Str(uid)) == Some(i)
    requires data.Record? && !Truthy(Get(data.fields, "subscriptionType"))
    ensures var r := Confirm(st, Some(uid), data, now);
      && r.0 == Confirmed
      && Get(r.1.establishments[i].fields, "subscription_status") == Str(DEFAULT_SUBSCRIPTION)
      && Get(r.1.establishments[i].fields, "payment_option") == Str(DEFAULT_SUBSCRIPTION)
  {
    ConfirmWrites(st, uid, data, now, i);
  }

  // ---------------------------------------------------------------------------
  // The handlers, writing the documents in place
  // ---------------------------------------------------------------------------

  class CheckoutStore {
    var establishments: seq<Establishment>
    var giftVouchers: seq<GiftVoucher>
    var checkoutSessions: map<(string, string), Doc>
    var subscriptionRequests: seq<SubscriptionRequest>

    constructor (st: Store)
      ensures State() == st
    {
      establishments := st.establishments;
      giftVouchers := st.giftVouchers;
      checkoutSessions := st.checkoutSessions;
      subscriptionRequests := st.subscriptionRequests;
    }

    function State(): Store
      reads this
    {
      Store(establishments, giftVouchers, checkoutSessions, subscriptionRequests)
    }

    /** stripeWebhook. `event` is None when the signature check failed. */
    method StripeWebhook(event: Option<Event>, now: int, subscriptionId: Option<string>)
      returns (response: WebhookResponse)
      modifies this
      ensures (response, State()) == Webhook(old(State()), event, now, subscriptionId)
    {
      if event.None? {
        return BadSignature;
      }
      if event.value.eventType == CHECKOUT_COMPLETED {
        var _ := HandleCheckoutSessionCompleted(event.value.payload, now, subscriptionId);
      }
      response := Received;
    }

    method HandleCheckoutSessionCompleted(session: Doc, now: int, subscriptionId: Option<string>)
      returns (threw: bool)
      modifies this
      ensures Run(State(), threw) == Checkout(old(State()), session, now, subscriptionId)
    {
      var metadata := Metadata(session);
      var userId := Field(metadata, "user_id");
      if !Truthy(userId) {
        return false;
      }
      var found := FirstEstablishment(establishments, userId);
      if found.None? {
        return false;
      }
      threw := ApplyPurchase(found.value, session, metadata, now, subscriptionId);
      if threw {
        return;
      }
      threw := MarkSessionProcessed(userId, session);
    }

    /** The establishment update chosen by the purchase type. */
    method ApplyPurchase(i: nat, session: Doc, metadata: Value, now: int, subscriptionId: Option<string>)
      returns (threw: bool)
      requires i < |establishments|
      modifies this
      ensures Run(State(), threw) == Purchase(old(State()), i, session, metadata, now, subscriptionId)
    {
      var subscriptionType := SubscriptionType(Field(metadata, "purchase_type"));
      if subscriptionType.Some? {
        threw := ApplyFirstYear(i, session, metadata, subscriptionType.value, now, subscriptionId);
      } else if Field(metadata, "type") == Str(CATEGORY_SLOT) {
        var current := Get(establishments[i].fields, SLOTS_KEY);
        UpdateEstablishment(i, map[SLOTS_KEY := SlotsAfter(current)]);
        threw := false;
      } else {
        threw := false;
      }
    }

    method ApplyFirstYear(i: nat, session: Doc, metadata: Value, subscriptionType: string,
                          now: int, subscriptionId: Option<string>)
      returns (threw: bool)
      requires i < |establishments|
      modifies this
      ensures Run(State(), threw) == FirstYear(old(State()), i, session, metadata, subscriptionType, now, subscriptionId)
    {
      var update := FirstYearUpdate(session, subscriptionType, now);
      if !Writable(update) {
        return true;
      }
      var establishmentId := establishments[i].id;
      UpdateEstablishment(i, update);
      CreateWelcomeGiftVoucher(establishmentId, now);
      var price := Field(metadata, "subscription_price_id");
      if Field(metadata, "needs_subscription") == Str("true") && Truthy(price) {
        CreateRecurringSubscription(Get(session, "customer"), price, i, establishmentId, now, subscriptionId);
      }
      threw := false;
    }

    method UpdateEstablishment(i: nat, update: Doc)
      requires i < |establishments|
      modifies this
      ensures State() == UpdateFields(old(State()), i, update)
    {
      var e := establishments[i];
      establishments := establishments[i := Establishment(e.id, e.fields + update)];
    }

    method CreateWelcomeGiftVoucher(establishmentId: string, now: int)
      modifies this
      ensures State() == old(State()).(giftVouchers := old(giftVouchers) + [WelcomeVoucher(establishmentId, now)])
    {
      giftVouchers := giftVouchers + [WelcomeVoucher(establishmentId, now)];
    }

    /** `subscriptionId` is the provider's answer: the new subscription's id, or None when it failed. */
    method CreateRecurringSubscription(customer: Value, price: Value, i: nat, establishmentId: string,
                                       now: int, subscriptionId: Option<string>)
      requires i < |establishments|
      modifies this
      ensures State() == Subscribe(old(State()), i, SubscriptionRequest(customer, price, TrialEnd(now), establishmentId), subscriptionId)
    {
      subscriptionRequests := subscriptionRequests + [SubscriptionRequest(customer, price, TrialEnd(now), establishmentId)];
      if subscriptionId.Some? {
        UpdateEstablishment(i, map["stripe_subscription_id" := Str(subscriptionId.value)]);
      }
    }

    method MarkSessionProcessed(userId: Value, session: Doc) returns (threw: bool)
      modifies this
      ensures Run(State(), threw) == MarkProcessed(old(State()), userId, session)
    {
      if !userId.Str? || !Get(session, "id").Str? {
        return true;
      }
      var key := (userId.s, SessionDocId(Get(session, "id").s));
      if !ValidSegment(key.0) || !ValidSegment(key.1) {
        return true;
      }
      if key in checkoutSessions {
        checkoutSessions := checkoutSessions[key := checkoutSessions[key] + SESSION_UPDATE];
      }
      threw := false;
    }

    /** confirmPaymentSuccess. `auth` is the caller's uid, None when unauthenticated. */
    method ConfirmPaymentSuccess(auth: Option<string>, data: Value, now: int) returns (result: CallResult)
      modifies this
      ensures (result, State()) == Confirm(old(State()), auth, data, now)
    {
      if auth.None? {
        return Unauthenticated;
      }
      var found := FirstEstablishment(establishments, Str(auth.value));
      if found.None? {
        return Internal;
      }
      if data.Null? || data.Undefined? {
        return Internal;
      }
      var subscriptionType := OrElse(Field(data, "subscriptionType"), Str(DEFAULT_SUBSCRIPTION));
      var establishmentId := establishments[found.value].id;
      UpdateEstablishment(found.value, ManualUpdate(subscriptionType, now));
      CreateWelcomeGiftVoucher(establishmentId, now);
      result := Confirmed;
    }
  }
}
