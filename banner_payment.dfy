/**
 * Paid weekly banners (functions/banner-payment.js).
 *
 * When a checkout session for the product 'bandeau_hebdo' turns 'complete',
 * the pending offer prepared for that session (or, failing one, a base record
 * running seven days from the requested start) becomes an active special
 * offer; a confirmation mail and a payment log follow. A nightly sweep
 * deactivates the active offers whose end date has passed.
 *
 * Documents are `Doc` maps. Server timestamps are the value `ServerTime`.
 */
module BannerPayment {
  import opened Common

  const BANNER_PRODUCT: string := "bandeau_hebdo"
  const BANNER_DAYS: int := 7
  const PAID_PRIORITY: int := 100
  const DEFAULT_CURRENCY: string := "eur"
  const CONFIRMATION_SUBJECT: string := "✅ Confirmation - Votre bannière publicitaire est active"

  /**
   * The activation guard: the session has just become 'complete' and its
   * metadata names the banner product.
   */
  predicate ShouldActivate(newData: Doc, prevData: Doc) {
    var md := Get(newData, "metadata");
    && Get(newData, "status") == Str("complete")
    && Get(prevData, "status") != Str("complete")
    && Truthy(md)
    && Field(md, "product") == Str(BANNER_PRODUCT)
  }

  /** `amount_total / 100`: cents become euros; a missing amount gives NaN, null gives 0. */
  function AmountOf(amountTotal: Value): (r: Value)
    ensures amountTotal.Int? ==> r == Euros(amountTotal.i)
    ensures amountTotal.Undefined? ==> r == NaN
  {
    match amountTotal
    case Int(c) => Euros(c)
    case Null => Euros(0)
    case _ => NaN
  }

  /** `currency || 'eur'`. */
  function CurrencyOf(currency: Value): (r: Value)
    ensures Truthy(currency) ==> r == currency
    ensures !Truthy(currency) ==> r == Str(DEFAULT_CURRENCY)
  {
    OrElse(currency, Str(DEFAULT_CURRENCY))
  }

  /** The index of the first pending offer prepared for the session. */
  function FindPending(pending: seq<Doc>, sessionId: string): (r: Option<nat>)
    ensures r.Some? ==> r.value < |pending| && Get(pending[r.value], "stripe_session_id") == Str(sessionId)
    ensures r.Some? ==> forall j :: 0 <= j < r.value ==> Get(pending[j], "stripe_session_id") != Str(sessionId)
    ensures r.None? ==> forall j :: 0 <= j < |pending| ==> Get(pending[j], "stripe_session_id") != Str(sessionId)
  {
    if pending == [] then None
    else if Get(pending[0], "stripe_session_id") == Str(sessionId) then Some(0)
    else match FindPending(pending[1..], sessionId)
      case Some(j) => Some(j + 1)
      case None => None
  }

  /** The sequence without its element at `i`. */
  function Remove(docs: seq<Doc>, i: nat): (r: seq<Doc>)
    requires i < |docs|
    ensures |r| == |docs| - 1
    ensures forall j :: 0 <= j < i ==> r[j] == docs[j]
    ensures forall j :: i <= j < |r| ==> r[j] == docs[j + 1]
  {
    docs[..i] + docs[i + 1..]
  }

  /** The record built when no offer is pending: seven days from the start date. */
  function BaseOffer(userId: Value, establishmentId: Value, startMs: int): (r: Doc)
    ensures r.Keys == {"user_id", "establishment_id", "start_date", "end_date", "created_at"}
    ensures r["start_date"] == Time(startMs)
    ensures r["end_date"] == Time(startMs + BANNER_DAYS * DAY_MS)
    ensures r["user_id"] == userId && r["establishment_id"] == establishmentId
  {
    map[
      "user_id" := userId,
      "establishment_id" := establishmentId,
      "start_date" := Time(startMs),
      "end_date" := Time(startMs + BANNER_DAYS * DAY_MS),
      "created_at" := ServerTime]
  }

  const FIXED_KEYS: set<string> := {
    "status", "payment_status", "payment_date", "payment_amount", "payment_currency",
    "stripe_session_id", "stripe_payment_intent", "is_active", "priority",
    "background_color", "text_color", "updated_at"}

  /** The fields every activated offer gets, whatever the base record says. */
  function FixedFields(newData: Doc, sessionId: string): (r: Doc)
  {
    map[
      "status" := Str("active"),
      "payment_status" := Str("paid"),
      "payment_date" := ServerTime,
      "payment_amount" := AmountOf(Get(newData, "amount_total")),
      "payment_currency" := CurrencyOf(Get(newData, "currency")),
      "stripe_session_id" := Str(sessionId),
      "stripe_payment_intent" := Get(newData, "payment_intent"),
      "is_active" := Bool(true),
      "priority" := Int(PAID_PRIORITY),
      "background_color" := Str("#FF6B35"),
      "text_color" := Str("#FFFFFF"),
      "updated_at" := ServerTime]
  }

  /** `{...offerData, <fixed fields>}`: the fixed fields win over same-named base fields. */
  function SpecialOffer(offerData: Doc, newData: Doc, sessionId: string): (r: Doc)
    ensures r.Keys == offerData.Keys + FixedFields(newData, sessionId).Keys
    ensures forall k :: k in FixedFields(newData, sessionId) ==> r[k] == FixedFields(newData, sessionId)[k]
    ensures forall k :: k in offerData && k !in FixedFields(newData, sessionId) ==> r[k] == offerData[k]
  {
    offerData + FixedFields(newData, sessionId)
  }

  /** The confirmation mail as queued: its recipient and what the body interpolates. */
  datatype BannerMail = BannerMail(
    to: Value,
    subject: string,
    amount: Value,
    title: Value,
    establishmentName: Value,
    startMs: int,
    endMs: int)

  /**
   * sendConfirmationEmail: the body reads the start and end dates as
   * timestamps (anything else throws) and the store refuses an undefined
   * recipient; either failure is caught and no mail is queued.
   */
  function ConfirmationMail(offerData: Doc, newData: Doc): (r: Option<BannerMail>)
    ensures r.Some? <==>
      && Get(offerData, "start_date").Time?
      && Get(offerData, "end_date").Time?
      && Get(offerData, "contact_phone") != Undefined
    ensures r.Some? ==> r.value.to == Get(offerData, "contact_phone") && r.value.subject == CONFIRMATION_SUBJECT
  {
    var start := Get(offerData, "start_date");
    var end := Get(offerData, "end_date");
    var to := Get(offerData, "contact_phone");
    if start.Time? && end.Time? && to != Undefined then
      Some(BannerMail(to, CONFIRMATION_SUBJECT, AmountOf(Get(newData, "amount_total")),
        Get(offerData, "title"), Get(offerData, "establishment_name"), start.ms, end.ms))
    else None
  }

  /** The payment log entry, from the session metadata and amount. */
  function PaymentLog(newData: Doc): (r: Doc)
    ensures r.Keys == {"type", "establishment_id", "userId", "amount", "currency", "timestamp"}
    ensures r["type"] == Str("banner_payment_success")
    ensures r["amount"] == AmountOf(Get(newData, "amount_total"))
    ensures r["currency"] == CurrencyOf(Get(newData, "currency"))
  {
    var md := Get(newData, "metadata");
    map[
      "type" := Str("banner_payment_success"),
      "establishment_id" := Field(md, "establishment_id"),
      "userId" := Field(md, "user_id"),
      "amount" := AmountOf(Get(newData, "amount_total")),
      "currency" := CurrencyOf(Get(newData, "currency")),
      "timestamp" := ServerTime]
  }

  /** The log is written exactly when the metadata names the establishment and the user. */
  lemma PaymentLogWritable(newData: Doc)
    ensures Writable(PaymentLog(newData)) <==>
      && Field(Get(newData, "metadata"), "establishment_id") != Undefined
      && Field(Get(newData, "metadata"), "user_id") != Undefined
  {
    var log := PaymentLog(newData);
    if !Writable(log) {
      var k :| k in log && log[k] == Undefined;
    }
  }

  /** The four collections the activation touches. */
  datatype BannerState = BannerState(
    pending: seq<Doc>,
    offers: seq<Doc>,
    mail: seq<BannerMail>,
    logs: seq<Doc>)

  /**
   * Everything after the base record is chosen: add the offer (a refused
   * write ends the activation), then the mail, then the log.
   */
  function Publish(s: BannerState, offerData: Doc, newData: Doc, sessionId: string): (r: BannerState)
    ensures r.pending == s.pending
    ensures var special := SpecialOffer(offerData, newData, sessionId);
      if Writable(special) then r.offers == s.offers + [special] else r == s
    // once the offer is added, the confirmation mail and the payment log follow
    ensures Writable(SpecialOffer(offerData, newData, sessionId)) ==>
      r.mail == Mailed(s.mail, offerData, newData) && r.logs == Logged(s.logs, newData)
    ensures |s.offers| <= |r.offers| <= |s.offers| + 1 && r.offers[..|s.offers|] == s.offers
    ensures |r.mail| <= |s.mail| + 1 && |r.logs| <= |s.logs| + 1
    ensures |r.offers| == |s.offers| ==> r == s
  {
    var special := SpecialOffer(offerData, newData, sessionId);
    if !Writable(special) then s
    else BannerState(s.pending, s.offers + [special], Mailed(s.mail, offerData, newData), Logged(s.logs, newData))
  }

  /** The mail queue after the confirmation step. */
  function Mailed(mail: seq<BannerMail>, offerData: Doc, newData: Doc): (r: seq<BannerMail>)
    ensures ConfirmationMail(offerData, newData).Some? ==> r == mail + [ConfirmationMail(offerData, newData).value]
    ensures ConfirmationMail(offerData, newData).None? ==> r == mail
  {
    match ConfirmationMail(offerData, newData)
    case Some(m) => mail + [m]
    case None => mail
  }

  /** The payment logs after the logging step. */
  function Logged(logs: seq<Doc>, newData: Doc): (r: seq<Doc>)
    ensures Writable(PaymentLog(newData)) ==> r == logs + [PaymentLog(newData)]
    ensures !Writable(PaymentLog(newData)) ==> r == logs
  {
    if Writable(PaymentLog(newData)) then logs + [PaymentLog(newData)] else logs
  }

  /**
   * The record the offer is built on: the pending offer of the session, else
   * a base record from the metadata; None when the start date is invalid,
   * whose conversion to a timestamp throws. `startMs` is the metadata start
   * date as parsed by the runtime.
   */
  function ChosenBase(pending: seq<Doc>, newData: Doc, sessionId: string, startMs: Option<int>)
    : (r: Option<Doc>)
    ensures FindPending(pending, sessionId).Some? ==>
      r == Some(pending[FindPending(pending, sessionId).value])
    ensures FindPending(pending, sessionId).None? ==> (r.None? <==> startMs.None?)
  {
    var md := Get(newData, "metadata");
    match FindPending(pending, sessionId)
    case Some(i) => Some(pending[i])
    case None =>
      if startMs.None? then None
      else Some(BaseOffer(Field(md, "user_id"), Field(md, "establishment_id"), startMs.value))
  }

  /** The pending offers once the session's one, if any, is deleted. */
  function Consumed(pending: seq<Doc>, sessionId: string): (r: seq<Doc>)
    ensures FindPending(pending, sessionId).None? ==> r == pending
    ensures FindPending(pending, sessionId).Some? ==> r == Remove(pending, FindPending(pending, sessionId).value)
  {
    match FindPending(pending, sessionId)
    case Some(i) => Remove(pending, i)
    case None => pending
  }

  /** processBannerPaymentSuccess as a state transition. */
  function Activation(s: BannerState, newData: Doc, prevData: Doc, sessionId: string,
                      startMs: Option<int>): (r: BannerState)
    ensures !ShouldActivate(newData, prevData) ==> r == s
    ensures ShouldActivate(newData, prevData) ==> r.pending == Consumed(s.pending, sessionId)
  {
    if !ShouldActivate(newData, prevData) then s
    else match ChosenBase(s.pending, newData, sessionId, startMs)
      case None => s
      case Some(base) => Publish(s.(pending := Consumed(s.pending, sessionId)), base, newData, sessionId)
  }

  /**
   * The activation adds at most one offer, one mail and one log, never
   * touches the existing offers, and adds a mail or a log only with an offer;
   * the offer it adds is the special offer built on the chosen base.
   */
  lemma ActivationShape(s: BannerState, newData: Doc, prevData: Doc, sessionId: string,
                        startMs: Option<int>)
    ensures var r := Activation(s, newData, prevData, sessionId, startMs);
      && |s.offers| <= |r.offers| <= |s.offers| + 1 && r.offers[..|s.offers|] == s.offers
      && |r.mail| <= |s.mail| + 1 && |r.logs| <= |s.logs| + 1
      && (|r.offers| == |s.offers| ==> r.mail == s.mail && r.logs == s.logs)
      && (|r.offers| == |s.offers| + 1 ==>
            && ShouldActivate(newData, prevData)
            && ChosenBase(s.pending, newData, sessionId, startMs).Some?
            && r.offers[|s.offers|]
                 == SpecialOffer(ChosenBase(s.pending, newData, sessionId, startMs).value, newData, sessionId)
            && r.mail == Mailed(s.mail, ChosenBase(s.pending, newData, sessionId, startMs).value, newData)
            && r.logs == Logged(s.logs, newData))
  {
    if ShouldActivate(newData, prevData) {
      var c := ChosenBase(s.pending, newData, sessionId, startMs);
      if c.Some? {
        var consumed := s.(pending := Consumed(s.pending, sessionId));
        assert Activation(s, newData, prevData, sessionId, startMs) == Publish(consumed, c.value, newData, sessionId);
      }
    }
  }

  // ---------------------------------------------------------------------------
  // The nightly expiry sweep (deactivateExpiredBanners)
  // ---------------------------------------------------------------------------

  /** The store query: `is_active == true` and `status == 'active'`. */
  predicate ActiveOffer(o: Doc) {
    Get(o, "is_active") == Bool(true) && Get(o, "status") == Str("active")
  }

  /** A selected offer whose end date is a timestamp strictly before now. */
  predicate Expired(o: Doc, now: int) {
    ActiveOffer(o) && Get(o, "end_date").Time? && Get(o, "end_date").ms < now
  }

  /** A selected offer whose end date is set but is not a timestamp: reading it throws. */
  predicate Malformed(o: Doc) {
    ActiveOffer(o) && Truthy(Get(o, "end_date")) && !Get(o, "end_date").Time?
  }

  predicate SweepThrows(offers: seq<Doc>) {
    exists j :: 0 <= j < |offers| && Malformed(offers[j])
  }

  /** The batch update of one expired offer. */
  function Deactivated(o: Doc): Doc {
    o + map["is_active" := Bool(false), "status" := Str("expired"), "deactivated_at" := ServerTime]
  }

  /** A deactivated offer is no longer selected and keeps every other field. */
  lemma DeactivatedFields(o: Doc)
    ensures Deactivated(o).Keys == o.Keys + {"is_active", "status", "deactivated_at"}
    ensures Get(Deactivated(o), "is_active") == Bool(false) && Get(Deactivated(o), "status") == Str("expired")
    ensures !ActiveOffer(Deactivated(o))
    ensures forall k :: k in o && k !in {"is_active", "status", "deactivated_at"} ==> Deactivated(o)[k] == o[k]
  {
  }

  function SweepOne(o: Doc, now: int): Doc {
    if Expired(o, now) then Deactivated(o) else o
  }

  /** The offers after a sweep that commits. */
  function Swept(offers: seq<Doc>, now: int): (r: seq<Doc>)
    ensures |r| == |offers|
    ensures forall j :: 0 <= j < |offers| ==> r[j] == SweepOne(offers[j], now)
  {
    seq(|offers|, j requires 0 <= j < |offers| => SweepOne(offers[j], now))
  }

  /** Whether each offer is expired, in order. */
  function ExpiredFlags(offers: seq<Doc>, now: int): (r: seq<bool>)
    ensures |r| == |offers|
    ensures forall j :: 0 <= j < |offers| ==> r[j] == Expired(offers[j], now)
  {
    seq(|offers|, j requires 0 <= j < |offers| => Expired(offers[j], now))
  }

  /** The positions, below `n`, whose flag is set, in order. */
  function Marked(flags: seq<bool>, n: nat): (r: seq<nat>)
    requires n <= |flags|
    ensures |r| <= n
    decreases n
  {
    if n == 0 then [] else Marked(flags, n - 1) + (if flags[n - 1] then [n - 1] else [])
  }

  /** Applying `f` at each position of a batch, in order. */
  function UpdateAt<T>(xs: seq<T>, batch: seq<nat>, f: T -> T): (r: seq<T>)
    ensures |r| == |xs|
    decreases |batch|
  {
    if batch == [] then xs
    else
      var before := UpdateAt(xs, batch[..|batch| - 1], f);
      var i := batch[|batch| - 1];
      if i < |before| then before[i := f(before[i])] else before
  }

  /** Updating the marked positions below `n` changes exactly those positions. */
  lemma {:induction false} UpdateMarkedAt<T>(xs: seq<T>, flags: seq<bool>, n: nat, f: T -> T, j: nat)
    requires |flags| == |xs| && n <= |xs| && j < |xs|
    ensures UpdateAt(xs, Marked(flags, n), f)[j] == if j < n && flags[j] then f(xs[j]) else xs[j]
    decreases n
  {
    if n > 0 {
      var batch := Marked(flags, n);
      var front := Marked(flags, n - 1);
      UpdateMarkedAt(xs, flags, n - 1, f, j);
      if flags[n - 1] {
        assert batch[..|batch| - 1] == front;
        if j == n - 1 {
          UpdateMarkedAt(xs, flags, n - 1, f, n - 1);
        }
      } else {
        assert batch == front;
      }
    }
  }

  /** The batch of the sweep: the indices, below `n`, of the expired offers. */
  function ExpiredIndices(offers: seq<Doc>, n: nat, now: int): (r: seq<nat>)
    requires n <= |offers|
    ensures |r| <= n
  {
    Marked(ExpiredFlags(offers, now), n)
  }

  /** Committing a batch of deactivations. */
  function CommitDeactivations(offers: seq<Doc>, batch: seq<nat>): (r: seq<Doc>)
    ensures |r| == |offers|
  {
    UpdateAt(offers, batch, Deactivated)
  }

  datatype SweepOutcome = Threw | Finished(deactivatedCount: nat)

  /** The number of offers the sweep deactivates. */
  function ExpiredCount(offers: seq<Doc>, now: int): (c: nat)
    ensures c <= |offers|
  {
    |ExpiredIndices(offers, |offers|, now)|
  }

  /**
   * A snapshot of the banner collections, with the activation and the nightly
   * sweep as methods that update them.
   */
  class BannerStore {
    var pending: seq<Doc>
    var offers: seq<Doc>
    var mail: seq<BannerMail>
    var paymentLogs: seq<Doc>

    constructor(pending: seq<Doc>, offers: seq<Doc>)
      ensures this.pending == pending && this.offers == offers
      ensures mail == [] && paymentLogs == []
    {
      this.pending := pending;
      this.offers := offers;
      mail := [];
      paymentLogs := [];
    }

    function State(): BannerState
      reads this
    {
      BannerState(pending, offers, mail, paymentLogs)
    }

    /**
     * processBannerPaymentSuccess: the pending offer is deleted before the
     * special offer is added, and every failure after the guard is caught.
     */
    method ProcessBannerPaymentSuccess(newData: Doc, prevData: Doc, sessionId: string,
                                       startMs: Option<int>)
      modifies this
      ensures State() == Activation(old(State()), newData, prevData, sessionId, startMs)
    {
      if !ShouldActivate(newData, prevData) {
        return;
      }
      var md := Get(newData, "metadata");
      var offerData: Doc;
      var found := FindPending(pending, sessionId);
      if found.Some? {
        offerData := pending[found.value];
        pending := Remove(pending, found.value);
      } else {
        if startMs.None? {
          return;
        }
        offerData := BaseOffer(Field(md, "user_id"), Field(md, "establishment_id"), startMs.value);
      }
      assert ChosenBase(old(pending), newData, sessionId, startMs) == Some(offerData);
      assert pending == Consumed(old(pending), sessionId);
      ghost var chosen := State();
      PublishOffer(offerData, newData, sessionId);
      assert State() == Publish(chosen, offerData, newData, sessionId);
    }

    /** The writes after the base record is chosen, each caught on failure. */
    method PublishOffer(offerData: Doc, newData: Doc, sessionId: string)
      modifies this
      ensures State() == Publish(old(State()), offerData, newData, sessionId)
    {
      var special := SpecialOffer(offerData, newData, sessionId);
      if !Writable(special) {
        return;
      }
      offers := offers + [special];
      SendConfirmationEmail(offerData, newData);
      LogPayment(newData);
    }

    /** sendConfirmationEmail: queue the mail, or swallow the failure. */
    method SendConfirmationEmail(offerData: Doc, newData: Doc)
      modifies this
      ensures mail == Mailed(old(mail), offerData, newData)
      ensures pending == old(pending) && offers == old(offers) && paymentLogs == old(paymentLogs)
    {
      var confirmation := ConfirmationMail(offerData, newData);
      if confirmation.Some? {
        mail := mail + [confirmation.value];
      }
    }

    /** The payment log write; a refused write is caught. */
    method LogPayment(newData: Doc)
      modifies this
      ensures paymentLogs == Logged(old(paymentLogs), newData)
      ensures pending == old(pending) && offers == old(offers) && mail == old(mail)
    {
      var log := PaymentLog(newData);
      if Writable(log) {
        paymentLogs := paymentLogs + [log];
      }
    }

    /**
     * deactivateExpiredBanners: queue one update per expired active offer and
     * commit when there is one; an unreadable end date aborts before the commit.
     * `commitFails` is the store refusing the batch, which is rethrown and,
     * the batch being atomic, deactivates nothing.
     */
    method DeactivateExpiredBanners(now: int, commitFails: bool) returns (outcome: SweepOutcome)
      modifies this
      ensures pending == old(pending) && mail == old(mail) && paymentLogs == old(paymentLogs)
      ensures SweepThrows(old(offers)) ==> outcome == Threw && offers == old(offers)
      ensures !SweepThrows(old(offers)) && ExpiredCount(old(offers), now) > 0 && commitFails ==>
        outcome == Threw && offers == old(offers)
      ensures !SweepThrows(old(offers)) && (ExpiredCount(old(offers), now) == 0 || !commitFails) ==>
        outcome == Finished(ExpiredCount(old(offers), now)) && offers == Swept(old(offers), now)
    {
      var threw, batch, deactivatedCount := QueueDeactivations(offers, now);
      if threw {
        return Threw;
      }
      CommitSwept(offers, now);
      if deactivatedCount > 0 {
        if commitFails {
          return Threw;
        }
        offers := CommitDeactivations(offers, batch);
      }
      return Finished(deactivatedCount);
    }
  }

  /**
   * The loop of deactivateExpiredBanners over the selected offers: the batch
   * of expired offers, or an abort at the first unreadable end date.
   */
  method QueueDeactivations(active: seq<Doc>, now: int)
    returns (threw: bool, batch: seq<nat>, deactivatedCount: nat)
    ensures threw <==> SweepThrows(active)
    ensures !threw ==> batch == ExpiredIndices(active, |active|, now) && deactivatedCount == |batch|
  {
    batch := [];
    deactivatedCount := 0;
    var i := 0;
    while i < |active|
      invariant 0 <= i <= |active|
      invariant forall j :: 0 <= j < i ==> !Malformed(active[j])
      invariant batch == ExpiredIndices(active, i, now)
      invariant deactivatedCount == |batch|
    {
      var offer := active[i];
      if ActiveOffer(offer) {
        var end := Get(offer, "end_date");
        if Truthy(end) {
          if !end.Time? {
            assert Malformed(active[i]);
            return true, batch, deactivatedCount;
          }
          if end.ms < now {
            batch := batch + [i];
            deactivatedCount := deactivatedCount + 1;
          }
        }
      }
      i := i + 1;
    }
    return false, batch, deactivatedCount;
  }

  /** The committed batch of the whole sweep is the swept collection. */
  lemma CommitSwept(offers: seq<Doc>, now: int)
    ensures CommitDeactivations(offers, ExpiredIndices(offers, |offers|, now)) == Swept(offers, now)
  {
    var after := CommitDeactivations(offers, ExpiredIndices(offers, |offers|, now));
    forall j | 0 <= j < |offers|
      ensures after[j] == Swept(offers, now)[j]
    {
      UpdateMarkedAt(offers, ExpiredFlags(offers, now), |offers|, Deactivated, j);
    }
  }

  // ---------------------------------------------------------------------------
  // Properties of the activation
  // ---------------------------------------------------------------------------

  /**
   * With a pending offer for the session, that offer is deleted and is the
   * base of the new offer, even when the new offer is then refused.
   */
  lemma ActivationUsesPending(s: BannerState, newData: Doc, prevData: Doc, sessionId: string,
                              startMs: Option<int>)
    requires ShouldActivate(newData, prevData) && FindPending(s.pending, sessionId).Some?
    ensures var i := FindPending(s.pending, sessionId).value;
      var r := Activation(s, newData, prevData, sessionId, startMs);
      var special := SpecialOffer(s.pending[i], newData, sessionId);
      && r.pending == Remove(s.pending, i)
      && (Writable(special) ==> r.offers == s.offers + [special])
      && (!Writable(special) ==> r.offers == s.offers && r.mail == s.mail && r.logs == s.logs)
  {
  }

  /**
   * Without a pending offer, a valid start date gives an offer running from
   * that date for seven days; an invalid one gives no write at all.
   */
  lemma ActivationWithoutPending(s: BannerState, newData: Doc, prevData: Doc, sessionId: string,
                                 startMs: Option<int>)
    requires ShouldActivate(newData, prevData) && FindPending(s.pending, sessionId).None?
    ensures var r := Activation(s, newData, prevData, sessionId, startMs);
      && r.pending == s.pending
      && (startMs.None? ==> r == s)
      && (startMs.Some? && |r.offers| == |s.offers| + 1 ==>
            && Get(r.offers[|s.offers|], "start_date") == Time(startMs.value)
            && Get(r.offers[|s.offers|], "end_date") == Time(startMs.value + BANNER_DAYS * DAY_MS))
  {
    var r := Activation(s, newData, prevData, sessionId, startMs);
    if startMs.Some? {
      var md := Get(newData, "metadata");
      var base := BaseOffer(Field(md, "user_id"), Field(md, "establishment_id"), startMs.value);
      assert r == Publish(s, base, newData, sessionId);
      if |r.offers| == |s.offers| + 1 {
        BaseDatesKept(base, newData, sessionId);
      }
    }
  }

  /** The dates of the base record survive the fixed fields. */
  lemma BaseDatesKept(base: Doc, newData: Doc, sessionId: string)
    ensures Get(SpecialOffer(base, newData, sessionId), "start_date") == Get(base, "start_date")
    ensures Get(SpecialOffer(base, newData, sessionId), "end_date") == Get(base, "end_date")
  {
    var fixed := FixedFields(newData, sessionId);
    assert "start_date" !in fixed && "end_date" !in fixed;
  }

  /** Every offer the activation creates is active, paid, top priority and tied to the session. */
  lemma ActivatedOfferFields(s: BannerState, newData: Doc, prevData: Doc, sessionId: string,
                             startMs: Option<int>)
    ensures var r := Activation(s, newData, prevData, sessionId, startMs);
      |r.offers| == |s.offers| + 1 ==>
        var o := r.offers[|s.offers|];
        && ShouldActivate(newData, prevData)
        && Get(o, "status") == Str("active") && Get(o, "payment_status") == Str("paid")
        && Get(o, "is_active") == Bool(true) && Get(o, "priority") == Int(PAID_PRIORITY)
        && Get(o, "stripe_session_id") == Str(sessionId)
        && Get(o, "payment_amount") == AmountOf(Get(newData, "amount_total"))
        && Get(o, "payment_currency") == CurrencyOf(Get(newData, "currency"))
  {
    var r := Activation(s, newData, prevData, sessionId, startMs);
    ActivationShape(s, newData, prevData, sessionId, startMs);
    if |r.offers| == |s.offers| + 1 {
      var base := ChosenBase(s.pending, newData, sessionId, startMs).value;
      FixedFieldsWin(base, newData, sessionId);
      SessionFieldsWin(base, newData, sessionId);
    }
  }

  /** The constant fields of the special offer are read back as set. */
  lemma FixedFieldsWin(offerData: Doc, newData: Doc, sessionId: string)
    ensures var o := SpecialOffer(offerData, newData, sessionId);
      && Get(o, "status") == Str("active") && Get(o, "payment_status") == Str("paid")
      && Get(o, "is_active") == Bool(true) && Get(o, "priority") == Int(PAID_PRIORITY)
  {
    var fixed := FixedFields(newData, sessionId);
    assert "status" in fixed && "payment_status" in fixed && "is_active" in fixed && "priority" in fixed;
  }

  /** The session fields of the special offer are read back as set. */
  lemma SessionFieldsWin(offerData: Doc, newData: Doc, sessionId: string)
    ensures var o := SpecialOffer(offerData, newData, sessionId);
      && Get(o, "stripe_session_id") == Str(sessionId)
      && Get(o, "payment_amount") == AmountOf(Get(newData, "amount_total"))
      && Get(o, "payment_currency") == CurrencyOf(Get(newData, "currency"))
  {
    var fixed := FixedFields(newData, sessionId);
    assert "stripe_session_id" in fixed && "payment_amount" in fixed && "payment_currency" in fixed;
  }

  /** A redelivered update (the session was already complete) writes nothing. */
  lemma CompletedSessionIgnored(s: BannerState, newData: Doc, prevData: Doc, sessionId: string,
                                startMs: Option<int>)
    requires Get(prevData, "status") == Str("complete")
    ensures Activation(s, newData, prevData, sessionId, startMs) == s
  {
  }

  // ---------------------------------------------------------------------------
  // Properties of the sweep
  // ---------------------------------------------------------------------------

  /** The batch holds exactly the flagged positions. */
  lemma {:induction false} MarkedExactly(flags: seq<bool>, n: nat)
    requires n <= |flags|
    ensures forall j :: j in Marked(flags, n) <==> 0 <= j < n && flags[j]
    decreases n
  {
    if n > 0 {
      MarkedExactly(flags, n - 1);
      var tail: seq<nat> := if flags[n - 1] then [n - 1] else [];
      assert Marked(flags, n) == Marked(flags, n - 1) + tail;
      forall j ensures j in Marked(flags, n) <==> 0 <= j < n && flags[j] {
        assert j in Marked(flags, n) <==> j in Marked(flags, n - 1) || j in tail;
      }
    }
  }

  /** The sweep deactivates exactly the expired offers, and leaves none expired. */
  lemma SweptExactly(offers: seq<Doc>, now: int)
    ensures forall j :: j in ExpiredIndices(offers, |offers|, now) <==> 0 <= j < |offers| && Expired(offers[j], now)
    ensures forall j :: 0 <= j < |offers| && Expired(offers[j], now) ==>
      !ActiveOffer(Swept(offers, now)[j]) && Get(Swept(offers, now)[j], "status") == Str("expired")
    ensures forall j :: 0 <= j < |offers| && !Expired(offers[j], now) ==> Swept(offers, now)[j] == offers[j]
    ensures forall j :: 0 <= j < |offers| ==> !Expired(Swept(offers, now)[j], now)
  {
    MarkedExactly(ExpiredFlags(offers, now), |offers|);
    forall j | 0 <= j < |offers| && Expired(offers[j], now)
      ensures !ActiveOffer(Swept(offers, now)[j]) && Get(Swept(offers, now)[j], "status") == Str("expired")
    {
      DeactivatedFields(offers[j]);
    }
  }

  /** A flag sequence with no flag set marks nothing. */
  lemma {:induction false} MarkedNone(flags: seq<bool>, n: nat)
    requires n <= |flags|
    requires forall j :: 0 <= j < n ==> !flags[j]
    ensures Marked(flags, n) == []
    decreases n
  {
    if n > 0 {
      MarkedNone(flags, n - 1);
    }
  }

  /**
   * Running the sweep again at the same instant deactivates nothing and
   * changes nothing; it aborts again exactly when the first run did.
   */
  lemma SweepIdempotent(offers: seq<Doc>, now: int)
    ensures ExpiredCount(Swept(offers, now), now) == 0
    ensures Swept(Swept(offers, now), now) == Swept(offers, now)
    ensures SweepThrows(Swept(offers, now)) <==> SweepThrows(offers)
  {
    var after := Swept(offers, now);
    SweptExactly(offers, now);
    MarkedNone(ExpiredFlags(after, now), |after|);
    forall j | 0 <= j < |offers| && Expired(offers[j], now)
      ensures !Malformed(after[j])
    {
      DeactivatedFields(offers[j]);
    }
    if SweepThrows(offers) {
      var j :| 0 <= j < |offers| && Malformed(offers[j]);
      assert after[j] == offers[j];
    }
    if SweepThrows(after) {
      var j :| 0 <= j < |after| && Malformed(after[j]);
      assert after[j] == offers[j];
    }
  }

  /** An offer expired at one time is still expired later: later sweeps only widen. */
  lemma ExpiryMonotone(o: Doc, now: int, later: int)
    requires now <= later && Expired(o, now)
    ensures Expired(o, later)
  {
  }
}
