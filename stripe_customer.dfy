/**
 * Payment-provider customers (functions/index.js): the customer created when
 * a `customers/{userId}` document appears, the callable that forces one into
 * existence, and the classification of the configured secret key.
 */
module StripeCustomer {
  import opened Common

  const TEST_PREFIX: string := "TEST_"
  const NOT_CONFIGURED: string := "NON CONFIGURÉ"
  const NOT_CONFIGURED_MESSAGE: string := "Stripe non configuré sur le serveur"
  const TEST_KEY_PREFIX: string := "sk_test"
  const LIVE_KEY_PREFIX: string := "sk_live"
  /** `substring(0, 7)`. */
  const PREFIX_LENGTH: nat := 7

  /** A customer the provider created; a customer without an email has a null one. */
  datatype Customer = Customer(id: string, created: int, email: Option<string>)

  /** An error thrown by the provider; any of its fields may be undefined. */
  datatype ProviderError = ProviderError(message: Value, errorType: Value, code: Value, raw: Value)

  /** A `customers.create` call: the email sent and the metadata. */
  datatype CustomerRequest = CustomerRequest(email: Value, metadata: map<string, string>)

  /** What `createStripeCustomer` resolves to; `Rejected` when its last write is refused. */
  datatype CreateResponse =
    | NoResult
    | Created(customerId: string, email: Value)
    | Failed(error: Value)
    | Rejected

  /** The customer document after the trigger, and the provider calls it made. */
  datatype CreateOutcome = CreateOutcome(response: CreateResponse, doc: Doc, requests: seq<CustomerRequest>)

  /**
   * The client is set up at load time exactly when `stripe.secret` is a
   * non-empty string (a failing client library is not modelled).
   */
  predicate StripeReady(secret: Option<string>) {
    secret.Some? && secret.value != ""
  }

  function EmailValue(email: Option<string>): Value {
    match email
    case Some(e) => Str(e)
    case None => Null
  }

  /** The update recording that the client is not configured. */
  function NotConfiguredUpdate(): (r: Doc)
    ensures r.Keys == {"error"} && Writable(r)
  {
    map["error" := Record(map["message" := Str(NOT_CONFIGURED_MESSAGE), "timestamp" := ServerTime])]
  }

  /** The update recording a created customer. */
  function SuccessUpdate(c: Customer): (r: Doc)
    ensures r.Keys == {"stripeId", "stripeCreatedAt", "stripeCustomerData"}
  {
    map[
      "stripeId" := Str(c.id),
      "stripeCreatedAt" := ServerTime,
      "stripeCustomerData" := Record(map["id" := Str(c.id), "created" := Int(c.created), "email" := EmailValue(c.email)])]
  }

  /** `error.raw ? error.raw.message : null`. */
  function RawMessage(raw: Value): (r: Value)
    ensures !Truthy(raw) ==> r == Null
  {
    if Truthy(raw) then Field(raw, "message") else Null
  }

  /** The error record written when the provider call fails. */
  function ErrorRecord(e: ProviderError): Value {
    Record(map[
      "message" := e.message,
      "type" := e.errorType,
      "code" := e.code,
      "timestamp" := ServerTime,
      "raw" := RawMessage(e.raw)])
  }

  function ErrorUpdate(e: ProviderError): (r: Doc)
    ensures r.Keys == {"error", "stripeError"}
  {
    map["error" := ErrorRecord(e), "stripeError" := Bool(true)]
  }

  /** The store refuses a record with an undefined field, nested ones included. */
  predicate ErrorWritable(e: ProviderError) {
    e.message != Undefined && e.errorType != Undefined && e.code != Undefined && RawMessage(e.raw) != Undefined
  }

  /**
   * createStripeCustomer on the new document `doc` with id `userId`: the
   * guards in order (client not configured, test id or no email, existing
   * customer id), then the provider call, whose answer is `created`.
   */
  function CreateCustomer(doc: Doc, userId: string, secret: Option<string>,
                          created: Result<Customer, ProviderError>): (r: CreateOutcome)
    ensures |r.requests| <= 1
    ensures r.response == NoResult <==> r.requests == []
    ensures r.response.Rejected? ==> r.doc == doc
  {
    if !StripeReady(secret) then CreateOutcome(NoResult, doc + NotConfiguredUpdate(), [])
    else if StartsWith(userId, TEST_PREFIX) || !Truthy(Get(doc, "email")) then CreateOutcome(NoResult, doc, [])
    else if Truthy(Get(doc, "stripeId")) then CreateOutcome(NoResult, doc, [])
    else
      var request := CustomerRequest(Get(doc, "email"),
        map["firebaseUID" := userId, "created_via" := "cloud_function", "environment" := "production"]);
      match created
      case Ok(c) => CreateOutcome(Created(c.id, EmailValue(c.email)), doc + SuccessUpdate(c), [request])
      case Err(e) =>
        if ErrorWritable(e) then CreateOutcome(Failed(e.message), doc + ErrorUpdate(e), [request])
        else CreateOutcome(Rejected, doc, [request])
  }

  // ---------------------------------------------------------------------------
  // forceCreateStripeCustomer
  // ---------------------------------------------------------------------------

  /** The caller: uid and the email of its token (possibly undefined). */
  datatype Auth = Auth(uid: string, email: Value)

  datatype ForceResponse =
    | Unauthenticated
    | FailedPrecondition
    | AlreadyExists(storedId: Value)
    | ForceCreated(customerId: string)
    | Internal

  datatype ForceOutcome = ForceOutcome(response: ForceResponse, customers: map<string, Doc>, requests: seq<CustomerRequest>)

  /** The merge written once the customer is created. */
  function ForceUpdate(email: Value, customerId: string): (r: Doc)
    ensures r.Keys == {"email", "stripeId", "created", "stripeCreatedAt"}
  {
    map["email" := email, "stripeId" := Str(customerId), "created" := ServerTime, "stripeCreatedAt" := ServerTime]
  }

  /**
   * forceCreateStripeCustomer: the caller must be signed in, then the client
   * configured; a stored customer id the provider still knows (`retrieved`)
   * is returned as is; otherwise a customer is created (`created`) and merged
   * into the caller's document. Every later error surfaces as 'internal'.
   */
  function ForceCreate(customers: map<string, Doc>, auth: Option<Auth>, secret: Option<string>,
                       retrieved: bool, created: Result<Customer, Value>): (r: ForceOutcome)
    ensures auth.None? ==> r == ForceOutcome(Unauthenticated, customers, [])
    ensures auth.Some? && !StripeReady(secret) ==> r == ForceOutcome(FailedPrecondition, customers, [])
    ensures !r.response.ForceCreated? ==> r.customers == customers
    ensures |r.requests| <= 1
  {
    match auth
    case None => ForceOutcome(Unauthenticated, customers, [])
    case Some(a) =>
      if !StripeReady(secret) then ForceOutcome(FailedPrecondition, customers, [])
      else
        var stored := if a.uid in customers then Get(customers[a.uid], "stripeId") else Undefined;
        if Truthy(stored) && retrieved then ForceOutcome(AlreadyExists(stored), customers, [])
        else
          var request := CustomerRequest(a.email, map["firebaseUID" := a.uid, "created_via" := "force_create_function"]);
          match created
          case Err(_) => ForceOutcome(Internal, customers, [request])
          case Ok(c) =>
            if a.email == Undefined then ForceOutcome(Internal, customers, [request])
            else
              var prior := if a.uid in customers then customers[a.uid] else map[];
              ForceOutcome(ForceCreated(c.id), customers[a.uid := prior + ForceUpdate(a.email, c.id)], [request])
  }

  // ---------------------------------------------------------------------------
  // debugStripeConfig
  // ---------------------------------------------------------------------------

  datatype DebugInfo = DebugInfo(hasStripeKey: bool, keyPrefix: string, isTestKey: bool, isLiveKey: bool)

  /** The first seven characters of the key, or "NON CONFIGURÉ" without one. */
  function KeyPrefix(secret: Option<string>): (p: string)
    // the key's own first characters: all seven of them, or the whole of a shorter key
    ensures StripeReady(secret) ==> StartsWith(secret.value, p)
    ensures StripeReady(secret) ==> |p| == if |secret.value| < PREFIX_LENGTH then |secret.value| else PREFIX_LENGTH
    ensures !StripeReady(secret) ==> p == NOT_CONFIGURED
  {
    if StripeReady(secret) then
      var key := secret.value;
      key[..if |key| < PREFIX_LENGTH then |key| else PREFIX_LENGTH]
    else NOT_CONFIGURED
  }

  function Debug(secret: Option<string>): DebugInfo {
    var prefix := KeyPrefix(secret);
    DebugInfo(StripeReady(secret), prefix, StartsWith(prefix, TEST_KEY_PREFIX), StartsWith(prefix, LIVE_KEY_PREFIX))
  }

  // ---------------------------------------------------------------------------
  // Properties
  // ---------------------------------------------------------------------------

  /** An unconfigured client records the error, whatever the document's id or email, and calls nothing. */
  lemma NotConfiguredFirst(doc: Doc, userId: string, secret: Option<string>, created: Result<Customer, ProviderError>)
    requires !StripeReady(secret)
    ensures var r := CreateCustomer(doc, userId, secret, created);
      && r.response == NoResult && r.requests == []
      && r.doc == doc["error" := Record(map["message" := Str(NOT_CONFIGURED_MESSAGE), "timestamp" := ServerTime])]
  {
    assert doc + NotConfiguredUpdate()
      == doc["error" := Record(map["message" := Str(NOT_CONFIGURED_MESSAGE), "timestamp" := ServerTime])];
  }

  /** Test documents, documents without email and documents with a customer id are left alone. */
  lemma SkippedDocuments(doc: Doc, userId: string, secret: Option<string>, created: Result<Customer, ProviderError>)
    requires StripeReady(secret)
    requires StartsWith(userId, TEST_PREFIX) || !Truthy(Get(doc, "email")) || Truthy(Get(doc, "stripeId"))
    ensures CreateCustomer(doc, userId, secret, created) == CreateOutcome(NoResult, doc, [])
  {
  }

  /** A created customer: its id is stored twice, and one provider call was made with the document's email. */
  lemma CreatedCustomerStored(doc: Doc, userId: string, secret: Option<string>, c: Customer)
    requires StripeReady(secret) && !StartsWith(userId, TEST_PREFIX)
    requires Truthy(Get(doc, "email")) && !Truthy(Get(doc, "stripeId"))
    ensures var r := CreateCustomer(doc, userId, secret, Ok(c));
      && r.response == Created(c.id, EmailValue(c.email))
      && Get(r.doc, "stripeId") == Str(c.id)
      && Field(Get(r.doc, "stripeCustomerData"), "id") == Str(c.id)
      && |r.requests| == 1 && r.requests[0].email == Get(doc, "email")
      && (forall k :: k in doc && k !in SuccessUpdate(c) ==> r.doc[k] == doc[k])
  {
    var u := SuccessUpdate(c);
    assert u["stripeId"] == Str(c.id);
    assert u["stripeCustomerData"] == Record(map["id" := Str(c.id), "created" := Int(c.created), "email" := EmailValue(c.email)]);
  }

  /** A failed call records the error and `stripeError: true` and answers `success: false`, unless that write is refused. */
  lemma FailureRecorded(doc: Doc, userId: string, secret: Option<string>, e: ProviderError)
    requires StripeReady(secret) && !StartsWith(userId, TEST_PREFIX)
    requires Truthy(Get(doc, "email")) && !Truthy(Get(doc, "stripeId"))
    ensures var r := CreateCustomer(doc, userId, secret, Err(e));
      && (ErrorWritable(e) ==>
            r.response == Failed(e.message) && Get(r.doc, "stripeError") == Bool(true)
            && Get(r.doc, "error") == ErrorRecord(e))
      && (!ErrorWritable(e) ==> r.response == Rejected && r.doc == doc)
  {
    var u := ErrorUpdate(e);
    assert u["stripeError"] == Bool(true) && u["error"] == ErrorRecord(e);
  }

  /** A stored customer id the provider still knows is returned without a call or a write. */
  lemma ForceReusesCustomer(customers: map<string, Doc>, a: Auth, secret: Option<string>, created: Result<Customer, Value>)
    requires StripeReady(secret)
    requires a.uid in customers && Truthy(Get(customers[a.uid], "stripeId"))
    ensures ForceCreate(customers, Some(a), secret, true, created)
      == ForceOutcome(AlreadyExists(Get(customers[a.uid], "stripeId")), customers, [])
  {
  }

  /** Otherwise the created customer's id is merged into the caller's document, the other documents untouched. */
  lemma ForceStoresCustomer(customers: map<string, Doc>, a: Auth, secret: Option<string>, retrieved: bool, c: Customer)
    requires StripeReady(secret) && a.email != Undefined
    requires !(a.uid in customers && Truthy(Get(customers[a.uid], "stripeId")) && retrieved)
    ensures var r := ForceCreate(customers, Some(a), secret, retrieved, Ok(c));
      && r.response == ForceCreated(c.id)
      && a.uid in r.customers && Get(r.customers[a.uid], "stripeId") == Str(c.id)
      && Get(r.customers[a.uid], "email") == a.email
      && r.customers.Keys == customers.Keys + {a.uid}
      && (forall u :: u in customers && u != a.uid ==> r.customers[u] == customers[u])
      && |r.requests| == 1
  {
    var u := ForceUpdate(a.email, c.id);
    assert u["stripeId"] == Str(c.id) && u["email"] == a.email;
  }

  /** The key classification: test iff the key starts with "sk_test", live iff with "sk_live", never both. */
  lemma KeyClassification(secret: Option<string>)
    ensures var d := Debug(secret);
      && (d.isTestKey <==> StripeReady(secret) && StartsWith(secret.value, TEST_KEY_PREFIX))
      && (d.isLiveKey <==> StripeReady(secret) && StartsWith(secret.value, LIVE_KEY_PREFIX))
      && !(d.isTestKey && d.isLiveKey)
      && (|d.keyPrefix| <= PREFIX_LENGTH || d.keyPrefix == NOT_CONFIGURED)
  {
    var d := Debug(secret);
    if StripeReady(secret) {
      var key := secret.value;
      if StartsWith(key, TEST_KEY_PREFIX) {
        assert d.keyPrefix == key[..PREFIX_LENGTH];
      }
      if StartsWith(key, LIVE_KEY_PREFIX) {
        assert d.keyPrefix == key[..PREFIX_LENGTH];
      }
    } else {
      assert NOT_CONFIGURED[0] != TEST_KEY_PREFIX[0];
    }
  }

  // ---------------------------------------------------------------------------
  // The handlers, writing the documents in place
  // ---------------------------------------------------------------------------

  class CustomerStore {
    /** The `customers` collection, by document id. */
    var customers: map<string, Doc>
    /** The `customers.create` calls made so far. */
    var providerRequests: seq<CustomerRequest>

    constructor (customers: map<string, Doc>)
      ensures this.customers == customers && providerRequests == []
    {
      this.customers := customers;
      providerRequests := [];
    }

    /** createStripeCustomer, run when `customers/{userId}` is created. */
    method CreateStripeCustomer(userId: string, secret: Option<string>, created: Result<Customer, ProviderError>)
      returns (response: CreateResponse)
      requires userId in customers
      modifies this
      ensures var r := CreateCustomer(old(customers[userId]), userId, secret, created);
        && response == r.response
        && customers == old(customers)[userId := r.doc]
        && providerRequests == old(providerRequests) + r.requests
    {
      var doc := customers[userId];
      if !StripeReady(secret) {
        customers := customers[userId := doc + NotConfiguredUpdate()];
        return NoResult;
      }
      if StartsWith(userId, TEST_PREFIX) || !Truthy(Get(doc, "email")) {
        return NoResult;
      }
      if Truthy(Get(doc, "stripeId")) {
        return NoResult;
      }
      providerRequests := providerRequests + [CustomerRequest(Get(doc, "email"),
        map["firebaseUID" := userId, "created_via" := "cloud_function", "environment" := "production"])];
      if created.Ok? {
        var c := created.value;
        customers := customers[userId := doc + SuccessUpdate(c)];
        response := Created(c.id, EmailValue(c.email));
      } else if ErrorWritable(created.error) {
        customers := customers[userId := doc + ErrorUpdate(created.error)];
        response := Failed(created.error.message);
      } else {
        response := Rejected;
      }
    }

    /** forceCreateStripeCustomer; `retrieved` and `created` are the provider's answers. */
    method ForceCreateStripeCustomer(auth: Option<Auth>, secret: Option<string>, retrieved: bool,
                                     created: Result<Customer, Value>)
      returns (response: ForceResponse)
      modifies this
      ensures var r := ForceCreate(old(customers), auth, secret, retrieved, created);
        && response == r.response && customers == r.customers
        && providerRequests == old(providerRequests) + r.requests
    {
      if auth.None? {
        return Unauthenticated;
      }
      if !StripeReady(secret) {
        return FailedPrecondition;
      }
      var a := auth.value;
      var stored := if a.uid in customers then Get(customers[a.uid], "stripeId") else Undefined;
      if Truthy(stored) && retrieved {
        return AlreadyExists(stored);
      }
      providerRequests := providerRequests + [CustomerRequest(a.email,
        map["firebaseUID" := a.uid, "created_via" := "force_create_function"])];
      if created.Err? || a.email == Undefined {
        return Internal;
      }
      var existing := if a.uid in customers then customers[a.uid] else map[];
      customers := customers[a.uid := existing + ForceUpdate(a.email, created.value.id)];
      response := ForceCreated(created.value.id);
    }
  }
}
