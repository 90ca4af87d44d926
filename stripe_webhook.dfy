/**
 * StripeWebhookController.handleIncomingEvents: the signature-header guard,
 * event construction from the signature and the raw body, and the switch on
 * the event type that invokes at most one handler.
 */
module StripeWebhook {
  import opened Wrappers

  newtype byte = x: int | 0 <= x < 256

  /** The request body exactly as it arrived, before any parsing. */
  type RawBody = seq<byte>

  /** A verified Stripe event; only its type matters to the dispatcher. */
  datatype Event = Event(id: string, eventType: string)

  const SubscriptionUpdated := "customer.subscription.updated"
  const SubscriptionCreated := "customer.subscription.created"
  const PaymentIntentSucceeded := "payment_intent.succeeded"

  /**
   * StripeService.constructEventFromPayload: checks the signature against the
   * raw body and yields the event, or the error it throws.
   */
  type ConstructEvent = (string, RawBody) -> Result<Event, string>

  /**
   * StripeWebhookService.processSubscriptionUpdate: completes, or fails with
   * an error that the controller hands back as the request's error.
   */
  type SubscriptionService = Event -> Result<(), string>

  /**
   * How one call ends: rejected for a missing header, rejected because
   * construction failed, handed to the subscription service (which completed
   * or failed), handed to the payment-intent handler, or acknowledged as an
   * unhandled type.
   */
  datatype Dispatch =
    | MissingSignature
    | VerifyFailed(reason: string)
    | Subscription(event: Event)
    | SubscriptionFailed(event: Event, reason: string)
    | Payment(event: Event)
    | Unhandled(eventType: string)

  /** A handler call the dispatch made. */
  datatype HandlerCall =
    | ProcessSubscriptionUpdate(event: Event)   // stripeWebhookService.processSubscriptionUpdate
    | LogPaymentIntent(event: Event)            // the payment handler only logs

  /**
   * The handler calls made by a dispatch that ended as `d`. Each tag names at
   * most one handler, so no dispatch runs two.
   */
  function HandlersInvoked(d: Dispatch): (calls: seq<HandlerCall>)
    ensures |calls| <= 1
    ensures calls != [] <==> d.Subscription? || d.SubscriptionFailed? || d.Payment?
  {
    match d
    case Subscription(event) => [ProcessSubscriptionUpdate(event)]
    case SubscriptionFailed(event, _) => [ProcessSubscriptionUpdate(event)]
    case Payment(event) => [LogPaymentIntent(event)]
    case _ => []
  }

  /** The dispatch answers with an error (BadRequest, the construction error, or the service's error). */
  predicate Rejected(d: Dispatch) {
    d.MissingSignature? || d.VerifyFailed? || d.SubscriptionFailed?
  }

  /** The event types the controller hands to the subscription service. */
  predicate IsSubscriptionType(eventType: string) {
    eventType == SubscriptionUpdated || eventType == SubscriptionCreated
  }

  /**
   * _handleSubscriptionEvent: hands the event to the subscription service,
   * once, and returns what it returns, so its failure propagates.
   */
  function HandleSubscriptionEvent(event: Event, process: SubscriptionService): (d: Dispatch)
    ensures HandlersInvoked(d) == [ProcessSubscriptionUpdate(event)]
    ensures Rejected(d) <==> process(event).Failure?
    ensures process(event).Failure? ==> d == SubscriptionFailed(event, process(event).error)
  {
    match process(event)
    case Success(_) => Subscription(event)
    case Failure(error) => SubscriptionFailed(event, error)
  }

  /** _handlePaymentIntentEvent: logs, and calls nothing else. */
  function HandlePaymentIntentEvent(event: Event): (d: Dispatch)
    ensures HandlersInvoked(d) == [LogPaymentIntent(event)] && !Rejected(d)
  {
    Payment(event)
  }

  /** The switch on `event.type`. */
  function Route(event: Event, process: SubscriptionService): (d: Dispatch)
    ensures Rejected(d) <==> IsSubscriptionType(event.eventType) && process(event).Failure?
    ensures HandlersInvoked(d) == [ProcessSubscriptionUpdate(event)] <==> IsSubscriptionType(event.eventType)
    ensures HandlersInvoked(d) == [LogPaymentIntent(event)] <==> event.eventType == PaymentIntentSucceeded
    ensures HandlersInvoked(d) == [] <==> d == Unhandled(event.eventType)
    ensures IsSubscriptionType(event.eventType) && process(event).Success? ==> d == Subscription(event)
    ensures IsSubscriptionType(event.eventType) && process(event).Failure? ==>
      d == SubscriptionFailed(event, process(event).error)
    ensures event.eventType == PaymentIntentSucceeded ==> d == Payment(event)
    ensures !IsSubscriptionType(event.eventType) && event.eventType != PaymentIntentSucceeded ==>
      d == Unhandled(event.eventType)
  {
    if IsSubscriptionType(event.eventType) then
      HandleSubscriptionEvent(event, process)
    else if event.eventType == PaymentIntentSucceeded then
      HandlePaymentIntentEvent(event)
    else
      Unhandled(event.eventType)
  }

  /** Whether the header carries a signature: `!signature` is true for an absent header and for "". */
  predicate HasSignature(signature: Option<string>): (present: bool)
    ensures !present <==> signature == None || signature == Some("")
  {
    signature.Some? && signature.value != ""
  }

  /**
   * handleIncomingEvents. A missing or empty header is refused before the
   * body is looked at; otherwise the event is built from the signature and
   * the raw body alone, a construction error propagates with no handler run,
   * and a constructed event is routed by the type switch, where a failure
   * of the subscription service propagates too.
   */
  function HandleIncomingEvents(
    signature: Option<string>, rawBody: RawBody, construct: ConstructEvent, process: SubscriptionService)
    : (d: Dispatch)
    ensures !HasSignature(signature) ==> d == MissingSignature
    ensures HasSignature(signature) && construct(signature.value, rawBody).Failure? ==>
      d == VerifyFailed(construct(signature.value, rawBody).error)
    ensures Rejected(d) <==>
      || !HasSignature(signature)
      || construct(signature.value, rawBody).Failure?
      || (var event := construct(signature.value, rawBody).value;
          IsSubscriptionType(event.eventType) && process(event).Failure?)
    ensures HandlersInvoked(d) != [] ==>
      HasSignature(signature) && construct(signature.value, rawBody).Success?
    ensures HasSignature(signature) && construct(signature.value, rawBody).Success? ==>
      d == Route(construct(signature.value, rawBody).value, process)
  {
    if !HasSignature(signature) then
      MissingSignature
    else
      match construct(signature.value, rawBody)
      case Failure(error) => VerifyFailed(error)
      case Success(event) => Route(event, process)
  }

  /** The outcome depends on the constructor only through its answer for (signature, raw body). */
  lemma ConstructedFromSignatureAndBodyOnly(
    signature: Option<string>, rawBody: RawBody, c1: ConstructEvent, c2: ConstructEvent, process: SubscriptionService)
    requires HasSignature(signature) ==> c1(signature.value, rawBody) == c2(signature.value, rawBody)
    ensures HandleIncomingEvents(signature, rawBody, c1, process) == HandleIncomingEvents(signature, rawBody, c2, process)
  {
  }

  /** Both subscription event types reach processSubscriptionUpdate exactly once. */
  lemma SubscriptionEventsProcessedOnce(
    signature: Option<string>, rawBody: RawBody, construct: ConstructEvent, process: SubscriptionService)
    requires HasSignature(signature) && construct(signature.value, rawBody).Success?
    requires construct(signature.value, rawBody).value.eventType in {SubscriptionUpdated, SubscriptionCreated}
    ensures HandlersInvoked(HandleIncomingEvents(signature, rawBody, construct, process)) ==
      [ProcessSubscriptionUpdate(construct(signature.value, rawBody).value)]
  {
  }

  /** A verified payment_intent.succeeded event reaches the payment handler, which only logs. */
  lemma PaymentIntentReachesPaymentHandler(
    signature: Option<string>, rawBody: RawBody, construct: ConstructEvent, process: SubscriptionService)
    requires HasSignature(signature) && construct(signature.value, rawBody).Success?
    requires construct(signature.value, rawBody).value.eventType == PaymentIntentSucceeded
    ensures
      var d := HandleIncomingEvents(signature, rawBody, construct, process);
      && d == Payment(construct(signature.value, rawBody).value)
      && !Rejected(d)
      && HandlersInvoked(d) == [LogPaymentIntent(construct(signature.value, rawBody).value)]
  {
  }

  /**
   * A verified event of any other type is acknowledged without error, runs no
   * handler, and does not depend on the subscription service.
   */
  lemma UnknownTypesAcknowledged(
    signature: Option<string>, rawBody: RawBody, construct: ConstructEvent, p1: SubscriptionService, p2: SubscriptionService)
    requires HasSignature(signature) && construct(signature.value, rawBody).Success?
    requires construct(signature.value, rawBody).value.eventType
      !in {SubscriptionUpdated, SubscriptionCreated, PaymentIntentSucceeded}
    ensures
      var d := HandleIncomingEvents(signature, rawBody, construct, p1);
      && !Rejected(d)
      && HandlersInvoked(d) == []
      && d == Unhandled(construct(signature.value, rawBody).value.eventType)
      && d == HandleIncomingEvents(signature, rawBody, construct, p2)
  {
  }
}
