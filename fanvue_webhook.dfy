/**
 * The Fanvue webhook entry point of `src/app/api/webhooks/fanvue/route.ts`:
 * the checks `POST` makes before it acknowledges a delivery, the dispatch of
 * an event to its handler, and what each handler writes to the ledger.
 *
 * The HMAC-SHA256 digest is a function passed in; `JSON.parse` of the body
 * is its result passed in (`None` when it throws). The failure of a handler
 * is the `TypeError` of destructuring a missing `data` record; its message
 * text is a parameter.
 */
module FanvueWebhook {
  import opened Wrappers
  import opened WebhookUtils

  datatype WebhookPayload = WebhookPayload(event: string, timestamp: string, data: Option<WebhookData>)

  /** Truthiness of an optional string: absent and empty are falsy. */
  predicate Truthy(o: Option<string>) {
    o.Some? && o.value != ""
  }

  /** Truthiness of an optional amount: absent and zero are falsy. */
  predicate AmountTruthy(o: Option<real>) {
    o.Some? && o.value != 0.0
  }

  // ---------------------------------------------------------------------------
  // Signature
  // ---------------------------------------------------------------------------

  /** The number of bytes of one character in UTF-8. */
  function Utf8Width(c: char): nat {
    if c as int < 0x80 then 1 else if c as int < 0x800 then 2 else if c as int < 0x10000 then 3 else 4
  }

  /** `Buffer.from(s).length`: the UTF-8 length of a string. */
  function Utf8Length(s: string): nat {
    if s == [] then 0 else Utf8Width(s[0]) + Utf8Length(s[1..])
  }

  /** What `crypto.timingSafeEqual` does: throw on buffers of different lengths, else compare. */
  datatype SafeEqual = Equal(same: bool) | LengthMismatch

  function TimingSafeEqual(a: string, b: string): (r: SafeEqual)
    ensures r == LengthMismatch <==> Utf8Length(a) != Utf8Length(b)
    ensures r == Equal(true) <==> a == b
  {
    if Utf8Length(a) != Utf8Length(b) then LengthMismatch else Equal(a == b)
  }

  /** `verifyWebhookSignature`: the signature against the hex digest of the body under the secret. */
  function VerifyWebhookSignature(payload: string, signature: string, secret: string,
                                  hmac: (string, string) -> string): (r: SafeEqual)
    ensures r == Equal(true) <==> signature == hmac(secret, payload)
  {
    TimingSafeEqual(signature, hmac(secret, payload))
  }

  // ---------------------------------------------------------------------------
  // Response
  // ---------------------------------------------------------------------------

  datatype Body = ErrorBody(error: string) | Ack(success: bool, event: string, receivedAt: int)

  datatype Response = Response(status: int, body: Body)

  const MissingSignature: string := "Missing signature"
  const NotConfigured: string := "Webhook not configured"
  const InvalidSignature: string := "Invalid signature"
  const InternalError: string := "Internal server error"

  /**
   * The response of `POST`: a missing signature before anything else, then
   * a missing secret, then the signature check, and only then the body is
   * parsed and acknowledged. A thrown error becomes a 500.
   */
  function PostResponse(rawBody: string, signature: Option<string>, secret: Option<string>,
                        hmac: (string, string) -> string, parsed: Option<WebhookPayload>, now: int): (r: Response)
    ensures !Truthy(signature) ==> r == Response(401, ErrorBody(MissingSignature))
    ensures Truthy(signature) && !Truthy(secret) ==> r == Response(500, ErrorBody(NotConfigured))
    ensures Truthy(signature) && Truthy(secret)
            && Utf8Length(signature.value) != Utf8Length(hmac(secret.value, rawBody)) ==>
              r == Response(500, ErrorBody(InternalError))
    ensures r.status == 200 <==>
              Truthy(signature) && Truthy(secret) && signature.value == hmac(secret.value, rawBody) && parsed.Some?
    ensures r.status == 200 ==> r.body == Ack(true, parsed.value.event, now)
    ensures r.status == 401 ==> r.body in {ErrorBody(MissingSignature), ErrorBody(InvalidSignature)}
  {
    if !Truthy(signature) then Response(401, ErrorBody(MissingSignature))
    else if !Truthy(secret) then Response(500, ErrorBody(NotConfigured))
    else
      match VerifyWebhookSignature(rawBody, signature.value, secret.value, hmac)
      case LengthMismatch => Response(500, ErrorBody(InternalError))
      case Equal(valid) =>
        if !valid then Response(401, ErrorBody(InvalidSignature))
        else if parsed.None? then Response(500, ErrorBody(InternalError))
        else Response(200, Ack(true, parsed.value.event, now))
  }

  /** A signature of the right length that does not match is refused with 401, not 500. */
  lemma WrongSignatureRefused(rawBody: string, signature: string, secret: string,
                              hmac: (string, string) -> string, parsed: Option<WebhookPayload>, now: int)
    requires signature != "" && secret != ""
    requires Utf8Length(signature) == Utf8Length(hmac(secret, rawBody)) && signature != hmac(secret, rawBody)
    ensures PostResponse(rawBody, Some(signature), Some(secret), hmac, parsed, now) == Response(401, ErrorBody(InvalidSignature))
  {
  }

  // ---------------------------------------------------------------------------
  // Handlers
  // ---------------------------------------------------------------------------

  datatype Handler = MessageReceived | NewSubscriber | TipReceived | PurchaseReceived
                   | SubscriptionRenewed | SubscriptionCancelled

  function EventName(h: Handler): string {
    match h
    case MessageReceived => "message.received"
    case NewSubscriber => "subscriber.new"
    case TipReceived => "tip.received"
    case PurchaseReceived => "purchase.received"
    case SubscriptionRenewed => "subscription.renewed"
    case SubscriptionCancelled => "subscription.cancelled"
  }

  /** The `switch` of `processWebhookEvent`: the handler whose event name is `event`, if any. */
  function HandlerFor(event: string): (r: Option<Handler>)
    ensures r.Some? ==> EventName(r.value) == event
    ensures r.None? ==> forall h :: EventName(h) != event
  {
    if event == "message.received" then Some(MessageReceived)
    else if event == "subscriber.new" then Some(NewSubscriber)
    else if event == "tip.received" then Some(TipReceived)
    else if event == "purchase.received" then Some(PurchaseReceived)
    else if event == "subscription.renewed" then Some(SubscriptionRenewed)
    else if event == "subscription.cancelled" then Some(SubscriptionCancelled)
    else None
  }

  /** Each of the six event names selects its own handler and no other. */
  lemma DispatchSelectsOwnHandler(h: Handler)
    ensures HandlerFor(EventName(h)) == Some(h)
  {
    var names := ["message.received", "subscriber.new", "tip.received", "purchase.received",
                  "subscription.renewed", "subscription.cancelled"];
    assert |names[0]| == 16 && |names[1]| == 14 && |names[2]| == 12 && |names[3]| == 17
           && |names[4]| == 20 && |names[5]| == 22;
    assert names[4][13] == 'r' && names[3][0] == 'p';
  }

  /** Whether the handler ran to the end, or failed and passed its error on. */
  datatype Outcome = Completed | Rethrown

  /** The ledger entry a handler writes: its status and error message. */
  datatype Entry = Entry(status: Status, error: Option<string>)

  /**
   * What one handler does to the ledger: revenue events to prepend, replies
   * scheduled, the entry written (if any), and whether it passed an error on.
   */
  datatype Effect = Effect(revenue: seq<RevenueEvent>, replies: seq<ScheduledReply>, entry: Option<Entry>, outcome: Outcome)

  const Nothing: Effect := Effect([], [], None, Completed)

  /** The ledger after a handler of event `name` had effect `e`. */
  function Applied(l: Ledger, name: string, data: Option<WebhookData>, e: Effect, id: string, now: int): Ledger {
    Ledger(
      match e.entry
      case None => l.events
      case Some(entry) => Logged(l.events, WebhookEvent(id, name, now, entry.status, data, entry.error)),
      e.revenue + l.revenue,
      l.replies + e.replies)
  }

  /** The entry a handler writes after destructuring a missing `data` record failed. */
  function FailedEntry(failure: string): Entry {
    Entry(Error, Some(failure))
  }

  const SucceededEntry: Entry := Entry(Success, None)

  /** Welcome text, scheduled ten minutes after a new subscription. */
  const WelcomeDelay: int := 600000
  const TipThanks: string := "Thank you so much for the tip! ðŸ’–"
  const PurchaseThanks: string := "Thank you for your purchase! I hope you enjoy it! ðŸ˜Š"

  function WelcomeText(username: Option<string>): string {
    "Welcome! Thank you for subscribing, " + (if Truthy(username) then username.value else "there")
    + "! ðŸŽ‰"
  }

  /**
   * `handleMessageReceived`: without a user or a message, nothing; otherwise
   * an immediate reply with the message's content when auto-responses are on,
   * then a success entry.
   */
  function MessageReceivedEffect(data: Option<WebhookData>, config: AutoResponseConfig, failure: string): (r: Effect)
    ensures r.revenue == [] && |r.replies| <= 1
    ensures data.None? ==> r == Effect([], [], Some(FailedEntry(failure)), Rethrown)
    ensures data.Some? && (!Truthy(data.value.userUuid) || data.value.message.None?) ==> r == Nothing
    ensures data.Some? && Truthy(data.value.userUuid) && data.value.message.Some? ==>
              r.entry == Some(SucceededEntry) && r.outcome == Completed
              && (r.replies != [] <==> ShouldAutoRespondWith(config, data.value.userUuid.value))
              && forall reply :: reply in r.replies ==> reply.delivery == Immediately
  {
    match data
    case None => Effect([], [], Some(FailedEntry(failure)), Rethrown)
    case Some(d) =>
      if !Truthy(d.userUuid) || d.message.None? then Nothing
      else
        var reply := if ShouldAutoRespondWith(config, d.userUuid.value)
                     then [ScheduledReply(d.userUuid.value, d.message.value.content, DeliveryFor(0))] else [];
        Effect([], reply, Some(SucceededEntry), Completed)
  }

  /** `handleNewSubscriber`: without a user, nothing; otherwise a welcome ten minutes later, then a success entry. */
  function NewSubscriberEffect(data: Option<WebhookData>, failure: string): (r: Effect)
    ensures r.revenue == []
    ensures data.None? ==> r == Effect([], [], Some(FailedEntry(failure)), Rethrown)
    ensures data.Some? && !Truthy(data.value.userUuid) ==> r == Nothing
    ensures data.Some? && Truthy(data.value.userUuid) ==>
              r.entry == Some(SucceededEntry) && r.outcome == Completed
              && r.replies == [ScheduledReply(data.value.userUuid.value, WelcomeText(data.value.username), After(WelcomeDelay))]
  {
    match data
    case None => Effect([], [], Some(FailedEntry(failure)), Rethrown)
    case Some(d) =>
      if !Truthy(d.userUuid) then Nothing
      else Effect([], [ScheduledReply(d.userUuid.value, WelcomeText(d.username), DeliveryFor(WelcomeDelay))],
                  Some(SucceededEntry), Completed)
  }

  function ThanksFor(kind: RevenueType): string {
    if kind == Tip then TipThanks else PurchaseThanks
  }

  /**
   * `handleTipReceived` (kind `Tip`) and `handlePurchaseReceived` (kind
   * `Purchase`): without an amount and a currency, nothing; otherwise one
   * revenue event, an immediate thank-you when there is a user, then a
   * success entry.
   */
  function PaymentEffect(kind: RevenueType, data: Option<WebhookData>, now: int, failure: string): (r: Effect)
    requires kind != Subscription
    ensures data.None? ==> r == Effect([], [], Some(FailedEntry(failure)), Rethrown)
    ensures data.Some? && (!AmountTruthy(data.value.amount) || !Truthy(data.value.currency)) ==> r == Nothing
    ensures data.Some? && AmountTruthy(data.value.amount) && Truthy(data.value.currency) ==>
              var d := data.value;
              r.revenue == [RevenueEvent(kind, d.amount.value, d.currency.value, d.userUuid, now)]
              && (r.replies != [] <==> Truthy(d.userUuid))
              && (forall reply :: reply in r.replies ==> reply.delivery == Immediately && reply.content == ThanksFor(kind))
              && r.entry == Some(SucceededEntry) && r.outcome == Completed
  {
    match data
    case None => Effect([], [], Some(FailedEntry(failure)), Rethrown)
    case Some(d) =>
      if !AmountTruthy(d.amount) || !Truthy(d.currency) then Nothing
      else
        var reply := if Truthy(d.userUuid) then [ScheduledReply(d.userUuid.value, ThanksFor(kind), DeliveryFor(0))] else [];
        Effect([RevenueEvent(kind, d.amount.value, d.currency.value, d.userUuid, now)], reply, Some(SucceededEntry), Completed)
  }

  /**
   * `handleSubscriptionRenewed`: subscription revenue only with an amount and
   * a currency, and always an entry; a failure is logged and not passed on.
   */
  function RenewedEffect(data: Option<WebhookData>, now: int, failure: string): (r: Effect)
    ensures r.replies == [] && r.outcome == Completed && r.entry.Some?
    ensures data.None? ==> r == Effect([], [], Some(FailedEntry(failure)), Completed)
    ensures data.Some? ==> r.entry == Some(SucceededEntry)
    ensures r.revenue != [] <==> data.Some? && AmountTruthy(data.value.amount) && Truthy(data.value.currency)
  {
    match data
    case None => Effect([], [], Some(FailedEntry(failure)), Completed)
    case Some(d) =>
      var revenue := if AmountTruthy(d.amount) && Truthy(d.currency)
                     then [RevenueEvent(Subscription, d.amount.value, d.currency.value, d.userUuid, now)] else [];
      Effect(revenue, [], Some(SucceededEntry), Completed)
  }

  /** `handleSubscriptionCancelled`: a success entry, whatever the data. */
  const CancelledEffect: Effect := Effect([], [], Some(SucceededEntry), Completed)

  function EffectOf(h: Handler, data: Option<WebhookData>, config: AutoResponseConfig, now: int, failure: string): Effect {
    match h
    case MessageReceived => MessageReceivedEffect(data, config, failure)
    case NewSubscriber => NewSubscriberEffect(data, failure)
    case TipReceived => PaymentEffect(Tip, data, now, failure)
    case PurchaseReceived => PaymentEffect(Purchase, data, now, failure)
    case SubscriptionRenewed => RenewedEffect(data, now, failure)
    case SubscriptionCancelled => CancelledEffect
  }

  /** Every handler writes at most one entry, at most one revenue event and at most one reply. */
  lemma HandlersWriteAtMostOne(h: Handler, data: Option<WebhookData>, config: AutoResponseConfig, now: int, failure: string)
    ensures var e := EffectOf(h, data, config, now, failure);
            |e.revenue| <= 1 && |e.replies| <= 1
            && (e.outcome == Rethrown ==> e.entry == Some(FailedEntry(failure)) && e.revenue == [] && e.replies == [])
  {
    match h
    case MessageReceived =>
    case NewSubscriber =>
    case TipReceived =>
    case PurchaseReceived =>
    case SubscriptionRenewed =>
    case SubscriptionCancelled =>
  }

  /** Only renewals, tips and purchases record revenue, each under its own type. */
  lemma RevenueTypedByHandler(h: Handler, data: Option<WebhookData>, config: AutoResponseConfig, now: int, failure: string)
    ensures var e := EffectOf(h, data, config, now, failure);
            forall r :: r in e.revenue ==>
              r.timestamp == now &&
              r.kind == (if h == TipReceived then Tip else if h == PurchaseReceived then Purchase else Subscription)
              && (h == TipReceived || h == PurchaseReceived || h == SubscriptionRenewed)
  {
    match h
    case MessageReceived =>
    case NewSubscriber =>
    case TipReceived =>
    case PurchaseReceived =>
    case SubscriptionRenewed =>
    case SubscriptionCancelled =>
  }

  // ---------------------------------------------------------------------------
  // The handlers as steps on the store
  // ---------------------------------------------------------------------------

  method HandleMessageReceived(store: WebhookStore, data: Option<WebhookData>, config: AutoResponseConfig,
                               id: string, now: int, failure: string) returns (outcome: Outcome)
    modifies store
    ensures store.Snapshot() == Applied(old(store.Snapshot()), EventName(MessageReceived), data,
                                        MessageReceivedEffect(data, config, failure), id, now)
    ensures outcome == MessageReceivedEffect(data, config, failure).outcome
  {
    if data.None? {
      var _ := store.LogWebhookEvent(EventName(MessageReceived), data, Error, Some(failure), id, now);
      return Rethrown;
    }
    var d := data.value;
    if !Truthy(d.userUuid) || d.message.None? {
      return Completed;
    }
    var shouldRespond := ShouldAutoRespondWith(config, d.userUuid.value);
    if shouldRespond {
      store.ScheduleAutoResponse(d.userUuid.value, d.message.value.content, Some(0));
    }
    var _ := store.LogWebhookEvent(EventName(MessageReceived), data, Success, None, id, now);
    outcome := Completed;
  }

  method HandleNewSubscriber(store: WebhookStore, data: Option<WebhookData>,
                             id: string, now: int, failure: string) returns (outcome: Outcome)
    modifies store
    ensures store.Snapshot() == Applied(old(store.Snapshot()), EventName(NewSubscriber), data,
                                        NewSubscriberEffect(data, failure), id, now)
    ensures outcome == NewSubscriberEffect(data, failure).outcome
  {
    if data.None? {
      var _ := store.LogWebhookEvent(EventName(NewSubscriber), data, Error, Some(failure), id, now);
      return Rethrown;
    }
    var d := data.value;
    if !Truthy(d.userUuid) {
      return Completed;
    }
    var welcomeMessage := WelcomeText(d.username);
    store.ScheduleAutoResponse(d.userUuid.value, welcomeMessage, Some(WelcomeDelay));
    var _ := store.LogWebhookEvent(EventName(NewSubscriber), data, Success, None, id, now);
    outcome := Completed;
  }

  /** `handleTipReceived` and `handlePurchaseReceived`, which differ only in the type and the thank-you text. */
  method HandlePaymentReceived(store: WebhookStore, kind: RevenueType, data: Option<WebhookData>,
                               id: string, now: int, failure: string) returns (outcome: Outcome)
    requires kind != Subscription
    modifies store
    ensures store.Snapshot() == Applied(old(store.Snapshot()), EventName(if kind == Tip then TipReceived else PurchaseReceived),
                                        data, PaymentEffect(kind, data, now, failure), id, now)
    ensures outcome == PaymentEffect(kind, data, now, failure).outcome
  {
    var name := EventName(if kind == Tip then TipReceived else PurchaseReceived);
    if data.None? {
      var _ := store.LogWebhookEvent(name, data, Error, Some(failure), id, now);
      return Rethrown;
    }
    var d := data.value;
    if !AmountTruthy(d.amount) || !Truthy(d.currency) {
      return Completed;
    }
    store.LogRevenueEvent(RevenueEvent(kind, d.amount.value, d.currency.value, d.userUuid, now));
    if Truthy(d.userUuid) {
      store.ScheduleAutoResponse(d.userUuid.value, ThanksFor(kind), Some(0));
    }
    var _ := store.LogWebhookEvent(name, data, Success, None, id, now);
    outcome := Completed;
  }

  method HandleSubscriptionRenewed(store: WebhookStore, data: Option<WebhookData>,
                                   id: string, now: int, failure: string) returns (outcome: Outcome)
    modifies store
    ensures store.Snapshot() == Applied(old(store.Snapshot()), EventName(SubscriptionRenewed), data,
                                        RenewedEffect(data, now, failure), id, now)
    ensures outcome == Completed
  {
    outcome := Completed;
    if data.None? {
      var _ := store.LogWebhookEvent(EventName(SubscriptionRenewed), data, Error, Some(failure), id, now);
      return;
    }
    var d := data.value;
    if AmountTruthy(d.amount) && Truthy(d.currency) {
      store.LogRevenueEvent(RevenueEvent(Subscription, d.amount.value, d.currency.value, d.userUuid, now));
    }
    var _ := store.LogWebhookEvent(EventName(SubscriptionRenewed), data, Success, None, id, now);
  }

  method HandleSubscriptionCancelled(store: WebhookStore, data: Option<WebhookData>,
                                     id: string, now: int) returns (outcome: Outcome)
    modifies store
    ensures store.Snapshot() == Applied(old(store.Snapshot()), EventName(SubscriptionCancelled), data,
                                        CancelledEffect, id, now)
    ensures outcome == Completed
  {
    var _ := store.LogWebhookEvent(EventName(SubscriptionCancelled), data, Success, None, id, now);
    outcome := Completed;
  }

  /**
   * `processWebhookEvent`: exactly the handler of the event runs; an unknown
   * event changes nothing. A handler's failure is passed on.
   */
  method ProcessWebhookEvent(store: WebhookStore, payload: WebhookPayload, config: AutoResponseConfig,
                             id: string, now: int, failure: string) returns (outcome: Outcome)
    modifies store
    ensures HandlerFor(payload.event).None? ==> store.Snapshot() == old(store.Snapshot()) && outcome == Completed
    ensures HandlerFor(payload.event).Some? ==>
              var e := EffectOf(HandlerFor(payload.event).value, payload.data, config, now, failure);
              store.Snapshot() == Applied(old(store.Snapshot()), payload.event, payload.data, e, id, now)
              && outcome == e.outcome
  {
    var data := payload.data;
    match payload.event
    case "message.received" =>
      outcome := HandleMessageReceived(store, data, config, id, now, failure);
    case "subscriber.new" =>
      outcome := HandleNewSubscriber(store, data, id, now, failure);
    case "tip.received" =>
      outcome := HandlePaymentReceived(store, Tip, data, id, now, failure);
    case "purchase.received" =>
      outcome := HandlePaymentReceived(store, Purchase, data, id, now, failure);
    case "subscription.renewed" =>
      outcome := HandleSubscriptionRenewed(store, data, id, now, failure);
    case "subscription.cancelled" =>
      outcome := HandleSubscriptionCancelled(store, data, id, now);
    case _ =>
      outcome := Completed;
  }

  /**
   * `POST`: the checks in order, then the event processed with the fixed
   * auto-response configuration. The response does not wait for, and does
   * not depend on, the processing.
   */
  method Post(store: WebhookStore, rawBody: string, signature: Option<string>, secret: Option<string>,
              hmac: (string, string) -> string, parsed: Option<WebhookPayload>,
              id: string, now: int, failure: string) returns (response: Response)
    modifies store
    ensures response == PostResponse(rawBody, signature, secret, hmac, parsed, now)
    ensures response.status != 200 ==> store.Snapshot() == old(store.Snapshot())
    ensures response.status == 200 && HandlerFor(parsed.value.event).Some? ==>
              var p := parsed.value;
              store.Snapshot() == Applied(old(store.Snapshot()), p.event, p.data,
                                          EffectOf(HandlerFor(p.event).value, p.data, GetAutoResponseConfig(), now, failure), id, now)
    ensures response.status == 200 && HandlerFor(parsed.value.event).None? ==> store.Snapshot() == old(store.Snapshot())
  {
    if !Truthy(signature) {
      return Response(401, ErrorBody(MissingSignature));
    }
    if !Truthy(secret) {
      return Response(500, ErrorBody(NotConfigured));
    }
    var isValid := VerifyWebhookSignature(rawBody, signature.value, secret.value, hmac);
    if isValid == LengthMismatch {
      return Response(500, ErrorBody(InternalError));
    }
    if !isValid.same {
      return Response(401, ErrorBody(InvalidSignature));
    }
    if parsed.None? {
      return Response(500, ErrorBody(InternalError));
    }
    var payload := parsed.value;
    var _ := ProcessWebhookEvent(store, payload, GetAutoResponseConfig(), id, now, failure);
    response := Response(200, Ack(true, payload.event, now));
  }
}
