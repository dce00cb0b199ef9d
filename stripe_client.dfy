/** The request shaping of the payment-provider wrapper: the plan-name to
    price-id lookup, the customer and checkout-session payloads, the choice
    between modifying and deleting a subscription on cancel, and the
    classification of webhook verification failures. The provider itself is
    not modelled: a wrapper returns the call it would issue. */
module StripeClient {
  import opened Common

  const ProPlanName: string := "プロプラン"
  const EnterprisePlanName: string := "エンタープライズプラン"

  const ApiKeySetting: string := "STRIPE_SECRET_KEY"
  const ProPriceSetting: string := "STRIPE_PRICE_ID_PRO"
  const EnterprisePriceSetting: string := "STRIPE_PRICE_ID_ENTERPRISE"

  const InvalidPayloadPrefix: string := "Invalid Webhook payload: "
  /** The text of the TypeError that the one-argument re-raise of a
      signature error produces: the library's error class also requires the
      signature header (the wording is that of Python 3.10 and later). */
  const SignatureReRaiseMessage: string :=
    "SignatureVerificationError.__init__() missing 1 required positional argument: 'sig_header'"
  const UnsupportedPlanPrefix: string := "サポートされていないプラン名: "

  /** The environment the wrapper reads: the API key and the two price ids. */
  datatype StripeConfig = StripeConfig(
    apiKey: Option<string>, priceIdPro: Option<string>, priceIdEnterprise: Option<string>)

  datatype StripeError =
    | MissingSetting(setting: string)
    | UnsupportedPlan(planName: string)
    | InvalidPayload(detail: string)
    | SignatureReRaiseFailed

  /** The message an error carries. A malformed payload is re-raised with a
      fixed prefix in front of the library's own message; the re-raise of a bad
      signature fails before its message is built, so only the TypeError's
      text surfaces. */
  function ErrorMessage(e: StripeError): string
  {
    match e
    case MissingSetting(setting) => setting + "が環境変数に設定されていません"
    case UnsupportedPlan(planName) => UnsupportedPlanPrefix + planName
    case InvalidPayload(detail) => InvalidPayloadPrefix + detail
    case SignatureReRaiseFailed => SignatureReRaiseMessage
  }

  /** A malformed payload keeps the library's detail intact after its
      prefix; a bad signature's detail is lost, whatever it was. */
  lemma {:induction false} WebhookMessagesKeepDetail(config: StripeConfig, detail: string, other: string)
    ensures var m := ErrorMessage(InvalidPayload(detail));
      m[..|InvalidPayloadPrefix|] == InvalidPayloadPrefix && m[|InvalidPayloadPrefix|..] == detail
    ensures ErrorMessage(InvalidPayload(detail)) == ErrorMessage(InvalidPayload(other)) <==> detail == other
    ensures ConstructWebhookEvent(config, BadSignature(detail)) == ConstructWebhookEvent(config, BadSignature(other))
  {
    var m, n := ErrorMessage(InvalidPayload(detail)), ErrorMessage(InvalidPayload(other));
    if m == n {
      assert detail == m[|InvalidPayloadPrefix|..] == n[|InvalidPayloadPrefix|..] == other;
    }
  }

  /** Every provider call starts by checking the API key. */
  function RequireClient(config: StripeConfig): (r: Option<StripeError>)
    ensures r.None? <==> Truthy(config.apiKey)
    ensures r.Some? ==> r.value == MissingSetting(ApiKeySetting)
  {
    if Truthy(config.apiKey) then None else Some(MissingSetting(ApiKeySetting))
  }

  /** The price id configured for a plan name. Only the two paid plan names
      are known, and each needs its id to be set. */
  function GetPriceIdByPlanName(config: StripeConfig, planName: string): (r: Result<string, StripeError>)
    ensures planName == ProPlanName ==>
      && (r.Success? <==> Truthy(config.priceIdPro))
      && (r.Success? ==> r.value == config.priceIdPro.value)
      && (r.Failure? ==> r.error == MissingSetting(ProPriceSetting))
    ensures planName == EnterprisePlanName ==>
      && (r.Success? <==> Truthy(config.priceIdEnterprise))
      && (r.Success? ==> r.value == config.priceIdEnterprise.value)
      && (r.Failure? ==> r.error == MissingSetting(EnterprisePriceSetting))
    ensures planName != ProPlanName && planName != EnterprisePlanName ==> r == Failure(UnsupportedPlan(planName))
    ensures r.Success? ==> r.value != ""
  {
    if planName == ProPlanName then
      if !Truthy(config.priceIdPro) then Failure(MissingSetting(ProPriceSetting))
      else Success(config.priceIdPro.value)
    else if planName == EnterprisePlanName then
      if !Truthy(config.priceIdEnterprise) then Failure(MissingSetting(EnterprisePriceSetting))
      else Success(config.priceIdEnterprise.value)
    else Failure(UnsupportedPlan(planName))
  }

  /** The plan name a configured price id belongs to. */
  function PlanOfPrice(config: StripeConfig, priceId: string): Option<string>
  {
    if config.priceIdPro == Some(priceId) then Some(ProPlanName)
    else if config.priceIdEnterprise == Some(priceId) then Some(EnterprisePlanName)
    else None
  }

  /** When the two price ids differ, the lookup is invertible: a found price id
      leads back to the plan name it was looked up by. */
  lemma {:induction false} PriceLookupInvertible(config: StripeConfig, planName: string)
    requires config.priceIdPro != config.priceIdEnterprise
    ensures GetPriceIdByPlanName(config, planName).Success? ==>
      PlanOfPrice(config, GetPriceIdByPlanName(config, planName).value) == Some(planName)
  {
    assert ProPlanName != EnterprisePlanName by {
      assert |ProPlanName| != |EnterprisePlanName|;
    }
  }

  /** Python truthiness of an optional dictionary: None and {} are false. */
  predicate TruthyMap(m: Option<map<string, string>>)
  {
    m.Some? && |m.value| > 0
  }

  /** What a customer payload holds: always the email, the name only when it
      is non-empty, the metadata only when it is non-empty. */
  predicate IsCustomerPayload(data: map<string, Json>, email: string, name: Option<string>,
                              metadata: Option<map<string, string>>)
  {
    && data.Keys == {"email"} + (if Truthy(name) then {"name"} else {})
                    + (if TruthyMap(metadata) then {"metadata"} else {})
    && data["email"] == JStr(email)
    && (Truthy(name) ==> data["name"] == JStr(name.value))
    && (TruthyMap(metadata) ==> data["metadata"] == StringMapJson(metadata.value))
  }

  /** The customer payload as a value. */
  function CustomerPayloadOf(email: string, name: Option<string>, metadata: Option<map<string, string>>)
    : map<string, Json>
  {
    var withEmail := map["email" := JStr(email)];
    var withName := if Truthy(name) then withEmail["name" := JStr(name.value)] else withEmail;
    if TruthyMap(metadata) then withName["metadata" := StringMapJson(metadata.value)] else withName
  }

  lemma {:induction false} CustomerPayloadShape(email: string, name: Option<string>, metadata: Option<map<string, string>>)
    ensures IsCustomerPayload(CustomerPayloadOf(email, name, metadata), email, name, metadata)
  {
    var data := CustomerPayloadOf(email, name, metadata);
    assert data.Keys == {"email"} + (if Truthy(name) then {"name"} else {})
                    + (if TruthyMap(metadata) then {"metadata"} else {});
    assert data["email"] == JStr(email);
    assert Truthy(name) ==> data["name"] == JStr(name.value);
    assert TruthyMap(metadata) ==> data["metadata"] == StringMapJson(metadata.value);
  }

  /** Builds the customer payload by conditional insertion. */
  method CustomerPayload(email: string, name: Option<string>, metadata: Option<map<string, string>>)
    returns (data: map<string, Json>)
    ensures data == CustomerPayloadOf(email, name, metadata)
    ensures IsCustomerPayload(data, email, name, metadata)
  {
    data := map["email" := JStr(email)];
    if Truthy(name) {
      data := data["name" := JStr(name.value)];
    }
    if TruthyMap(metadata) {
      data := data["metadata" := StringMapJson(metadata.value)];
    }
    CustomerPayloadShape(email, name, metadata);
  }

  /** The single line item of a subscription checkout. */
  function LineItems(priceId: string): Json
  {
    JArr([JObj(map["price" := JStr(priceId), "quantity" := JInt(1)])])
  }

  /** What a checkout-session payload holds: the customer, card payment, one
      line item of quantity 1 at the price, subscription mode, both redirect
      URLs, and the metadata only when it is non-empty. */
  predicate IsCheckoutPayload(data: map<string, Json>, customerId: string, priceId: string,
                              successUrl: string, cancelUrl: string, metadata: Option<map<string, string>>)
  {
    && data.Keys == {"customer", "payment_method_types", "line_items", "mode", "success_url", "cancel_url"}
                    + (if TruthyMap(metadata) then {"metadata"} else {})
    && data["customer"] == JStr(customerId)
    && data["payment_method_types"] == JArr([JStr("card")])
    && data["line_items"] == LineItems(priceId)
    && data["mode"] == JStr("subscription")
    && data["success_url"] == JStr(successUrl)
    && data["cancel_url"] == JStr(cancelUrl)
    && (TruthyMap(metadata) ==> data["metadata"] == StringMapJson(metadata.value))
  }

  /** The fixed part of a checkout-session payload: everything but the metadata. */
  function CheckoutBase(customerId: string, priceId: string, successUrl: string, cancelUrl: string)
    : map<string, Json>
  {
    map[
      "customer" := JStr(customerId),
      "payment_method_types" := JArr([JStr("card")]),
      "line_items" := LineItems(priceId),
      "mode" := JStr("subscription"),
      "success_url" := JStr(successUrl),
      "cancel_url" := JStr(cancelUrl)]
  }

  /** The checkout-session payload as a value. */
  function CheckoutPayloadOf(customerId: string, priceId: string, successUrl: string, cancelUrl: string,
                             metadata: Option<map<string, string>>): map<string, Json>
  {
    var base := CheckoutBase(customerId, priceId, successUrl, cancelUrl);
    if TruthyMap(metadata) then base["metadata" := StringMapJson(metadata.value)] else base
  }

  lemma {:induction false} CheckoutBaseShape(customerId: string, priceId: string, successUrl: string, cancelUrl: string)
    ensures IsCheckoutPayload(CheckoutBase(customerId, priceId, successUrl, cancelUrl),
                              customerId, priceId, successUrl, cancelUrl, None)
  {
    var base := CheckoutBase(customerId, priceId, successUrl, cancelUrl);
    assert base.Keys == {"customer", "payment_method_types", "line_items", "mode", "success_url", "cancel_url"};
  }

  lemma {:induction false} CheckoutPayloadShape(customerId: string, priceId: string, successUrl: string,
                                                cancelUrl: string, metadata: Option<map<string, string>>)
    ensures IsCheckoutPayload(CheckoutPayloadOf(customerId, priceId, successUrl, cancelUrl, metadata),
                              customerId, priceId, successUrl, cancelUrl, metadata)
  {
    CheckoutBaseShape(customerId, priceId, successUrl, cancelUrl);
  }

  /** Builds the checkout-session payload, adding the metadata when non-empty. */
  method CheckoutSessionPayload(customerId: string, priceId: string, successUrl: string, cancelUrl: string,
                                metadata: Option<map<string, string>>)
    returns (data: map<string, Json>)
    ensures data == CheckoutPayloadOf(customerId, priceId, successUrl, cancelUrl, metadata)
    ensures IsCheckoutPayload(data, customerId, priceId, successUrl, cancelUrl, metadata)
  {
    data := CheckoutBase(customerId, priceId, successUrl, cancelUrl);
    if TruthyMap(metadata) {
      data := data["metadata" := StringMapJson(metadata.value)];
    }
    CheckoutPayloadShape(customerId, priceId, successUrl, cancelUrl, metadata);
  }

  /** The only checkout line item asks for exactly one unit of the price. */
  lemma {:induction false} CheckoutBuysOneUnit(data: map<string, Json>, customerId: string, priceId: string,
                                               successUrl: string, cancelUrl: string,
                                               metadata: Option<map<string, string>>)
    requires IsCheckoutPayload(data, customerId, priceId, successUrl, cancelUrl, metadata)
    ensures data["line_items"].JArr? && |data["line_items"].items| == 1
    ensures var item := data["line_items"].items[0];
      item.JObj? && item.fields.Keys == {"price", "quantity"}
      && item.fields["price"] == JStr(priceId) && item.fields["quantity"] == JInt(1)
  {
    var item := data["line_items"].items[0];
    assert item == JObj(map["price" := JStr(priceId), "quantity" := JInt(1)]);
  }

  /** A request issued to the provider. */
  datatype ProviderCall =
    | CustomerCreate(payload: map<string, Json>)
    | CheckoutSessionCreate(payload: map<string, Json>)
    | SubscriptionRetrieve(subscriptionId: string)
    | SubscriptionModify(subscriptionId: string, cancelAtPeriodEnd: bool)
    | SubscriptionDelete(subscriptionId: string)

  /** The customer-creation request, or the missing-key error before any call. */
  method CreateCustomer(config: StripeConfig, email: string, name: Option<string>,
                        metadata: Option<map<string, string>>)
    returns (r: Result<ProviderCall, StripeError>)
    ensures r.Failure? <==> !Truthy(config.apiKey)
    ensures r.Failure? ==> r.error == MissingSetting(ApiKeySetting)
    ensures r.Success? ==> r.value == CustomerCreate(CustomerPayloadOf(email, name, metadata))
  {
    var missing := RequireClient(config);
    if missing.Some? {
      return Failure(missing.value);
    }
    var data := CustomerPayload(email, name, metadata);
    r := Success(CustomerCreate(data));
  }

  /** The checkout-session request, or the missing-key error before any call. */
  method CreateCheckoutSession(config: StripeConfig, customerId: string, priceId: string, successUrl: string,
                               cancelUrl: string, metadata: Option<map<string, string>>)
    returns (r: Result<ProviderCall, StripeError>)
    ensures r.Failure? <==> !Truthy(config.apiKey)
    ensures r.Failure? ==> r.error == MissingSetting(ApiKeySetting)
    ensures r.Success? ==> r.value == CheckoutSessionCreate(CheckoutPayloadOf(customerId, priceId, successUrl, cancelUrl, metadata))
  {
    var missing := RequireClient(config);
    if missing.Some? {
      return Failure(missing.value);
    }
    var data := CheckoutSessionPayload(customerId, priceId, successUrl, cancelUrl, metadata);
    r := Success(CheckoutSessionCreate(data));
  }

  /** The request that fetches a subscription's details, or the missing-key error. */
  function GetSubscription(config: StripeConfig, subscriptionId: string): (r: Result<ProviderCall, StripeError>)
    ensures r.Failure? <==> !Truthy(config.apiKey)
    ensures r.Failure? ==> r.error == MissingSetting(ApiKeySetting)
    ensures r.Success? ==> r.value.SubscriptionRetrieve? && r.value.subscriptionId == subscriptionId
  {
    match RequireClient(config)
    case Some(e) => Failure(e)
    case None => Success(SubscriptionRetrieve(subscriptionId))
  }

  /** Cancelling at period end modifies the subscription; cancelling now deletes it. */
  function CancelSubscription(config: StripeConfig, subscriptionId: string, atPeriodEnd: bool)
    : (r: Result<ProviderCall, StripeError>)
    ensures r.Failure? <==> !Truthy(config.apiKey)
    ensures r.Failure? ==> r.error == MissingSetting(ApiKeySetting)
    ensures r.Success? && atPeriodEnd ==> r.value == SubscriptionModify(subscriptionId, true)
    ensures r.Success? && !atPeriodEnd ==> r.value == SubscriptionDelete(subscriptionId)
  {
    match RequireClient(config)
    case Some(e) => Failure(e)
    case None =>
      if atPeriodEnd then Success(SubscriptionModify(subscriptionId, true))
      else Success(SubscriptionDelete(subscriptionId))
  }

  /** Every cancel request names the subscription it cancels, and the two
      kinds of request are told apart by the period-end flag. */
  lemma {:induction false} CancelRequestsDiffer(config: StripeConfig, subscriptionId: string)
    requires Truthy(config.apiKey)
    ensures CancelSubscription(config, subscriptionId, true) != CancelSubscription(config, subscriptionId, false)
    ensures var m := CancelSubscription(config, subscriptionId, true).value;
      var d := CancelSubscription(config, subscriptionId, false).value;
      m.subscriptionId == subscriptionId && d.subscriptionId == subscriptionId
  {
  }

  /** The fields of a provider event object the handlers read; None stands
      for a key that is absent. */
  datatype EventObject = EventObject(
    id: Option<string>,
    status: Option<string>,
    currentPeriodStart: Option<Timestamp>,
    currentPeriodEnd: Option<Timestamp>,
    cancelAtPeriodEnd: Option<bool>,
    metadata: Option<map<string, string>>,
    customer: Option<string>,
    subscription: Option<string>)

  datatype Event = Event(kind: string, obj: EventObject)

  /** The outcome of the library's signature check, which is not modelled:
      a verified event, or the library's error for a malformed payload or a
      bad signature. */
  datatype Verification =
    | Verified(event: Event)
    | MalformedPayload(detail: string)
    | BadSignature(detail: string)

  /** Turns the library's verdict into an event or a re-raised error. */
  function ConstructWebhookEvent(config: StripeConfig, v: Verification): (r: Result<Event, StripeError>)
    ensures !Truthy(config.apiKey) ==> r == Failure(MissingSetting(ApiKeySetting))
    ensures Truthy(config.apiKey) ==>
      && (r.Success? <==> v.Verified?)
      && (r.Success? ==> r.value == v.event)
      && (v.MalformedPayload? ==> r == Failure(InvalidPayload(v.detail)))
      && (v.BadSignature? ==> r == Failure(SignatureReRaiseFailed))
  {
    match RequireClient(config)
    case Some(e) => Failure(e)
    case None =>
      match v
      case Verified(event) => Success(event)
      case MalformedPayload(detail) => Failure(InvalidPayload(detail))
      case BadSignature(_) => Failure(SignatureReRaiseFailed)
  }
}
