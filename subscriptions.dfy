/** The subscription endpoints: the plan catalogue queries, the caller's
    current subscription, and the three operations that talk to the payment
    provider and keep user_subscriptions in step with it (checkout, cancel,
    and the webhook receiver). */
module Subscriptions {
  import opened Common
  import opened StripeClient
  import opened SubscriptionTable

  const StatusBadRequest: int := 400
  const StatusNotFound: int := 404
  const StatusServerError: int := 500

  const PlanNotFoundDetail: string := "プランが見つかりません"
  const FreePlanDetail: string := "無料プランはCheckout Session不要です"
  const NoActiveSubscriptionDetail: string := "アクティブなサブスクリプションが見つかりません"
  const WebhookSecretMissingDetail: string := "STRIPE_WEBHOOK_SECRETが設定されていません"
  const CanceledMessage: string := "サブスクリプションをキャンセルしました"
  const WebhookAck: string := "success"

  const MySubscriptionErrorPrefix: string := "サブスクリプション取得エラー: "
  const CheckoutErrorPrefix: string := "Checkout Session作成エラー: "
  const CancelErrorPrefix: string := "サブスクリプションキャンセルエラー: "
  const WebhookErrorPrefix: string := "Webhook処理エラー: "

  /** The store's error when a single-row query matches several rows. */
  const MultipleRowsMessage: string := "multiple rows returned"
  /** The error of indexing the joined plan of a row whose plan is gone. */
  const MissingJoinMessage: string := "'NoneType' object is not subscriptable"

  /** An HTTP error with its status code and detail text. */
  datatype HttpError = HttpError(status: int, detail: string)

  /** A row of subscription_plans; the price and feature columns are not modelled. */
  datatype Plan = Plan(id: string, name: string, stripePriceId: Option<string>, isActive: bool, displayOrder: int)

  /** The authenticated caller. */
  datatype CurrentUser = CurrentUser(id: string, email: string, name: Option<string>)

  datatype CheckoutSession = CheckoutSession(sessionId: string, url: string)

  /** A subscription row with the name of its plan joined in. */
  datatype UserSubscription = UserSubscription(row: SubscriptionRow, planName: string)

  /** Plan ids are the table's primary key. */
  predicate PlanIdsUnique(plans: seq<Plan>)
  {
    forall i, j :: 0 <= i < j < |plans| ==> plans[i].id != plans[j].id
  }

  /** The plan with this id ("select ... where id = planId" with single()). */
  function FindPlan(plans: seq<Plan>, planId: string): (r: Option<Plan>)
    ensures r.Some? <==> exists i :: 0 <= i < |plans| && plans[i].id == planId
    ensures r.Some? ==> r.value in plans && r.value.id == planId
  {
    if plans == [] then None
    else if plans[0].id == planId then Some(plans[0])
    else
      var r := FindPlan(plans[1..], planId);
      assert forall i :: 0 < i < |plans| ==> plans[i] == plans[1..][i - 1];
      r
  }

  /** The plans offered for sale. */
  function ActivePlans(plans: seq<Plan>): (r: seq<Plan>)
    ensures forall p :: p in r <==> p in plans && p.isActive
    ensures forall p :: multiset(r)[p] == if p.isActive then multiset(plans)[p] else 0
  {
    if plans == [] then []
    else
      var rest := ActivePlans(plans[1..]);
      assert plans == [plans[0]] + plans[1..];
      assert forall p :: p in plans <==> p == plans[0] || p in plans[1..];
      if plans[0].isActive then [plans[0]] + rest else rest
  }

  function DisplayOrder(p: Plan): int
  {
    p.displayOrder
  }

  /** The plan listing: exactly the active plans, in nondecreasing display order. */
  function GetSubscriptionPlans(plans: seq<Plan>): (r: seq<Plan>)
    ensures forall p :: p in r <==> p in plans && p.isActive
    ensures multiset(r) == multiset(ActivePlans(plans))
    ensures forall i, j :: 0 <= i < j < |r| ==> r[i].displayOrder <= r[j].displayOrder
  {
    var active := ActivePlans(plans);
    SortBySorted(active, DisplayOrder);
    var r := SortBy(active, DisplayOrder);
    assert forall p :: p in r <==> p in multiset(r);
    assert forall p :: p in active <==> p in multiset(active);
    r
  }

  /** One plan by id, or 404. */
  function GetSubscriptionPlan(plans: seq<Plan>, planId: string): (r: Result<Plan, HttpError>)
    ensures r.Success? <==> exists i :: 0 <= i < |plans| && plans[i].id == planId
    ensures r.Success? ==> r.value in plans && r.value.id == planId
    ensures r.Failure? ==> r.error == HttpError(StatusNotFound, PlanNotFoundDetail)
  {
    match FindPlan(plans, planId)
    case None => Failure(HttpError(StatusNotFound, PlanNotFoundDetail))
    case Some(plan) => Success(plan)
  }

  predicate IsActiveRowOf(row: SubscriptionRow, userId: string)
  {
    row.userId == userId && row.status == StatusActive
  }

  /** The caller's active rows, in table order. */
  function ActiveRows(rows: seq<SubscriptionRow>, userId: string): (r: seq<SubscriptionRow>)
    ensures forall x :: x in r <==> x in rows && IsActiveRowOf(x, userId)
    ensures |r| <= |rows|
  {
    if rows == [] then []
    else
      var rest := ActiveRows(rows[1..], userId);
      assert forall x :: x in rows <==> x == rows[0] || x in rows[1..];
      if IsActiveRowOf(rows[0], userId) then [rows[0]] + rest else rest
  }

  lemma {:induction false} ActiveRowsAppend(rows: seq<SubscriptionRow>, row: SubscriptionRow, userId: string)
    ensures ActiveRows(rows + [row], userId)
      == ActiveRows(rows, userId) + (if IsActiveRowOf(row, userId) then [row] else [])
  {
    if rows != [] {
      ActiveRowsAppend(rows[1..], row, userId);
      assert (rows + [row])[1..] == rows[1..] + [row];
    }
  }

  /** The caller's active subscription with its plan's name: None without an
      active row; an error when there are several, or when the row's plan is
      missing from the catalogue. */
  function GetMySubscription(plans: seq<Plan>, rows: seq<SubscriptionRow>, userId: string)
    : (r: Result<Option<UserSubscription>, HttpError>)
    ensures ActiveRows(rows, userId) == [] ==> r == Success(None)
    ensures |ActiveRows(rows, userId)| > 1 ==>
      r == Failure(HttpError(StatusServerError, MySubscriptionErrorPrefix + MultipleRowsMessage))
    ensures r.Success? && r.value.Some? ==>
      && ActiveRows(rows, userId) == [r.value.value.row]
      && r.value.value.row in rows && IsActiveRowOf(r.value.value.row, userId)
      && FindPlan(plans, r.value.value.row.planId).Some?
      && FindPlan(plans, r.value.value.row.planId).value.name == r.value.value.planName
    ensures |ActiveRows(rows, userId)| == 1 ==>
      var row := ActiveRows(rows, userId)[0];
      && (FindPlan(plans, row.planId).Some? ==>
        r == Success(Some(UserSubscription(row, FindPlan(plans, row.planId).value.name))))
      && (FindPlan(plans, row.planId).None? ==>
        r == Failure(HttpError(StatusServerError, MySubscriptionErrorPrefix + MissingJoinMessage)))
  {
    var active := ActiveRows(rows, userId);
    if active == [] then Success(None)
    else if |active| > 1 then
      Failure(HttpError(StatusServerError, MySubscriptionErrorPrefix + MultipleRowsMessage))
    else
      assert active[0] in active;
      match FindPlan(plans, active[0].planId)
      case None => Failure(HttpError(StatusServerError, MySubscriptionErrorPrefix + MissingJoinMessage))
      case Some(plan) => Success(Some(UserSubscription(active[0], plan.name)))
  }

  /** A completed checkout delivered twice gives its user two active rows,
      after which the current-subscription lookup fails instead of finding one. */
  lemma {:induction false} RedeliveredCheckoutBreaksLookup(plans: seq<Plan>, t: Table, obj: EventObject)
    requires obj.metadata.Some?
    requires var m := obj.metadata.value;
      "user_id" in m && m["user_id"] != "" && "plan_id" in m && m["plan_id"] != ""
    ensures var once := CheckoutCompleted(t, obj);
      && once.Success? && CheckoutCompleted(once.value, obj).Success?
      && GetMySubscription(plans, CheckoutCompleted(once.value, obj).value.rows, obj.metadata.value["user_id"]).Failure?
  {
    var m := obj.metadata.value;
    var userId := m["user_id"];
    var first := CheckoutRow(t.nextId, userId, m["plan_id"], obj);
    var once := CheckoutCompleted(t, obj).value;
    var second := CheckoutRow(once.nextId, userId, m["plan_id"], obj);
    var twice := CheckoutCompleted(once, obj).value;
    assert once.rows == t.rows + [first];
    assert twice.rows == once.rows + [second];
    ActiveRowsAppend(t.rows, first, userId);
    ActiveRowsAppend(once.rows, second, userId);
    assert |ActiveRows(twice.rows, userId)| == |ActiveRows(t.rows, userId)| + 2;
  }

  /** The caller's first row in table order ("limit 1" without ordering). */
  function FirstRowOf(rows: seq<SubscriptionRow>, userId: string): (r: Option<SubscriptionRow>)
    ensures r.None? <==> forall i :: 0 <= i < |rows| ==> rows[i].userId != userId
    ensures r.Some? ==> exists i :: 0 <= i < |rows| && rows[i] == r.value && r.value.userId == userId
                                    && forall j :: 0 <= j < i ==> rows[j].userId != userId
  {
    if rows == [] then None
    else if rows[0].userId == userId then Some(rows[0])
    else
      var r := FirstRowOf(rows[1..], userId);
      assert forall i :: 0 < i < |rows| ==> rows[i] == rows[1..][i - 1];
      r
  }

  /** The provider customer id a checkout reuses: that of the caller's first
      row, when it has a non-empty one. */
  function ExistingCustomerId(rows: seq<SubscriptionRow>, userId: string): (r: Option<string>)
    ensures r.Some? ==>
      && r.value != "" && FirstRowOf(rows, userId).Some?
      && FirstRowOf(rows, userId).value.stripeCustomerId == r
    ensures r.None? ==> FirstRowOf(rows, userId).None? || !Truthy(FirstRowOf(rows, userId).value.stripeCustomerId)
  {
    match FirstRowOf(rows, userId)
    case None => None
    case Some(row) => if Truthy(row.stripeCustomerId) then row.stripeCustomerId else None
  }

  function CustomerMetadata(userId: string): map<string, string>
  {
    map["user_id" := userId]
  }

  function SessionMetadata(userId: string, planId: string): map<string, string>
  {
    map["user_id" := userId, "plan_id" := planId]
  }

  /** The provider requests of a checkout for a paid price, in order: a
      customer creation when the caller has no customer id yet, then, once a
      customer id is known, one session request carrying the caller's and the
      plan's ids. Nothing is requested without an API key. */
  function CheckoutRequests(config: StripeConfig, rows: seq<SubscriptionRow>, user: CurrentUser, planId: string,
                            priceId: string, successUrl: string, cancelUrl: string,
                            customerReply: Result<string, string>): seq<ProviderCall>
  {
    if !Truthy(config.apiKey) then []
    else
      var existing := ExistingCustomerId(rows, user.id);
      var create := if existing.Some? then []
        else [CustomerCreate(CustomerPayloadOf(user.email, user.name, Some(CustomerMetadata(user.id))))];
      if existing.None? && customerReply.Failure? then create
      else
        var customerId := if existing.Some? then existing.value else customerReply.value;
        create + [CheckoutSessionCreate(CheckoutPayloadOf(customerId, priceId, successUrl, cancelUrl,
                                                          Some(SessionMetadata(user.id, planId))))]
  }

  /** The cancel write: the period-end flag and canceled_at always, and the
      canceled status only for an immediate cancel. */
  function CancelPatch(immediately: bool, now: Timestamp): RowPatch
  {
    RowPatch(if immediately then Some(StatusCanceled) else None, None, None, Some(!immediately), Some(now))
  }

  /** What a cancel does to the table: the row with that id (and no other)
      gets the period-end flag, canceled_at, and, for an immediate cancel,
      the canceled status; a cancel at period end keeps the row's status. */
  lemma {:induction false} CancelEffect(rows: seq<SubscriptionRow>, id: nat, immediately: bool, now: Timestamp)
    ensures var r := UpdateWhere(rows, ById(id), CancelPatch(immediately, now));
      && |r| == |rows|
      && forall i :: 0 <= i < |rows| ==>
        && (rows[i].id != id ==> r[i] == rows[i])
        && (rows[i].id == id ==>
          && r[i].cancelAtPeriodEnd == !immediately
          && r[i].canceledAt == Some(now)
          && r[i].status == (if immediately then StatusCanceled else rows[i].status)
          && SameIdentity(r[i], rows[i])
          && r[i].currentPeriodStart == rows[i].currentPeriodStart
          && r[i].currentPeriodEnd == rows[i].currentPeriodEnd)
  {
    var r := UpdateWhere(rows, ById(id), CancelPatch(immediately, now));
    forall i | 0 <= i < |rows| && rows[i].id == id
      ensures r[i].status == (if immediately then StatusCanceled else rows[i].status)
    {
      assert r[i] == ApplyPatch(rows[i], CancelPatch(immediately, now));
    }
  }

  predicate IdsBelow(rows: seq<SubscriptionRow>, bound: nat)
  {
    forall i :: 0 <= i < |rows| ==> rows[i].id < bound
  }

  predicate IdsUnique(rows: seq<SubscriptionRow>)
  {
    forall i, j :: 0 <= i < j < |rows| ==> rows[i].id != rows[j].id
  }

  /** Rows changed only by updates keep their ids, so both id invariants hold on. */
  lemma {:induction false} UpdateKeepsIds(rows: seq<SubscriptionRow>, key: RowKey, p: RowPatch, bound: nat)
    requires IdsBelow(rows, bound) && IdsUnique(rows)
    ensures IdsBelow(UpdateWhere(rows, key, p), bound) && IdsUnique(UpdateWhere(rows, key, p))
  {
    var r := UpdateWhere(rows, key, p);
    assert forall i :: 0 <= i < |rows| ==> r[i].id == rows[i].id;
  }

  class SubscriptionRouter {
    const plans: seq<Plan>
    const config: StripeConfig
    const webhookSecret: Option<string>
    var rows: seq<SubscriptionRow>
    var nextId: nat
    /** Every request issued to the payment provider, in order. */
    var calls: seq<ProviderCall>

    ghost predicate Valid()
      reads this
    {
      PlanIdsUnique(plans) && IdsBelow(rows, nextId) && IdsUnique(rows)
    }

    constructor (plans: seq<Plan>, config: StripeConfig, webhookSecret: Option<string>)
      requires PlanIdsUnique(plans)
      ensures Valid()
      ensures this.plans == plans && this.config == config && this.webhookSecret == webhookSecret
      ensures rows == [] && nextId == 0 && calls == []
    {
      this.plans := plans;
      this.config := config;
      this.webhookSecret := webhookSecret;
      rows := [];
      nextId := 0;
      calls := [];
    }

    /** The customer a checkout is for: the one on the caller's first row, or
        else a new customer tagged with the caller's id. Returns the provider
        requests it issued (at most the one customer creation). */
    method ResolveCustomer(user: CurrentUser, customerReply: Result<string, string>)
      returns (r: Result<string, HttpError>, issued: seq<ProviderCall>)
      ensures r.Success? <==>
        ExistingCustomerId(rows, user.id).Some? || (Truthy(config.apiKey) && customerReply.Success?)
      ensures r.Failure? ==> r.error.status == StatusServerError
      ensures |issued| == (if ExistingCustomerId(rows, user.id).None? && Truthy(config.apiKey) then 1 else 0)
      ensures var existing := ExistingCustomerId(rows, user.id);
        && (existing.Some? ==> r == Success(existing.value))
        && (existing.None? && Truthy(config.apiKey) ==>
          && issued[0] == CustomerCreate(CustomerPayloadOf(user.email, user.name, Some(CustomerMetadata(user.id))))
          && (customerReply.Success? ==> r == Success(customerReply.value))
          && (customerReply.Failure? ==>
            r == Failure(HttpError(StatusServerError, CheckoutErrorPrefix + customerReply.error))))
    {
      issued := [];
      var existing := ExistingCustomerId(rows, user.id);
      if existing.Some? {
        return Success(existing.value), issued;
      }
      var request := CreateCustomer(config, user.email, user.name, Some(CustomerMetadata(user.id)));
      if request.Failure? {
        return Failure(HttpError(StatusServerError, CheckoutErrorPrefix + ErrorMessage(request.error))), issued;
      }
      issued := [request.value];
      if customerReply.Failure? {
        return Failure(HttpError(StatusServerError, CheckoutErrorPrefix + customerReply.error)), issued;
      }
      r := Success(customerReply.value);
    }

    /** The provider part of a checkout for a paid price: resolve the
        customer, then request one session with the caller's and the plan's
        ids as metadata. */
    method OpenSession(user: CurrentUser, planId: string, priceId: string, successUrl: string, cancelUrl: string,
                       customerReply: Result<string, string>, sessionReply: Result<CheckoutSession, string>)
      returns (r: Result<CheckoutSession, HttpError>, issued: seq<ProviderCall>)
      ensures !Truthy(config.apiKey) ==> issued == []
      ensures issued == CheckoutRequests(config, rows, user, planId, priceId, successUrl, cancelUrl, customerReply)
      ensures r.Failure? ==> r.error.status == StatusServerError
      ensures r.Success? <==>
        && Truthy(config.apiKey)
        && (ExistingCustomerId(rows, user.id).Some? || customerReply.Success?)
        && sessionReply.Success?
      ensures r.Success? ==>
        var existing := ExistingCustomerId(rows, user.id);
        var customerId := if existing.Some? then existing.value else customerReply.value;
        && r.value == sessionReply.value
        && |issued| == (if existing.Some? then 1 else 2)
        && issued[|issued| - 1] == CheckoutSessionCreate(CheckoutPayloadOf(customerId, priceId, successUrl, cancelUrl,
                                                                           Some(SessionMetadata(user.id, planId))))
        && (existing.None? ==>
          issued[0] == CustomerCreate(CustomerPayloadOf(user.email, user.name, Some(CustomerMetadata(user.id)))))
    {
      var customer;
      customer, issued := ResolveCustomer(user, customerReply);
      if customer.Failure? {
        return Failure(customer.error), issued;
      }
      var sessionRequest := CreateCheckoutSession(config, customer.value, priceId, successUrl, cancelUrl,
                                                  Some(SessionMetadata(user.id, planId)));
      if sessionRequest.Failure? {
        return Failure(HttpError(StatusServerError, CheckoutErrorPrefix + ErrorMessage(sessionRequest.error))), issued;
      }
      issued := issued + [sessionRequest.value];
      if sessionReply.Failure? {
        return Failure(HttpError(StatusServerError, CheckoutErrorPrefix + sessionReply.error)), issued;
      }
      r := Success(sessionReply.value);
    }

    /** Opens a checkout session for a paid plan. The replies of the provider
        to the customer and session requests are inputs; the table is never
        written. A missing plan or a free plan fails before any provider call. */
    method CreateSubscriptionCheckoutSession(user: CurrentUser, planId: string, successUrl: string, cancelUrl: string,
                                             customerReply: Result<string, string>,
                                             sessionReply: Result<CheckoutSession, string>)
      returns (r: Result<CheckoutSession, HttpError>)
      requires Valid()
      modifies this
      ensures Valid() && rows == old(rows) && nextId == old(nextId)
      ensures FindPlan(plans, planId).None? ==>
        r == Failure(HttpError(StatusNotFound, PlanNotFoundDetail)) && calls == old(calls)
      ensures FindPlan(plans, planId).Some? && !Truthy(FindPlan(plans, planId).value.stripePriceId) ==>
        r == Failure(HttpError(StatusBadRequest, FreePlanDetail)) && calls == old(calls)
      ensures !Truthy(config.apiKey) ==> r.Failure? && calls == old(calls)
      ensures |calls| >= |old(calls)| && calls[..|old(calls)|] == old(calls)
      ensures calls == old(calls) +
        if FindPlan(plans, planId).Some? && Truthy(FindPlan(plans, planId).value.stripePriceId)
        then CheckoutRequests(config, old(rows), user, planId, FindPlan(plans, planId).value.stripePriceId.value,
                              successUrl, cancelUrl, customerReply)
        else []
      ensures r.Success? <==>
        && FindPlan(plans, planId).Some? && Truthy(FindPlan(plans, planId).value.stripePriceId)
        && Truthy(config.apiKey)
        && (ExistingCustomerId(old(rows), user.id).Some? || customerReply.Success?)
        && sessionReply.Success?
      ensures r.Success? ==>
        var price := FindPlan(plans, planId).value.stripePriceId.value;
        var existing := ExistingCustomerId(old(rows), user.id);
        var customerId := if existing.Some? then existing.value else customerReply.value;
        && r.value == sessionReply.value
        && |calls| == |old(calls)| + (if existing.Some? then 1 else 2)
        && calls[|calls| - 1] == CheckoutSessionCreate(CheckoutPayloadOf(customerId, price, successUrl, cancelUrl,
                                                                         Some(SessionMetadata(user.id, planId))))
        && (existing.None? ==>
          calls[|calls| - 2] == CustomerCreate(CustomerPayloadOf(user.email, user.name, Some(CustomerMetadata(user.id)))))
    {
      var found := FindPlan(plans, planId);
      if found.None? {
        return Failure(HttpError(StatusNotFound, PlanNotFoundDetail));
      }
      var plan := found.value;
      if !Truthy(plan.stripePriceId) {
        return Failure(HttpError(StatusBadRequest, FreePlanDetail));
      }
      var issued;
      r, issued := OpenSession(user, planId, plan.stripePriceId.value, successUrl, cancelUrl, customerReply, sessionReply);
      calls := calls + issued;
    }

    /** Cancels the caller's single active subscription, now or at period end.
        The provider is asked first, with `providerFailure` standing for its
        error, and the row is written only after it succeeded. A row without a
        provider subscription id is left alone and still reported canceled. */
    method CancelMySubscription(userId: string, immediately: bool, providerFailure: Option<string>, now: Timestamp)
      returns (r: Result<string, HttpError>)
      requires Valid()
      modifies this
      ensures Valid() && nextId == old(nextId)
      ensures ActiveRows(old(rows), userId) == [] ==>
        r == Failure(HttpError(StatusNotFound, NoActiveSubscriptionDetail)) && rows == old(rows) && calls == old(calls)
      ensures |ActiveRows(old(rows), userId)| > 1 ==>
        r == Failure(HttpError(StatusServerError, CancelErrorPrefix + MultipleRowsMessage))
        && rows == old(rows) && calls == old(calls)
      ensures |ActiveRows(old(rows), userId)| == 1 ==>
        var s := ActiveRows(old(rows), userId)[0];
        && (!Truthy(s.stripeSubscriptionId) ==>
          r == Success(CanceledMessage) && rows == old(rows) && calls == old(calls))
        && (Truthy(s.stripeSubscriptionId) && !Truthy(config.apiKey) ==>
          r.Failure? && r.error.status == StatusServerError && rows == old(rows) && calls == old(calls))
        && (Truthy(s.stripeSubscriptionId) && Truthy(config.apiKey) ==>
          && calls == old(calls) + [CancelSubscription(config, s.stripeSubscriptionId.value, !immediately).value]
          && (providerFailure.Some? ==>
            r == Failure(HttpError(StatusServerError, CancelErrorPrefix + providerFailure.value)) && rows == old(rows))
          && (providerFailure.None? ==>
            r == Success(CanceledMessage) && rows == UpdateWhere(old(rows), ById(s.id), CancelPatch(immediately, now))))
    {
      var active := ActiveRows(rows, userId);
      if active == [] {
        return Failure(HttpError(StatusNotFound, NoActiveSubscriptionDetail));
      }
      if |active| > 1 {
        return Failure(HttpError(StatusServerError, CancelErrorPrefix + MultipleRowsMessage));
      }
      var subscription := active[0];
      if Truthy(subscription.stripeSubscriptionId) {
        var request := CancelSubscription(config, subscription.stripeSubscriptionId.value, !immediately);
        if request.Failure? {
          return Failure(HttpError(StatusServerError, CancelErrorPrefix + ErrorMessage(request.error)));
        }
        calls := calls + [request.value];
        if providerFailure.Some? {
          return Failure(HttpError(StatusServerError, CancelErrorPrefix + providerFailure.value));
        }
        var updateData := RowPatch(None, None, None, Some(!immediately), Some(now));
        if immediately {
          updateData := updateData.(status := Some(StatusCanceled));
        }
        UpdateKeepsIds(rows, ById(subscription.id), updateData, nextId);
        rows := UpdateWhere(rows, ById(subscription.id), updateData);
      }
      r := Success(CanceledMessage);
    }

    /** Receives one provider event. Without a webhook secret nothing is
        processed (500); a verification failure or a handler failure is a
        400 with nothing written; otherwise the event's transition is applied
        and acknowledged. No provider call is issued. */
    method StripeWebhook(verification: Verification, now: Timestamp) returns (r: Result<string, HttpError>)
      requires Valid()
      modifies this
      ensures Valid() && calls == old(calls)
      ensures !Truthy(webhookSecret) ==>
        r == Failure(HttpError(StatusServerError, WebhookSecretMissingDetail))
        && rows == old(rows) && nextId == old(nextId)
      ensures Truthy(webhookSecret) ==>
        var event := ConstructWebhookEvent(config, verification);
        && (event.Failure? ==>
          r == Failure(HttpError(StatusBadRequest, WebhookErrorPrefix + ErrorMessage(event.error)))
          && rows == old(rows) && nextId == old(nextId))
        && (event.Success? ==>
          var out := Reconcile(Table(old(rows), old(nextId)), event.value, now);
          && (out.Failure? ==>
            r == Failure(HttpError(StatusBadRequest, WebhookErrorPrefix + KeyErrorText(out.error)))
            && rows == old(rows) && nextId == old(nextId))
          && (out.Success? ==>
            r == Success(WebhookAck) && rows == out.value.rows && nextId == out.value.nextId))
    {
      if !Truthy(webhookSecret) {
        return Failure(HttpError(StatusServerError, WebhookSecretMissingDetail));
      }
      var constructed := ConstructWebhookEvent(config, verification);
      if constructed.Failure? {
        return Failure(HttpError(StatusBadRequest, WebhookErrorPrefix + ErrorMessage(constructed.error)));
      }
      var event := constructed.value;
      var obj := event.obj;
      if event.kind == CheckoutCompletedKind {
        if obj.metadata.None? {
          return Failure(HttpError(StatusBadRequest, WebhookErrorPrefix + KeyErrorText(MissingKey("metadata"))));
        }
        var metadata := obj.metadata.value;
        var userId := if "user_id" in metadata then Some(metadata["user_id"]) else None;
        var planId := if "plan_id" in metadata then Some(metadata["plan_id"]) else None;
        if Truthy(userId) && Truthy(planId) {
          var subscriptionData := CheckoutRow(nextId, userId.value, planId.value, obj);
          rows := rows + [subscriptionData];
          nextId := nextId + 1;
        }
      } else if event.kind == SubscriptionUpdatedKind {
        if obj.id.None? {
          return Failure(HttpError(StatusBadRequest, WebhookErrorPrefix + KeyErrorText(MissingKey("id"))));
        }
        var subscriptionId := obj.id.value;
        if obj.status.None? {
          return Failure(HttpError(StatusBadRequest, WebhookErrorPrefix + KeyErrorText(MissingKey("status"))));
        }
        if obj.currentPeriodStart.None? {
          return Failure(HttpError(StatusBadRequest, WebhookErrorPrefix + KeyErrorText(MissingKey("current_period_start"))));
        }
        if obj.currentPeriodEnd.None? {
          return Failure(HttpError(StatusBadRequest, WebhookErrorPrefix + KeyErrorText(MissingKey("current_period_end"))));
        }
        var updateData := RowPatch(obj.status, obj.currentPeriodStart, obj.currentPeriodEnd,
                                   Some(obj.cancelAtPeriodEnd == Some(true)), None);
        UpdateKeepsIds(rows, BySubscription(subscriptionId), updateData, nextId);
        rows := UpdateWhere(rows, BySubscription(subscriptionId), updateData);
      } else if event.kind == SubscriptionDeletedKind {
        if obj.id.None? {
          return Failure(HttpError(StatusBadRequest, WebhookErrorPrefix + KeyErrorText(MissingKey("id"))));
        }
        var updateData := RowPatch(Some(StatusCanceled), None, None, None, Some(now));
        UpdateKeepsIds(rows, BySubscription(obj.id.value), updateData, nextId);
        rows := UpdateWhere(rows, BySubscription(obj.id.value), updateData);
      } else if event.kind == PaymentFailedKind {
        var subscriptionId := obj.subscription;
        if Truthy(subscriptionId) {
          UpdateKeepsIds(rows, BySubscription(subscriptionId.value), PastDuePatch, nextId);
          rows := UpdateWhere(rows, BySubscription(subscriptionId.value), PastDuePatch);
        }
      }
      r := Success(WebhookAck);
    }
  }
}
