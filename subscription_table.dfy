/** The user_subscriptions table and what each webhook event does to it,
    as functions of the table before the event. The router's handlers are
    proved to perform exactly these transitions. */
module SubscriptionTable {
  import opened Common
  import opened StripeClient

  const StatusActive: string := "active"
  const StatusCanceled: string := "canceled"
  const StatusPastDue: string := "past_due"

  const CheckoutCompletedKind: string := "checkout.session.completed"
  const SubscriptionUpdatedKind: string := "customer.subscription.updated"
  const SubscriptionDeletedKind: string := "customer.subscription.deleted"
  const PaymentFailedKind: string := "invoice.payment_failed"

  /** A row of user_subscriptions. Ids are assigned by the store; the status
      is the provider's status string, so it stays an open set. */
  datatype SubscriptionRow = SubscriptionRow(
    id: nat,
    userId: string,
    planId: string,
    status: string,
    currentPeriodStart: Option<Timestamp>,
    currentPeriodEnd: Option<Timestamp>,
    cancelAtPeriodEnd: bool,
    stripeCustomerId: Option<string>,
    stripeSubscriptionId: Option<string>,
    canceledAt: Option<Timestamp>)

  /** The table with the next id the store will hand out. */
  datatype Table = Table(rows: seq<SubscriptionRow>, nextId: nat)

  /** The WHERE clause of an update: by internal id, or by the provider's
      subscription id (a stored null never matches). */
  datatype RowKey = ById(id: nat) | BySubscription(subscriptionId: string)

  predicate Matches(row: SubscriptionRow, key: RowKey)
  {
    match key
    case ById(id) => row.id == id
    case BySubscription(s) => row.stripeSubscriptionId == Some(s)
  }

  /** The columns an update may set; None leaves a column as it is. */
  datatype RowPatch = RowPatch(
    status: Option<string>,
    currentPeriodStart: Option<Timestamp>,
    currentPeriodEnd: Option<Timestamp>,
    cancelAtPeriodEnd: Option<bool>,
    canceledAt: Option<Timestamp>)

  /** The columns no update touches: the row's identity and its links. */
  predicate SameIdentity(a: SubscriptionRow, b: SubscriptionRow)
  {
    && a.id == b.id && a.userId == b.userId && a.planId == b.planId
    && a.stripeCustomerId == b.stripeCustomerId && a.stripeSubscriptionId == b.stripeSubscriptionId
  }

  function ApplyPatch(row: SubscriptionRow, p: RowPatch): (r: SubscriptionRow)
    ensures SameIdentity(r, row)
    ensures r.status == if p.status.Some? then p.status.value else row.status
    ensures r.cancelAtPeriodEnd == if p.cancelAtPeriodEnd.Some? then p.cancelAtPeriodEnd.value else row.cancelAtPeriodEnd
    ensures r.currentPeriodStart == if p.currentPeriodStart.Some? then p.currentPeriodStart else row.currentPeriodStart
    ensures r.currentPeriodEnd == if p.currentPeriodEnd.Some? then p.currentPeriodEnd else row.currentPeriodEnd
    ensures r.canceledAt == if p.canceledAt.Some? then p.canceledAt else row.canceledAt
  {
    row.(
      status := if p.status.Some? then p.status.value else row.status,
      currentPeriodStart := if p.currentPeriodStart.Some? then p.currentPeriodStart else row.currentPeriodStart,
      currentPeriodEnd := if p.currentPeriodEnd.Some? then p.currentPeriodEnd else row.currentPeriodEnd,
      cancelAtPeriodEnd := if p.cancelAtPeriodEnd.Some? then p.cancelAtPeriodEnd.value else row.cancelAtPeriodEnd,
      canceledAt := if p.canceledAt.Some? then p.canceledAt else row.canceledAt)
  }

  /** Patch `q` applied after patch `p`: a column set by `q` wins. */
  function Then(p: RowPatch, q: RowPatch): RowPatch
  {
    RowPatch(
      if q.status.Some? then q.status else p.status,
      if q.currentPeriodStart.Some? then q.currentPeriodStart else p.currentPeriodStart,
      if q.currentPeriodEnd.Some? then q.currentPeriodEnd else p.currentPeriodEnd,
      if q.cancelAtPeriodEnd.Some? then q.cancelAtPeriodEnd else p.cancelAtPeriodEnd,
      if q.canceledAt.Some? then q.canceledAt else p.canceledAt)
  }

  /** "update ... set patch where key": matching rows are patched, the
      others kept, in place. */
  function UpdateWhere(rows: seq<SubscriptionRow>, key: RowKey, p: RowPatch): (r: seq<SubscriptionRow>)
    ensures |r| == |rows|
    ensures forall i :: 0 <= i < |rows| ==> SameIdentity(r[i], rows[i])
    ensures forall i :: 0 <= i < |rows| && !Matches(rows[i], key) ==> r[i] == rows[i]
    ensures forall i :: 0 <= i < |rows| && Matches(rows[i], key) ==> r[i] == ApplyPatch(rows[i], p)
  {
    if rows == [] then []
    else
      var rest := UpdateWhere(rows[1..], key, p);
      var head := if Matches(rows[0], key) then ApplyPatch(rows[0], p) else rows[0];
      var r := [head] + rest;
      assert forall i :: 0 < i < |rows| ==> r[i] == rest[i - 1] && rows[i] == rows[1..][i - 1];
      r
  }

  /** An update whose key matches no row changes nothing. */
  lemma {:induction false} UpdateWithoutMatch(rows: seq<SubscriptionRow>, key: RowKey, p: RowPatch)
    requires forall i :: 0 <= i < |rows| ==> !Matches(rows[i], key)
    ensures UpdateWhere(rows, key, p) == rows
  {
    var r := UpdateWhere(rows, key, p);
    assert forall i :: 0 <= i < |rows| ==> r[i] == rows[i];
  }

  /** Applying `p` and then `q` to one row is applying their combination. */
  lemma {:induction false} PatchThen(row: SubscriptionRow, p: RowPatch, q: RowPatch)
    ensures ApplyPatch(ApplyPatch(row, p), q) == ApplyPatch(row, Then(p, q))
  {
  }

  /** Two updates with the same key are one update with the later patch
      winning column by column: the key picks out the same rows both times. */
  lemma {:induction false} UpdateTwice(rows: seq<SubscriptionRow>, key: RowKey, p: RowPatch, q: RowPatch)
    ensures UpdateWhere(UpdateWhere(rows, key, p), key, q) == UpdateWhere(rows, key, Then(p, q))
  {
    var once := UpdateWhere(rows, key, p);
    var twice := UpdateWhere(once, key, q);
    var merged := UpdateWhere(rows, key, Then(p, q));
    forall i | 0 <= i < |rows| ensures twice[i] == merged[i] {
      assert Matches(once[i], key) <==> Matches(rows[i], key);
      if Matches(rows[i], key) {
        PatchThen(rows[i], p, q);
      }
    }
  }

  /** Number of rows carrying a given provider subscription id. */
  function CountLinked(rows: seq<SubscriptionRow>, subscriptionId: string): (n: nat)
    ensures n <= |rows|
    ensures n == 0 <==> forall i :: 0 <= i < |rows| ==> !Matches(rows[i], BySubscription(subscriptionId))
  {
    if rows == [] then 0
    else
      var rest := CountLinked(rows[1..], subscriptionId);
      assert forall i :: 0 < i < |rows| ==> rows[i] == rows[1..][i - 1];
      (if Matches(rows[0], BySubscription(subscriptionId)) then 1 else 0) + rest
  }

  lemma {:induction false} CountLinkedAppend(rows: seq<SubscriptionRow>, row: SubscriptionRow, subscriptionId: string)
    ensures CountLinked(rows + [row], subscriptionId)
      == CountLinked(rows, subscriptionId) + (if Matches(row, BySubscription(subscriptionId)) then 1 else 0)
  {
    if rows != [] {
      CountLinkedAppend(rows[1..], row, subscriptionId);
      assert (rows + [row])[1..] == rows[1..] + [row];
    }
  }

  /** The row a completed checkout inserts; the columns it does not name
      take the table's defaults. */
  function CheckoutRow(id: nat, userId: string, planId: string, obj: EventObject): SubscriptionRow
  {
    SubscriptionRow(id, userId, planId, StatusActive, None, None, false, obj.customer, obj.subscription, None)
  }

  /** A handler failure: a key the handler indexes directly is absent. */
  datatype HandlerError = MissingKey(key: string)

  /** The text of the lookup error: the missing key in single quotes. */
  function KeyErrorText(e: HandlerError): string
  {
    "'" + e.key + "'"
  }

  /** checkout.session.completed: with both user_id and plan_id in the
      metadata, one active row is appended, whatever is already stored for
      the same subscription. Without either, nothing is written. */
  function CheckoutCompleted(t: Table, obj: EventObject): (r: Result<Table, HandlerError>)
    ensures obj.metadata.None? ==> r == Failure(MissingKey("metadata"))
    ensures obj.metadata.Some? ==> r.Success?
    ensures r.Success? ==> |r.value.rows| >= |t.rows| && r.value.rows[..|t.rows|] == t.rows
    ensures obj.metadata.Some? ==>
      var m := obj.metadata.value;
      && ("user_id" in m && m["user_id"] != "" && "plan_id" in m && m["plan_id"] != "" ==>
        r == Success(Table(t.rows + [CheckoutRow(t.nextId, m["user_id"], m["plan_id"], obj)], t.nextId + 1)))
      && (!("user_id" in m && m["user_id"] != "" && "plan_id" in m && m["plan_id"] != "") ==>
        r == Success(t))
  {
    if obj.metadata.None? then Failure(MissingKey("metadata"))
    else
      var m := obj.metadata.value;
      var userId := if "user_id" in m then Some(m["user_id"]) else None;
      var planId := if "plan_id" in m then Some(m["plan_id"]) else None;
      if Truthy(userId) && Truthy(planId) then
        var rows := t.rows + [CheckoutRow(t.nextId, userId.value, planId.value, obj)];
        assert rows[..|t.rows|] == t.rows;
        Success(Table(rows, t.nextId + 1))
      else Success(t)
  }

  /** The patch of customer.subscription.updated; cancel_at_period_end
      defaults to false when the event does not carry it. */
  function UpdatedPatch(obj: EventObject): RowPatch
    requires obj.status.Some? && obj.currentPeriodStart.Some? && obj.currentPeriodEnd.Some?
  {
    RowPatch(obj.status, obj.currentPeriodStart, obj.currentPeriodEnd,
             Some(obj.cancelAtPeriodEnd == Some(true)), None)
  }

  /** customer.subscription.updated: every row linked to the event's id gets
      the provider's status, period and cancel flag. */
  function SubscriptionUpdated(rows: seq<SubscriptionRow>, obj: EventObject): (r: Result<seq<SubscriptionRow>, HandlerError>)
    ensures r.Failure? <==> obj.id.None? || obj.status.None? || obj.currentPeriodStart.None? || obj.currentPeriodEnd.None?
    ensures r.Success? ==>
      && |r.value| == |rows|
      && forall i :: 0 <= i < |rows| ==>
        && SameIdentity(r.value[i], rows[i])
        && (!Matches(rows[i], BySubscription(obj.id.value)) ==> r.value[i] == rows[i])
        && (Matches(rows[i], BySubscription(obj.id.value)) ==>
          && r.value[i].status == obj.status.value
          && r.value[i].currentPeriodStart == obj.currentPeriodStart
          && r.value[i].currentPeriodEnd == obj.currentPeriodEnd
          && r.value[i].cancelAtPeriodEnd == (obj.cancelAtPeriodEnd == Some(true))
          && r.value[i].canceledAt == rows[i].canceledAt)
  {
    if obj.id.None? then Failure(MissingKey("id"))
    else if obj.status.None? then Failure(MissingKey("status"))
    else if obj.currentPeriodStart.None? then Failure(MissingKey("current_period_start"))
    else if obj.currentPeriodEnd.None? then Failure(MissingKey("current_period_end"))
    else Success(UpdateWhere(rows, BySubscription(obj.id.value), UpdatedPatch(obj)))
  }

  function DeletedPatch(now: Timestamp): RowPatch
  {
    RowPatch(Some(StatusCanceled), None, None, None, Some(now))
  }

  /** customer.subscription.deleted: every row linked to the event's id is
      canceled at `now`. */
  function SubscriptionDeleted(rows: seq<SubscriptionRow>, obj: EventObject, now: Timestamp)
    : (r: Result<seq<SubscriptionRow>, HandlerError>)
    ensures r.Failure? <==> obj.id.None?
    ensures r.Success? ==>
      && |r.value| == |rows|
      && forall i :: 0 <= i < |rows| ==>
        && SameIdentity(r.value[i], rows[i])
        && (!Matches(rows[i], BySubscription(obj.id.value)) ==> r.value[i] == rows[i])
        && (Matches(rows[i], BySubscription(obj.id.value)) ==>
          && r.value[i].status == StatusCanceled && r.value[i].canceledAt == Some(now)
          && r.value[i].cancelAtPeriodEnd == rows[i].cancelAtPeriodEnd
          && r.value[i].currentPeriodStart == rows[i].currentPeriodStart
          && r.value[i].currentPeriodEnd == rows[i].currentPeriodEnd)
  {
    if obj.id.None? then Failure(MissingKey("id"))
    else Success(UpdateWhere(rows, BySubscription(obj.id.value), DeletedPatch(now)))
  }

  const PastDuePatch := RowPatch(Some(StatusPastDue), None, None, None, None)

  /** invoice.payment_failed: rows linked to the invoice's subscription become
      past_due; an invoice without a subscription id writes nothing. */
  function PaymentFailed(rows: seq<SubscriptionRow>, obj: EventObject): (r: seq<SubscriptionRow>)
    ensures |r| == |rows|
    ensures !Truthy(obj.subscription) ==> r == rows
    ensures forall i :: 0 <= i < |rows| ==>
      && SameIdentity(r[i], rows[i])
      && (Truthy(obj.subscription) && Matches(rows[i], BySubscription(obj.subscription.value)) ==>
          r[i] == rows[i].(status := StatusPastDue))
      && (!(Truthy(obj.subscription) && Matches(rows[i], BySubscription(obj.subscription.value))) ==>
          r[i] == rows[i])
  {
    if Truthy(obj.subscription) then UpdateWhere(rows, BySubscription(obj.subscription.value), PastDuePatch)
    else rows
  }

  /** Event kinds with a handler; every other kind is acknowledged and ignored. */
  predicate Handled(kind: string)
  {
    kind in {CheckoutCompletedKind, SubscriptionUpdatedKind, SubscriptionDeletedKind, PaymentFailedKind}
  }

  /** The table after one verified event. A handler either fails before
      writing or writes once; no event removes a row or changes a row's
      identity, and only a completed checkout adds one. */
  function Reconcile(t: Table, e: Event, now: Timestamp): (r: Result<Table, HandlerError>)
    ensures !Handled(e.kind) ==> r == Success(t)
    ensures r.Success? ==>
      && |r.value.rows| >= |t.rows| && r.value.nextId >= t.nextId
      && (forall i :: 0 <= i < |t.rows| ==> SameIdentity(r.value.rows[i], t.rows[i]))
      && (e.kind != CheckoutCompletedKind ==> |r.value.rows| == |t.rows| && r.value.nextId == t.nextId)
  {
    if e.kind == CheckoutCompletedKind then
      CheckoutCompleted(t, e.obj)
    else if e.kind == SubscriptionUpdatedKind then
      match SubscriptionUpdated(t.rows, e.obj)
      case Failure(err) => Failure(err)
      case Success(rows) => Success(Table(rows, t.nextId))
    else if e.kind == SubscriptionDeletedKind then
      match SubscriptionDeleted(t.rows, e.obj, now)
      case Failure(err) => Failure(err)
      case Success(rows) => Success(Table(rows, t.nextId))
    else if e.kind == PaymentFailedKind then
      Success(Table(PaymentFailed(t.rows, e.obj), t.nextId))
    else Success(t)
  }

  /** A redelivered completed checkout is inserted again: two deliveries of
      the same event leave two more rows linked to its subscription. */
  lemma {:induction false} CheckoutRedeliveryDuplicates(t: Table, obj: EventObject)
    requires obj.metadata.Some? && Truthy(obj.subscription)
    requires var m := obj.metadata.value;
      "user_id" in m && m["user_id"] != "" && "plan_id" in m && m["plan_id"] != ""
    ensures var once := CheckoutCompleted(t, obj);
      once.Success? && CheckoutCompleted(once.value, obj).Success?
      && CountLinked(CheckoutCompleted(once.value, obj).value.rows, obj.subscription.value)
         == CountLinked(t.rows, obj.subscription.value) + 2
  {
    var m := obj.metadata.value;
    var once := CheckoutCompleted(t, obj).value;
    var twice := CheckoutCompleted(once, obj).value;
    var s := obj.subscription.value;
    assert once.rows == t.rows + [CheckoutRow(t.nextId, m["user_id"], m["plan_id"], obj)];
    assert twice.rows == once.rows + [CheckoutRow(once.nextId, m["user_id"], m["plan_id"], obj)];
    CountLinkedAppend(t.rows, CheckoutRow(t.nextId, m["user_id"], m["plan_id"], obj), s);
    CountLinkedAppend(once.rows, CheckoutRow(once.nextId, m["user_id"], m["plan_id"], obj), s);
  }

  /** A redelivered deleted event leaves the rows canceled and only moves
      their canceled_at to the later delivery's time. */
  lemma {:induction false} DeletedRedelivery(rows: seq<SubscriptionRow>, obj: EventObject, t1: Timestamp, t2: Timestamp)
    requires obj.id.Some?
    ensures var once := SubscriptionDeleted(rows, obj, t1).value;
      SubscriptionDeleted(once, obj, t2) == SubscriptionDeleted(rows, obj, t2)
  {
    UpdateTwice(rows, BySubscription(obj.id.value), DeletedPatch(t1), DeletedPatch(t2));
    assert Then(DeletedPatch(t1), DeletedPatch(t2)) == DeletedPatch(t2);
  }

  /** A redelivered updated event changes nothing the first delivery did not. */
  lemma {:induction false} UpdatedRedelivery(rows: seq<SubscriptionRow>, obj: EventObject)
    requires SubscriptionUpdated(rows, obj).Success?
    ensures SubscriptionUpdated(SubscriptionUpdated(rows, obj).value, obj) == SubscriptionUpdated(rows, obj)
  {
    UpdateTwice(rows, BySubscription(obj.id.value), UpdatedPatch(obj), UpdatedPatch(obj));
    assert Then(UpdatedPatch(obj), UpdatedPatch(obj)) == UpdatedPatch(obj);
  }

  /** Events about a subscription no row is linked to leave the table as it is. */
  lemma {:induction false} UnlinkedEventsChangeNothing(t: Table, e: Event, now: Timestamp)
    requires e.kind != CheckoutCompletedKind
    requires e.kind == PaymentFailedKind ==>
      !Truthy(e.obj.subscription) || CountLinked(t.rows, e.obj.subscription.value) == 0
    requires e.kind != PaymentFailedKind && e.obj.id.Some? ==> CountLinked(t.rows, e.obj.id.value) == 0
    ensures Reconcile(t, e, now).Success? ==> Reconcile(t, e, now).value == t
  {
    if e.kind == PaymentFailedKind && Truthy(e.obj.subscription) {
      UpdateWithoutMatch(t.rows, BySubscription(e.obj.subscription.value), PastDuePatch);
    } else if e.kind == SubscriptionUpdatedKind && SubscriptionUpdated(t.rows, e.obj).Success? {
      UpdateWithoutMatch(t.rows, BySubscription(e.obj.id.value), UpdatedPatch(e.obj));
    } else if e.kind == SubscriptionDeletedKind && e.obj.id.Some? {
      UpdateWithoutMatch(t.rows, BySubscription(e.obj.id.value), DeletedPatch(now));
    }
  }

  /** The table after a run of deliveries in order. Each delivery is handled
      on its own: one whose handler fails writes nothing and the next one
      proceeds. */
  function ReconcileAll(t: Table, events: seq<Event>, now: Timestamp): Table
    decreases |events|
  {
    if events == [] then t
    else
      match Reconcile(t, events[0], now)
      case Failure(_) => ReconcileAll(t, events[1..], now)
      case Success(t') => ReconcileAll(t', events[1..], now)
  }

  /** However many events arrive, no row is ever removed and no row's
      identity or provider links change. */
  lemma {:induction false} RowsNeverRemoved(t: Table, events: seq<Event>, now: Timestamp)
    ensures var r := ReconcileAll(t, events, now);
      && |r.rows| >= |t.rows| && r.nextId >= t.nextId
      && forall i :: 0 <= i < |t.rows| ==> SameIdentity(r.rows[i], t.rows[i])
    decreases |events|
  {
    if events != [] {
      var step := Reconcile(t, events[0], now);
      if step.Success? {
        RowsNeverRemoved(step.value, events[1..], now);
      } else {
        RowsNeverRemoved(t, events[1..], now);
      }
    }
  }
}
