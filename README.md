# Scaff-Saas backend core in Dafny

This project models the core of the Scaff-Saas backend, a FastAPI service for
scaffolding projects with paid subscriptions:

- the pagination parameters and the uniform JSON response envelopes every
  endpoint answers with (`backend/models/base.py`, `backend/utils/responses.py`);
- the project record, its request models with their validators, and the
  project service's create / get / list / update / delete / duplicate
  operations on the `projects` table (`backend/models/project.py`,
  `backend/services/project_service.py`);
- the payment-provider wrapper: the price-id lookup by plan name, the customer
  and checkout-session payloads, modify-versus-delete on cancel, and how
  webhook verification failures are re-raised (`backend/utils/stripe_client.py`);
- the subscription router: the plan catalogue, the caller's current
  subscription, checkout, cancel, and the webhook receiver that keeps
  `user_subscriptions` in step with the provider (`backend/routers/subscriptions.py`).

The modules are laid out as follows:

- **`Common`** holds the `Option`/`Result` wrappers, a JSON value type,
  Python truthiness of optional strings, and a stable insertion sort. The
  sort is the model of a store's `order by` clause.
- **`Pagination`** models `PaginationParams`.
- **`Responses`** models the envelope builders. Each builder is proved
  against `ReadEnvelope`, the reader a client applies to a body, so the
  contracts state what a client reads back.
- **`ProjectModel`** models validation as functions that return either the
  validated record or the list of field errors.
- **`ProjectService.ProjectStore`** is a class whose rows are a sequence
  field. Its methods are proved against specification functions such as
  `FirstVisible`, `Lookup`, `Listing`, `ReadBack`, `UpdateVisible` and
  `RemoveVisible`.
- **`StripeClient`** returns the request each wrapper would issue, as a
  `ProviderCall` value. The provider itself is outside the model.
- **`SubscriptionTable`** states, as pure functions of the table before the
  event, what each webhook event does to `user_subscriptions`.
- **`Subscriptions.SubscriptionRouter`** is a class holding the table, the
  next id and the log of provider requests. Its methods are proved to
  perform exactly those transitions and, on every path, to issue exactly
  those requests.

The provider's replies, the verification outcome of a webhook and the
current time are inputs.

Some behaviours of the code as written are kept and stated as contracts or lemmas:

- A completed checkout is a blind insert. A redelivered event therefore adds
  a second active row, after which the current-subscription lookup fails.
- A repeated `deleted` event moves `canceled_at` to the later delivery's time.
- A bad webhook signature is re-raised with one argument where the library's
  error class takes two, so the handler reports a TypeError and the library's
  detail is lost.
- The project request models inherit `id`, `created_at` and `updated_at`, and
  a client may send them. A sent id is written. A sent timestamp stays a
  datetime object when the request model is dumped, so encoding the request
  body fails and nothing is written. The one exception is an update sending
  `updated_at`: the update replaces it with its own time, as a string.
- Every project read back from the store is rebuilt with the project model,
  whose end-date check the update model lacks. An update that inverts the
  dates is therefore written and then reported as a validation error, and
  every later get or list that meets the row fails. The checked update
  described under Findings below rejects such a patch before writing.

## Model

| member | source | states |
|---|---|---|
| Common.SortBySorted | backend/routers/subscriptions.py:113 | the store's ordering returns its input in nondecreasing key order (and, by `SortBy`'s contract, as a permutation) |
| Pagination.MakeParams | backend/models/base.py:65-75 | parameters are accepted iff page >= 1 and 1 <= page_size <= 100; each violated bound is reported, and no other; page and page_size default to 1 and 20 |
| Pagination.DefaultParamsValid | backend/models/base.py:65-75 | a query without page values gets page 1 of 20 items, which the bounds accept |
| Pagination.Offset | backend/models/base.py:77-85 | the offset is a multiple of the page size whose quotient is page - 1 |
| Pagination.Limit | backend/models/base.py:87-95 | the limit is the page size, between 1 and 100 |
| Pagination.ConsecutivePagesAbut | backend/models/base.py:77-95 | the next page starts exactly where this page's window ends |
| Pagination.WindowsDisjoint | backend/models/base.py:77-95 | windows of two different pages of one size never overlap |
| Pagination.IndexInExactlyOnePage | backend/models/base.py:77-95 | every item index lies in the window of page index / page_size + 1 and of no other page |
| Responses.SuccessResponse | backend/utils/responses.py:67-98 | a client reads back the data and the message, the message only when non-empty; the status is the one passed, 200 by default |
| Responses.ErrorResponse | backend/utils/responses.py:101-140 | a client reads back code and message, and the field only when non-empty; the status is the one passed, 400 by default, and the field is absent by default |
| Responses.TotalPages | backend/utils/responses.py:171 | total_pages is the ceiling of total / page_size: the fewest pages that hold all items |
| Responses.Paging | backend/utils/responses.py:171-185 | has_next iff page < total_pages, has_prev iff page > 1, and the other fields are echoed |
| Responses.PaginatedResponse | backend/utils/responses.py:143-187 | a client reads back exactly the items and the page facts; the status is the one passed, 200 by default |
| Responses.HasNextIffItemsRemain | backend/utils/responses.py:171-185 | for page >= 1, has_next iff items remain beyond this page's window; has_prev iff the window does not start at 0 |
| Responses.NoContentResponse | backend/utils/responses.py:217-232 | status 204 with a null body, which no client reads as an envelope |
| Responses.NotFoundCode | backend/utils/responses.py:255 | the code is "NOT_FOUND" without a resource, else the upper-cased resource followed by "_NOT_FOUND" |
| Responses.NotFoundResponse | backend/utils/responses.py:235-261 | a 404 error envelope with that code, the message (by default "リソースが見つかりません") and no field |
| Responses.CreatedResponse | backend/utils/responses.py:190-214 | a success envelope with status 201, without a message by default |
| Responses.UnauthorizedResponse | backend/utils/responses.py:264-283 | a 401 error envelope with code UNAUTHORIZED and the message, by default "認証が必要です" |
| Responses.ForbiddenResponse | backend/utils/responses.py:286-305 | a 403 error envelope with code FORBIDDEN and the message, by default "アクセスが拒否されました" |
| ProjectModel.ParseStatus | backend/models/project.py:15-27 | exactly the four status values parse, each to the status that prints as it |
| ProjectModel.StatusRoundTrip | backend/models/project.py:15-27 | parsing and printing a status are inverse both ways |
| ProjectModel.LengthErrors | backend/models/project.py:36-60 | an optional field passes iff absent or within its length bounds |
| ProjectModel.StatusErrors | backend/models/project.py:47-50 | a status passes iff absent or one of the four values |
| ProjectModel.ValidateEndDate | backend/models/project.py:74-94 | rejected iff both dates are present and end < start; otherwise the end date is returned unchanged |
| ProjectModel.ValidateProjectCreate | backend/models/project.py:30-106 | accepted iff every bound and the date check hold; the fields are kept, the status defaults to draft, and the inherited id, created_at and updated_at (backend/models/base.py:12-45) are carried as sent; a rejection lists at least one error |
| ProjectModel.ValidateProjectUpdate | backend/models/project.py:109-151 | accepted iff the present fields are within bounds; the patch carries exactly the fields sent, the inherited id, created_at and updated_at included |
| ProjectModel.UpdateAcceptsInvertedDates | backend/models/project.py:109-151 | the update model accepts an end date before the start date, which the create model rejects |
| ProjectModel.ValidateDuplicateRequest | backend/models/project.py:188-196 | a new name is accepted iff absent or at most 200 characters |
| ProjectService.ReadBack | backend/models/project.py:154-163 | a row read back is rebuilt with the project model's checks; for a row within the stored bounds it succeeds, as the row itself, iff its dates are in order, and otherwise fails with exactly the end-date error |
| ProjectService.ReadBackAll | backend/services/project_service.py:155 | all rows read back, in order, iff each does; otherwise the error of the first row that does not |
| ProjectService.FirstVisible | backend/services/project_service.py:93-105 | found iff some row matches both id and owner, and the result is the first such row |
| ProjectService.FirstVisibleAppend | backend/services/project_service.py:62-68 | a row inserted with a fresh id is the one a get by its id and owner finds |
| ProjectService.Selected | backend/services/project_service.py:135-143 | exactly the caller's rows, restricted to the status filter when one is given, each as often as in the table |
| ProjectService.NewestFirst | backend/services/project_service.py:146 | the ordering is a permutation of the selection |
| ProjectService.NewestFirstOrdered | backend/services/project_service.py:146 | the ordering puts the latest updated_at first |
| ProjectService.Window | backend/services/project_service.py:149-150 | the range [offset, offset + limit - 1] of the sequence, cut off at its end |
| ProjectService.ListedRowsMatch | backend/services/project_service.py:135-155 | every listed row belongs to the caller, matches the filter, and the page is newest first |
| ProjectService.PagesCoverSelection | backend/services/project_service.py:149-150 | the item at index i is on page i / page_size + 1, at position i % page_size |
| ProjectService.MergePatch | backend/services/project_service.py:193-215 | fields present in the patch overwrite, the others are kept |
| ProjectService.MergeKeepsBounds | backend/services/project_service.py:193-215 | a validated patch keeps a stored project within the length bounds |
| ProjectService.MergeNeverClears | backend/services/project_service.py:193 | an update never clears a field, because null values are dropped from the patch |
| ProjectService.Patched | backend/services/project_service.py:193-215 | the owner and created_at are kept; a sent id is written, else kept; updated_at is the update's time whatever was sent; the fields are merged and the bounds preserved |
| ProjectService.SentUpdatedAtOnlyTouches | backend/services/project_service.py:193-207 | an update sending only updated_at is not empty, and only moves updated_at to the update's time |
| ProjectService.UpdateVisible | backend/services/project_service.py:209-215 | exactly the rows matching id and owner are patched; the others are unchanged |
| ProjectService.UpdateReturnsPatchedRow | backend/services/project_service.py:209-222 | without a visible row the table is unchanged; with one, its patched version is in the table; when the id is kept, a get by it finds exactly that row |
| ProjectService.UpdateKeepsUniqueIds | backend/services/project_service.py:209-215 | unless the patch gives the visible row an id another row has, ids stay unique after the update |
| ProjectService.RemoveVisible | backend/services/project_service.py:247-253 | the rows kept are exactly those not matching id and owner; ids stay unique |
| ProjectService.RemoveVisibleCounts | backend/services/project_service.py:247-253 | every matching row is removed and every other row is kept as often as the table had it |
| ProjectService.DuplicateValidIff | backend/services/project_service.py:293-307 | a duplicate passes the create model iff its name fits 200 characters and the original's dates are in order |
| ProjectService.LongNameDuplicateFails | backend/services/project_service.py:298-307 | without a new name, an original name over 195 characters makes the duplicate fail validation |
| ProjectService.ProjectStore.CreateProject | backend/services/project_service.py:51-68 | a sent created_at or updated_at fails encoding and a sent id already in use is rejected, both with nothing written; otherwise one row is appended with the sent id or a fresh one and both timestamps now, it reads back as itself, and a get of it by id and owner returns it; a table whose dates are all in order stays so |
| ProjectService.Lookup | backend/services/project_service.py:92-105 | None iff no row matches both id and owner; otherwise the first matching row as read back, or the validation error of reading it back |
| ProjectService.ProjectStore.GetProject | backend/services/project_service.py:92-105 | the lookup in the current table; in a well-formed table it fails only with the end-date error, and never when every row's dates are in order |
| ProjectService.Listing | backend/services/project_service.py:133-165 | the page is the window of the newest-first selection, each row as read back, and total counts the whole selection; it fails with the error of a page row that does not read back, exactly when there is one |
| ProjectService.ProjectStore.ListProjects | backend/services/project_service.py:133-165 | the listing of the current table; a well-formed table whose dates are all in order always lists |
| ProjectService.ProjectStore.UpdateProject | backend/services/project_service.py:191-222 | an empty patch writes nothing and returns the current lookup; a sent created_at fails encoding and a sent id another row has is rejected, both with nothing written; otherwise only the visible row is patched and stays written, and the result is that row if it reads back, else the validation error |
| ProjectService.ProjectStore.UpdateProjectChecked | backend/services/project_service.py:191-222 | as the update, except that a patched row that would not read back is rejected with nothing written; a table whose dates are all in order stays so |
| ProjectService.CheckedUpdateKeepsReadable | backend/services/project_service.py:209-222 | an update writing only a patched row whose dates are in order keeps every row's dates in order |
| ProjectService.UpdateWritesUnreadableRow | backend/services/project_service.py:193-222 | a project without dates, sent start date 2 and end date 1, passes the update model and is written, and the written row fails to read back with the end-date error |
| ProjectService.ProjectStore.DeleteProject | backend/services/project_service.py:246-260 | removes the visible row without reading it back; true iff there was one; afterwards the lookup under that id and owner is None |
| ProjectService.ProjectStore.DuplicateProject | backend/services/project_service.py:286-311 | the original's lookup error, or None, is the result with nothing written; otherwise validation decides, and on success a new draft copy is appended |
| StripeClient.RequireClient | backend/utils/stripe_client.py:23-32 | the client is available iff the API key is set and non-empty |
| StripeClient.GetPriceIdByPlanName | backend/utils/stripe_client.py:174-196 | each paid plan name gives its configured price id, or a missing-setting error; any other name is unsupported |
| StripeClient.PriceLookupInvertible | backend/utils/stripe_client.py:174-196 | with distinct price ids, a found price id leads back to the plan name it was looked up by |
| StripeClient.CustomerPayloadShape | backend/utils/stripe_client.py:49-53 | the customer payload always has the email; it has the name and the metadata only when they are non-empty |
| StripeClient.CustomerPayload | backend/utils/stripe_client.py:49-53 | the payload built by conditional insertion has that shape |
| StripeClient.CheckoutBaseShape | backend/utils/stripe_client.py:81-93 | the fixed payload has the customer, card payment, one line item, subscription mode and both URLs |
| StripeClient.CheckoutPayloadShape | backend/utils/stripe_client.py:81-96 | the session payload is the fixed part, plus the metadata only when it is non-empty |
| StripeClient.CheckoutSessionPayload | backend/utils/stripe_client.py:81-96 | the payload built by conditional insertion has that shape |
| StripeClient.CheckoutBuysOneUnit | backend/utils/stripe_client.py:84-89 | the only line item asks for quantity 1 of the price |
| StripeClient.CreateCustomer | backend/utils/stripe_client.py:35-56 | fails with the missing-key error iff the API key is unset; otherwise it issues one customer creation with that payload |
| StripeClient.CreateCheckoutSession | backend/utils/stripe_client.py:59-99 | fails with the missing-key error iff the API key is unset; otherwise it issues one session creation with that payload |
| StripeClient.GetSubscription | backend/utils/stripe_client.py:102-114 | fails iff the API key is unset; otherwise it retrieves that subscription |
| StripeClient.CancelSubscription | backend/utils/stripe_client.py:117-138 | a cancel at period end modifies the subscription with the flag set; an immediate cancel deletes it |
| StripeClient.CancelRequestsDiffer | backend/utils/stripe_client.py:130-136 | the two cancel requests differ, and each names the subscription |
| StripeClient.ConstructWebhookEvent | backend/utils/stripe_client.py:141-171 | a verified event passes through; a malformed payload is re-raised with its detail; the re-raise of a bad signature itself fails, with the TypeError of the missing signature-header argument |
| StripeClient.WebhookMessagesKeepDetail | backend/utils/stripe_client.py:164-171 | a malformed payload's message is the prefix followed by the library's detail, intact, so distinct details give distinct messages; a bad signature's detail is lost |
| SubscriptionTable.UpdateWhere | backend/routers/subscriptions.py:404-406 | the rows matching the key are patched and the others kept in place; no row's identity changes |
| SubscriptionTable.UpdateWithoutMatch | backend/routers/subscriptions.py:404-406 | an update whose key matches no row changes nothing |
| SubscriptionTable.UpdateTwice | backend/routers/subscriptions.py:413-415 | two updates with one key equal one update whose later columns win |
| SubscriptionTable.CountLinkedAppend | backend/routers/subscriptions.py:384-386 | an insert adds one to the count of rows linked to its subscription iff it is linked to it |
| SubscriptionTable.CheckoutCompleted | backend/routers/subscriptions.py:369-386 | no metadata is a key error; with non-empty user_id and plan_id one active row is appended, otherwise nothing is written |
| SubscriptionTable.SubscriptionUpdated | backend/routers/subscriptions.py:388-406 | fails iff id, status or a period bound is absent; linked rows get the status, the period and the flag (default false), and others are unchanged |
| SubscriptionTable.SubscriptionDeleted | backend/routers/subscriptions.py:408-415 | fails iff the id is absent; linked rows become canceled at now, and everything else is kept |
| SubscriptionTable.PaymentFailed | backend/routers/subscriptions.py:417-425 | linked rows become past_due; an invoice without a subscription id writes nothing |
| SubscriptionTable.Reconcile | backend/routers/subscriptions.py:368-427 | unknown kinds change nothing; no event removes a row or changes a row's identity; only a checkout adds rows |
| SubscriptionTable.CheckoutRedeliveryDuplicates | backend/routers/subscriptions.py:369-386 | a checkout delivered twice links two more rows to its subscription |
| SubscriptionTable.DeletedRedelivery | backend/routers/subscriptions.py:408-415 | a repeated deleted event equals the later one alone: it only refreshes canceled_at |
| SubscriptionTable.UpdatedRedelivery | backend/routers/subscriptions.py:388-406 | a repeated updated event changes nothing further |
| SubscriptionTable.UnlinkedEventsChangeNothing | backend/routers/subscriptions.py:388-425 | updated, deleted and payment-failed events for a subscription no row is linked to leave the table as it is |
| SubscriptionTable.RowsNeverRemoved | backend/routers/subscriptions.py:368-427 | across any run of deliveries, no row is removed and no row's identity or provider links change |
| Subscriptions.FindPlan | backend/routers/subscriptions.py:135-146 | found iff a plan has that id |
| Subscriptions.ActivePlans | backend/routers/subscriptions.py:109-113 | exactly the plans with is_active, each as often as in the table |
| Subscriptions.GetSubscriptionPlans | backend/routers/subscriptions.py:105-118 | exactly the active plans, as a permutation, in nondecreasing display order |
| Subscriptions.GetSubscriptionPlan | backend/routers/subscriptions.py:124-151 | the plan with that id, or 404 "プランが見つかりません" |
| Subscriptions.ActiveRows | backend/routers/subscriptions.py:166-173 | exactly the caller's rows whose status is active |
| Subscriptions.ActiveRowsAppend | backend/routers/subscriptions.py:166-173 | an inserted row adds to the caller's active rows iff it is active and the caller's |
| Subscriptions.GetMySubscription | backend/routers/subscriptions.py:154-189 | None without an active row; a 500 with several; otherwise the single active row with its plan's name, or a 500 when the plan is gone |
| Subscriptions.RedeliveredCheckoutBreaksLookup | backend/routers/subscriptions.py:369-386 | after one checkout is delivered twice, the current-subscription lookup of its user fails |
| Subscriptions.FirstRowOf | backend/routers/subscriptions.py:235-241 | the caller's first row in table order, if any (the unordered `limit 1` taken as table order) |
| Subscriptions.ExistingCustomerId | backend/routers/subscriptions.py:243-247 | the first row's customer id, when it is non-empty |
| Subscriptions.CancelEffect | backend/routers/subscriptions.py:316-327 | the cancel write sets the period-end flag and canceled_at on that row only, and the canceled status only when immediate |
| Subscriptions.UpdateKeepsIds | backend/routers/subscriptions.py:325-327 | updates keep row ids below the next id and unique |
| Subscriptions.SubscriptionRouter.ResolveCustomer | backend/routers/subscriptions.py:234-255 | reuses the first row's customer, else issues one creation tagged with the caller's id; failures are 500 |
| Subscriptions.SubscriptionRouter.OpenSession | backend/routers/subscriptions.py:234-266 | on every path exactly the provider requests made: a customer creation when the caller has none, then, once a customer id is known, one session request with the caller's and plan's ids as metadata; none without an API key |
| Subscriptions.SubscriptionRouter.CreateSubscriptionCheckoutSession | backend/routers/subscriptions.py:209-273 | 404 for an unknown plan, 400 for a free plan, neither calling the provider; success iff every step succeeds; on every path the log grows by exactly the requests made; the table is never written |
| Subscriptions.SubscriptionRouter.CancelMySubscription | backend/routers/subscriptions.py:288-336 | 404 without an active row; a row without a provider id is reported canceled untouched; otherwise the provider is asked first and the row is written only after it succeeded |
| Subscriptions.SubscriptionRouter.StripeWebhook | backend/routers/subscriptions.py:353-430 | a missing secret is a 500; a verification or handler failure is a 400 with nothing written; otherwise the table becomes `Reconcile` of the event and the event is acknowledged |

## Left out

- I/O is not modelled: the Supabase client, the Stripe SDK and its HTTP calls, HMAC signature checking (the verification outcome is an input), environment loading, and logging.
- Several modules are not part of this model: the projects, drawings and health routers, the middleware, the application entry points, the icon and test-user scripts, and the tests.
- Concurrency between requests is not modelled. Each method runs atomically.
- Store failures are not modelled, apart from the primary-key clash of a sent project id and the encoding failure of a sent project timestamp. Only the branches the code takes on the data it gets back are. The catch-all 500 "... エラー: " paths for a failing store (plan listing, plan lookup) and a failed insert in `create_project` are therefore absent.
- `.single()` is taken to return empty data on zero rows, following the code's explicit branch. The library may raise instead. Several rows are taken to raise, which the handlers turn into a 500.
- Exception texts are modelled only as a fixed prefix plus a message:
  - the store's text for several rows is an assumed constant;
  - a `KeyError` renders as the quoted key;
  - the substring rule in `get_my_subscription` ("not found" / "no rows") is not modelled.
- `isoformat`, `fromtimestamp` and `utcnow` are not modelled. Times are integer timestamps, and dates are day numbers compared by order.
- Plan prices and feature columns are floats and flags that no logic reads, so they are left out. Plan ids are assumed unique, as the table's primary key.
- Responses.Upper: upper-cases only ASCII letters, whereas Python's `str.upper` also maps other scripts.
- A key that an event object carries with the value null is treated as absent. The code would write the null itself, for example for `cancel_at_period_end`.
- The checkout row's columns other than those inserted take the table defaults: no period, `cancel_at_period_end` false and no `canceled_at`. The schema is not part of this model.
- ProjectService.ProjectStore.ListProjects: the store's row count is always taken as present, so the `total = 0` fallback for a missing count is not modelled. Rows with equal `updated_at` come back in an order the store does not promise. The method requires the page bounds that its only caller enforces (backend/routers/projects.py:96-97).
- ProjectService.ProjectStore.CreateProject: the store's column defaults and server-side timestamps are modelled as the call's `now`. A null sent for `id`, `created_at` or `updated_at` is treated as not sent, whereas the code would insert the null. The request is dumped with only the fields that were set (backend/services/project_service.py:53), so the table's column defaults apply to the rest. The model assumes that the `status` column defaults to `draft`, the request model's default, and that the optional fields default to null; the schema is not part of this model.
- The encoding failure of a sent project timestamp assumes the store client writes the request body with the standard JSON encoder, which has no rule for datetime objects; the base model's datetime encoder applies only to JSON dumps, which the service does not use.
- ProjectService.ProjectStore.UpdateProject: ids are numbers, so a sent id that is not a UUID, which the store would reject, is not modelled. The next generated id moves past a sent id, standing for random UUIDs that never collide.
- ProjectModel.ValidateProjectCreate: the create request has no `user_id`, because the router overwrites it with the caller's id (backend/routers/projects.py:70). The rejection of a body without `user_id` before that assignment is therefore not modelled.
- ProjectService.ProjectStore.CreateProject: requires the data to have passed the create model (length bounds and dates in order), as its parameter type guarantees.
- Responses.TotalPages: requires page_size >= 1 and a non-negative total. With page_size 0 the code raises ZeroDivisionError, and a negative page_size uses floor division. No caller passes such values, since the page bounds are validated first.
- Responses.Paging: requires page_size >= 1, for the same reason as `TotalPages`.
- Responses.PaginatedResponse: requires page_size >= 1, for the same reason as `TotalPages`.
- StripeClient.ConstructWebhookEvent: the library's signature-error constructor, which is not part of this model, is taken to require the signature header. The one-argument re-raise therefore ends in a TypeError, whose text is assumed to be Python 3.10's wording.
- Subscriptions.FirstRowOf: the checkout's lookup of an existing customer (backend/routers/subscriptions.py:235-241) is a `limit 1` with no ordering, which the model takes as the caller's first row in table order. When the caller's rows disagree (for example, two checkouts opened before either completed, so two customers exist), the code may reuse another of the caller's customer ids, or create a customer because the row returned has none. `ExistingCustomerId`, `CheckoutRequests`, `ResolveCustomer`, `OpenSession` and `CreateSubscriptionCheckoutSession` state the request log for that one choice only.

## Findings

| source | as written | input that shows it | evidently intended | confidence | as-written member | corrected member |
|---|---|---|---|---|---|---|
| backend/services/project_service.py:193-222 | the update model has no end-date check, so the merged row is written and only then rebuilt with the project model, which rejects it; the caller gets a validation error although the row stays written, and every later get or list meeting the row fails | a stored project without dates, updated with start_date 2 and end_date 1 | check the patched row before writing, so that nothing is written and every stored row keeps reading back | medium, not executed | ProjectService.UpdateWritesUnreadableRow | ProjectService.ProjectStore.UpdateProjectChecked |
