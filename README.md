# Subscription aggregation service — a Dafny model

The service keeps users' online subscriptions in one PostgreSQL table. Each subscription has an id, a service name, a monthly price, a user id, a start month and an optional end month. The service offers create, read, patch, delete and list operations. It also computes the total cost of the subscriptions that overlap a period of months. This project models the core of the service in Dafny and proves properties of that model:

- `domain.dfy` (module `Domain`): subscriptions, the list filter, the total-cost filter and calendar months. Every date is parsed with the layout `01-2006`, so it is the first day of a month. A date is therefore a year and a month, ordered by its month index `year*12 + month-1`.
- `errors.dfy` (module `Errors`): `MyErr`, `NewError`, the four coded constructors and the `[Error <code>] <message>` rendering.
- `cost.dfy` (module `CostEngine`): `maxTime`, `minTime`, `countMonths` and `costForPeriod`, plus the sum over rows that `GetTotalCost`'s loop computes. These are tied to a reference definition: the set of months in which the subscription is active inside the period.
- `storage.dfy` (module `Storage`): the storage adapter as an in-memory table `map<Uuid, Subscription>`, with an optional database failure.
  - What each SELECT returns is specified as "every row the WHERE clause keeps, each once, in any order".
  - INSERT, UPDATE with COALESCE, DELETE with RETURNING and the EXISTS probe change the table as their SQL does.
- `querybuilder.dfy` (module `QueryBuilder`): the older storage revision builds its SQL by hand. It appends `col op $n` conditions and their arguments in lock step and joins them with ` AND `. The model keeps that builder as written. It proves that the placeholders number the arguments correctly and that the WHERE clause holds of a row exactly when the filter matches it.
- `service.dfy` (module `Service`): the use cases. They validate input, delegate to the store, mint ids on create and run the total-cost loop.
- `requests.dfy` (module `Requests`): the HTTP request layer. It turns decoded bodies, URL parameters and query strings into domain records and filters, with the handlers' BadRequest messages.

Decisions:

- **External parsers and id generation are inputs.** `uuid.Parse`, `parseMonthYear` (over `time.Parse`) and `strconv.Atoi` are function-typed parameters that return either a value or an error text. `uuid.New` is the parameter `minted`.
- **Database failures are state.** The database connection is a `failure: Option<string>` that every statement reports. A duplicate primary key is the driver's error; its text belongs to the driver and is a constructor parameter of the table.
- **PATCH follows the code as written.** The PATCH request's optional fields are pointers (`*string`, `*int`, `*string` at subscriptions_backend/api/http/types/subscription.go:110-112), and the UPDATE wraps each column in `COALESCE` (repository/postgres_storage/subscription.go:156-158). Both are written so that a field the request leaves out keeps its stored value. The record handed to the UPDATE, however, holds a plain name and price, so those two are always overwritten (see "## Findings"). `Storage.SubscriptionDB.PatchSubscriptionByID`, which the service calls, models the code as written. `Storage.SubscriptionDB.MergeSubscriptionByID` is the corrected operation.
- **A failed EXISTS probe is kept.** Every other statement passes its driver error up, but `IsExist` discards the error of its probe (repository/postgres_storage/subscription.go:182-187). A failed probe therefore answers "absent", so Patch and Delete report NotFound. The model keeps that.
- **One message is kept even though it looks wrong.** When `end_date` is missing, the total-cost request handler answers "start_date is required for the request". The model keeps that message as written.

## Model

| member | source | states |
|---|---|---|
| Errors.NewError | subscriptions_backend/domain/errors.go:21-26 | the error carries exactly the given code and message |
| Errors.ErrNotFound | subscriptions_backend/domain/errors.go:29-31 | code 404 and the message prefixed with "Not found: " |
| Errors.ErrUnauthorized | subscriptions_backend/domain/errors.go:32-34 | code 401 and the message prefixed with "Unauthorized: " |
| Errors.ErrAlreadyExist | subscriptions_backend/domain/errors.go:35-37 | code 409 and the message prefixed with "Already exist: " |
| Errors.ErrForbidden | subscriptions_backend/domain/errors.go:38-40 | code 403 and the message prefixed with "Forbidden: " |
| Errors.Render | subscriptions_backend/domain/errors.go:17-19 | the rendered text always begins with `[Error ` |
| Errors.RenderRoundTrip | subscriptions_backend/domain/errors.go:17-19 | the rendered text `[Error <code>] <message>` can be read back into the same code and message, for every code including negative ones |
| Errors.ConstructorsDistinct | subscriptions_backend/domain/errors.go:28-41 | errors from two different constructors are never equal, and equal NotFound errors have equal details |
| Errors.NotFoundRendering | subscriptions_backend/domain/errors.go:17-31 | a NotFound error renders as `[Error 404] Not found: <detail>` |
| Text.IntRoundTrip | subscriptions_backend/domain/errors.go:18 | the decimal rendering of a code that `%d` produces parses back to the same integer |
| Text.DecimalRoundTrip | subscriptions_backend/domain/errors.go:18 | the digits of a natural number read back as that number (proved by induction on the number) |
| Text.Join | subscriptions_backend/repository/postgres_storage/subscription.go:86-88 | joining no conditions gives "" and joining one gives that condition |
| Domain.MonthIndexRoundTrip | usecases/service/subscription.go:162-166 | the month index numbers calendar months one to one: every index is the index of exactly one date |
| Domain.Before | usecases/service/subscription.go:176 | `time.Time.Before` on first-of-month dates: an earlier year, or the same year and an earlier month |
| Domain.After | usecases/service/subscription.go:169 | `time.Time.After` is Before with its arguments swapped: a later year, or the same year and a later month |
| CostEngine.MaxTime | usecases/service/subscription.go:168-173 | the result is one of the two dates and is not before either |
| CostEngine.MinTime | usecases/service/subscription.go:175-180 | the result is one of the two dates and is not after either |
| CostEngine.CountMonths | usecases/service/subscription.go:162-166 | the count is the difference of the month indices plus one: both end months are counted |
| CostEngine.BillingStart | usecases/service/subscription.go:145 | billing starts at the later of the subscription's start and the period's start |
| CostEngine.BillingEnd | usecases/service/subscription.go:147-152 | an open-ended subscription is billed to the period's end, otherwise to the earlier of its end and the period's end |
| CostEngine.CostForPeriod | usecases/service/subscription.go:144-160 | the cost is zero when the clamped range is empty and never negative for a non-negative price |
| CostEngine.SpanSize | usecases/service/subscription.go:162-166 | a range of month indices lo..hi holds hi-lo+1 months, or none when hi < lo (by induction) |
| CostEngine.BilledMonthsAreClampedSpan | usecases/service/subscription.go:144-160 | the months the subscription is active inside the period are exactly the months from the clamped start to the clamped end |
| CostEngine.CostIsPriceTimesBilledMonths | usecases/service/subscription.go:144-160 | the cost equals the number of months the subscription is active inside the period times its price |
| CostEngine.OpenEndedBilledThroughPeriodEnd | usecases/service/subscription.go:147-152 | an open-ended subscription that has started is billed through the period's last month |
| CostEngine.SingleMonthCostsPrice | usecases/service/subscription.go:154-159 | a subscription that starts and ends in the same month inside the period costs its price once |
| CostEngine.NoOverlapCostsNothing | usecases/service/subscription.go:154-156 | a subscription outside the period costs nothing and has no billed months |
| CostEngine.OverlapBillsAtLeastOneMonth | usecases/service/subscription.go:144-160 | a well-formed subscription that overlaps a well-formed period is billed for at least one month |
| CostEngine.SumCostsAppend | usecases/service/subscription.go:133-136 | the loop's total over two consecutive runs of rows is the sum of their totals |
| CostEngine.SumCostsPermutation | usecases/service/subscription.go:133-136 | the loop's total does not depend on the order of the rows |
| CostEngine.SumCostsNonNegative | usecases/service/subscription.go:133-136 | with no negative prices the total is never negative (by induction on the rows) |
| CostEngine.SumOfTwo | usecases/service/subscription.go:133-136 | the total over two rows is the sum of their costs |
| CostEngine.TwoSubscriptionsExample | usecases/service/subscription.go:133-160 | 500 a month over Jan–Mar plus 200 a month from Feb, open-ended, cost 1200 over Jan–Feb |
| Storage.MatchesList | repository/postgres_storage/subscription.go:71-85 | the empty filter keeps every row; under an end-date bound an open-ended subscription (NULL end_date) is never listed |
| Storage.OverlapsPeriod | repository/postgres_storage/subscription.go:117-118 | an open-ended subscription overlaps the period exactly when it does not start after the period's end |
| Storage.MatchesTotal | repository/postgres_storage/subscription.go:117-126 | every row the total-cost query keeps overlaps the period; without user or service the overlap test is all there is |
| Storage.Coalesce | repository/postgres_storage/subscription.go:156-158 | SQL `COALESCE`: a given value wins, otherwise the stored one; NULL only when both are NULL |
| Storage.SelectsWithout | repository/postgres_storage/subscription.go:98-106 | removing one row from a query's answer leaves the answer for the table without that row |
| Storage.SelectionsArePermutations | repository/postgres_storage/subscription.go:98-106 | any two answers to the same query hold the same rows: they differ only in order |
| Storage.ApplyPatch | repository/postgres_storage/subscription.go:156-159 | UPDATE as written: the name and the price are always overwritten, the end date only when one is given, and id, user and start are kept |
| Storage.PatchOnlyPriceClearsServiceName | repository/postgres_storage/subscription.go:156-159 | a price-only patch record overwrites a stored name "Netflix" with "" |
| Storage.ApplyPatchBindsEveryField | repository/postgres_storage/subscription.go:156-159 | the UPDATE as written is the intended merge with every field present |
| Storage.MergePatchKeepsUnsetFields | repository/postgres_storage/subscription.go:156-158 | the intended COALESCE merge keeps every stored field that the patch leaves out and overwrites the others |
| Storage.SubscriptionDB.constructor | repository/postgres_storage/subscription.go:16-28 | a table of rows stored under their own ids, with the connection's failure state and the driver's duplicate-key text |
| Storage.SubscriptionDB.CreateSubscription | repository/postgres_storage/subscription.go:37-45 | the row is inserted under its id, or the driver's error (connection failure, duplicate key) leaves the table as it was |
| Storage.SubscriptionDB.GetSubscriptionByID | repository/postgres_storage/subscription.go:47-64 | the stored row, NotFound "subscription not found" for an absent id, or the driver's error |
| Storage.SubscriptionDB.IsExist | repository/postgres_storage/subscription.go:182-187 | true exactly when the database answers and the id is stored: a failed probe answers false |
| Storage.SubscriptionDB.Query | repository/postgres_storage/subscription.go:92-111 | the collected rows are every stored row the WHERE clause keeps, each once |
| Storage.SubscriptionDB.GetListOfSubscriptions | repository/postgres_storage/subscription.go:66-112 | the rows matching every present filter field, each once; or the driver's error |
| Storage.SubscriptionDB.GetTotalCost | repository/postgres_storage/subscription.go:114-150 | the rows overlapping the period and matching the optional user and service, each once; or the driver's error |
| Storage.SubscriptionDB.PatchSubscriptionByID | repository/postgres_storage/subscription.go:152-164 | NotFound unless the probe finds the id; otherwise only that row changes, to the UPDATE as written |
| Storage.SubscriptionDB.MergeSubscriptionByID | repository/postgres_storage/subscription.go:152-164 | NotFound unless the probe finds the id; otherwise only that row changes, to the intended merge |
| Storage.SubscriptionDB.DeleteSubscriptionByID | repository/postgres_storage/subscription.go:166-180 | NotFound unless the probe finds the id, leaving table and record alone; otherwise the row is removed and the caller's record receives its last values |
| QueryBuilder.ColumnOfRank | subscriptions_backend/repository/postgres_storage/subscription.go:65-84 | the five filter columns in the order the builder tests them |
| QueryBuilder.RenderShape | subscriptions_backend/repository/postgres_storage/subscription.go:66-82 | `Render`'s `<column> <op> $n` starts with the column's name and ends with `$` and digits that read back as n |
| QueryBuilder.RenderAll | subscriptions_backend/repository/postgres_storage/subscription.go:66-82 | one rendered condition per condition: text k is condition k rendered |
| QueryBuilder.Terms | subscriptions_backend/repository/postgres_storage/subscription.go:65-84 | at most one condition per tested column, each for a present field, with that field's comparison and value |
| QueryBuilder.Numbered | subscriptions_backend/repository/postgres_storage/subscription.go:66-83 | condition k gets placeholder first+k: `$%d` of len(args)+1 |
| QueryBuilder.Bindings | subscriptions_backend/repository/postgres_storage/subscription.go:67-83 | argument k is the value of condition k |
| QueryBuilder.TermsComplete | subscriptions_backend/repository/postgres_storage/subscription.go:65-84 | every present filter field gets a condition (by induction on the columns tested) |
| QueryBuilder.TermsInRankOrder | subscriptions_backend/repository/postgres_storage/subscription.go:65-84 | the conditions appear in the order the fields are tested (by induction) |
| QueryBuilder.NumberedHoldsIff | subscriptions_backend/repository/postgres_storage/subscription.go:86-89 | after a prefix of arguments, the numbered conditions hold exactly when every term holds of the row |
| QueryBuilder.NumberedHoldsAt | subscriptions_backend/repository/postgres_storage/subscription.go:66-83 | placeholder `$n` of condition k names the argument holding that condition's value |
| QueryBuilder.TermsHoldIff | subscriptions_backend/repository/postgres_storage/subscription.go:65-84 | the terms hold of a row exactly when every present field's comparison does |
| QueryBuilder.ListPlaceholdersInLockstep | subscriptions_backend/repository/postgres_storage/subscription.go:62-84 | as many arguments as conditions, at most five, and condition k uses placeholder k+1 |
| QueryBuilder.ListConditionsInOrder | subscriptions_backend/repository/postgres_storage/subscription.go:65-84 | conditions follow the order user_id, service_name, price, start_date, end_date |
| QueryBuilder.ListConditionIffField | subscriptions_backend/repository/postgres_storage/subscription.go:65-84 | a column has a condition exactly when the filter sets that field |
| QueryBuilder.ListFieldsHoldIff | subscriptions_backend/repository/postgres_storage/subscription.go:65-84 | the present fields' comparisons hold exactly when the filter matches the row |
| QueryBuilder.ListQuerySemantics | subscriptions_backend/repository/postgres_storage/subscription.go:59-89 | the built WHERE clause, with its arguments, holds of a row exactly when the filter matches it |
| QueryBuilder.BareSelectIffEmptyFilter | subscriptions_backend/repository/postgres_storage/subscription.go:86-88 | the query has no WHERE clause exactly when the filter sets no field |
| QueryBuilder.TotalPlaceholdersInLockstep | subscriptions_backend/repository/postgres_storage/subscription.go:112-126 | $1 and $2 are the period's start and end; the optional conditions use $3 on, in lock step with their arguments |
| QueryBuilder.TotalFieldsHoldIff | subscriptions_backend/repository/postgres_storage/subscription.go:119-126 | the optional user and service comparisons hold exactly when those fields match |
| QueryBuilder.TotalQuerySemantics | subscriptions_backend/repository/postgres_storage/subscription.go:111-130 | the built query keeps a row exactly when it overlaps the period and matches the optional fields |
| QueryBuilder.BaseHoldsIffOverlap | subscriptions_backend/repository/postgres_storage/subscription.go:112-116 | `start_date <= $2 AND (end_date IS NULL OR end_date >= $1)` is the overlap test |
| QueryBuilder.TotalBaseOnlyWithoutOptionalFields | subscriptions_backend/repository/postgres_storage/subscription.go:127-129 | nothing is appended to the base query exactly when neither user nor service is given |
| QueryBuilder.AppendTerm | subscriptions_backend/repository/postgres_storage/subscription.go:66-67 | appending a term appends one numbered condition and one argument |
| QueryBuilder.AddStep | subscriptions_backend/repository/postgres_storage/subscription.go:65-68 | one builder step appends exactly when the field is present |
| QueryBuilder.AddCondition | subscriptions_backend/repository/postgres_storage/subscription.go:65-68 | one `if filter.X != nil` step keeps conditions and arguments in lock step |
| QueryBuilder.BuildListQuery | subscriptions_backend/repository/postgres_storage/subscription.go:59-88 | the built query text and argument list are the specified ones, so the list query semantics apply |
| QueryBuilder.BuildTotalCostQuery | subscriptions_backend/repository/postgres_storage/subscription.go:111-129 | the built query text and argument list are the specified ones, so the total query semantics apply |
| Service.InvertedList | usecases/service/subscription.go:104-105 | an inverted list filter (start after end) could only match rows that end before they start |
| Service.SubscriptionService.constructor | usecases/service/subscription.go:18-20 | the service holds the given store |
| Service.SubscriptionService.CreateSubscription | subscriptions_backend/usecases/service/subscription.go:19-39 | the minted id is written into the caller's record before the store is called and stays there; the id is returned on success, uuid.Nil with the store's error otherwise |
| Service.SubscriptionService.GetSubscriptionByID | usecases/service/subscription.go:44-61 | the store's row or its error, passed through |
| Service.SubscriptionService.PatchSubscriptionByID | usecases/service/subscription.go:63-80 | on success the row is re-read and returned as patched; otherwise the store's NotFound and an unchanged table |
| Service.SubscriptionService.DeleteSubscriptionByID | usecases/service/subscription.go:82-97 | on success the deleted row is returned and removed; otherwise NotFound and nothing changes |
| Service.SubscriptionService.GetListOfSubscriptions | usecases/service/subscription.go:99-116 | a nil filter and a start after the end are BadRequest before the store is asked; otherwise the store's answer |
| Service.SubscriptionService.GetTotalCost | usecases/service/subscription.go:118-142 | after the same checks (equal months accepted), the total is the sum of the clamped costs of the rows the store selects |
| Service.TotalCostIndependentOfOrder | usecases/service/subscription.go:127-136 | any two answers the store may give produce the same total |
| Requests.Get | subscriptions_backend/api/http/types/subscription.go:203-233 | `url.Values.Get`: "" for an absent key or an empty value list, otherwise the key's first value |
| Requests.CreateToDomain | subscriptions_backend/api/http/types/subscription.go:33-59 | user id, start and a given end date are parsed in that order and the first failure is BadRequest with its prefix; on success name and price are copied, the id is nil and an omitted end date stays nil |
| Requests.CreateRoundTrip | subscriptions_backend/api/http/types/subscription.go:33-59 | with parsers that read back what a client formats, a subscription's create request maps back to that subscription, id aside |
| Requests.SubscriptionIdRequest | subscriptions_backend/api/http/types/subscription.go:85-93 | a record with only the URL's id set, or BadRequest when the id does not parse (Delete's builder, lines 176-184, is the same) |
| Requests.PatchHandlerRequest | subscriptions_backend/api/http/types/subscription.go:115-139 | the URL id is parsed first; a body with no field is "no fields to update"; otherwise the body's fields are carried unchanged |
| Requests.PatchRecord | subscriptions_backend/api/http/types/subscription.go:151-161 | the id is kept, given fields are copied, and an absent name stays "", an absent price 0 |
| Requests.PatchToDomain | subscriptions_backend/api/http/types/subscription.go:141-162 | a given end date that does not parse is BadRequest; otherwise the record with only the given fields set |
| Requests.PriceOnlyPatchWipesServiceName | subscriptions_backend/api/http/types/subscription.go:151-161 | end to end, a PATCH holding only a price stores "" as the service name |
| Requests.IntendedPatchKeepsAbsentFields | subscriptions_backend/api/http/types/subscription.go:108-113 | merging the request's own optional fields keeps every absent one |
| Requests.GetListOfSubscriptionsHandlerRequest | subscriptions_backend/api/http/types/subscription.go:199-238 | a missing or empty parameter leaves its field unset; a given one sets it to its parsed value; the first failing parse (user_id, start_date, end_date, price) is BadRequest; an empty query gives the empty filter |
| Requests.GetTotalCostHandlerRequest | subscriptions_backend/api/http/types/subscription.go:248-283 | both dates are required and must parse; user_id and service_name are optional; each failure is BadRequest in the handler's order |

## Left out

- HTTP routing, JSON encoding of responses, `ProcessError`'s mapping to status codes, and logging (`slog`): these are I/O around the core.
- Reading the request body and `json.Unmarshal`: requests are modelled as already-decoded records (`CreateRequest`, `PatchBody`) and query maps.
- `url.Values` is a map from parameter to its list of values. `Get` takes the first value, as Go's does.
- `uuid.Parse`, `time.Parse` behind `parseMonthYear`, and `strconv.Atoi` are foreign parsers. They are parameters, and their error texts are opaque strings. Their exact accepted syntax is not modelled.
- `uuid.New` is the parameter `minted`. Its randomness and uniqueness are not modelled: a collision yields the driver's duplicate-key error.
- Database plumbing (`sql.Open`, `Ping`, `Close`, row scanning, `rows.Err()`) is reduced to one failure state that every statement reports. A failure that arises part-way through a scan is not modelled separately.
- The SQL text that squirrel's `ToSql` emits in the newer storage revision is not modelled. Only its WHERE semantics are, shared with the older hand-built query.
- The check-then-act race between `IsExist` and UPDATE/DELETE is not modelled: there is no concurrency.
- The service's patch re-reads the row and ignores the error (usecases/service/subscription.go:73). Its nil dereference, when that read fails, is not modelled: without concurrency the read after a successful patch always finds the row.
- `CreatedAt` and `UpdatedAt` are not modelled: no modelled code sets them.
- Time zones, days and clock times within a month are not modelled: every parsed date is the first of a month.
- Go's `int` is 64-bit. Prices, costs and month counts are unbounded integers here: overflow of `months * price` and of the running total is not modelled.
- `domain.ErrBadRequest` is modelled as the error kind `BadRequest` with its message. Its code and message prefix are not modelled, because its definition is not part of this model.
- Requests.GetTotalCostHandlerRequest: a missing `end_date` is answered with the message "start_date is required for the request", as the handler does.

## Findings

| source | as written | input that shows it | evidently intended | confidence | as-written member | corrected member |
|---|---|---|---|---|---|---|
| repository/postgres_storage/subscription.go:156-159 | `COALESCE($1, service_name)` and `COALESCE($2, price)` are bound to the record's plain `string` and `int`, which are never NULL, so the stored name and price are always overwritten (also subscriptions_backend/repository/postgres_storage/subscription.go:154-157) | PATCH body `{"price": 700}` on a row named "Netflix" at 500: the row becomes name "" and price 700 | a field the request leaves out keeps its stored value, as the request's pointer fields and the COALESCE are written for | not executed | Storage.PatchOnlyPriceClearsServiceName | Storage.MergePatchKeepsUnsetFields |
