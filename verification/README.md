# Internal tools API: tool service, error filters and request validators in Dafny

This project models the core of a NestJS API that keeps an inventory of an
organisation's software tools (vendor, monthly cost, owning department, status, usage
logs). It covers three parts:

- **The tool service** (`ToolsService`, `UsageAggregate`). The record store is a class
  `ToolStore` with `seq`/`map` fields: the tools, the category names by id, the usage
  logs, and the next id the store will assign. `CountTools` and `GetToolById` are
  functions over that state. `CreateTool` is a method that checks name uniqueness and
  then the category, and appends one row. The 30-day usage aggregate (session count and
  rounded mean minutes) is a pair of recursive folds over the log sequence. Money is held
  in whole cents, so `total_monthly_cost` is exact. Dates are whole days, and the current
  date is a parameter.
- **The two exception filters** (`HttpExceptionFilter`, `PrismaExceptionFilter`). Each is
  a pure function from an exception to a `Reply`. A reply is a status, a JSON error body
  `{error, details?, message?, path?}`, and a flag that says whether the filter logged the
  failure.
- **The three request DTOs** (`CreateToolDto`, `UpdateToolDto`, `ListToolsQueryDto`).
  Each class-validator decorator is a predicate on a JavaScript value (`Values`), and each
  DTO is the conjunction of its fields' predicates. Each DTO also has a decoder into a
  typed form and an encoder back. For each of the three DTOs a round-trip lemma
  (`EncodeDecode`), together with the decoder's contract, shows that the decorators accept
  exactly the typed domain. The create predicate is the precondition of `CreateTool`.

The Prisma enumerations `tools_owner_department` and `tools_status` come from the Prisma
schema, which is not part of this model, and the URL check behind `@IsUrl()` comes from
the class-validator library. All three are kept abstract in a
`Domains` value (two sets of strings and a predicate). The store requires `"active"` to
be a member of the status set.

Three behaviours of the source worth noting:

- The usage window is `session_date >= now - 30 days` with no upper bound, so a log dated
  in the future is counted (`UsageAggregate.FutureRowCounts`).
- The list-query validators do not check `min_cost <= max_cost`
  (`ListToolsQueryDto.CostBoundsNotOrdered`). `src/tools/tools.service.ts` has no list
  operation that could check it.
- A duplicate name caught by the store's unique constraint (Prisma P2002) gets the same
  body as one caught by the service's own check. The status differs, though: 409 against
  400 (`ToolsService.LateDuplicateLooksLikeEarly`).

## Model

| member | source | states |
|---|---|---|
| `ToolsService.ToolStore.CountTools` | src/tools/tools.service.ts:9-11 | the count is the number of stored tools, one per distinct id; it reads the store and changes nothing |
| `ToolsService.DistinctIdsCount` | src/tools/tools.service.ts:9-11 | with pairwise distinct ids there are exactly as many ids as rows |
| `ToolsService.Lookup` | src/tools/tools.service.ts:14-19 | the lookup by id finds nothing exactly when no row has the id; otherwise it finds a stored row with that id |
| `ToolsService.ToolStore.GetToolById` | src/tools/tools.service.ts:13-60 | NotFound exactly for an id not in the store, with message "Tool with ID {id} does not exist"; otherwise the stored row's fields, its category's name, total cost = cost × users, and the 30-day usage of that id; never a validation failure |
| `ToolsService.NotFoundMessageNamesId` | src/tools/tools.service.ts:22 | two different ids never produce the same not-found message |
| `Strings.IntToStringRoundTrip` | src/tools/tools.service.ts:22 | the decimal text interpolated into the message reads back to the id |
| `Strings.IntToStringInjective` | src/tools/tools.service.ts:22 | different integers render to different texts |
| `ToolsService.TotalMonthlyCostCents` | src/tools/tools.service.ts:37 | the total equals the monthly amount times the active users, exactly; it is 0 with no users and never negative for valid rows |
| `ToolsService.TotalCostExample` | src/tools/tools.service.ts:50 | 12.50 a month with 3 users totals 37.50 |
| `UsageAggregate.SessionCountIsCardinality` | src/tools/tools.service.ts:28-33 | the session count equals the number of log rows for the tool dated on or after `since` |
| `UsageAggregate.FutureRowCounts` | src/tools/tools.service.ts:31 | the window has no upper bound: a row dated after today adds one session |
| `UsageAggregate.RoundedMean` | src/tools/tools.service.ts:56 | 0 when there are no sessions (no division by zero); otherwise the integer nearest the mean, halves rounded up (`Math.round`) |
| `UsageAggregate.Last30Days` | src/tools/tools.service.ts:55-56 | zero sessions always come with a zero average |
| `UsageAggregate.NoSessionsNoMinutes` | src/tools/tools.service.ts:34 | with no row in the window the minute total is 0 |
| `UsageAggregate.NoLogsNoUsage` | src/tools/tools.service.ts:55-56 | a tool with no log rows reports `{total_sessions: 0, avg_session_minutes: 0}` |
| `UsageAggregate.TotalWithin` | src/tools/tools.service.ts:34 | if each counted session lasted lo..hi minutes, the total lies between count×lo and count×hi |
| `UsageAggregate.RoundedMeanWithin` | src/tools/tools.service.ts:56 | rounding a mean of values within lo..hi stays within lo..hi |
| `UsageAggregate.MeanWithinBounds` | src/tools/tools.service.ts:28-56 | the reported average lies between the shortest and the longest counted session |
| `UsageAggregate.ThreeSessionsExample` | src/tools/tools.service.ts:55-56 | sessions of 10, 20 and 30 minutes, dated today, yesterday and 29 days ago, give 3 sessions averaging 20 |
| `ToolsService.ToolStore.CreateTool` | src/tools/tools.service.ts:63-117 | a taken name fails `{name: "Tool name must be unique"}` whatever the category; otherwise a missing category fails `{category_id: "Category does not exist"}`; a failure writes nothing; success appends exactly one row with a fresh id (the next id then moves on by one), the body's fields, status "active" and 0 users, leaves the other rows, categories and logs as they were, adds one to the count, returns the projection with the category name and no usage metrics or total, and the new id then reads back with zero usage and zero total; the store invariant (unique ids and names, existing categories, log rows referring to tools) is kept |
| `ToolsService.AppendKeepsConsistent` | src/tools/tools.service.ts:86-101 | appending a row with the next id, an unused name and an existing category keeps ids and names unique and every reference valid |
| `ToolsService.CreateSucceeds` | src/tools/tools.service.ts:86-101 | after a successful insert the new id was unused, a lookup finds the new row, the count grows by one, and no log row refers to the new id |
| `ToolsService.LookupAppended` | src/tools/tools.service.ts:98-100 | a row appended under an unused id is what a lookup of that id returns |
| `ToolsService.CreateTwice` | src/tools/tools.service.ts:64-73 | when a create succeeds, a second create with the same name fails on the name |
| `ToolsService.Thrown` | src/tools/tools.service.ts:21-23 | the service's failures are HttpExceptions with status 400 (validation) or 404 (not found) |
| `ToolsService.FailuresReachClient` | src/utils/exception-filters/http-exception.filter.ts:15-42 | the service's field errors reach the client unchanged as a 400 `{error: "Validation failed", details}`, a missing tool as a 404 `{error: "Tool not found", message}`, neither logged |
| `ToolsService.MissingIdReply` | src/tools/tools.service.ts:21-23 | an unknown id always ends as the 404 "Tool not found" envelope whose message names the id |
| `ToolsService.LateDuplicateLooksLikeEarly` | src/utils/exception-filters/prisma_exception.filter.ts:25-30 | a P2002 caught by the store yields the same body as the service's own name check; statuses 409 and 400 |
| `HttpExceptionFilter.Catch` | src/utils/exception-filters/http-exception.filter.ts:6-70 | the status is `getStatus()` for an HttpException and 500 otherwise; every body has an `error` and a `details` or `message`; the filter logs exactly when the status is 500, and a 500 body is always the constant "Database connection failed" envelope |
| `HttpExceptionFilter.NonHttpIsInternalError` | src/utils/exception-filters/http-exception.filter.ts:10-12 | anything that is not an HttpException becomes the constant 500 reply, whatever its text |
| `HttpExceptionFilter.ValidationBodyForwarded` | src/utils/exception-filters/http-exception.filter.ts:15-19 | a 400 whose body has `error: "Validation failed"` and `details` is sent unchanged |
| `HttpExceptionFilter.OtherBadRequestJoined` | src/utils/exception-filters/http-exception.filter.ts:21-31 | any other 400 becomes `details.general`: the messages joined by " | ", one string counting as one message, none as "Validation failed" |
| `Strings.Join` | src/utils/exception-filters/http-exception.filter.ts:28 | joining one message gives it back unchanged; joining none gives "" |
| `HttpExceptionFilter.NotFoundShape` | src/utils/exception-filters/http-exception.filter.ts:35-42 | a 404 becomes `{error: "Tool not found", message}`, with the body's message if any, else the exception's |
| `HttpExceptionFilter.InternalErrorHidesText` | src/utils/exception-filters/http-exception.filter.ts:46-57 | a 500 HttpException's reply depends neither on its response nor on its message nor on the path |
| `HttpExceptionFilter.OtherStatusShape` | src/utils/exception-filters/http-exception.filter.ts:61-69 | any other status keeps its code and becomes `{error: "Request failed", message, path: url}`, not logged; the message is a non-empty string response, else the response body's message when truthy, else the exception's own message |
| `PrismaExceptionFilter.Catch` | src/utils/exception-filters/prisma_exception.filter.ts:19-86 | total over every error kind; the status is one of 400, 404, 409, 500; it logs exactly on 500, and every 500 body is the constant internal envelope |
| `PrismaExceptionFilter.NoDetailLeaks` | src/utils/exception-filters/prisma_exception.filter.ts:19-86 | the reply depends only on the error's class and code, never on its text or violated column |
| `PrismaExceptionFilter.UniqueViolationIsConflict` | src/utils/exception-filters/prisma_exception.filter.ts:25-30 | P2002 gives 409 `{error: "Validation failed", details: {name: "Tool name must be unique"}}`, not logged |
| `PrismaExceptionFilter.RecordNotFoundIsNotFound` | src/utils/exception-filters/prisma_exception.filter.ts:32-37 | P2025 gives 404 `{error: "Tool not found", message: "Tool does not exist"}`, not logged |
| `PrismaExceptionFilter.StoreFailuresAreInternal` | src/utils/exception-filters/prisma_exception.filter.ts:39-67 | other known codes, initialization, unknown-request and Rust-panic errors give the constant 500 reply and are logged |
| `PrismaExceptionFilter.ValidationErrorIsBadRequest` | src/utils/exception-filters/prisma_exception.filter.ts:69-74 | a Prisma validation error gives 400 `{details: {general: "Database request failed"}}`, not logged |
| `Values.Cents` | src/tools/dto/create-tool.dto.ts:29-32 | an amount with at most two decimals is exactly a whole number of cents, with the same sign |
| `Values.CentsRoundTrip` | src/tools/dto/create-tool.dto.ts:29-32 | every whole number of cents is an amount with at most two decimals and reads back unchanged |
| `CreateToolDto.Decode` | src/tools/dto/create-tool.dto.ts:5-36 | a body that passes every decorator decodes into the typed domain (name 2..100 chars, vendor 1..100, URL when present, category ≥ 1, cents ≥ 0, a known department), keeping the category id and the cost exactly |
| `CreateToolDto.EncodeDecode` | src/tools/dto/create-tool.dto.ts:5-36 | every body in the typed domain passes the decorators and decodes back unchanged, so the decorators accept exactly that domain |
| `CreateToolDto.NameDomain` | src/tools/dto/create-tool.dto.ts:6-9 | `name` passes exactly when it is a string of 2 to 100 characters |
| `CreateToolDto.VendorDomain` | src/tools/dto/create-tool.dto.ts:15-18 | `vendor` passes exactly when it is a string of 1 to 100 characters |
| `CreateToolDto.OptionalDomains` | src/tools/dto/create-tool.dto.ts:11-22 | `description` and `website_url` accept undefined and null; otherwise a string, and for the URL one passing the URL check |
| `CreateToolDto.CategoryIdDomain` | src/tools/dto/create-tool.dto.ts:24-27 | `category_id` passes exactly when it is a whole number ≥ 1 |
| `CreateToolDto.MonthlyCostDomain` | src/tools/dto/create-tool.dto.ts:29-32 | `monthly_cost` passes exactly when it is a non-negative whole number of cents |
| `CreateToolDto.CostPrecisionAndSign` | src/tools/dto/create-tool.dto.ts:29-32 | 12.345 and -0.01 are refused; 12.5 is accepted |
| `CreateToolDto.NameNeedsTwoCharacters` | src/tools/dto/create-tool.dto.ts:8 | "a" is refused and "ab" accepted |
| `UpdateToolDto.Decode` | src/tools/dto/update-tool.dto.ts:6-9 | a valid update body decodes to a patch whose supplied fields each lie in the create domain, and whose status is a member of the status enumeration |
| `UpdateToolDto.EmptyIsValid` | src/tools/dto/update-tool.dto.ts:6-9 | the empty body is valid and supplies nothing |
| `UpdateToolDto.CreateBodyIsUpdateBody` | src/tools/dto/update-tool.dto.ts:6 | every valid create body is a valid update body and decodes to the patch setting each of its fields |
| `UpdateToolDto.SuppliedFieldsChecked` | src/tools/dto/update-tool.dto.ts:6 | each of the seven create properties, supplied alone, makes a valid update exactly when it passes its create decorators |
| `UpdateToolDto.EncodeDecode` | src/tools/dto/update-tool.dto.ts:6-9 | every typed patch (supplied fields in the create domain, status in the enumeration) is a valid update body and decodes back unchanged |
| `UpdateToolDto.StatusChecked` | src/tools/dto/update-tool.dto.ts:7-9 | a supplied status is valid exactly when it is a member of the status enumeration |
| `ListToolsQueryDto.Decode` | src/tools/dto/list-tools.query.dto.ts:16-61 | a valid query decodes into the typed domain (enum members, costs ≥ 0 in cents, page ≥ 1, limit 1..100); sort_by and order are decoded exactly when supplied, to the enum member they name |
| `ListToolsQueryDto.EncodeDecode` | src/tools/dto/list-tools.query.dto.ts:16-61 | every query in the typed domain passes the decorators and decodes back unchanged |
| `ListToolsQueryDto.SortRoundTrip` | src/tools/dto/list-tools.query.dto.ts:5-14 | the texts of `ToolsSortBy` and `SortOrder` are accepted and read back as the same member |
| `ListToolsQueryDto.EmptyQueryValid` | src/tools/dto/list-tools.query.dto.ts:17-60 | the empty query is valid and supplies nothing |
| `ListToolsQueryDto.PagingBounds` | src/tools/dto/list-tools.query.dto.ts:41-52 | a valid page is ≥ 1 and a valid limit is in 1..100; neither is NaN or infinite |
| `ListToolsQueryDto.CostBoundsNotOrdered` | src/tools/dto/list-tools.query.dto.ts:29-39 | min_cost 50 with max_cost 10 passes: the two bounds are not ordered here |
| `ListToolsQueryDto.CategoryIsFreeText` | src/tools/dto/list-tools.query.dto.ts:25-27 | any string is a valid category |

## Left out

- The Express response write, `console.error` output and request method: a reply is returned, and logging is the `logged` flag.
- JavaScript floating point. `Number(Decimal)` and `toFixed(2)` are replaced by exact cents, and a JavaScript number is an exact `real`. The float rounding of the source's `total_monthly_cost` is not modelled.
- Calendar time. `Date.setDate` (local time, daylight saving) is not modelled: a date is a whole day, the current date is a parameter, and the window starts 30 days before it.
- `UsageAggregate.Last30Days`: on the boundary day (today − 30) every row counts. The source's `since` keeps the current time of day, so there a row counts only if its timestamp is at or after that time, and a date-only `session_date` counts only at midnight. This one-day boundary is approximated.
- Usage minutes are whole numbers, and `_avg` is taken as their exact mean before `Math.round`.
- class-transformer's `@Type(() => Number)` conversion of text to numbers: the validators see the already converted value. class-validator's length checks count characters, except that the variation selectors U+FE0E and U+FE0F are not counted; the model counts every character, selectors included.
- Properties of a response object other than `error`, `details`, `message` and `path` (Nest's `statusCode`, for one) are not modelled.
- The Prisma enumerations and the URL check are abstract, as described above. Their actual members are not part of this model.
- Timestamps: `created_at` and `updated_at` of a new row are both the given date. The schema that defaults them is not part of this model.
- Store semantics beyond the shown `where` clauses: names compare by exact equality, whatever the store's collation.
- The race between the uniqueness check and the insert (concurrency). The model is sequential. Only the reply the Prisma filter gives a late P2002 is modelled.
- `listTools` and `updateTool`: `src/tools/tools.service.ts` has no such operations, only their input DTOs exist. Filtering, sorting, paging and partial update are therefore not modelled.
- Bootstrap, module wiring, Swagger classes and the controller's routing. The controller's `ParseIntPipe` error body `{error: "Validation failed", details: {id: ...}}` is covered as one input of `HttpExceptionFilter.ValidationBodyForwarded`.
- `ToolsService.ToolStore.CreateTool`: requires a body that passes the create decorators. `src/main.ts` registers no validation pipe, so the source's `createTool` can receive a body that fails them (an undefined `name` makes `findFirst` match any row); that behaviour is not modelled.
