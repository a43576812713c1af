# e-commerce: a verified model of the deterministic rules

This project models the parts of the e-commerce platform (NestJS microservices,
a Node logging utility and a Next.js storefront) that decide something. The
network, the file system, the database, the clock and random numbers become
parameters or datatype values. What remains is a set of rules, each stated and
proved in Dafny:

- **Observability.**
  - The health service combines its dependency checks into `ok`, `degraded` or `unhealthy`.
  - The Node logger (`utils/logger.js`) sets its level threshold. It decides whether to emit a message. When the logging service cannot be reached, it writes JSON lines to `<level>.log` and `all.log`.
  - The NestJS `LoggerService` wrapper builds the metadata it forwards.
- **Product images.**
  - Upload validation.
  - Choice of resize dimension and output encoding.
  - File names and public URLs.
  - Deletion by basename inside the uploads directory.
- **Stores with merge semantics.**
  - The company-settings singleton: get-or-create with defaults, and update by overlaying a DTO.
  - The user store: `findById` returns a seven-column projection, and `update` merges a DTO.
  - The admin gate, which fails open when the user service cannot answer.
- **Envelopes.**
  - The API success, error and paginated envelopes.
  - The `AppError` family.
  - Notification DTOs, with errors returned as values.
  - The Redis configuration and its retry back-off.
  - The `DATABASE_URL` builder.
- **Storefront client rules.**
  - Product-code parsing on the admin sync page.
  - Default-address choice and the order guard at checkout.
  - The cart's remove-below-one rule.
  - Order status labels and colours.
  - The products query string.
  - The auth context and the address form state machines.

## Source form

Each module follows the form of its source file:

- **Pure source code** becomes Dafny functions and lemmas: the envelopes, errors, Redis configuration, notification DTOs, order status mapping and admin gate.
- **State that the code changes in place** becomes a class whose methods modify fields and are specified by functions of the old state:
  - the logger's world of files and console;
  - the stored context of `LoggerService` and a caller's metadata object;
  - the uploads directory;
  - the settings table;
  - the user table;
  - `process.env`;
  - the React state of each page.
- **Loops** become `while` loops with invariants: `deleteImages` and the query-string builder.

Modules:

- **Runtime helpers:**
  - `Wrappers` (Option, Result);
  - `Text` (`split`, `trim`, `replace`, `String(n)`, `padStart(2,'0')`, `parseInt`);
  - `Percent` (UTF-8, `encodeURIComponent`, form-urlencoding);
  - `Money` (`toFixed(2)` on integer hundredths);
  - `Metadata` (JavaScript objects as insertion-ordered entries, `Object.assign`);
  - `Json` (`JSON.stringify` of strings and flat objects);
  - `NodePath` (`path.basename`, `path.extname`).
- **Backend:** `Health`, `LogUtil`, `NestLogger`, `Images`, `Notifications`, `AdminSettings`, `AdminApi`, `Users`, `AppErrors`, `ApiResponses`, `RedisConfig`, `PrismaConfig`.
- **Storefront:** `ClientApi`, `AdminSync`, `Checkout`, `CartPage`, `OrderStatusView`, `ProductsApi`, `AuthState`, `AddressForm`.

## Model

| member | source | states |
|---|---|---|
| Health.CheckDatabase | shared/health/health.service.ts:49-59 | the database is ok exactly when `SELECT 1` succeeds; a failure carries the driver's message, or 'Database connection failed' when that message is empty |
| Health.ProbeResult | shared/health/health.service.ts:80-87 | a probe is ok exactly when the body's `success` is truthy or its `status` is 'ok' |
| Health.LoggingUrlRewrite | shared/health/health.service.ts:66-69 | a logging URL ending in its only `/api/logs` is probed at the same base plus `/health` |
| Health.LoggingUrlWithoutApiLogs | shared/health/health.service.ts:66-69 | a configured URL without `/api/logs`, and the default URL, are probed unchanged |
| Health.DefaultLoggingUrlHasNoApiLogs | shared/health/health.service.ts:66-68 | the default logging URL contains no `/api/logs` |
| Health.CheckLoggingService | shared/health/health.service.ts:64-94 | the logging check is ok exactly when the probe reports healthy |
| Health.CheckNotificationService | shared/health/health.service.ts:99-128 | the notification check is ok exactly when the probe reports healthy |
| Health.CheckRedis | shared/health/health.service.ts:133-138 | the Redis check reports ok with no message |
| Health.Recorded | shared/health/health.service.ts:160-161 | a check that throws is recorded as status error with message 'Check failed' |
| Health.Degrade | shared/health/health.service.ts:157-159 | a non-critical check never lowers the status; it changes the status only from ok to degraded, and only when it failed |
| Health.GetHealthStatus | shared/health/health.service.ts:143-188 | database and logging are always present; notification is present iff the service is 'order-service'; redis is never present; the service name is passed through; the status equals the reference definition |
| Health.OkIffAllOk | shared/health/health.service.ts:145-180 | the status is ok iff the database and every dependency that was checked report ok |
| Health.UnhealthyIffDatabaseFails | shared/health/health.service.ts:148-152 | the status is unhealthy iff the database check failed, whatever the other checks say |
| Health.OverallIsSequentialFold | shared/health/health.service.ts:145-180 | the reference status equals the sequence of conditional assignments in the source |
| Health.NotificationIgnoredElsewhere | shared/health/health.service.ts:168-180 | for any service other than the order service, the notification outcome does not affect the status |
| LogUtil.LevelPriority | utils/logger.js:26-31 | every named level has a priority of at most 3 (error 0 through debug 3) |
| LogUtil.MessagePriority | utils/logger.js:153 | a message's priority is its level's priority, or info's priority for an unknown level |
| LogUtil.CurrentLevel | utils/logger.js:33 | the threshold is always between 1 and 3 |
| LogUtil.CurrentLevelCases | utils/logger.js:33 | the threshold is 1 for warn, 3 for debug and 2 otherwise; because of `\|\|`, this includes 'error' |
| LogUtil.ErrorLogLevelMeansInfo | utils/logger.js:33 | LOG_LEVEL=error has priority 0 but yields the info threshold |
| LogUtil.Configure | utils/logger.js:12-34 | local logging is on unless the option is exactly false; the threshold is taken from the configured level; the service name and log directory are never empty |
| LogUtil.ConfigureDefaults | utils/logger.js:13-18 | with nothing configured, the settings are the literal defaults, with logs under `<cwd>/logs` |
| LogUtil.ServiceNamePrecedence | utils/logger.js:16 | a non-empty option's service name wins; without one, a non-empty SERVICE_NAME is used |
| LogUtil.EmitsByLevel | utils/logger.js:152-158 | error and warn are always emitted; debug is emitted iff LOG_LEVEL is debug; info and unknown levels are emitted iff LOG_LEVEL is not warn |
| LogUtil.TimestampShape | utils/logger.js:39-48 | for a valid time with a four-digit year, the text is 19 characters with the separators of YYYY-MM-DD HH:mm:ss |
| LogUtil.TimestampRoundTrip | utils/logger.js:39-48 | parsing the formatted timestamp gives back the calendar fields |
| LogUtil.SendResult | utils/logger.js:91-107 | delivery succeeds iff the service responded with a status in 200..299 |
| LogUtil.Payload | utils/logger.js:54-64 | the posted metadata is the caller's with pid and hostname set; the level, message and service are as given |
| LogUtil.AppendTo | utils/logger.js:139 | appending adds the line to exactly one file and leaves every other file as it was |
| LogUtil.LevelFileIsAllFileIff | utils/logger.js:134-135 | the level file is `all.log` iff the level is named 'all' |
| LogUtil.EntryJson | utils/logger.js:125-133 | the JSON entry holds no newline |
| LogUtil.LogLine | utils/logger.js:133 | a log line ends in its only newline |
| LogUtil.UpperAscii | utils/logger.js:171 | upper-casing keeps the length, leaves no ASCII lower-case letter and keeps every other character |
| LogUtil.GatedMessageChangesNothing | utils/logger.js:156-158 | a message above the threshold changes nothing |
| LogUtil.LocalFilesOnlyOnFailure | utils/logger.js:161-166 | the files change only after an emitted message failed to deliver with local logging on; directories never change |
| LogUtil.PostedOnce | utils/logger.js:161-162 | an emitted message is posted once with its payload; a gated one, or one with an invalid URL, is never posted |
| LogUtil.BothFilesGetTheLine | utils/logger.js:133-141 | the level file and `all.log` each gain the identical line; no other file and no console output changes |
| LogUtil.AllLevelWritesTwice | utils/logger.js:134-141 | for level 'all', the line is written to `all.log` twice |
| LogUtil.FailedAppendGoesToConsole | utils/logger.js:142-146 | a failed append prints the error and the line; `all.log` is then unchanged |
| LogUtil.DisabledLocalLoggingWritesNothing | utils/logger.js:122 | with local logging off, `writeToLocalFile` changes nothing |
| LogUtil.Logger.constructor | utils/logger.js:12-34 | the configuration is `Configure` of the environment and options; the log directory is created only when local logging is on |
| LogUtil.Logger.WriteToLocalFile | utils/logger.js:121-147 | the new world is the local write, with the rendered JSON line, of the old one |
| LogUtil.Logger.Log | utils/logger.js:152-174 | the new world is the gate, the POST of the payload, the local-file fallback with the JSON line and the development console line applied, in that order, to the old one |
| LogUtil.Logger.Error | utils/logger.js:179-181 | `log` at level 'error' |
| LogUtil.Logger.Warn | utils/logger.js:186-188 | `log` at level 'warn' |
| LogUtil.Logger.Info | utils/logger.js:193-195 | `log` at level 'info' |
| LogUtil.Logger.Debug | utils/logger.js:200-202 | `log` at level 'debug' |
| NestLogger.FromArgument | shared/logger/logger.service.ts:19-24 | an object argument's keys are copied; a non-empty string is stored under the given key; a missing or empty argument adds nothing |
| NestLogger.ErrorMetadata | shared/logger/logger.service.ts:18-25 | the context is the explicit one if truthy, else the stored one, else whatever the argument carries; every other key comes from the argument, with a string stored as `trace` |
| NestLogger.WarnMetadata | shared/logger/logger.service.ts:29-36 | a truthy stored context overwrites the argument's context; other keys come from the argument |
| NestLogger.StoredContextInto | shared/logger/logger.service.ts:52-53 | a truthy stored context is set on the object; without one, the object is unchanged; every other key is kept |
| NestLogger.VerboseMetadata | shared/logger/logger.service.ts:64-65 | the metadata holds only `context`, exactly when the argument or the stored context is truthy |
| NestLogger.ErrorExplicitContextWins | shared/logger/logger.service.ts:25 | in `error`, a non-empty explicit context is the one recorded |
| NestLogger.WarnStoredContextWins | shared/logger/logger.service.ts:33-36 | in `warn`, a stored context replaces a string context argument |
| NestLogger.ErrorStringIsTrace | shared/logger/logger.service.ts:22-23 | in `error`, a non-empty string argument is recorded as `trace` |
| NestLogger.VerboseContext | shared/logger/logger.service.ts:63-66 | `verbose` forwards through `debug` with the explicit, else stored, context |
| NestLogger.MetadataObject.constructor | shared/logger/logger.service.ts:51 | a caller's metadata object holds the given entries |
| NestLogger.LoggerService.constructor | shared/logger/logger.service.ts:12 | no context is stored and nothing has been forwarded |
| NestLogger.LoggerService.SetContext | shared/logger/logger.service.ts:14-16 | the stored context is replaced; nothing is forwarded |
| NestLogger.LoggerService.Error | shared/logger/logger.service.ts:18-27 | one record is forwarded at 'error' with `ErrorMetadata` |
| NestLogger.LoggerService.Warn | shared/logger/logger.service.ts:29-38 | one record is forwarded at 'warn' with `WarnMetadata` |
| NestLogger.LoggerService.Log | shared/logger/logger.service.ts:40-49 | one record is forwarded at 'info' with the same metadata rule as `warn` |
| NestLogger.LoggerService.Assembled | shared/logger/logger.service.ts:30-36 | the metadata built step by step equals `WarnMetadata` |
| NestLogger.LoggerService.Info | shared/logger/logger.service.ts:51-55 | the caller's own object gains the stored context, in place |
| NestLogger.LoggerService.Debug | shared/logger/logger.service.ts:57-61 | the caller's own object gains the stored context, in place |
| NestLogger.LoggerService.Forward | shared/logger/logger.service.ts:52-54 | the object that is passed, or a fresh one, gains the stored context |
| NestLogger.LoggerService.Verbose | shared/logger/logger.service.ts:63-67 | the stored context is unchanged; exactly one record is forwarded at 'debug', with `VerboseMetadata` plus the stored context that `debug` adds |
| Metadata.Lookup | shared/logger/logger.service.ts:21 | a key is found iff it is among the keys |
| Metadata.Put | shared/logger/logger.service.ts:23 | the key maps to the value and other keys are unchanged; an existing key keeps the length, a new one is appended at the end |
| Metadata.Assign | shared/logger/logger.service.ts:21 | the keys are the union of both objects' keys; unique keys stay unique |
| Metadata.AssignLookup | shared/logger/logger.service.ts:21 | a key of the source takes the source's value; any other key keeps the target's |
| Json.Escape | utils/logger.js:133 | escaped text holds no control character, and a quote only when the input had one |
| Json.Quote | utils/logger.js:133 | a JSON string literal has quotes at both ends and holds no raw newline |
| Json.UnescapeEscape | utils/logger.js:133 | unescaping the escaped text gives back the original string |
| Json.Object | utils/logger.js:133 | a JSON object holds no raw newline and is `{}` iff it has no members |
| Json.NestedObject | utils/logger.js:125-133 | an object whose values are strings or flat objects holds no raw newline and is `{}` iff it has no fields |
| NodePath.Basename | services/product-service/src/products/images.service.ts:120 | a basename holds no slash |
| NodePath.BasenameOfChild | services/product-service/src/products/images.service.ts:120 | the basename of a path ending in a slash followed by a non-empty slash-free name is that name |
| NodePath.Extname | services/product-service/src/products/images.service.ts:63 | the extension is empty, or a proper suffix of the basename that starts with its only dot |
| Images.SizeMessageSpelledOut | services/product-service/src/products/images.service.ts:39-43 | the size error reads 'File size exceeds maximum allowed size of 5MB' |
| Images.TypeMessageSpelledOut | services/product-service/src/products/images.service.ts:45-49 | the type error lists the four allowed types, comma-separated |
| Images.ValidateFile | services/product-service/src/products/images.service.ts:34-50 | a file is accepted iff it is present, at most 5 MiB and of an allowed type; each rejection has its own message, checked in source order |
| Images.SizeBoundary | services/product-service/src/products/images.service.ts:15 | exactly 5 MiB passes and one more byte fails |
| Images.ResizeFor | services/product-service/src/products/images.service.ts:77-90 | the width is resized iff it exceeds the limit; the height only when the width does not; the limit is 2000 for a main image and 1000 otherwise |
| Images.OutputEncoding | services/product-service/src/products/images.service.ts:93-102 | png and webp keep their encoding; everything else, jpeg and jpg included, becomes jpeg |
| Images.FileNameShape | services/product-service/src/products/images.service.ts:63-66 | the file name is product id, timestamp and random part joined by dashes, then the original extension; it holds no slash when its parts hold none |
| Images.GetImageUrl | services/product-service/src/products/images.service.ts:145-159 | an empty path gives null; http and https URLs are returned unchanged; any other path is appended to the base URL |
| Images.BaseUrl | services/product-service/src/products/images.service.ts:155-158 | a present, non-empty `API_URL` is the base; otherwise `http://localhost:3001` |
| Images.GetImageUrlIdempotent | services/product-service/src/products/images.service.ts:155-158 | when the base URL is http(s), applying the function to its own result changes nothing |
| Images.Deleted | services/product-service/src/products/images.service.ts:114-131 | deletion removes at most the basename's file; an empty URL removes nothing |
| Images.DeletedAllExactly | services/product-service/src/products/images.service.ts:136-140 | after deleting a list of URLs, a stored file remains iff it existed and no non-empty URL has it as basename; its content is unchanged |
| Images.ImagesService.constructor | services/product-service/src/products/images.service.ts:23-29 | the uploads directory holds the given files |
| Images.ImagesService.ProcessAndSaveImage | services/product-service/src/products/images.service.ts:55-109 | validation comes first; a processing failure gives 'Failed to process image: ' plus the message; success stores the resized, re-encoded file and returns its `/uploads/products/` path |
| Images.ImagesService.DeleteImage | services/product-service/src/products/images.service.ts:114-131 | the directory becomes `Deleted` of the old one |
| Images.ImagesService.DeleteImages | services/product-service/src/products/images.service.ts:136-140 | the loop deletes every URL in order |
| Images.DeleteSavedName | services/product-service/src/products/images.service.ts:114-122 | deleting `/uploads/products/<name>` removes exactly that name |
| Images.SaveThenDelete | services/product-service/src/products/images.service.ts:105 | deleting the URL an upload returned removes exactly the stored file |
| Notifications.TypeNamesDistinct | shared/notifications/notification.interface.ts:7-12 | the five notification type names, custom included, are distinct |
| Notifications.SendNotification | shared/notifications/notification.service.ts:35-79 | a response body is returned unchanged; a failure returns success false and NOTIFICATION_FAILED with the error's message or 'Failed to send notification' |
| Notifications.OrderConfirmationDto | shared/notifications/notification.service.ts:84-101 | type order_confirmation, with the recipient and channel (default email), the fixed subject prefix plus the order number, and the total as two-decimal template data |
| Notifications.PaymentConfirmationDto | shared/notifications/notification.service.ts:106-123 | type payment_confirmation, with the recipient and channel, the subject prefix plus the order number, and the amount as two-decimal template data |
| Notifications.OrderStatusUpdateDto | shared/notifications/notification.service.ts:128-145 | type order_status_update, with the recipient and channel, the subject prefix plus the order number, and the status as template data |
| Notifications.ShipmentTrackingDto | shared/notifications/notification.service.ts:150-167 | type shipment_tracking, with the recipient and channel, the subject prefix plus the order number, and the tracking number as template data |
| Notifications.MessagesAreTemplates | shared/notifications/notification.service.ts:95-117 | the order and payment confirmation messages do not depend on the arguments; the `{{…}}` placeholders stay literal |
| Money.FormatHundredths | shared/notifications/notification.service.ts:98 | the amount is shown with exactly two decimals |
| Money.FormatHundredthsRoundTrip | shared/notifications/notification.service.ts:120 | reading the two-decimal text back gives the exact amount |
| AdminSettings.FindEarliest | services/order-service/src/admin/admin.service.ts:25-28 | the record with the least createdAt, the first one on ties; absent iff the table is empty |
| AdminSettings.EarliestIsFirst | services/order-service/src/admin/admin.service.ts:25-28 | in a table of increasing creation times, the earliest record is the first |
| AdminSettings.Defaults | services/order-service/src/admin/admin.service.ts:31-41 | the eight default fields, for example name 'FlipFlop.cz' |
| AdminSettings.Overlay | services/order-service/src/admin/admin.service.ts:65 | the DTO's fields overwrite and every other field is kept |
| AdminSettings.OverlayIdempotent | services/order-service/src/admin/admin.service.ts:65 | overlaying the same DTO twice equals overlaying it once |
| AdminSettings.Inserted | services/order-service/src/admin/admin.service.ts:42 | save appends a record with the next id and time, and keeps the table valid |
| AdminSettings.GetResult | services/order-service/src/admin/admin.service.ts:24-47 | an existing table is returned unchanged with its earliest record; an empty one gains one record of defaults |
| AdminSettings.GetIsIdempotent | services/order-service/src/admin/admin.service.ts:24-46 | a second get returns the same record and creates nothing |
| AdminSettings.UpdateResult | services/order-service/src/admin/admin.service.ts:52-76 | the earliest record is overlaid with the DTO; with no record, one is created from the DTO alone |
| AdminSettings.UpdateIsIdempotent | services/order-service/src/admin/admin.service.ts:55-68 | applying the same update twice equals applying it once, and no second record appears |
| AdminSettings.UpdateKeepsOtherFields | services/order-service/src/admin/admin.service.ts:63-66 | a field outside the DTO keeps its value, and the id and creation time are kept |
| AdminSettings.AdminService.constructor | services/order-service/src/admin/admin.service.ts:15-19 | the service starts on the given table |
| AdminSettings.AdminService.Insert | services/order-service/src/admin/admin.service.ts:42 | the state after save is `Inserted` of the old state |
| AdminSettings.AdminService.GetCompanySettings | services/order-service/src/admin/admin.service.ts:24-47 | the new state and the result are `GetResult` of the old state |
| AdminSettings.AdminService.UpdateCompanySettings | services/order-service/src/admin/admin.service.ts:52-76 | the new state and the result are `UpdateResult` of the old state |
| AdminApi.CheckAdmin | services/order-service/src/admin/admin.controller.ts:33-52 | Forbidden(403, 'Admin access required') iff the user is missing or not an admin; verified access iff an admin was found |
| AdminApi.FailsOpen | services/order-service/src/admin/admin.controller.ts:45-51 | a failed lookup, or one with no body, allows access |
| AdminApi.AdminController.constructor | services/order-service/src/admin/admin.controller.ts:25-28 | the controller uses the given settings service |
| AdminApi.AdminController.GetCompanySettings | services/order-service/src/admin/admin.controller.ts:57-62 | on Forbidden, nothing is touched; otherwise the settings are fetched and wrapped in a success envelope |
| AdminApi.AdminController.UpdateCompanySettings | services/order-service/src/admin/admin.controller.ts:67-75 | on Forbidden, nothing is touched; otherwise the update is applied and wrapped in a success envelope |
| Users.View | services/user-service/src/users/users.service.ts:23 | the projection carries the seven selected columns unchanged; it has no password field |
| Users.MergeView | services/user-service/src/users/users.service.ts:40 | each DTO field that is present overwrites; every other column is kept |
| Users.Saved | services/user-service/src/users/users.service.ts:41 | the saved row shows the merged projection and keeps the unselected password and verification flag |
| Users.UpdateChangesOnlyDtoFields | services/user-service/src/users/users.service.ts:38-41 | after an update, only the DTO's profile fields differ from the stored row |
| Users.UpdateIdempotent | services/user-service/src/users/users.service.ts:38-41 | the same update twice stores the same row as once |
| Users.IndexOfId | services/user-service/src/users/users.service.ts:21-24 | the position of a user with the id, or a proof that none has it |
| Users.IndexOfEmail | services/user-service/src/users/users.service.ts:34 | the position of a user with the e-mail, or a proof that none has it |
| Users.UsersService.constructor | services/user-service/src/users/users.service.ts:14-18 | the service starts on the given table |
| Users.UsersService.FindById | services/user-service/src/users/users.service.ts:20-31 | not-found ('User', id) iff no user has the id; otherwise the projection of that user |
| Users.UsersService.FindByEmail | services/user-service/src/users/users.service.ts:33-35 | null iff no user has the e-mail; otherwise that whole row |
| Users.UsersService.Update | services/user-service/src/users/users.service.ts:37-46 | a missing id fails with nothing saved; otherwise that row alone is replaced by the merge, and the merged projection is returned |
| AppErrors.AppError | shared/utils/error-handler.util.ts:9-23 | status 500 and code INTERNAL_ERROR by default (also for an empty code); the body is an error envelope with the message |
| AppErrors.ValidationError | shared/utils/error-handler.util.ts:25-29 | status 400 with code VALIDATION_ERROR and the details |
| AppErrors.NotFoundError | shared/utils/error-handler.util.ts:31-39 | status 404 with code NOT_FOUND and the not-found message |
| AppErrors.NotFoundMessageShape | shared/utils/error-handler.util.ts:34 | '<resource> not found', followed by ' with id: <id>' only for a non-empty id |
| AppErrors.UnauthorizedError | shared/utils/error-handler.util.ts:41-45 | status 401 with code UNAUTHORIZED, and message 'Unauthorized' by default |
| AppErrors.ForbiddenError | shared/utils/error-handler.util.ts:47-51 | status 403 with code FORBIDDEN, and message 'Forbidden' by default |
| AppErrors.SubclassesAreErrorEnvelopes | shared/utils/error-handler.util.ts:25-51 | every subclass has a 4xx status and a well-formed envelope with success false |
| ApiResponses.Success | shared/utils/api-response.util.ts:9-15 | success true, with the data and meta unchanged and no error |
| ApiResponses.Error | shared/utils/api-response.util.ts:17-30 | success false, with code, message and details under `error`, and no data |
| ApiResponses.Paginated | shared/utils/api-response.util.ts:32-47 | success true, with the data unchanged and meta exactly {page, limit, total} |
| ApiResponses.ErrorIsNeverSuccess | shared/utils/api-response.util.ts:9-47 | an error envelope never equals a success envelope |
| RedisConfig.EnvOr | shared/redis/redis.config.ts:9-12 | an unset or empty variable gives the default |
| RedisConfig.FromEnv | shared/redis/redis.config.ts:8-20 | the host, port and db defaults; maxRetriesPerRequest 3; the password is absent iff REDIS_PASSWORD is unset or empty |
| RedisConfig.DefaultsWhenUnset | shared/redis/redis.config.ts:10-12 | port 6379 and db 0 when unset |
| RedisConfig.ConfiguredPortIsRead | shared/redis/redis.config.ts:10 | a configured decimal port is read back exactly |
| RedisConfig.RetryDelayShape | shared/redis/redis.config.ts:13-16 | the delay is at most 2000; it is 50·times up to 40 and 2000 from then on |
| RedisConfig.RetryDelayMonotone | shared/redis/redis.config.ts:14 | the delay never decreases as `times` grows |
| PrismaConfig.ProcessEnv.constructor | shared/database/prisma.service.ts:15 | the environment holds the given variables |
| PrismaConfig.EnvOr | shared/database/prisma.service.ts:16-20 | an unset or empty variable gives its literal default |
| PrismaConfig.ConfigureDatabaseUrl | shared/database/prisma.service.ts:13-26 | the environment after the constructor is `Configured` of the one before |
| PrismaConfig.ConfiguredKeepsOthers | shared/database/prisma.service.ts:15 | a DATABASE_URL that is already set is kept; no other variable changes; afterwards DATABASE_URL is set |
| PrismaConfig.DefaultUrl | shared/database/prisma.service.ts:16-25 | with no DB_* variable set, the URL is built from the default user, empty password, host, port and database name |
| PrismaConfig.EmptyPasswordUrl | shared/database/prisma.service.ts:19-25 | with the empty password nothing stands between the `:` after the user name and the `@` |
| PrismaConfig.PasswordRecoverable | shared/database/prisma.service.ts:22-25 | when the user name holds neither `:` nor `@`, reading the credentials back from the URL (after the scheme, up to the first `@`, split at the first `:`) gives the user name and a text that percent-decodes to the password's UTF-8 bytes |
| Percent.EncodedHasNoDelimiter | shared/database/prisma.service.ts:23 | the encoded password holds no ':', '@', '/', '?' or '#' |
| Percent.EncodeURIComponentRoundTrip | shared/database/prisma.service.ts:23 | decoding what `encodeURIComponent` produced gives the UTF-8 bytes of the input |
| AdminSync.Codes | services/frontend/app/admin/sync/page.tsx:59-60 | no parsed code is empty or padded |
| AdminSync.CodesOfOne | services/frontend/app/admin/sync/page.tsx:59-60 | one piece gives its trim when it is not blank, and nothing when it is |
| AdminSync.CodesAppend | services/frontend/app/admin/sync/page.tsx:59-60 | the codes of two runs of pieces are the codes of each, in order |
| AdminSync.CodesCount | services/frontend/app/admin/sync/page.tsx:59-60 | there are exactly as many codes as non-blank pieces |
| AdminSync.NonBlankPiecesAreCodes | services/frontend/app/admin/sync/page.tsx:59-60 | the trim of every non-blank piece is a code |
| AdminSync.CodesArePieces | services/frontend/app/admin/sync/page.tsx:59-60 | every code is the trim of some non-blank piece |
| AdminSync.ParseCodesArePieces | services/frontend/app/admin/sync/page.tsx:57-60 | the codes of the text are exactly the trims of its non-blank comma-separated pieces, one per piece |
| AdminSync.ParseCodes | services/frontend/app/admin/sync/page.tsx:57-60 | every code is non-empty, is its own trim and holds no comma |
| AdminSync.CodesEmptyIff | services/frontend/app/admin/sync/page.tsx:57-60 | no code is parsed iff every comma-separated piece is blank |
| AdminSync.BlankTextHasNoCodes | services/frontend/app/admin/sync/page.tsx:57-60 | a blank field parses to no codes |
| AdminSync.BuildRequest | services/frontend/app/admin/sync/page.tsx:62-65 | productCodes is undefined iff none was parsed; syncAll is true iff the box is checked and none was parsed; the two are never both set |
| AdminSync.CommaOnlyTextRequestsNothing | services/frontend/app/admin/sync/page.tsx:145 | a field of just ',' enables the button yet sends neither codes nor syncAll |
| AdminSync.SyncDisabled | services/frontend/app/admin/sync/page.tsx:145 | the button is disabled exactly when a sync is running, or the box is unchecked and the text is blank |
| AdminSync.OrDefault | services/frontend/app/admin/sync/page.tsx:70 | a missing or empty message gives the fallback |
| AdminSync.AfterSync | services/frontend/app/admin/sync/page.tsx:67-73 | exactly one of result and error is set; the result is set iff the response succeeded with data; otherwise the error is the server's message or 'Sync failed', or for a thrown error its message or 'Failed to sync products' |
| AdminSync.ErrorIsNeverBlank | services/frontend/app/admin/sync/page.tsx:70-73 | an error that is set is never empty |
| AdminSync.ListedRows | services/frontend/app/admin/sync/page.tsx:215 | exactly the first min(20, n) of the n products are listed, as a prefix |
| AdminSync.NoteIffRowsDropped | services/frontend/app/admin/sync/page.tsx:234-238 | the 'Zobrazeno 20 z N' note appears iff some product is not listed |
| AdminSync.SyncPage.constructor | services/frontend/app/admin/sync/page.tsx:25-29 | the initial state: box checked, empty field, no result or error |
| AdminSync.SyncPage.ToggleSyncAll | services/frontend/app/admin/sync/page.tsx:102-107 | checking the box clears the code text; unchecking keeps it |
| AdminSync.SyncPage.TypeCodes | services/frontend/app/admin/sync/page.tsx:127-133 | the field takes the text only while the box is unchecked, and the interlock is preserved |
| AdminSync.SyncPage.HandleSync | services/frontend/app/admin/sync/page.tsx:51-77 | exactly one request, built from the field and the box, is sent; outcome per `AfterSync`; syncing is reset |
| AdminSync.CheckedBoxSyncsAll | services/frontend/app/admin/sync/page.tsx:63-64 | under the interlock, a checked box sends syncAll true and no codes |
| ClientApi.Payload | services/frontend/app/checkout/page.tsx:35 | data is used iff the response succeeded and carries data |
| Checkout.FirstDefault | services/frontend/app/checkout/page.tsx:41 | the index of the first default address, or none when no address is default |
| Checkout.SelectAddress | services/frontend/app/checkout/page.tsx:41-46 | the first default address, else the first address; with no addresses, the current selection is kept |
| Checkout.SelectAddressIdempotent | services/frontend/app/checkout/page.tsx:41-46 | selecting again from the same list changes nothing |
| Checkout.PlaceOrderEffects | services/frontend/app/checkout/page.tsx:63-82 | the order uses the selected address and 'payu'; a created payment redirects to its URI, otherwise the user goes to /orders/<id>; each failure raises its alert |
| Checkout.OneOrderPerPlacement | services/frontend/app/checkout/page.tsx:64-67 | an order is placed once, as the first effect |
| Checkout.DisplayedTotal | services/frontend/app/checkout/page.tsx:197 | the displayed total reads back as the cart total plus 99.00 |
| Checkout.LoadedAddressesEnableOrder | services/frontend/app/checkout/page.tsx:41-46 | after a load with addresses that have ids, the button is enabled when no order is being processed |
| Checkout.CheckoutPage.constructor | services/frontend/app/checkout/page.tsx:11-15 | the initial state: no cart, no addresses, empty selection, loading |
| Checkout.CheckoutPage.LoadData | services/frontend/app/checkout/page.tsx:28-53 | when neither request throws, a successful response sets the cart, or the addresses and their selection; a throw in either request, or an unsuccessful response, keeps the old values; loading ends in every case |
| Checkout.CheckoutPage.HandlePlaceOrder | services/frontend/app/checkout/page.tsx:55-86 | without a selection, only the alert and no API call; otherwise the effects of `PlaceOrderEffects`, with processing reset |
| CartPage.QuantityCalls | services/frontend/app/cart/page.tsx:37-58 | below 1, the item is removed; otherwise exactly that quantity is sent; the cart is reloaded after a successful change |
| CartPage.NoQuantityBelowOne | services/frontend/app/cart/page.tsx:38-44 | no update below quantity 1 is ever sent |
| CartPage.MinusAndPlus | services/frontend/app/cart/page.tsx:106-113 | − on quantity 1 removes the item; + sends the quantity plus one |
| CartPage.CartPageState.constructor | services/frontend/app/cart/page.tsx:10-11 | no cart, loading |
| CartPage.CartPageState.LoadCart | services/frontend/app/cart/page.tsx:24-35 | the cart is replaced only by a successful response; loading ends |
| CartPage.CartPageState.RemoveItem | services/frontend/app/cart/page.tsx:51-58 | the removal is requested, and the cart is reloaded only after it succeeds |
| CartPage.CartPageState.UpdateQuantity | services/frontend/app/cart/page.tsx:37-49 | the calls of `QuantityCalls`, and the reload after a success |
| OrderStatusView.StatusText | services/frontend/app/orders/page.tsx:56-66 | any status outside the six is returned unchanged |
| OrderStatusView.StatusColor | services/frontend/app/orders/page.tsx:37-54 | any status outside the six gets text-gray-600 |
| OrderStatusView.KnownStatusesAreDistinguished | services/frontend/app/orders/page.tsx:38-64 | the six statuses have six distinct labels and six distinct colours, none of them grey |
| OrderStatusView.LabelledIffKnown | services/frontend/app/orders/page.tsx:57-65 | the label differs from the status iff the status is one of the six |
| OrderStatusView.StoredStatusesShownRaw | shared/entities/order.entity.ts:24-32 | the entity's lower-case statuses, refunded included, are all shown raw and in grey |
| ProductsApi.Kept | services/frontend/lib/api/products.ts:66-72 | no more pairs are kept than there are entries |
| ProductsApi.KeptIsEmptyIff | services/frontend/lib/api/products.ts:68 | nothing is kept iff every value is undefined or null; 0, false and '' are kept |
| ProductsApi.KeptComesFromEntries | services/frontend/lib/api/products.ts:69 | every kept pair is the key and String(value) of some defined entry |
| ProductsApi.DefinedEntriesAreKept | services/frontend/lib/api/products.ts:68-69 | every defined entry is appended |
| ProductsApi.ProductsPath | services/frontend/lib/api/products.ts:75 | without a query, exactly /products; otherwise /products? plus the query |
| ProductsApi.PathHasQueryIffDefined | services/frontend/lib/api/products.ts:66-76 | the path is bare /products iff no filter value is defined |
| ProductsApi.SearchParams.constructor | services/frontend/lib/api/products.ts:65 | no pairs |
| ProductsApi.SearchParams.Append | services/frontend/lib/api/products.ts:69 | one pair is appended at the end |
| ProductsApi.GetProductsPath | services/frontend/lib/api/products.ts:64-77 | the loop appends the kept pairs in order, and the path is built from their serialisation |
| ProductsApi.ProductPath | services/frontend/lib/api/products.ts:80 | /products/ followed by exactly the id |
| ProductsApi.CategoryPath | services/frontend/lib/api/products.ts:88 | /categories/ followed by exactly the id |
| Percent.FormSerialize | services/frontend/lib/api/products.ts:73 | the query is empty iff no pair was appended |
| AuthState.SignedIn | services/frontend/contexts/AuthContext.tsx:59-60 | a user is signed in iff the response succeeded with data, and it is that data's user |
| AuthState.AuthProvider.constructor | services/frontend/contexts/AuthContext.tsx:28-29 | no user, loading, with the stored token |
| AuthState.AuthProvider.LoadUser | services/frontend/contexts/AuthContext.tsx:41-54 | a profile sets the user; otherwise the token is cleared; loading ends in every outcome |
| AuthState.AuthProvider.Mount | services/frontend/contexts/AuthContext.tsx:31-39 | without a token, no profile request is made and loading becomes false |
| AuthState.AuthProvider.SignIn | services/frontend/contexts/AuthContext.tsx:56-67 | returns true iff the response succeeded with data, and only then sets the user |
| AuthState.AuthProvider.SignUp | services/frontend/contexts/AuthContext.tsx:69-85 | the same rule as for login |
| AuthState.AuthProvider.SignOut | services/frontend/contexts/AuthContext.tsx:87-90 | the user becomes null and the context is not authenticated |
| AddressForm.EmptyForm | services/frontend/app/profile/addresses/page.tsx:95-106 | all text fields are blank except country 'Czech Republic', and isDefault is false |
| AddressForm.PhoneText | services/frontend/app/profile/addresses/page.tsx:74 | a missing phone becomes '' |
| AddressForm.FormFromAddress | services/frontend/app/profile/addresses/page.tsx:66-76 | each address field is copied into the form |
| AddressForm.Changed | services/frontend/app/profile/addresses/page.tsx:108-117 | only the named field changes: to `checked` for checkboxes, otherwise to `value` |
| AddressForm.LastChangeWins | services/frontend/app/profile/addresses/page.tsx:112-116 | two changes of one field leave the second |
| AddressForm.SubmitCall | services/frontend/app/profile/addresses/page.tsx:51-55 | update iff editingId is set, otherwise create, always with the form |
| AddressForm.EditThenSubmitUpdates | services/frontend/app/profile/addresses/page.tsx:51-78 | submitting right after editing an address updates that address with its own fields |
| AddressForm.AddressesPage.constructor | services/frontend/app/profile/addresses/page.tsx:9-22 | the initial state with the blank form |
| AddressForm.AddressesPage.LoadAddresses | services/frontend/app/profile/addresses/page.tsx:35-46 | the list is replaced only by a successful response; loading ends |
| AddressForm.AddressesPage.ResetForm | services/frontend/app/profile/addresses/page.tsx:95-106 | the form becomes blank and nothing else changes |
| AddressForm.AddressesPage.OpenNewForm | services/frontend/app/profile/addresses/page.tsx:131-136 | the form is blank, nothing is being edited and the form is shown; nothing is sent |
| AddressForm.AddressesPage.CancelForm | services/frontend/app/profile/addresses/page.tsx:246-252 | the form is hidden, nothing is being edited and the fields are blank; nothing is sent |
| AddressForm.AddressesPage.HandleSubmit | services/frontend/app/profile/addresses/page.tsx:48-64 | the update-or-create call is sent; success hides the form, clears editingId, resets the form and reloads; failure alerts and keeps the form |
| AddressForm.AddressesPage.HandleEdit | services/frontend/app/profile/addresses/page.tsx:66-79 | the form holds the address's fields, editingId is its id, and the form is shown |
| AddressForm.AddressesPage.HandleChange | services/frontend/app/profile/addresses/page.tsx:108-117 | the form becomes `Changed` of the old form |
| AddressForm.AddressesPage.HandleDelete | services/frontend/app/profile/addresses/page.tsx:81-93 | nothing happens unless confirmed; a failed delete alerts; a successful one reloads |

## Left out

- **I/O is left out.**
  - HTTP requests are not modelled. Logging-service POSTs, health GETs, the notification POST, the user-service lookup and the storefront API calls each become an outcome parameter.
  - The file system is not modelled. mkdir, append and unlink become a map from file names to contents, with a fault parameter for failed appends.
  - The image library is not modelled. Its metadata, resize and encode calls become an outcome parameter, so only the chosen dimension and encoding are modelled.
- **Asynchrony is left out.** The storefront's un-awaited `loadCart()` and `loadAddresses()` after a change are modelled as taking effect within the same handler. Interleavings of concurrent requests, and React's batching of state updates, are not modelled.
- **Clocks and randomness are parameters.** `Date.now()`, `new Date()`, `Math.random()`, `process.pid` and `os.hostname()` are passed in.
  - LogUtil.Logger.Log: one `now` is used for all the timestamps of a log call, although the source reads the clock up to three times.
- **Floating point is replaced by integers.** Money is integer hundredths, and `toFixed(2)` is `Money.FormatHundredths`. The image-size message is spelled out rather than computed with `/ 1024 / 1024`. `toLocaleString` is not modelled.
- **Some JavaScript objects are simplified.**
  - Metadata values are strings, and objects are insertion-ordered entry lists.
  - Inherited prototype keys are not modelled, such as `levels['constructor']` in `utils/logger.js` and `statusMap['toString']` on the orders page. A LOG_LEVEL naming one of them would give a non-numeric threshold.
- **Path handling is simplified.** `path.join` normalisation is modelled only as `dir + "/" + name`.
- **Several sources are not part of this model:**
  - the logger used by the backend services (`shared/logger/logger.util`); `LoggerService` records what it forwards instead;
  - `UpdateUserDto`; its fields are assumed to be the optional `firstName`, `lastName` and `phone`;
  - the `CompanySettings` entity; its columns are taken from `UpdateCompanySettingsDto` and the defaults;
  - the storefront's `lib/api/auth.ts` and `lib/api/client.ts`, so the token that `login`, `register` and `logout` store or clear is not modelled.
- **Database behaviour is simplified.**
  - TypeORM repositories are in-memory sequences.
  - `createdAt` is a counter, and `updatedAt` is not modelled.
  - Unique indexes are not modelled; `UniqueKeys` of the user table is a precondition instead.
  - The order among records with equal `createdAt` is resolved as first in table order.
- **Log and console side effects are left out.** These are the `this.logger.log` calls in the admin service, the user service and the notification service, the `console.error` when an unlink fails, the console warning of the fail-open admin gate, and the storefront's `console.error` calls.
- LogUtil.UpperAscii: upper-cases ASCII letters only; `toUpperCase` of other scripts is not modelled.
- **Configuration values:**
  - `timestampFormat` is read but never used by the source, so it is only stored.
  - The hard-coded Allegro product preview request `{limit: 20}` on the sync page is not modelled.
- **Declarative and rendering parts are left out:** class-validator DTO constraints, `ValidationPipe`, JWT/passport, module wiring, and JSX rendering beyond the rules in the table (row limit, note, empty cart, button rules).
- **Order transitions are left out.** The order entity only declares a status enum, so no order lifecycle is modelled.
- FindById (`Users.UsersService.FindById`): returns the intended not-found error. The source imports `NotFoundError` from `@nestjs/common` (services/user-service/src/users/users.service.ts:5), which exports no such class, so `throw new NotFoundError('User', id)` at line 27 would fail with a TypeError (a server error) rather than a not-found response.
- Update (`Users.UsersService.Update`): for a missing user it returns the same intended not-found error, because it looks the user up with `findById` (users.service.ts:37-46); the TypeError of the source is not modelled.
- **The storefront's login redirects are left out.** The effects in the checkout, cart, orders, order-detail, profile and addresses pages that send an unauthenticated visitor to `/login` are navigation, not state, so they are not modelled.
