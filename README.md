# Database audit events and AWS secret selection, in Dafny

This project models three pieces of Teleport's database-audit and
database-credential code and proves properties of them.

- **Event classification** (`web/packages/teleport/src/DatabaseAudit/eventHelpers.tsx`).
  An audit event is a code, a user and a `raw` payload. The classifier gives
  each event:
  - an icon category;
  - a human-readable description;
  - whether it carries a query, and the query text;
  - a success verdict.

  Module `EventHelpers` holds these as total functions over the event's
  string code. Module `Audit` holds the event datatype and the JavaScript
  `raw?.key || fallback` lookup. That lookup is written out as "present and
  non-empty".
- **The audit-event accumulator** (`web/packages/teleport/src/DatabaseAudit/useDatabaseAuditEvents.ts`).
  A fixed allow-list of 37 database event codes filters every page the audit
  service returns. The hook keeps its result list, cursor (`fetchStartKey`),
  fetch status and attempt flag.

  In module `DatabaseAuditEvents`, this state is the class `AuditEventsState`
  and each hook action is a method. The service's answer is an input: a page
  of events and a next cursor, or an error message. A load-more is two steps:
  - `BeginFetchMore` marks the status `"loading"` and hands out the cursor;
  - `CompleteFetchMore` applies the answer.

  A ghost field records every event received since the last initial load.
  The class invariant `Valid()` says the list is exactly those events,
  filtered.
- **Secret selection in `GetSecret`** (`lib/cloud/aws/secrets_manager.go`).
  Once AWS Secrets Manager has answered, `GetSecret` goes through these steps:
  - it checks its arguments;
  - in `"string"` mode it returns the secret string, or failing that the secret binary;
  - in `"json"` mode it extracts the requested fields under their aliases and
    prefers the name `password`, or else looks up `password` / `Password`;
  - it rejects any other mode.

  Module `SecretsManager` models this as a function of the answer's payloads
  and the decoded JSON object. The field-extraction loop is a method proved
  against a fold (`Extracted`) over the fields in iteration order. Go's map
  iteration order is the explicit parameter `order`, and `Enumerates` says
  that `order` lists each field key once.

A failed initial load leaves the previous list, cursor and status in place,
and only flags the attempt as failed. The model follows the code here: it
does not clear the list. Likewise a rejected load-more leaves the status
`"loading"`, so the load-more button stays disabled, and only the attempt
flag changes; the model keeps that behaviour.

## Model

| member | source | states |
|---|---|---|
| Audit.FieldOr | web/packages/teleport/src/DatabaseAudit/eventHelpers.tsx:68-69 | `raw?.key \|\| fallback`: the raw value when the key is present and non-empty, otherwise the fallback; never empty when the fallback is not |
| EventHelpers.DatabaseEventIcon | web/packages/teleport/src/DatabaseAudit/eventHelpers.tsx:28-60 | the icon switch itself, total over all codes; what it chooses for each group is stated by `EventHelpers.IconTables` |
| EventHelpers.IconTables | web/packages/teleport/src/DatabaseAudit/eventHelpers.tsx:28-60 | the icon switch is total; each of Terminal, CheckCircle, XCircle and AlertTriangle is chosen exactly for its group of codes, and every other code, known or unknown, gets Database |
| EventHelpers.ServiceName | web/packages/teleport/src/DatabaseAudit/eventHelpers.tsx:68 | the service named in a description is never empty (a missing or empty `db_service` becomes "Unknown") |
| EventHelpers.DbUserName | web/packages/teleport/src/DatabaseAudit/eventHelpers.tsx:69 | the database user named in a description is never empty (a missing or empty `db_user` becomes "Unknown") |
| EventHelpers.DatabaseEventDescription | web/packages/teleport/src/DatabaseAudit/eventHelpers.tsx:65-204 | the description switch itself, with the templates as written; its properties are stated by `DescriptionFallback`, `DescriptionNamesService`, `DescriptionNamesDbUser` and `DbUserDescriptionIgnoresOtherFields` |
| EventHelpers.DescriptionFallback | web/packages/teleport/src/DatabaseAudit/eventHelpers.tsx:201-202 | a code without a template of its own is described as "Database event on <service>" |
| EventHelpers.DescriptionNamesService | web/packages/teleport/src/DatabaseAudit/eventHelpers.tsx:65-204 | every description other than the four database-user ones, including the fallback, ends with the service name |
| EventHelpers.DescriptionNamesDbUser | web/packages/teleport/src/DatabaseAudit/eventHelpers.tsx:93-103 | the four database-user descriptions end with the database user's name |
| EventHelpers.DbUserDescriptionIgnoresOtherFields | web/packages/teleport/src/DatabaseAudit/eventHelpers.tsx:93-103 | the user-create and user-deactivate descriptions depend only on the code and `db_user`, not on the Teleport user or `db_service` |
| EventHelpers.GetEventQuery | web/packages/teleport/src/DatabaseAudit/eventHelpers.tsx:236-239 | a returned query is non-empty and is the raw `db_query` or `query`; a truthy `db_query` wins; null exactly when neither field is truthy |
| EventHelpers.IsQueryEvent | web/packages/teleport/src/DatabaseAudit/eventHelpers.tsx:209-231 | true for the eight query codes whatever the payload; for every other code, true exactly when a query text can be extracted |
| EventHelpers.QueryImpliesQueryEvent | web/packages/teleport/src/DatabaseAudit/eventHelpers.tsx:230-238 | whenever a query text exists, the event is a query event |
| EventHelpers.IsSuccessfulEvent | web/packages/teleport/src/DatabaseAudit/eventHelpers.tsx:244-259 | an event fails exactly when it is drawn with XCircle or is a failed user create or deactivate; Terminal, CheckCircle and Database events always succeed, unknown codes included |
| DatabaseAuditEvents.FilterByCodes | web/packages/teleport/src/DatabaseAudit/useDatabaseAuditEvents.ts:113-115 | the order-preserving `.filter` by allow-list membership; its properties are stated by `FilterKeepsExactlyAllowed`, `FilterKeepsMultiplicity`, `FilterAppend`, `FilterKeepsAllowed` and `FilterIdempotent` |
| DatabaseAuditEvents.FilterDatabaseEvents | web/packages/teleport/src/DatabaseAudit/useDatabaseAuditEvents.ts:134-136 | the filter with the 37-code allow-list of lines 31-69, applied to every page; what it keeps is stated by `AuditEventsState.OnlyDatabaseEvents` and the filter lemmas |
| DatabaseAuditEvents.FilterKeepsExactlyAllowed | web/packages/teleport/src/DatabaseAudit/useDatabaseAuditEvents.ts:134-136 | the filter keeps exactly the allow-listed events of its input and never lengthens it |
| DatabaseAuditEvents.FilterKeepsMultiplicity | web/packages/teleport/src/DatabaseAudit/useDatabaseAuditEvents.ts:134-136 | each allow-listed event is kept exactly as many times as the input holds it, and every other event is dropped |
| DatabaseAuditEvents.FilterAppend | web/packages/teleport/src/DatabaseAudit/useDatabaseAuditEvents.ts:113-115 | filtering a concatenation equals concatenating the filtered parts |
| DatabaseAuditEvents.FilterKeepsAllowed | web/packages/teleport/src/DatabaseAudit/useDatabaseAuditEvents.ts:113-115 | a list of allow-listed events passes the filter unchanged |
| DatabaseAuditEvents.FilterIdempotent | web/packages/teleport/src/DatabaseAudit/useDatabaseAuditEvents.ts:113-115 | the filter is idempotent |
| DatabaseAuditEvents.RefilterAfterAppend | web/packages/teleport/src/DatabaseAudit/useDatabaseAuditEvents.ts:104-116 | appending a page to an already-filtered list and re-filtering keeps the old list as a prefix, adds the page's allow-listed events in order, and equals filtering everything received |
| DatabaseAuditEvents.StatusAfter | web/packages/teleport/src/DatabaseAudit/useDatabaseAuditEvents.ts:106 | after a page, the status is "disabled" exactly when the returned cursor is empty, and "" exactly when it is not |
| DatabaseAuditEvents.AuditEventsState.OnlyDatabaseEvents | web/packages/teleport/src/DatabaseAudit/useDatabaseAuditEvents.ts:31-69 | in every reachable state, each listed event has a code from the 37-code allow-list |
| DatabaseAuditEvents.AuditEventsState.constructor | web/packages/teleport/src/DatabaseAudit/useDatabaseAuditEvents.ts:74-79 | the initial state: empty list, empty cursor, status "", attempt processing; the invariant holds |
| DatabaseAuditEvents.AuditEventsState.Fetch | web/packages/teleport/src/DatabaseAudit/useDatabaseAuditEvents.ts:125-150 | on success the list is replaced by the page's allow-listed events in server order, with cursor and status from the page; on a rejection only the attempt flag changes, to failed with the message |
| DatabaseAuditEvents.AuditEventsState.BeginFetchMore | web/packages/teleport/src/DatabaseAudit/useDatabaseAuditEvents.ts:91-101 | offered only while the status is "" (the list's button guard); sets the status to "loading", sends the current cursor, and changes nothing else |
| DatabaseAuditEvents.AuditEventsState.CompleteFetchMore | web/packages/teleport/src/DatabaseAudit/useDatabaseAuditEvents.ts:102-120 | on success the old list stays as a prefix, followed by the page's allow-listed events in order, with cursor and status from the page; on a rejection the attempt is failed with the message and the list, cursor and "loading" status stay |
| DatabaseAuditEvents.DatabaseEventsAreDescribed | web/packages/teleport/src/DatabaseAudit/useDatabaseAuditEvents.ts:31-69 | every allow-listed code is one of the case labels of the description switch (`DescribedCodes`) |
| DatabaseAuditEvents.DatabaseEventsNeverWarn | web/packages/teleport/src/DatabaseAudit/useDatabaseAuditEvents.ts:31-69 | no allow-listed code is drawn with the AlertTriangle icon |
| DatabaseAuditEvents.DatabaseEventFailureIsXCircle | web/packages/teleport/src/DatabaseAudit/eventHelpers.tsx:244-259 | for a kept event, failure and the XCircle icon coincide |
| SecretsManager.FirstMissingIndex | lib/cloud/aws/secrets_manager.go:104-123 | the index of the first field key the secret lacks: all earlier keys are present, and the one at the index is not |
| SecretsManager.Extracted | lib/cloud/aws/secrets_manager.go:103-124 | the `extracted` map the loop builds: each field's rendered value stored under its alias or key, in iteration order; its contents are stated by `ExtractedNames` and `ExtractedLastWriter`, and `ExtractFields` is proved to compute it |
| SecretsManager.ExtractFields | lib/cloud/aws/secrets_manager.go:103-124 | the loop fails with NotFound for the first missing key in iteration order; otherwise it returns the fold that stores each value under the field's alias or key |
| SecretsManager.ExtractedNames | lib/cloud/aws/secrets_manager.go:116-120 | a name is in the extracted map exactly when some field's alias (or key, when the alias is empty) is that name |
| SecretsManager.ExtractedLastWriter | lib/cloud/aws/secrets_manager.go:104-120 | under each extracted name sits the value of the last field in iteration order stored under that name |
| SecretsManager.ExtractedUniqueName | lib/cloud/aws/secrets_manager.go:116-120 | a name that only one field maps to holds that field's value |
| SecretsManager.AnyValue | lib/cloud/aws/secrets_manager.go:130-132 | the first value of a non-empty map's iteration is one of its values |
| SecretsManager.PasswordLookup | lib/cloud/aws/secrets_manager.go:135-147 | a string `password` wins, else a string `Password`, else the "no password field" error; it fails exactly when neither is a string |
| SecretsManager.JsonSelect | lib/cloud/aws/secrets_manager.go:101-147 | JSON-mode selection once the secret is decoded: NotFound for the first missing field, else `password` or some extracted value, else the password lookup; stated by `JsonSelectPicksField`, `PasswordNameIsReturned` and `NoFieldsUsesPasswordLookup` |
| SecretsManager.GetSecret | lib/cloud/aws/secrets_manager.go:38-150 | an empty region fails first, then an empty secret id; string mode returns the string, else the binary, and fails exactly when both are missing; JSON mode without a string fails; unknown modes fail as invalid; a success outside string mode needs JSON mode with a decoded string |
| SecretsManager.JsonWithoutStringIgnoresMap | lib/cloud/aws/secrets_manager.go:91-94 | in JSON mode without a secret string, the result does not depend on the fields or the decoded map |
| SecretsManager.MissingFieldIsNotFound | lib/cloud/aws/secrets_manager.go:104-123 | with fields given, any field absent from the secret makes the call fail with NotFound, naming a field the secret lacks |
| SecretsManager.JsonSelectPicksField | lib/cloud/aws/secrets_manager.go:102-132 | JSON field selection with every field present succeeds with one of the extracted values, so never with a value a later field with the same name overwrote |
| SecretsManager.FieldsAlwaysSelectAField | lib/cloud/aws/secrets_manager.go:102-133 | with fields given and all present, the call succeeds with one of the extracted values and never reaches the password lookup |
| SecretsManager.PasswordNameIsReturned | lib/cloud/aws/secrets_manager.go:116-128 | when some field is stored under the name "password", the call returns the value of the last such field in iteration order |
| SecretsManager.UniquePasswordFieldIsReturned | lib/cloud/aws/secrets_manager.go:116-128 | when exactly one field is stored under "password", its value is returned |
| SecretsManager.NoFieldsUsesPasswordLookup | lib/cloud/aws/secrets_manager.go:135-147 | with no fields, JSON mode returns the `password` / `Password` lookup of the decoded secret |

## Left out

- Rendering in `DatabaseQueryEventList.tsx` is not part of this model:
  - the React components and hover styles;
  - the details modal, `JSON.stringify` of the payload and date formatting.

  Its button guard (lines 66 and 71: the button is hidden once "disabled" and inactive while "loading") is the precondition of `BeginFetchMore`.
- The hook plumbing is not modelled:
  - `useEffect` re-fetching on cluster or range change;
  - `useMemo` and the range options;
  - the range and `filterBy` request parameters.

  Each hook action is one sequential step that takes the service's answer as input. The intermediate render between the two `setResults` calls of a load-more, stale closures, and answers arriving out of order are concurrency, and lie outside this sequential model.
- The attempt wrapper's `run` is not among the sources. `Fetch` assumes it sets the attempt to succeeded when the promise resolves and to failed with the message when it rejects.
- `ctx.auditService.fetchEvents` is a network call and is represented only by its answer.
- Event codes are compared as the string literals written in the TypeScript files. The `EventCode` type's own definition is not part of this model.
- `raw` is a map from strings to strings. Non-string payload values, and the truthiness of non-string values, are not modelled.
- The following parts of `GetSecret` are not modelled:
  - loading the AWS SDK config;
  - the LocalStack environment variable and endpoint resolver;
  - the `GetSecretValue` call and its errors.

  The answer's secret string and secret binary are inputs. The binary arrives already converted to a string.
- `json.Unmarshal` is not modelled. Its result is an input: the decoded object, or None for a parse error.
- The formatting of JSON numbers (`%.0f` with ".0" trimming) and of other values (`%v`) is not modelled. A non-string value carries its rendered text.
- DatabaseAuditEvents.DatabaseEventsAreDescribed: proves that every allow-listed code is a case label of the description switch. It does not prove that the resulting sentence differs from the generic "Database event on <service>", because that proof does not fit the solver's resource limit. `EventHelpers.DescriptionFallback` proves only the converse: a code outside the case labels gets the generic sentence.
- SecretsManager.AnyValue: when no field is named `password`, Go returns the value its map iteration happens to yield first. That order is nondeterministic, so the model promises only "some extracted value", chosen with a ghost choice.
- SecretsManager.GetSecret: the iteration order over `fields` is the parameter `order`. The model proves which field wins a name collision for a given order, but not which order Go picks.
- Error messages are modelled as error constructors. The `trace` error kinds and the wrapping texts of the parse error and the AWS errors are not.
- The context test files (`secrets_manager_test.go`, `database_auth_test.go`, `db_prompt_test.go`) test code outside this model, such as configuration defaults and prompts, and are not modelled.
