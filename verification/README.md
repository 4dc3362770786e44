# Meadow endpoints: authorizers and read pipelines, in Dafny

This project models two parts of the Meadow REST endpoint layer.

- **The authorizer registry** (`Meadow-Authorizers.js`). It is a table of
  named authorization predicates. The table is pre-filled when the
  authorization mode is `SimpleOwnership`. The registry runs the predicates
  against a request in two ways:
  - `authorize` runs one named predicate, either on the request's single
    `Record` or in series over its `Records`;
  - `authorizeRequest` runs the predicates that the caller's role table
    names for an endpoint hash, falling back to `__DefaultAPISecurity`.

  The registry is the class `Authorizers.Registry`. A request is the class
  `Requests.Request`. Its properties `MeadowAuthorization`, `Record`,
  `Records`, `EndpointHash` and `Query` are fields that the methods update in
  place. Each method is proved against a specification function on a
  snapshot of the request (`AuthorizeRun`, `AuthorizeAllRun`,
  `AuthorizeRequestRun`). The lemmas then state what the registry promises
  about those functions: the short-circuits, the order of the record series
  and its stopping rule, what the run leaves unchanged, and the role
  fallback.

- **The four read endpoints** (ReadLiteList, ReadsBy, ReadDistinctList,
  ReadSelectList). Each is a fixed list of stages run by `async.waterfall`.
  `Pipeline.Step` says what one stage does to the request and to the
  endpoint's locals. `Pipeline.Waterfall` runs the stages in order and stops
  at the first stage that reports an error or never calls its completion.
  `Pipeline.Run` is the loop that executes the stages on a `Request`. Each
  endpoint module has:
  - its `Stages`;
  - a `Spec` function that adds the `authorizeEndpoint` gate and the final
    handler;
  - a method proved against `Spec`;
  - lemmas for the stage order, the 405 check, the reply on success and on
    error, and which properties are deleted.

  The pure parts of the stages have their own modules. `QueryBuilding`
  covers `Begin`/`Cap` paging, the by-field filters and the distinct
  columns. `LiteMarshal` covers the lite-record loop.

Collaborators are abstract function values, so every lemma holds for every
choice of them (`Collaborators`). They are:
- the DAL's `doReads`, `getRoleName` and schema authorizer table;
- the behavior hooks;
- `processTemplate`;
- the two filter parsers. ReadLiteList uses `./Meadow-Filter-Parse.js` and
  ReadDistinctList uses the `meadow-filter` parse, so each has its own
  parameter (`parseLiteFilter`, `parseDistinctFilter`);
- the distinct-list marshaller;
- `authorizeEndpoint`.

An authorizer predicate is a function from what it sees of the request to
an optional error and the new value of `MeadowAuthorization`.

Three behaviours of the code are worth knowing:
- A null or undefined record set from `doReads` is not treated as an empty
  set. In ReadLiteList, ReadDistinctList and ReadSelectList, reading its
  `length` throws (`NullReadThrows`, `SharedOutcomes`). Only ReadsBy sends
  `[]` for it.
- The "Columns to distinct on must be provided." error of ReadDistinctList
  cannot happen, because `split` always returns a non-empty array
  (`DistinctQueryProperties`, `FirstStage`).
- ReadSelectList ignores `MeadowAuthorization` altogether (`FlagIgnored`).

## Model

Source paths are relative to the repository root.

The definitions below carry the model's reading of the source. The lemmas
and methods in the table are stated in terms of them.
- `Authorizers.AuthorizeRun` is `authorize`
  (source/Meadow-Authorizers.js:71-134). `Authorizers.RecordSeriesRun` is its
  `eachSeries` over `Records` (lines 98-122).
- `Authorizers.AuthorizeAllRun` is the series over an array of names
  (lines 180-185).
- `Authorizers.AuthorizeRequestRun` is `authorizeRequest` (lines 138-192).
  `Authorizers.RoleAuthorizersFor` is its choice of role table (lines
  152-161).
- `Pipeline.Step` is the body of each stage:
  - `LiteQuery` is source/crud/Meadow-Endpoint-ReadLiteList.js:31-61.
  - `PagedQuery` is source/crud/Meadow-Endpoint-ReadsBy.js:34-58.
  - `ByFieldFilters` is ReadsBy.js:60-91.
  - `DistinctQueryStage` is ReadDistinctList.js:35-77.
  - `Hook` is a `runBehavior` stage, via `Pipeline.HookStep`
    (ReadLiteList.js:63-66, ReadsBy.js:93-101 and 124-127,
    ReadDistinctList.js:79-87).
  - `DoReads` is a `doReads` stage, with its callback's values in
    `Pipeline.ReadStep` (ReadLiteList.js:68-71).
  - `AttachRecords` is ReadLiteList.js:73-84 and ReadDistinctList.js:94-105.
  - `AttachOrSendEmpty` is ReadsBy.js:108-117.
  - `AuthorizeRequestStage` is ReadLiteList.js:86-89, ReadsBy.js:119-122 and
    ReadDistinctList.js:107-111.
  - `CheckAuthorization` is ReadLiteList.js:91-100, ReadsBy.js:129-139 and
    ReadDistinctList.js:113-122.
  - `MarshalLite` is ReadLiteList.js:102-147.
  - `MarshalDistinct` is ReadDistinctList.js:124-127.
  - `SelectListRead`, `SelectListCheck` and `SelectListMarshal` are
    ReadSelectList.js:35-61, 63-77 and 79-83. `SelectListForward` is the
    corrected stage 3.
- `ReadLiteList.Spec`, `ReadsBy.Spec`, `ReadDistinctList.Spec` and
  `ReadSelectList.SpecOf` are each endpoint's gate and final handler:
  - ReadLiteList.js:16-27 and 149-164;
  - ReadsBy.js:17-28 and 141-152;
  - ReadDistinctList.js:19-30 and 129-143;
  - ReadSelectList.js:15-29 and 85-97.
- The query-building definitions:
  - `QueryBuilding.LiteQueryOf` is ReadLiteList.js:33-59.
  - `QueryBuilding.Paged` is the shared `setCap`/`setBegin` (ReadLiteList.js:36-53).
  - `QueryBuilding.ByFieldFiltersOf` is ReadsBy.js:60-89.
  - `QueryBuilding.DistinctQueryOf` is ReadDistinctList.js:37-75.
  - `QueryBuilding.SelectListQuery` is ReadSelectList.js:38-56.
- `LiteMarshal.ShapeOf` is the choices made before the loop
  (ReadLiteList.js:104-124). `LiteMarshal.LiteListOf` is the list the loop
  builds (lines 126-145).

| member | source | states |
|---|---|---|
| Authorizers.Registry.constructor | source/Meadow-Authorizers.js:22-64 | the mode is the setting or 'Disabled'; the table is the four built-ins in 'SimpleOwnership' mode and empty otherwise |
| Authorizers.ModeAndInitialTable | source/Meadow-Authorizers.js:22-64 | a falsy setting gives 'Disabled'; only 'SimpleOwnership' pre-registers Allow, Deny, Mine and MyCustomer |
| Authorizers.Registry.SetAuthorizer | source/Meadow-Authorizers.js:44-47 | the table afterwards is the old table with the name bound to the new predicate |
| Authorizers.Registry.GetAuthorizer | source/Meadow-Authorizers.js:52-55 | returns a predicate exactly when the name is registered, and it is the registered one |
| Authorizers.SetThenGet | source/Meadow-Authorizers.js:44-55 | after set, get returns the new predicate (last write wins); other names are unaffected |
| Authorizers.Registry.Authorize | source/Meadow-Authorizers.js:71-134 | the request and the completion value are those of `AuthorizeRun` on the request before the call |
| Authorizers.Registry.AuthorizeRecords | source/Meadow-Authorizers.js:93-122 | the eachSeries loop leaves what `RecordSeriesRun` describes, with `Record` deleted, and reports its error |
| Authorizers.RecordSeriesOrder | source/Meadow-Authorizers.js:98-122 | records are visited in order with `Record` set to each; every record before the last one visited passed; the series stops early only on an error or a false flag; the result is what the last call left |
| Authorizers.AuthorizeDisabled | source/Meadow-Authorizers.js:79-83 | in 'Disabled' mode: no error, no predicate run, only the default flag added |
| Authorizers.AuthorizeBypassed | source/Meadow-Authorizers.js:86-133 | the AuthorizeOverride bypass and an unregistered name complete without error and run nothing |
| Authorizers.AuthorizeSingleRecord | source/Meadow-Authorizers.js:124-128 | with a `Record` present (or no `Records`) the predicate runs exactly once and its completion value is reported as is |
| Authorizers.AuthorizeRecordSet | source/Meadow-Authorizers.js:93-122 | the record-set path runs the predicate on the records in order; every call but the last passed; it stops early only on an error or a false flag; it reports the last call's error and leaves its flag (no call: no error); it always deletes `Record` |
| Authorizers.AuthorizeFrame | source/Meadow-Authorizers.js:71-134 | `authorize` changes only `MeadowAuthorization`, setting it to true only when absent; `Record` ends as it started |
| Authorizers.AuthorizeKeepsDenial | source/Meadow-Authorizers.js:33-43 | when every predicate only lowers the flag, as documented, a false flag stays false |
| Authorizers.AuthorizeAllSplit | source/Meadow-Authorizers.js:180-185 | running names in series is running the first part, then the rest only if no error was reported |
| Authorizers.LaterNamesSkipped | source/Meadow-Authorizers.js:180-185 | once one name reports an error, no later name runs |
| Authorizers.AuthorizeAllFrame | source/Meadow-Authorizers.js:180-185 | a series changes only the flag, and keeps a false flag false when predicates only lower it |
| Authorizers.Registry.AuthorizeRequest | source/Meadow-Authorizers.js:138-192 | the request and the completion value are those of `AuthorizeRequestRun` for the caller's role name |
| Authorizers.AuthorizeRequestDisabled | source/Meadow-Authorizers.js:146-150 | in 'Disabled' mode: no error, no predicate run, `EndpointHash` not set |
| Authorizers.AuthorizeRequestEntry | source/Meadow-Authorizers.js:152-191 | `EndpointHash` is set; a string entry runs `authorize` once, an array runs the names in series, no entry succeeds with nothing run |
| Authorizers.RoleFallback | source/Meadow-Authorizers.js:155-161 | the role's own table wins over the default; a role without a table is treated as `__DefaultAPISecurity` |
| Authorizers.AuthorizeRequestFrame | source/Meadow-Authorizers.js:138-192 | only the flag and `EndpointHash` change; a false flag stays false when predicates only lower it |
| QueryBuilding.BeginOf | source/crud/Meadow-Endpoint-ReadLiteList.js:36-42 | `Begin` is parsed exactly when it is a string or a number, otherwise `false` |
| QueryBuilding.CapOf | source/crud/Meadow-Endpoint-ReadLiteList.js:43-52 | `Cap` is parsed when it is a string or a number, otherwise `DEFAULT_MAX_CAP` |
| QueryBuilding.StringOnly | source/crud/Meadow-Endpoint-ReadSelectList.js:45-55 | ReadSelectList parses paging only from strings, otherwise `false` |
| QueryBuilding.PagingPolicies | source/crud/Meadow-Endpoint-ReadSelectList.js:45-55 | both policies agree on strings; on numbers or absent values ReadSelectList passes `false` and has no default cap |
| QueryBuilding.FilterFor | source/crud/Meadow-Endpoint-ReadsBy.js:62-74 | an array value is matched with 'IN', any other with '='; join 'AND', tag 'RequestByField'; undefined or null throws |
| QueryBuilding.ItemFilter | source/crud/Meadow-Endpoint-ReadsBy.js:80-83 | only an object element of `Filters` yields a filter, built from its `ByField` and `ByValue` |
| QueryBuilding.ItemFilters | source/crud/Meadow-Endpoint-ReadsBy.js:76-84 | one filter per element in order up to the first element that throws, and whether one threw |
| QueryBuilding.AddByFieldFilters | source/crud/Meadow-Endpoint-ReadsBy.js:59-91 | a `Filters` array appends the filters of its elements in order; otherwise the single `ByField`/`ByValue` filter is appended |
| QueryBuilding.Split | source/crud/Meadow-Endpoint-ReadDistinctList.js:67-69 | `split(',')` returns at least one piece and no piece contains ',' |
| QueryBuilding.SplitJoin | source/crud/Meadow-Endpoint-ReadDistinctList.js:67-75 | joining the pieces gives `Columns` back |
| QueryBuilding.DistinctQueryProperties | source/crud/Meadow-Endpoint-ReadDistinctList.js:37-76 | without a string `Filter` the query is distinct and paged, with a truthy `Filter` installed as is or a falsy one leaving the filters unchanged; a string `Filter` is given to the parser after distinct and paging; a string `Columns` becomes a non-empty column list that joins back to it and sets the data elements; no `Columns`, no columns |
| LiteMarshal.IdFields | source/crud/Meadow-Endpoint-ReadLiteList.js:112-123 | the keys of the first record that start with 'ID' or 'GUID' |
| LiteMarshal.LiteRecord | source/crud/Meadow-Endpoint-ReadLiteList.js:127-141 | a lite record has `Value` and the copied keys, each copied key with its record's value, `Value` rendered unless overwritten |
| LiteMarshal.LiteListOf | source/crud/Meadow-Endpoint-ReadLiteList.js:126-145 | the lite list has one entry per record, including for an empty set |
| LiteMarshal.MarshalLiteRecord | source/crud/Meadow-Endpoint-ReadLiteList.js:127-143 | the loop body builds exactly `LiteRecord` |
| LiteMarshal.LiteList | source/crud/Meadow-Endpoint-ReadLiteList.js:105-146 | the marshalling loop builds one lite record per record, in order |
| LiteMarshal.LiteListFields | source/crud/Meadow-Endpoint-ReadLiteList.js:109-141 | same length as `Records`; each entry has `Value`, the default identifier, the GUID field when named, `UpdateDate` when the first record has it, the first record's ID/GUID keys, and nothing else |
| Pipeline.Waterfall | source/crud/Meadow-Endpoint-ReadLiteList.js:28-148 | the number of stages run is at most the number of stages; a completed waterfall ran every stage; one that stopped ran at least one |
| Pipeline.WaterfallCons | source/crud/Meadow-Endpoint-ReadLiteList.js:28-148 | the first stage runs, and the others only if it completed without an error |
| Pipeline.WaterfallSplit | source/crud/Meadow-Endpoint-ReadLiteList.js:28-148 | a later part of the stage list runs only when every earlier stage completed without an error |
| Pipeline.StopSkipsRest | source/crud/Meadow-Endpoint-ReadLiteList.js:28-148 | a stage that reports an error or never completes skips all later stages |
| Pipeline.LastStageRan | source/crud/Meadow-Endpoint-ReadLiteList.js:28-148 | a waterfall that stopped early stopped at stage `ran - 1`, after all earlier stages completed |
| Pipeline.StepKeepsFixed | source/crud/Meadow-Endpoint-ReadLiteList.js:30-147 | no stage changes the parameters, role, limits, endpoint requirement or `Record` |
| Pipeline.WaterfallKeepsFixed | source/crud/Meadow-Endpoint-ReadLiteList.js:30-147 | the same holds for a whole waterfall |
| Pipeline.ColumnsKept | source/crud/Meadow-Endpoint-ReadDistinctList.js:31-127 | `tmpDistinctColumns` is set only by stage 1a and reaches the marshaller unchanged |
| Pipeline.ExecStage | source/crud/Meadow-Endpoint-ReadLiteList.js:30-147 | executing a stage on the request does what `Step` describes |
| Pipeline.Run | source/crud/Meadow-Endpoint-ReadLiteList.js:28-148 | the stage loop leaves the request, locals, end and count of stages that `Waterfall` describes |
| ReadLiteList.ReadLite | source/crud/Meadow-Endpoint-ReadLiteList.js:14-165 | the endpoint's reply and final request are those of its `Spec` |
| ReadLiteList.Refusal | source/crud/Meadow-Endpoint-ReadLiteList.js:18-26 | when `authorizeEndpoint` returns false, no stage runs |
| ReadLiteList.AuthorizedTail | source/crud/Meadow-Endpoint-ReadLiteList.js:73-147 | records attached and authorized with the flag true are marshalled into their lite list |
| ReadLiteList.SendsLiteList | source/crud/Meadow-Endpoint-ReadLiteList.js:67-163 | the records read, once authorized, are sent as their lite list, then `fNext` is called, and `Records` is deleted |
| ReadLiteList.DeniedIs405 | source/crud/Meadow-Endpoint-ReadLiteList.js:91-158 | a false or missing flag gives the coded 405 error, marshalling is skipped and `Records` is deleted |
| ReadLiteList.ErrorsReported | source/crud/Meadow-Endpoint-ReadLiteList.js:150-158 | every stage error goes to `sendCodedError` with the recordset message; `Records` is deleted whenever the handler runs |
| ReadLiteList.NullReadThrows | source/crud/Meadow-Endpoint-ReadLiteList.js:73-80 | a null or undefined read result throws in stage 2 |
| ReadsBy.ReadsBy | source/crud/Meadow-Endpoint-ReadsBy.js:15-153 | the endpoint's reply and final request are those of its `Spec` |
| ReadsBy.Refusal | source/crud/Meadow-Endpoint-ReadsBy.js:19-27 | when `authorizeEndpoint` returns false, no stage runs |
| ReadsBy.ByFieldQuery | source/crud/Meadow-Endpoint-ReadsBy.js:34-91 | the query is the paged query with the by-field filters; a filter value that throws ends the endpoint at stage 2 |
| ReadsBy.FalsyReadSendsEmpty | source/crud/Meadow-Endpoint-ReadsBy.js:108-117 | a null or undefined read sends `[]` and stops; neither the final handler nor `fNext` runs |
| ReadsBy.PostOperationDecides | source/crud/Meadow-Endpoint-ReadsBy.js:123-150 | the flag the post-operation hook leaves decides between streaming `Records` and the 405 error |
| ReadsBy.ErrorsReported | source/crud/Meadow-Endpoint-ReadsBy.js:142-147 | every stage error goes to `sendCodedError` with the by-value message |
| ReadDistinctList.ReadDistinct | source/crud/Meadow-Endpoint-ReadDistinctList.js:17-144 | the endpoint's reply and final request are those of its `Spec` |
| ReadDistinctList.Refusal | source/crud/Meadow-Endpoint-ReadDistinctList.js:21-29 | when `authorizeEndpoint` returns false, no stage runs |
| ReadDistinctList.FirstStage | source/crud/Meadow-Endpoint-ReadDistinctList.js:35-77 | stage 1a always completes, installing the distinct query and the columns |
| ReadDistinctList.DeniedIs405 | source/crud/Meadow-Endpoint-ReadDistinctList.js:113-138 | a false or missing flag gives the coded 405 error, marshalling is skipped and `Records` is deleted |
| ReadDistinctList.SendsDistinct | source/crud/Meadow-Endpoint-ReadDistinctList.js:124-141 | the marshaller's list for `Records` and the stage-1a columns is streamed, and `Records` is deleted |
| ReadDistinctList.NullReadThrows | source/crud/Meadow-Endpoint-ReadDistinctList.js:94-101 | a null or undefined read result throws in stage 2 |
| ReadSelectList.Endpoint | source/crud/Meadow-Endpoint-ReadSelectList.js:13-98 | the endpoint over a stage list gives the reply and request of `SpecOf` |
| ReadSelectList.ReadSelectList | source/crud/Meadow-Endpoint-ReadSelectList.js:13-98 | the endpoint as written gives the reply and request of `SpecOf(Stages)` |
| ReadSelectList.ReadSelectListIntended | source/crud/Meadow-Endpoint-ReadSelectList.js:78-96 | the endpoint with stage 3 forwarding its records gives the reply of `SpecOf(IntendedStages)` |
| ReadSelectList.SharedOutcomes | source/crud/Meadow-Endpoint-ReadSelectList.js:35-91 | a read error calls `sendError` without the error; a null or undefined result throws; an empty one sends `[]` without `fNext`; the request is left alone |
| ReadSelectList.NonEmptyNeverReplies | source/crud/Meadow-Endpoint-ReadSelectList.js:78-83 | as written, a non-empty result gets no reply at all |
| ReadSelectList.IntendedSendsRecords | source/crud/Meadow-Endpoint-ReadSelectList.js:86-96 | with stage 3 forwarding, a non-empty result is sent, then `fNext` is called exactly when it is a function |
| ReadSelectList.FlagIgnored | source/crud/Meadow-Endpoint-ReadSelectList.js:32-84 | no stage runs an authorizer or checks the flag, and the reply does not depend on `MeadowAuthorization` |

## Left out

- The `createNew` factory path without a valid Meadow object, which returns
  `{new: createNew}`, is not modelled. So is the `new` member of the
  returned object.
- Authorizers.Registry.GetAuthorizer: the tables are plain JavaScript
  objects in the source. Names they inherit from `Object.prototype`, such as
  'toString' or 'constructor', are not modelled. The source's
  `getAuthorizer('toString')` returns a function where the model returns
  `None`. Neither is `__proto__`: `setAuthorizer('__proto__', f)` replaces the
  prototype, after which `authorize` runs nothing, while the model registers
  and runs `f`.
- Authorizers.RoleFallback: a role whose name is an `Object.prototype`
  member, such as 'constructor', reads an inherited function in the source.
  That value is truthy, so there is no fallback to `__DefaultAPISecurity`,
  and nothing runs. The model treats such a role as having no table and
  falls back. Inherited names are not modelled.
- A `doReads` result that is falsy but not null or undefined (`false`, `0`,
  `''`) is not modelled. The model has a record set or `None` (null or
  undefined). In the source, `false` and `0` have no `length`, so
  `length < 1` is false and ReadLiteList attaches them as they are and
  sends `[]`. An empty string has length 0 and is replaced by `[]`. Only
  ReadsBy's `!pRecords` treats every falsy value alike.
- The concrete Allow, Deny, Mine and MyCustomer authorizers are abstract
  parameters (`Builtins`). Their code is not part of this model.
- A role table that is truthy but not an object, or a `null` default table,
  is not modelled. The same goes for a hash entry that is neither a string
  nor an array. The model has only string entries (`Single`) and array
  entries (`Series`).
- Predicates and hooks only change the modelled request properties. The
  flag, and for hooks `Query`, `Records` and the flag, are the only effects
  they have. Anything else they touch on the request is not modelled. How a
  hook's completion passes values to the next stage is not modelled either.
- Authorizers.AuthorizeKeepsDenial: the registry does not enforce that a
  predicate only lowers the flag. The lemma assumes the documented
  convention (`NeverGrants`). A predicate that raises the flag can turn a
  false flag true.
- `parseInt` is not modelled. A string paging parameter carries the integer
  it parses to, and `NaN` and partial parses are not represented.
- JavaScript property order is not modelled. Records are maps, so the key
  order of lite records and the order of `Object.keys` in the ID/GUID scan
  are not captured.
- The query builder, the two filter parsers, `setFilter`, `setDataElements` and
  the distinct marshaller are abstract. Their effect is the field they set
  in `Query`, or the result of a function parameter.
- `streamRecordsToResponse`, `sendCodedError`, `sendError`, `pResponse.send`
  and logging are replaced by the `Reply` value. The log lines are assumed
  not to throw. ReadSelectList's log lines read `SessionData.SessionID`
  where the other endpoints read `UserSession.SessionID`.
- The `async` library's scheduling is not modelled. Stages run sequentially
  and each completes at most once. An exception thrown in a stage is the
  `Uncaught` reply, and its propagation is not modelled.
- Nothing concurrent is modelled. Each request has its own `Request`, and
  the registry's table is only read while a request runs.

## Findings

| source | as written | input that shows it | evidently intended | confidence | as-written member | corrected member |
|---|---|---|---|---|---|---|
| source/crud/Meadow-Endpoint-ReadSelectList.js:79-83 | stage 3 of ReadSelectList has an empty body and never calls `fStageComplete`, so the final handler at lines 86-96 is never reached | any request whose read returns a non-empty record set without an error | stage 3 completes with the records it received, so the final handler sends them and then calls `tmpNext` | medium, not executed | ReadSelectList.NonEmptyNeverReplies | ReadSelectList.IntendedSendsRecords |
