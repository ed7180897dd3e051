# PerfexCRM MCP gateway: session table, tool envelopes and key validation

This project models the core of a small MCP (Model Context Protocol) server that
puts the PerfexCRM REST API behind a set of tools. A client opens an SSE stream
(`GET /sse`) and sends protocol messages with `POST /messages?sessionId=...`.
The server offers six tools: `validate-perfex-auth`, `list-customers`,
`get-customer`, `create-customer`, `update-customer` and `delete-customer`.

The model has three parts:

- **Session table** (`sessions.dfy`). `transports.sse` is the class
  `Sessions.Transports`. Its field `sse: map<SessionId, Transport>` is changed in
  place by `Open` (the `/sse` handler) and `Close` (the stream's `close`
  callback). `PostMessage` (the `/messages` handler) only reads it. A ghost
  history of events ties the field to `Replay`, the table a history produces.
  Lemmas about `Replay` give who is registered after any history and how many
  sessions are open.
- **Tool envelopes** (`customer_tools.dfy`, `auth_tools.dfy`, `dispatch.dfy`,
  `mcp.dfy`). Each handler is a total function of its parsed arguments and of
  the remote call's outcome (`Ok(value)` or `Err`). It returns one
  `{type: 'text', text}` block. The customer service is a parameter
  `remote: Call -> Outcome<Json>`, and `JSON.stringify` is a parameter
  `stringify: Json -> string`. The two schemas (`NewCustomer`, every field
  required but `custom_fields`; `CustomerPatch`, every field optional) are
  datatypes. Reading back what a writer produces gives the value written.
  Writing out what a reader accepted gives the input without its unknown keys.
  `catalog.dfy` holds the `/tools` list (names, types, descriptions and
  optional flags) and the `PORT` rule. The list's tool names are proved to be
  the registered ones. Its customer property names are proved to be the
  schemas' keys. The types it gives the properties, `id` and `apiKey` are
  proved to be the JSON types the schemas accept. The create properties it
  marks optional are proved to be the ones the create schema lets a client
  leave out.
- **Credential validator** (`auth_service.dfy`). The service object is an
  immutable record built by the constructor check. `validateApiKey` is a
  function of the candidate key and of the HTTP client, passed in as
  `probe: HttpGet -> ProbeOutcome`. It returns the boolean and the request it
  sent, if any.

`js.dfy` holds the JavaScript semantics these parts rely on: `||` on strings,
the decimal text `${n}` gives for an integer, and `parseInt` with no radix
(leading white space, sign, `0x` prefix, longest digit run, `NaN`).

## Model

| member | source | states |
|---|---|---|
| Sessions.Transports.constructor | src/index.ts:28-30 | the table starts empty, with an empty history |
| Sessions.Transports.Open | src/index.ts:144-146 | the new table is the old one with the transport stored under its session id; the event is appended to the history, which still replays to the table |
| Sessions.Transports.Close | src/index.ts:148-150 | the new table is the old one without the transport's session id; the event is appended to the history |
| Sessions.Transports.PostMessage | src/index.ts:156-164 | the reply is what `Route` says for the current table, and nothing changes. This is the lookup on own entries only; the lookup as written is `RouteAsWritten` (see Findings) |
| Sessions.Register | src/index.ts:146 | the id maps to the new transport (overwriting any earlier one); every other id keeps its entry |
| Sessions.Unregister | src/index.ts:149 | the id is absent afterwards; every other id keeps its entry; an absent id leaves the table as it was |
| Sessions.QueryKey | src/index.ts:157 | a given `sessionId` is the lookup key; a missing one is looked up as "undefined" |
| Sessions.Route | src/index.ts:158-163 | handed to the transport exactly when the id is registered, to exactly that transport with the body unchanged; otherwise status 400 with `No transport found for sessionId` |
| Sessions.RouteAsWritten | src/index.ts:158-163 | the lookup as written also finds inherited `Object.prototype` members, and on those it throws instead of answering 400 |
| Sessions.InheritedKeySkipsRejection | src/index.ts:158-162 | with no session, `sessionId=toString` gets 400 from the intended lookup but throws as written |
| Sessions.RouteAsWrittenAgrees | src/index.ts:158-163 | the two lookups agree exactly when the id is registered or is not an inherited member name |
| Sessions.OpenThenRoute | src/index.ts:146 | after opening a stream, a message for its id reaches that transport |
| Sessions.CloseThenRoute | src/index.ts:149 | after closing a stream, a message for its id is rejected with 400 |
| Sessions.CloseIdempotent | src/index.ts:148-150 | a second close changes nothing, and closing an unknown id changes nothing |
| Sessions.SessionCountStep | src/index.ts:146-149 | an open adds one session unless the id is registered; a close removes one only if the id is registered |
| Sessions.StaleCloseRemovesNewer | src/index.ts:148-150 | the close callback deletes by id, so closing an older stream removes a newer transport that reused its id |
| Sessions.ReplayLive | src/index.ts:144-150 | after any history an id is registered exactly when an open of it had no later event on that id; it then holds that open's transport |
| Sessions.NeverOpenedIsRejected | src/index.ts:156-163 | a message for an id that no event opened is rejected with 400 |
| Sessions.SessionCount | src/index.ts:144-150 | with fresh ids, open sessions = opens − closes of ids that were open, so a repeated close never counts twice |
| Catalog.Names | src/index.ts:54-139 | the names of the `/tools` entries, in order |
| Catalog.ParamNames | src/index.ts:88-125 | the names of a parameter list, in order |
| Catalog.ListenPort | src/index.ts:167 | an unset or empty `PORT` gives 3000; any other value gives `parseInt` of it |
| Catalog.DecimalPort | src/index.ts:167 | a decimal `PORT` is the port used |
| Catalog.NonNumericPort | src/index.ts:167 | a set `PORT` whose first character after leading white space and an optional sign is not a decimal digit gives NaN, not 3000 |
| Js.NumberString | src/tools/customer.tools.ts:61 | `${n}` of an integer is non-empty, starts with `-` exactly when the integer is negative, and starts with `0` only for 0 itself (no leading zeros) |
| Js.NegativeNumberString | src/tools/customer.tools.ts:61 | after the `-`, a negative integer's text is the leading-zero-free decimal form of its magnitude |
| Js.TrimStart | src/index.ts:167 | `parseInt` skips exactly the leading white space: what remains is a suffix that starts with a non-space |
| Js.DigitRun | src/index.ts:167 | `parseInt` reads the longest prefix of digits valid in the radix |
| Js.ParseNumberString | src/index.ts:167 | `parseInt` reads back the decimal form of any integer, also when text follows that starts with neither a digit nor `x` |
| Js.ParseHexLiteral | src/index.ts:167 | `parseInt('0x' + h + rest)` is the base-16 value of any hex digits `h`, when `rest` does not start with a hex digit |
| Js.ParseSkipsWhiteSpace | src/index.ts:167 | leading white space of any length and kind does not change what `parseInt` reads |
| Js.ParseHexExample | src/index.ts:167 | `parseInt('0x1F')` is 31 |
| Js.ParseSpacesExample | src/index.ts:167 | `parseInt('  8080')` is 8080 |
| Js.Magnitude | src/index.ts:167 | what `parseInt` reads digits from is a suffix of its input: the text after leading white space and one optional sign |
| Js.ParseNoLeadingDigit | src/index.ts:167 | `parseInt` gives NaN for any text whose first character after leading white space and an optional sign is not a decimal digit, or that ends there |
| Js.ParseNoDigits | src/index.ts:167 | `parseInt` gives NaN for any text that holds no decimal digit |
| Js.ParseNoDigitsExample | src/index.ts:167 | `parseInt('abc')` and `parseInt('')` are NaN |
| Js.NumberStringInjective | src/tools/customer.tools.ts:61 | distinct ids give distinct `${id}` texts |
| Js.OrElse | src/services/auth.service.ts:19 | `a \|\| b` is `a` when `a` is present and non-empty, and `b` when `a` is absent or empty |
| Js.EmptyIsAbsent | src/services/auth.service.ts:19 | `'' \|\| b` and `undefined \|\| b` are both `b` |
| Mcp.TextResult | src/tools/customer.tools.ts:16-23 | the envelope has exactly one block, of type `text`, holding the given text |
| Mcp.TextResultInjective | src/tools/customer.tools.ts:16-23 | two envelopes are equal exactly when their texts are |
| CustomerTools.Reply | src/tools/customer.tools.ts:14-34 | one text block: the serialised service value on success, the given failure text on failure |
| CustomerTools.ListCustomers | src/tools/customer.tools.ts:10-36 | `list-customers` returns exactly one text block |
| CustomerTools.GetCustomer | src/tools/customer.tools.ts:39-67 | `get-customer` returns exactly one text block |
| CustomerTools.CreateCustomer | src/tools/customer.tools.ts:70-109 | `create-customer` returns exactly one text block |
| CustomerTools.UpdateCustomer | src/tools/customer.tools.ts:112-152 | `update-customer` returns exactly one text block |
| CustomerTools.DeleteCustomer | src/tools/customer.tools.ts:155-183 | `delete-customer` returns exactly one text block |
| CustomerTools.SuccessShowsServiceValue | src/tools/customer.tools.ts:15-23 | on success the list, get, create and update texts are the serialisation of exactly the value the service returned for that call |
| CustomerTools.FailureTexts | src/tools/customer.tools.ts:24-33 | the failure texts are `Error listing customers`, `Error creating customer`, and `Error getting/updating/deleting customer <id>` |
| CustomerTools.FailureTextsNameId | src/tools/customer.tools.ts:55-64 | each id-bearing failure text contains the decimal id, and `parseInt` of its tail reads the id back |
| CustomerTools.FailureTextsDetermineId | src/tools/customer.tools.ts:140-150 | equal failure texts come from the same id |
| CustomerTools.DeleteSuccessDeterminesId | src/tools/customer.tools.ts:162-169 | equal `Customer <id> deleted successfully` texts come from the same id |
| CustomerTools.DeleteIgnoresServiceValue | src/tools/customer.tools.ts:160-169 | on success the delete text does not depend on what the service returned |
| CustomerTools.DeleteExample | src/tools/customer.tools.ts:162-169 | deleting customer 42 successfully yields exactly `Customer 42 deleted successfully` |
| CustomerTools.GetFailureExample | src/tools/customer.tools.ts:44-66 | a failed get of customer 999 yields `Error getting customer 999`, which contains `999` |
| CustomerTools.UpdateMakesOneCall | src/tools/customer.tools.ts:129-131 | the update result depends only on the one call that carries the caller's id and patch unchanged |
| CustomerTools.PatchBodyAt | src/tools/customer.tools.ts:116-127 | under a schema key, the sent object holds the patch's value, and the key appears only if the patch carries it |
| CustomerTools.PatchBodyKeys | src/tools/customer.tools.ts:116-127 | the sent patch object has a field exactly when the patch carries it, and no key outside the schema |
| CustomerTools.PatchRoundTrip | src/tools/customer.tools.ts:116-127 | reading a sent patch with the update schema gives the same patch back |
| CustomerTools.DecodedPatchAt | src/tools/customer.tools.ts:116-127 | an accepted patch holds each schema key's value from the input, and nothing for absent keys |
| CustomerTools.PatchKeepsKnownFields | src/tools/customer.tools.ts:116-131 | writing an accepted patch back out gives exactly the input's schema keys: absent fields stay absent, unknown keys are dropped |
| CustomerTools.DecodedCustomerAt | src/tools/customer.tools.ts:73-84 | a customer the create schema accepted holds each schema key's input value, and omits `custom_fields` only when the input did |
| CustomerTools.NewCustomerKeepsKnownFields | src/tools/customer.tools.ts:73-88 | writing an accepted customer back out gives exactly the input's schema keys, with unknown keys dropped |
| CustomerTools.NewCustomerRoundTrip | src/tools/customer.tools.ts:73-84 | reading a sent customer with the create schema gives it back |
| CustomerTools.CreateRequiresAllButCustomFields | src/tools/customer.tools.ts:73-84 | a customer missing any field but `custom_fields` is rejected; one missing only `custom_fields` is accepted |
| CustomerTools.UpdateAcceptsEmpty | src/tools/customer.tools.ts:116-127 | the update schema accepts `{}`: every field is optional |
| AuthService.Construct | src/services/auth.service.ts:8-15 | construction fails with the fixed message exactly when PERFEX_API_URL is unset or empty; otherwise it keeps the URL and the key (or `''`) |
| AuthService.BearerHeaders | src/services/auth.service.ts:26-27 | the headers carry `Authorization: Bearer <key>` and `Content-Type: application/json` |
| AuthService.BearerRoundTrip | src/services/auth.service.ts:26 | the key can be read back from the `Bearer` header value |
| AuthService.GetAuthHeaders | src/services/auth.service.ts:38-43 | the headers carry the configured key and the JSON content type |
| AuthService.EffectiveKey | src/services/auth.service.ts:19 | a non-empty candidate is used; an absent or empty one gives the configured key |
| AuthService.ValidateApiKey | src/services/auth.service.ts:17-36 | no request when the key is empty; otherwise one GET to `<apiUrl>/authentication` with `Bearer <key>`; the result is true exactly when that GET answered status 200 |
| AuthService.EmptyCandidateIsDefault | src/services/auth.service.ts:19 | validating `''` is validating with no candidate |
| AuthService.NoKeyIsInvalid | src/services/auth.service.ts:20-22 | with no key at all the result is false and nothing is sent |
| AuthService.OnlyStatus200IsValid | src/services/auth.service.ts:24-35 | any outcome but status 200, failures included, gives false |
| AuthService.AuthHeadersIgnoreCandidate | src/services/auth.service.ts:38-43 | a candidate other than the configured key reaches the probe, but `getAuthHeaders` still carries the configured key |
| AuthTools.ValidateReply | src/tools/auth.tools.ts:17-36 | one text block: `API key is valid`, `API key is invalid or there was an error validating it`, or `Error validating API key` on a rejection |
| AuthTools.ValidatePerfexAuth | src/tools/auth.tools.ts:14-38 | `validate-perfex-auth` returns exactly one text block |
| AuthTools.TextsDistinct | src/tools/auth.tools.ts:21-33 | the three texts are pairwise different |
| AuthTools.ValidateOutcomes | src/tools/auth.tools.ts:15-26 | the text is "valid" exactly when a non-empty key's probe answered 200, and never the error text, because the validator never rejects |
| AuthTools.AbsentKeyUsesDefault | src/tools/auth.tools.ts:12 | leaving out `apiKey` checks the configured key |
| Dispatch.Invoke | src/index.ts:24-25 | every call of a registered tool yields exactly one text block, whatever the remote systems do; the text of each call is stated by `Dispatch.InvokeTexts` |
| Dispatch.InvokeTexts | src/tools/customer.tools.ts:10-183 | for each tool, the text is the serialised service value on success and that tool's failure text otherwise; a successful delete says `Customer <id> deleted successfully`; `validate-perfex-auth` says valid exactly when the validator answered true |
| Dispatch.DeleteScenario | src/tools/customer.tools.ts:155-170 | the arguments `{id: 42}` of `delete-customer` decode to the delete of 42, which, when the service succeeds, answers `Customer 42 deleted successfully` |
| Dispatch.GetFailureScenario | src/tools/customer.tools.ts:39-66 | the arguments `{id: 999}` of `get-customer` decode to the get of 999, which, when the service fails, answers `Error getting customer 999` |
| Dispatch.DecodeArguments | src/tools/customer.tools.ts:41-158 | the six schemas, here and at src/tools/auth.tools.ts:12. An accepted call names the tool whose schema accepted it. Get and delete accept exactly the arguments with a numeric `id`, whatever other keys are present, and the call carries that id. Create accepts exactly when `customer` is an object the create schema reads, and the call carries what it reads. Update accepts exactly when `id` is numeric and `customer` is an object the update schema reads, and the call carries both. `validate-perfex-auth` accepts exactly when `apiKey` is absent or a string, and passes it on. `list-customers` accepts any arguments |
| Dispatch.SchemaRejections | src/tools/customer.tools.ts:42 | a missing or non-numeric `id` (get, update, delete), a non-object `customer` (create, update), or a non-string `apiKey` is rejected |
| Dispatch.ArgumentsRoundTrip | src/tools/customer.tools.ts:112-128 | reading the arguments sent for a call gives that call back |
| Dispatch.OnlyRegisteredToolsAccept | src/index.ts:24-25 | only registered tool names accept a call |
| Dispatch.InvocationsCoverRegistry | src/index.ts:24-25 | every call names a registered tool, and every registered tool has a call |
| Dispatch.RegistryHasNoDuplicates | src/tools/customer.tools.ts:10-156 | no tool name is registered twice, counting `validate-perfex-auth` registered first at src/tools/auth.tools.ts:10 |
| Dispatch.CatalogMatchesRegistry | src/index.ts:54-139 | the `/tools` names are the registered names, in registration order, so also as sets |
| Dispatch.CatalogKindsMatchReaders | src/index.ts:88-124 | each customer property's `type` in `/tools` is exactly the JSON type the update schema accepts under that key, and create lists the same types |
| Dispatch.CatalogArgumentKinds | src/index.ts:59-136 | the `type` of `id` (get, delete) and of `apiKey` in `/tools` is exactly the JSON type their schemas accept |
| Dispatch.CreateKindsMatchReader | src/index.ts:88-98 | replacing any one property of a valid customer by a JSON value, the create schema accepts exactly when the value has the `type` `/tools` lists for that property |
| Dispatch.CreateReadsKey | src/tools/customer.tools.ts:73-84 | in an otherwise valid customer, the create schema accepts a replaced property exactly when that property's own reader accepts its new value |
| Dispatch.UpdateIdKind | src/index.ts:107-110 | `update-customer` accepts an `id` exactly of the `type` `/tools` lists for it |
| Dispatch.CatalogOptionalMatchesReader | src/index.ts:88-98 | a create property is marked optional in `/tools` exactly when the create schema accepts a customer without it |
| Dispatch.SameNames | src/index.ts:84-127 | a parameter list whose names match the schema's field names position by position lists exactly those names |
| Dispatch.CatalogMatchesSchemas | src/index.ts:84-127 | the customer properties listed at `/tools` are the schema's fields, in order |
| Dispatch.CatalogOptionalFields | src/index.ts:88-124 | `/tools` marks only `custom_fields` optional for create and every property optional for update |

## Left out

- The Express app, the `/` information endpoint, `app.listen` and the logger: HTTP plumbing and static data. `ListenPort` returns `parseInt`'s value (maybe NaN); what `listen` does with it is not modelled.
- The protocol SDK: how `SSEServerTransport` makes session ids, `server.connect`, `handlePostMessage`, and the JSON-RPC handling that calls a tool. `Route` only says which transport gets the body. `Dispatch.DecodeArguments` models the schemas' acceptance, not the SDK's error reply for rejected arguments. The SDK's refusal of duplicate tool names is not modelled; `RegistryHasNoDuplicates` shows it never arises.
- The customer service (`src/services/customer.service.ts`). It is a network client, modelled only as the `remote` oracle. How axios serialises a request body is left out. `PatchBody` and `NewCustomerBody` are the objects the handlers pass on, with absent fields omitted, as `JSON.stringify` drops `undefined`.
- `JSON.stringify(value, null, 2)`: a parameter, whose output format is not modelled.
- `process.env` and `dotenv`: environment values are parameters. `process.exit` on a failed startup is not modelled.
- Races between a stream's close and an in-flight message: the source has no synchronisation, and this is a concurrency matter.
- Open: JavaScript does not store a `__proto__` key as an entry. The model stores every id as an entry. The SDK's session ids are UUIDs, which never name an `Object.prototype` member.
- Numbers are integers. Fractional ids (`z.number()` accepts `1.5`), `${n}` in exponent form (|n| ≥ 10^21), and rounding beyond 2^53 are not modelled. Neither is `-0` from `parseInt('-0')`.
- Query strings that parse to arrays or objects (`?sessionId[]=a`) are not modelled: `sessionId` is a string or missing.
- `zod` in general: only the two customer shapes, `{id}` and `{apiKey?}`, are modelled. JSON `null` in an optional field is rejected, as `.optional()` does.
- ValidateApiKey: a 2xx status other than 200 and a status axios rejects both give false, so the model does not tell them apart (`Failure` or `Response(status)`).

## Findings

| source | as written | input that shows it | evidently intended | confidence | as-written member | corrected member |
|---|---|---|---|---|---|---|
| src/index.ts:158-163 | `transports.sse` is a plain `{}`, so `transports.sse[sessionId]` also returns inherited `Object.prototype` members. These are truthy, so the 400 branch is skipped, and calling `transport.handlePostMessage(...)` throws a TypeError. | `POST /messages?sessionId=toString` (also `constructor`, `__proto__`, `valueOf`, ...) when no session has that id | answer 400 `No transport found for sessionId`, by looking up own entries only (`Object.create(null)`, a `Map`, or `Object.hasOwn`) | high for the thrown TypeError; how Express and Node report that rejection is not modelled; not executed | Sessions.RouteAsWritten (counterexample Sessions.InheritedKeySkipsRejection) | Sessions.Route (used by Sessions.Transports.PostMessage; proved by Sessions.NeverOpenedIsRejected and Sessions.CloseThenRoute) |
