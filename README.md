# Product-deployment record lifecycle of the governance catalog backend

This Dafny project models the backend path that records Service Catalog product
deployments. The path starts when a queue message carries a CloudFormation
custom-resource request (Create, Update or Delete) for a product, and ends when
the product's deployment record is written to a key-value table.

The model covers:

- **The persisted record.** This is `ProductEntry`, with its seven string-length bounds and its
  positive `created_at` (module `ProductEntry`).
- **The table.** Composite key `(portfolio_id, product_stack_id)`, as values: `ProductTable.Write` and
  `ProductTable.Delete` are the store effect of one validated `put_item` and one `delete_item`.
- **The DAL handler.** `DynamoDalHandler` is a class of its own.
  - It records only its table name.
  - It obtains its table handle lazily.
  - It validates an entry before touching the store.
  - Add and update are the same unconditional overwrite, stamped with the current time. The time is a `now: nat` parameter.
  - Delete removes one key and does not fail when the key is absent.
- **The instance cache.**
  - `_SingletonMeta` keeps one instance per class, keyed by the class alone, in a class `SingletonMeta`.
  - `get_dal_handler` is an `lru_cache` memo above it, in the class `DalFactory`.
  - Both are specified by the pure state machine `Dal.Request`. Its main consequence is proved as `Dal.FirstTableNameWins`: every handler the process ever gets is bound to the first table name requested.
- **Request models.** `ProductModel` and the Create, Delete and Update event models are parse functions over a decoded JSON value. The event models require `LogicalResourceId == "PlatformGovernanceCustomResource"`, and Update also requires `OldResourceProperties`.
- **Environment models.** `Observability` requires `POWERTOOLS_SERVICE_NAME` and `LOG_LEVEL`, and `GovernanceEnvVars`
  adds `TABLE_NAME` and `PORTFOLIO_ID`.
- **`provision_product` and the queue handler.** This covers the
  record loop, the dispatch by `RequestType`, and the process-level failure path.

Where the code and its tests disagree, or the code does something easily misread, the model follows the code:

- **No length bounds in `ProductModel`.** `catalog_backend/models/input.py:11-16` puts none on
  its fields, while `tests/unit/test_cf_input.py:29-82` expects empty and over-long
  product properties to be rejected there. The model follows the code.
  - `Input.ProductModelHasNoLengthBounds` shows that an empty or 41-character name parses.
  - `ProductCallbackHandler.EmptyNameRejectedAtStore` shows that the bound is applied only later, by `ProductEntry` at write time.
- **The singleton is keyed by class, not by table name.** A handler obtained for a second
  table name still writes to the first table.
- **Environment validation runs in the decorator, outside the handler's `try`.** An
  invalid environment therefore escapes `handle_product_event`. An error in a
  record's handler is answered FAILED for that record. An invalid envelope or an
  undecodable body is caught and handed to `init_failure` on the module-level
  `CFN_RESOURCE` (`catalog_backend/handlers/product_callback_handler.py:16,36`).
  That call only records the error: no response is sent for the failing record,
  the rest of the invocation's records are skipped, and every record the same
  process dispatches afterwards is answered FAILED without reaching its handler.
  The class `ProductCallbackHandler.CfnResource` carries that flag across invocations.
- **`tests/integration/test_delete_product.py:5-27` expects two responses for an event the handler rejects.** The trailing comma
  at :23 makes the event a one-element tuple, not a mapping, so envelope validation fails and the error goes to
  `init_failure`, which only records it. The test still expects two HTTPS requests. The model follows the handler
  and the recorded-failure account above, under which no response is sent for that event.
- **`update_product` and `delete_product` are imported but not defined.** They are imported by
  `catalog_backend/handlers/product_callback_handler.py:13`, but
  `catalog_backend/logic/product_lifecycle.py` does not define them. They are
  parameters of the model that receive the call-site arguments and the current
  store, and give an outcome and the store they leave. Only the items of existing
  tables can change (`ProductCallbackHandler.Settle`), so an Update record can
  rewrite a product's entry in the table.

Parameters of the model stand for I/O:

- the current time is `now: nat`;
- `json.loads` is `decode: string -> Option<Json>`;
- the DynamoDB service is a `DynamoDb` object holding every table by name, where writing to a table that does not exist fails.

## Model

| member | source | states |
|---|---|---|
| `ProductEntry.NewEntry` | catalog_backend/dal/models/db.py:6-14 | construction succeeds iff all seven length bounds (40, 200, 40, 10, 40, 40, 20, each from 1) hold and `created_at > 0`; success keeps every value; failure lists exactly the fields whose length is out of bounds, and never an empty list |
| `ProductEntry.Violations` | catalog_backend/dal/models/db.py:6-14 | a field appears among the violations iff its bound fails, the non-positive time appears iff `created_at <= 0`, and no violation at all iff the entry is valid |
| `ProductEntry.LengthViolations` | catalog_backend/dal/models/db.py:7-13 | over a list of fields, reports exactly the listed fields whose length bound fails |
| `ProductEntry.ValidMeansEveryField` | catalog_backend/dal/models/db.py:6-14 | an entry is valid iff every field satisfies its own bound and `created_at` is positive |
| `ProductEntry.FieldBoundaries` | catalog_backend/dal/models/db.py:7-13 | for every field, a value of exactly the maximum length passes, while one character more or an empty value fails |
| `ProductEntry.OverLongTestValuesRejected` | tests/unit/test_cf_input.py:57-67 | the 41-, 11-, 41-, 41- and 21-character values of name, version, account, consumer and region are rejected |
| `ProductTable.Upsert` | catalog_backend/dal/dynamo_dal_handler.py:52 | `put_item` stores the entry under its key, overwriting; every other key keeps its entry |
| `ProductTable.Remove` | catalog_backend/dal/dynamo_dal_handler.py:68 | `delete_item` drops exactly the given key; other keys keep their entries |
| `ProductTable.Write` | catalog_backend/dal/dynamo_dal_handler.py:41-55 | a write succeeds iff the entry is valid and the table exists; validation fails first (store unchanged); on success the key maps to the given fields with `created_at = now`, and nothing else in any table changes |
| `ProductTable.Delete` | catalog_backend/dal/dynamo_dal_handler.py:66-68 | a delete succeeds iff the table exists; it removes exactly the key `(portfolio_id, product_stack_id)`, everything else unchanged |
| `ProductTable.UpsertOverwrites` | catalog_backend/dal/dynamo_dal_handler.py:52 | two upserts under one key leave only the second |
| `ProductTable.WriteThenWriteLastWins` | catalog_backend/dal/dynamo_dal_handler.py:87-99 | after a successful write, a second write of the same key gives the same result as the second write alone, a validation failure included (update overwrites add) |
| `ProductTable.WriteKeepsTableNames` | catalog_backend/dal/dynamo_dal_handler.py:51-52 | a write never creates or drops a table |
| `ProductTable.DeleteAbsentKeyUnchanged` | catalog_backend/dal/dynamo_dal_handler.py:67-68 | deleting an absent key succeeds and leaves the store unchanged |
| `ProductTable.DeleteIdempotent` | catalog_backend/handlers/product_callback_handler.py:79 | deleting twice equals deleting once, and the second delete does not fail |
| `ProductTable.DeleteAfterWrite` | catalog_backend/dal/dynamo_dal_handler.py:52-68 | a write followed by a delete of the same key gives the same result as the delete alone |
| `DynamoDal.DynamoDalHandler.constructor` | catalog_backend/dal/dynamo_dal_handler.py:15-16 | construction records the table name and obtains no table handle |
| `DynamoDal.DynamoDalHandler.GetDbHandler` | catalog_backend/dal/dynamo_dal_handler.py:19-23 | the table handle is obtained |
| `DynamoDal.DynamoDalHandler.AddProductDeployment` | catalog_backend/dal/dynamo_dal_handler.py:29-57 | the store becomes `Write` of the old store under the handler's table with `created_at = now`; on failure the error comes back and the store is unchanged; the handle is obtained iff validation passed |
| `DynamoDal.DynamoDalHandler.DeleteProductDeployment` | catalog_backend/dal/dynamo_dal_handler.py:60-72 | the store becomes `Delete` of the old store under the handler's table; the handle is always obtained |
| `DynamoDal.DynamoDalHandler.UpdateProductDeployment` | catalog_backend/dal/dynamo_dal_handler.py:75-103 | the same contract as `AddProductDeployment`: an unconditional overwrite with a fresh `created_at`, identical store for equal arguments and time |
| `DbHandler.SingletonMeta.constructor` | catalog_backend/dal/db_handler.py:5 | the instance dictionary starts empty |
| `DbHandler.SingletonMeta.Call` | catalog_backend/dal/db_handler.py:7-10 | a class already present returns its stored instance with nothing changed; a new concrete class builds a fresh instance with the given table name, stores it and returns it; the abstract class fails and stores nothing; entries are never removed or replaced |
| `Dal.Request` | catalog_backend/dal/__init__.py:7-9 | one `get_dal_handler` call: the memo gains the table name; the returned handler's table name is the existing singleton's when there is one, else the requested name |
| `Dal.FirstTableNameWins` | catalog_backend/dal/db_handler.py:8-10 | over any series of calls, every returned handler has the first table name ever requested, whatever names later calls pass, and the memo holds every name requested |
| `Dal.RequestIdempotent` | catalog_backend/dal/__init__.py:7 | a repeated call with the same table name changes nothing and returns the same handler |
| `Dal.DalFactory.GetDalHandler` | catalog_backend/dal/__init__.py:7-9 | the cache state moves as `Request` says; the returned handler is the single `DynamoDalHandler` instance (the old one when it existed, else a fresh unconnected one) and is memoised under the table name |
| `Input.ParseProduct` | catalog_backend/models/input.py:11-16 | parsing succeeds iff all five fields are strings; each value is kept exactly; failure names exactly the missing or non-string fields |
| `Input.ParseCreate` | catalog_backend/models/input.py:19-21 | a Create event parses iff the header fields are present, `RequestType` is Create, `LogicalResourceId` is the expected literal and `ResourceProperties` parses; a wrong logical id is always named in the error |
| `Input.ParseDelete` | catalog_backend/models/input.py:24-26 | the same for a Delete event |
| `Input.ParseUpdate` | catalog_backend/models/input.py:29-32 | the same for an Update event, which also requires `OldResourceProperties`; new and old properties are kept apart |
| `Input.HeaderOf` | catalog_backend/models/input.py:19-21 | the parsed header carries every request field as sent and the expected logical id |
| `Input.EmptyPropertiesRejected` | catalog_backend/models/input.py:12-16 | `{}` as `ResourceProperties` fails every request type, and `{}` as `OldResourceProperties` fails an Update |
| `Input.ExtraPropertiesIgnored` | catalog_backend/models/input.py:11-16 | an extra key inside the properties, such as `ServiceToken`, does not change the parse |
| `Input.ParseProductRoundTrip` | catalog_backend/models/input.py:11-16 | a product written as its five fields, with any extra members, parses back to itself |
| `Input.ProductModelHasNoLengthBounds` | catalog_backend/models/input.py:11-16 | an empty or arbitrarily long product name parses and is kept |
| `EnvVars.ParseLogLevel` | catalog_backend/handlers/models/env_vars.py:8 | a log level parses iff it is one of the six spellings |
| `EnvVars.ParseObservability` | catalog_backend/handlers/models/env_vars.py:6-8 | succeeds iff the service name is non-empty and the log level is allowed; the error names exactly the failing variables and no others |
| `EnvVars.ParseGovernance` | catalog_backend/handlers/models/env_vars.py:11-13 | adds non-empty `TABLE_NAME` and `PORTFOLIO_ID` to the inherited constraints; values are kept; the error names each of the four variables iff it fails, and no other |
| `EnvVars.GovernanceExtendsObservability` | catalog_backend/handlers/models/env_vars.py:11 | a valid governance environment is a valid observability environment with the same values, and an invalid observability environment is an invalid governance one |
| `EnvVars.UnknownVariablesIgnored` | catalog_backend/handlers/models/env_vars.py:6-13 | variables outside the models do not affect either parse |
| `ProductLifecycle.ProvisionProduct` | catalog_backend/logic/product_lifecycle.py:9-24 | writes through the handler `get_dal_handler(table_name)` returns, under `(portfolio_id, stack_id)`, with the fields of `resource_properties`; returns the request id on success; a DAL error comes back unchanged with the store untouched |
| `ProductCallbackHandler.RequestTypeOf` | catalog_backend/handlers/product_callback_handler.py:39-90 | the dispatch is Create, Update or Delete exactly when the lower-cased `RequestType` is `create`, `update` or `delete` |
| `ProductCallbackHandler.ExactNamesDispatch` | catalog_backend/handlers/product_callback_handler.py:39-90 | `Create`, `Update` and `Delete` each reach their own handler |
| `ProductCallbackHandler.CaseVariantFailsInHandler` | catalog_backend/handlers/product_callback_handler.py:39-49 | a body whose `RequestType` is `create` reaches the Create handler, fails its model's `RequestType` literal and is reported FAILED with that error, writing nothing |
| `ProductCallbackHandler.CreateResult` | catalog_backend/handlers/product_callback_handler.py:39-53 | a Create succeeds iff the body parses, the entry is valid and the bound table exists; the result is the request id; the store changes only on success; the table name and portfolio id come from the environment |
| `ProductCallbackHandler.UpdateEvent` | catalog_backend/handlers/product_callback_handler.py:56-72 | a body that fails to parse is rejected with its validation error and changes nothing; otherwise `update_product` receives the parsed event, the environment's table name and portfolio id and the store, and its outcome and store (within the existing tables) are the result |
| `ProductCallbackHandler.DeleteEvent` | catalog_backend/handlers/product_callback_handler.py:75-90 | the same for `delete_product`; success carries no value |
| `ProductCallbackHandler.SettleKeepsTableNamePreservingStore` | catalog_backend/handlers/product_callback_handler.py:72 | a lifecycle call that keeps the set of tables leaves exactly the store it reports |
| `ProductCallbackHandler.RecordResult` | catalog_backend/handlers/product_callback_handler.py:32 | one body: FAILED with no dispatch and no write once an init failure is recorded; otherwise by request type SUCCESS with the returned id (none for Delete) or FAILED with the reason, with the store that handler leaves; no table is ever created or dropped |
| `ProductCallbackHandler.Run` | catalog_backend/handlers/product_callback_handler.py:29-32 | bodies dispatched in order, each against the store the previous ones left: one callback per body and the final store; after an init failure every callback is FAILED and the store is unchanged |
| `ProductCallbackHandler.RunStep` | catalog_backend/handlers/product_callback_handler.py:29-32 | dispatching one more body extends the run by exactly that body's callback and store |
| `ProductCallbackHandler.CreateDependsOnlyOnTableNames` | catalog_backend/handlers/product_callback_handler.py:39-53 | a Create record's callback depends on the store only through which tables exist, never on the items earlier records wrote |
| `ProductCallbackHandler.SucceededCreateIsStored` | catalog_backend/handlers/product_callback_handler.py:39-53 | a Create reported SUCCESS returns its request id and leaves its entry, with the environment's portfolio id and `created_at = now`, in the bound table |
| `ProductCallbackHandler.FailedRecordLeavesStore` | catalog_backend/handlers/product_callback_handler.py:39-90 | a record reported FAILED for any reason other than `update_product` or `delete_product` raising leaves the store unchanged |
| `ProductCallbackHandler.UpdateStoreIsUpdateProducts` | catalog_backend/handlers/product_callback_handler.py:68-72 | a parsed Update record leaves the store `update_product` reports and succeeds exactly when it does, with its id as the physical resource id |
| `ProductCallbackHandler.InvalidCreateFails` | catalog_backend/handlers/product_callback_handler.py:49 | a Create body that fails model validation is reported FAILED with that error and writes nothing |
| `ProductCallbackHandler.EmptyNameRejectedAtStore` | catalog_backend/handlers/product_callback_handler.py:49-53 | a parsed Create with an empty product name fails in the DAL with a length violation on the name, and the store is unchanged |
| `ProductCallbackHandler.Bodies` | catalog_backend/handlers/product_callback_handler.py:27 | the envelope is valid iff every record has a string body; the bodies are kept in order |
| `ProductCallbackHandler.ParseEnvelope` | catalog_backend/handlers/product_callback_handler.py:27-29 | the envelope parses iff `Records` is a list whose every item has a string body |
| `ProductCallbackHandler.LeadingDecoded` | catalog_backend/handlers/product_callback_handler.py:29-30 | the decoded bodies in order up to the first body that does not decode, which is undecodable whenever the prefix is shorter than the list |
| `ProductCallbackHandler.CreateEvent` | catalog_backend/handlers/product_callback_handler.py:39-53 | returns and stores what `CreateResult` says for the bound table; the handler cache moves only when the body parses |
| `ProductCallbackHandler.CfnResource.constructor` | catalog_backend/handlers/product_callback_handler.py:16 | the process starts with no init failure recorded |
| `ProductCallbackHandler.DispatchRecord` | catalog_backend/handlers/product_callback_handler.py:32 | responds and changes the store as `RecordResult` says, given the init failure recorded so far |
| `ProductCallbackHandler.ProcessRecords` | catalog_backend/handlers/product_callback_handler.py:26-36 | the callbacks and the store are `Run` over the decoded bodies in order; an undecodable body stops the loop and is returned as the failure, with its index |
| `ProductCallbackHandler.HandleProductEvent` | catalog_backend/handlers/product_callback_handler.py:19-36 | an invalid environment escapes with the store and the recorded failure untouched; an invalid envelope is caught, dispatches nothing and is recorded with `init_failure`; otherwise the result of `ProcessRecords` against the failure recorded before, and an undecodable body is recorded for later invocations |

## Left out

- **boto3 and DynamoDB failure modes.** The only ones modelled are validation and a missing table: the service is not part of this model, and throttling, permissions and transport errors have no counterpart here.
- **The `TTLCache` on `_get_db_handler`.** Its 300-second expiry is reduced to a "handle obtained" flag, because the timing is a library detail with no effect on the store.
- **The `lru_cache` size bound of 128.** Eviction is not observable: every entry points at the one singleton instance.
- **The crhelper `CfnResource`.** The library is not part of this model. From it the model keeps only the recorded init failure, which makes every later request FAILED without dispatch. Its HTTPS response transport, its retries, its PhysicalResourceId handling and its own reads of request fields before dispatch are not modelled. A response is the `Callback` value, and an unknown request type is answered FAILED.
- **Fields of the `SqsModel` record other than `body`, and the CloudFormation base models' own fields.** This covers `ResponseURL` URL validation, `PhysicalResourceId` for Update and Delete, and `ResourceType`'s format. These come from a library that is not part of this model; the model requires only the string fields the handler reads.
- `ProductCallbackHandler.RequestTypeOf` (and so `ProductCallbackHandler.RecordResult`) does not model crhelper's poll mode: a body with a `CrHelperPoll` key is sent to the poll handlers, which this handler never registers. The lower-casing is ASCII only, while `str.lower` is Unicode-aware; no non-ASCII character lowers to a letter of `create`, `update` or `delete`, so the two select the same handler.
- **`json.loads`.** It is the `decode` parameter. JSON numbers are integers and floating point is not modelled.
- **The wall clock.** `now` is a parameter, one value for a whole invocation, so the float conversion of `timestamp()` is not modelled.
- **Logging, metrics and tracing.** These include the `DeleteProduct` metric being emitted twice (`catalog_backend/handlers/product_callback_handler.py:82,88`) and the `ProductFailure` metric. The model keeps only the failure signal.
- **The bodies of `update_product` and `delete_product`.** They are not defined in `catalog_backend/logic/product_lifecycle.py`. They are parameters giving an outcome and a store. Their effect on the `get_dal_handler` cache is not modelled, and neither is anything they might do to a table other than changing its items.
- **The infrastructure definitions.** These include the table's sort key being named `product_id` while the DAL writes `product_stack_id`, and the missing `DeleteItem` permission. They have no logic to model.
- **The HTTP CRUD entry point and the test harness.** These are outside the record lifecycle.
