# fastify-stripe, modelled in Dafny

This project models the logic of a web-server plugin that attaches a
payment-provider client to the host. The plugin does three things:

- **Initialisation** takes a client the caller built, or validates an `apiKey`
  and a `stripe` options object and constructs a client from the pair. The key
  is checked first and the options second. Each check has its own error message.
- **`setApiKey`** rotates the credential. It rejects a non-string key. It leaves
  a caller-supplied client alone. Otherwise it constructs a client from the new
  key and the original options and holds that client from then on.
- **`ensureCustomer`** finds or creates a customer: create when there is no id;
  otherwise retrieve by id, replacing the metadata when the parameters carry a
  metadata object; when that fails, search with an expression built from a
  query, or create.

The payment provider is an oracle. Each customer operation (`retrieve`,
`update`, `search`, `create`) is a function from its arguments to "returns a
value" or "throws an error". `ensureCustomer` returns its outcome together with
the list of provider calls it made. That makes "never calls create" and
"exactly one create" statable.

Files:

- `js.dfy` (module `Js`): JavaScript values as `typeof` sees them, errors,
  outcomes, and a substring predicate.
- `customers.dfy` (module `Customers`): the decision tree as pure functions,
  the search expression, the loop that builds it, and the properties.
- `plugin.dfy` (module `Plugin`): the configuration union, initialisation, and
  the class `StripePlugin` that holds the client slot and implements
  `setApiKey`.

The configuration is a tagged union, `Prebuilt(client) | Options(apiKey, stripe)`,
in place of the `instanceof` probe. Client values are `Client(apiKey, config)`.
`StripePlugin` keeps both slots the plugin assigns: the closure variable
`stripe` that `ensureCustomer` uses, and the host attachment that `setApiKey`
returns for a supplied client. It also keeps a ghost log of every client
construction.

## Behaviour worth knowing

The code sends two failures to the fallback branch that a reader might expect
to reach the caller:

- **A deleted customer.** The error thrown for it (`lib/index.ts:35`) is inside
  the `try` that opens at line 33, so the bare `catch` at line 42 swallows it.
  The run then goes on to search or create. `DeletedCustomerFallsBack` states
  this.
- **A failed metadata update.** The update (line 38) is inside the same `try`,
  so its error is swallowed the same way.

The model follows the code, not the reading under which a deleted customer
aborts the call and an update failure propagates. `TryErrorNeverObservable`
proves that no error from the `try` block reaches the caller. Only errors from
`search` and `create` do: the create of the no-id path, and the fallback's
search and create (`ErrorsComeFromSearchOrCreate`).

## Model

| member | source | states |
|---|---|---|
| `Js.TypeOf` | lib/index.ts:10-11 | `typeof` is `"string"` exactly for strings, `"object"` exactly for `null`, objects and arrays, and `"undefined"` exactly for `undefined` |
| `Plugin.Initialise` | lib/index.ts:7-13 | a supplied client is taken as is; in the options form, initialisation succeeds iff the key is a string and the options are a non-null object, and the client is then built from exactly that pair |
| `Plugin.NonStringApiKeyRejected` | lib/index.ts:10 | a non-string key is rejected whatever the options (the key is checked first), and the message names `options.apiKey` and the key's `typeof` |
| `Plugin.BadStripeOptionsRejected` | lib/index.ts:11 | with a string key, options that are null or not an object are rejected with a message naming `options.stripe` and either `null` or their `typeof` |
| `Plugin.ExpectedMessage` | lib/index.ts:10-19 | builds the shared `name expected to be "expected", but recieved "received"` text of the three validation errors; every such message contains the name of what was checked and the value it reports as received, which `NonStringApiKeyRejected` and `BadStripeOptionsRejected` use |
| `Plugin.TestedKeysRejected` | test/index.test.ts:5-31 | the keys 0, true, undefined, null, {} and [] are rejected by the key check with its message, and so is a registration with no options |
| `Plugin.Register` | lib/index.ts:5-15 | registration fails with exactly the error initialisation gives; otherwise it yields a fresh, consistent plugin holding the initial client, with one construction logged for the options form and none for a supplied client |
| `Plugin.StripePlugin.constructor` | lib/index.ts:6-15 | both client slots hold the initial client; the construction log is empty for a supplied client and holds (key, options) otherwise |
| `Plugin.StripePlugin.SetApiKey` | lib/index.ts:18-26 | a non-string key throws a message built from its `typeof` and changes nothing; with a supplied client it returns the attached client and changes nothing; otherwise both slots become `Client(newKey, original options)`, that client is returned, and exactly one construction is logged |
| `Plugin.StripePlugin.EnsureCustomer` | lib/index.ts:28-63 | `ensureCustomer` runs against the provider of the client the plugin holds at the time of the call |
| `Plugin.RotatedKeyIsUsed` | lib/index.ts:23-34 | after a rotation on a key-and-options plugin, the client returned is built from the new key and the original options, and `ensureCustomer` uses that client |
| `Plugin.SuppliedClientIsKept` | lib/index.ts:21 | with a supplied client, `setApiKey` returns that same client and `ensureCustomer` keeps using it |
| `Customers.BuildSearchQuery` | lib/index.ts:44-50 | the loop that appends one clause per metadata key yields exactly the search expression `SearchExpression` |
| `Customers.SearchExpressionAppendsInKeyOrder` | lib/index.ts:45-49 | adding a metadata key appends exactly its ` AND metadata["k"]:"v"` clause at the end, so the clauses follow key order |
| `Customers.SearchExpressionWithoutMetadata` | lib/index.ts:44 | without a metadata object the expression is only `field~"text"`, and a field the parameters do not set renders as `undefined` |
| `Customers.ClauseCountMatchesKeys` | lib/index.ts:44-49 | when nothing contains a quote, the expression has 2 + 4·(number of keys) quote characters, so there is one AND clause per key |
| `Customers.UnescapedValuesCollide` | lib/index.ts:48 | values are not escaped: for any keys and values, a single key whose value closes its own quote and spells out a second clause sends exactly the expression of the two-key query |
| `Customers.FieldText` | lib/index.ts:44 | `String(params[field])`: the field's text when the parameters set it, and `"undefined"` when they do not |
| `Customers.SearchExpression` | lib/index.ts:44-49 | the expression sent to `search` always begins with the field clause `field~"text"`; `BuildSearchQuery` computes it, and `SearchExpressionAppendsInKeyOrder`, `SearchExpressionWithoutMetadata`, `ClauseCountMatchesKeys` and `UnescapedValuesCollide` state its shape |
| `Customers.DeletedMessage` | lib/index.ts:35 | the error thrown for a deleted record contains the customer id; `DeletedCustomerFallsBack` shows it is swallowed |
| `Customers.TryExisting` | lib/index.ts:33-41 | the `try` block's calls are retrieve of the id, optionally followed by update of that id with the parameters' metadata; the update happens iff the record is live and the metadata is an object; a result comes out only for a live record. `TryExistingFailures`, `LiveCustomerMetadataReplaced` and `LiveCustomerReturnedUnchanged` state the outcomes |
| `Customers.Fallback` | lib/index.ts:42-60 | without a query the only call is create; with one, the first call is search with `SearchExpression`, followed at most by create; an error it throws is the one thrown by its last call. `FallbackWithoutQueryCreates` and `FallbackWithQuery` state the outcomes |
| `Customers.EnsureCustomer` | lib/index.ts:28-63 | the run makes one to four calls and starts with retrieve of the id when the id is a string, and with create otherwise; `NoCustomerIdOnlyCreates`, `TryFailureIsSwallowed`, `TryErrorNeverObservable`, `CallTallies` and `ErrorsComeFromSearchOrCreate` state the rest |
| `Customers.NoCustomerIdOnlyCreates` | lib/index.ts:29-30 | without a string id the only call is `create(params)` and its outcome is the result |
| `Customers.LiveCustomerMetadataReplaced` | lib/index.ts:34-38 | for a live record and object metadata (`null` included), the calls are exactly retrieve, then update with `{metadata: params.metadata}` whatever the record held, and the update's record is returned |
| `Customers.LiveCustomerReturnedUnchanged` | lib/index.ts:34-40 | for a live record and no object metadata, the retrieved record is returned and retrieve is the only call |
| `Customers.TryExistingFailures` | lib/index.ts:33-41 | the `try` block fails iff retrieve throws, the record is deleted, or the metadata update throws |
| `Customers.TryFailureIsSwallowed` | lib/index.ts:33-42 | whenever the `try` block fails, the result is exactly the fallback's outcome, after the calls the `try` block made |
| `Customers.TryErrorNeverObservable` | lib/index.ts:33-42 | two providers that differ only in retrieve and update and both fail the `try` block give the same outcome: no `try` error reaches the caller |
| `Customers.DeletedCustomerFallsBack` | lib/index.ts:34-43 | a deleted record makes the `try` block throw an error naming the id, which is swallowed: the run is retrieve followed by the fallback |
| `Customers.FallbackWithoutQueryCreates` | lib/index.ts:58-60 | the fallback without a query makes exactly one create and no search |
| `Customers.FallbackWithQuery` | lib/index.ts:43-57 | the fallback with a query makes exactly one search with the built expression; a match returns `data[0]` with no create, no match leads to exactly one create, and a search error propagates |
| `Customers.CallTallies` | lib/index.ts:28-63 | per kind, the run makes one retrieve per string id, an update only for a live record with object metadata, a search only in the fallback with a query, and exactly one create when there is no id or the fallback finds nothing, else none |
| `Customers.ErrorsComeFromSearchOrCreate` | lib/index.ts:42-60 | every error the caller sees is the one thrown by the run's last call, and that call is a search or a create |

## Left out

- The payment SDK: HTTP, retries, the meaning of the search language, and client behaviour. It is a foreign library, so it appears only as the oracle `Provider` and the constructor value `Client`.
- Plugin registration with the host: `decorate`, the tools namespace and the plugin metadata (lib/index.ts:15, 65-77). This is framework plumbing with no behaviour to state.
- Type declarations and module augmentation (lib/index.ts:79-105). These are compile-time only. `CustomerQuery` shapes the datatype of the same name. The required `ref` and `application` keys of `CustomerMetaData` are not enforced.
- `async`/`await` scheduling and races between `setApiKey` and in-flight `ensureCustomer` calls. Each call is modelled as sequential.
- Plugin.Initialise: the client constructor is taken to succeed on every key and options the plugin's own checks accept. The SDK validates its configuration and may throw (an array passes the check at lib/index.ts:11); such throws are not modelled.
- Plugin.Register: the same assumption; a registration the SDK's constructor would reject is modelled as succeeding.
- Plugin.StripePlugin.SetApiKey: the same assumption for the construction at lib/index.ts:23; a new key the SDK would reject is modelled as accepted.
- The `instanceof` probe. The tagged configuration union replaces it.
- Object identity of clients. A client is the value (key, options), so two constructions from the same pair are indistinguishable. The ghost construction log records how many were made.
- Host writes to its attached client. The model keeps the host slot equal to the closure's variable, which is what the plugin itself maintains.
- Provider answers that depend on earlier calls. Each operation is a function of its arguments, which is exact for one run, since each kind of call happens at most once.
- `null` as the query or as the query's metadata. The declared types exclude both. At run time either would throw a TypeError inside the `catch` block.
- Creation parameters other than the string-valued fields and `metadata`. They reach `create` as part of the record. `String(params[field])` is modelled for the string-valued fields a query may name, with `undefined` for a field that is not set.
- JavaScript values beyond those `typeof` distinguishes here. Non-integer numbers, `bigint` and `symbol` are not modelled.
- The order keys come out of `Object.keys`. The query's metadata is a sequence in that order.
