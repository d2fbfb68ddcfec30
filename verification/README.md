# Orbiting client core in Dafny

A model of the Node client for Orbiting, a remote-configuration service.
An application declares a configuration schema, and optionally a layout,
through a builder and opens a connection. Construction builds the initial
configuration snapshot from the schema's defaults. `init` then pushes the
schema and the layout to the server, skipping a push when a content-hash
cache says the object has not changed since the last call that found it
new, whether or not that push succeeded. Finally it
either polls the configuration endpoint (fetch mode) or hands over to a
websocket client that streams configurations (live mode).

Modules:

- `Wrappers` (`wrappers.dfy`): `Option`, `Result` and `Outcome`.
- `Json` (`json.dfy`): JSON values.
- `Schema` (`schema.dfy`): the schema as an ordered sequence of named
  top-level properties, and the JSON object it stands for.
- `SchemaDefaults` (`generate_defaults.dfy`): `generateDefaultsFromSchema`.
  It is a loop proved against the reference function `Defaults`.
- `ObjectCache` (`object_cache.dfy`):
  - the bounded upward walk for `node_modules`, which is a loop proved
    against `FindNodeModules`;
  - the cache folder it creates;
  - the hash store. The `Store` class holds the cache folder's files, and
    `IsNewCacheObject` updates them in place.
- `OrbitingClient` (`orbiting_client.dfy`):
  - the `Client` class. Its fields are the ones the source updates: the
    snapshot, `isInitialized`, the interval and the cache-key parts.
  - the `Builder` class.
  - `SendSettingsSpec`, the reference definition of the settings push.

HTTP replies, the hash function, the filesystem and the token payload are
inputs. Every observable interaction is appended to the client's `effects`
in order: a POST or GET, a `configUpdate` emission, a websocket connect or
close, arming or clearing the interval. The client's invariant `Valid`
says four things:
- the snapshot is the last configuration emitted, or the defaults before
  any;
- an interval is armed only in fetch mode, after `init`;
- it has the configured period;
- a websocket client exists exactly in live mode.

Behaviour of the code that the model keeps, and proves:

- `isNewCacheObject` writes the new hash as soon as it finds the object
  new (`src/utils/object-cache.ts:75-82`). `sendSettings` makes the POST
  only after that (`src/orbiting-client.ts:161-168`). A failed POST
  therefore still leaves the hash recorded, and the next call with the same
  schema skips the push (`StaleHashAfterFailedPush`).
- The cache key is `<purpose>-<tokenType>-<tokenIdPart>`, and
  `tokenIdPart` is only the last six characters of the token's `token`
  claim (`src/orbiting-client.ts:112-113,153-155`). Two different tokens
  of the same type that end alike therefore share a cache slot
  (`CredentialsCanShareSlot`).
- `path.join` reads a `/` inside the key as a directory separator
  (`src/utils/object-cache.ts:61`). That puts the cache file in a
  subdirectory that is never created. With a `/` in the token type or the
  last six characters of the token, reading and writing that file both
  fail. The object is then new on every call, and the schema is POSTed
  every time (`SlashInTokenDisablesCache`).
- `parseJwtPayload` (`src/utils/parse-jwt-payload.ts:2-9`) returns `null`
  when the token has no second segment. It throws when that segment does
  not parse as JSON. It is called outside any `try`
  (`src/orbiting-client.ts:107`), so the throw leaves the constructor. The
  decoder's three outcomes are the input `TokenPayload` (`NoPayload`,
  `Decoded`, `Undecodable`). An `Undecodable` payload makes construction
  fail with its cause, and there are no token parts at all.

## Model

| member | source | states |
|---|---|---|
| Schema.PropertyValueCarriesDefault | src/types/schema.ts:25-54 | a well-formed property object is sent with its `type`, its other keys, and a `default` exactly when generation of the defaults sees one, with the same value |
| Schema.SchemaFields | src/orbiting-client.ts:161-168 | the JSON object of the schema, which is hashed and sent as `properties`, has exactly the schema's property names as keys |
| SchemaDefaults.MissingDefault.Message | src/utils/generate-defaults-from-schema.ts:11-13 | the error message carries the offending property's name right after `Property "` |
| SchemaDefaults.GenerateDefaults | src/utils/generate-defaults-from-schema.ts:4-23 | the loop returns exactly the reference result: the record of defaults, or the error for the first property without one |
| SchemaDefaults.DefaultsErrPersists | src/utils/generate-defaults-from-schema.ts:9-14 | once some prefix of the entries fails, the whole schema fails with that same error; the throw ends the loop |
| SchemaDefaults.DefaultsSucceedIff | src/utils/generate-defaults-from-schema.ts:9-19 | generation succeeds if and only if every property has a defined default, and then the record's keys are exactly the property names |
| SchemaDefaults.DefaultsCopyValues | src/utils/generate-defaults-from-schema.ts:19 | every property name maps to exactly that property's default, copied verbatim |
| SchemaDefaults.DefaultsNameFirstMissing | src/utils/generate-defaults-from-schema.ts:10-14 | when some default is undefined, the error names the first such property in entry order, and all the properties before it have defaults |
| SchemaDefaults.DefaultsIgnoreNestedProperties | src/utils/generate-defaults-from-schema.ts:16-19 | two schemas with the same names and defaults give the same result, whatever their types and nested properties |
| SchemaDefaults.EmptySchemaEmptyDefaults | src/utils/generate-defaults-from-schema.ts:7-22 | an empty schema gives an empty record |
| SchemaDefaults.DefaultsExamples | src/utils/generate-defaults-from-schema.test.ts:6-26 | the test's three cases hold (`{foo:'bar'}`, `{foo:'bar', bar:42}`, and the error for a property without a default); `null`, `false`, `0` and `""` count as defined and are copied |
| ObjectCache.GetNodeModules | src/utils/object-cache.ts:19-45 | the loop returns the reference walk with a budget of MAX_WALK_COUNT = 10, and an absolute answer names an existing directory |
| ObjectCache.FindSeesEveryAncestor | src/utils/object-cache.ts:23-37 | the walk misses nothing within reach: if the directory `k` levels up has a `node_modules`, `k` is below the budget and no directory from the start up to it is `/`, the walk returns the `node_modules` of some directory at most `k` levels up |
| ObjectCache.ProbesClimb | src/utils/object-cache.ts:20-37 | the walk looks in at most `budget` directories, never in `/`; each directory is the parent of the one before, starting from the install directory |
| ObjectCache.FindReturnsFirstHit | src/utils/object-cache.ts:23-44 | the walk returns an absolute path if and only if the last directory it looked in has a `node_modules`, and then returns that one; no earlier directory has one; otherwise it returns `./node_modules` |
| ObjectCache.FindAgrees | src/utils/object-cache.ts:23-37 | the walk depends only on whether the directories it looks in have a `node_modules` |
| ObjectCache.FindAfterOneNew | src/utils/object-cache.ts:23-44 | a walk that found nothing, repeated after at most one new `node_modules` appeared among the directories it looks in, finds nothing or exactly that one |
| ObjectCache.CreatedHasNoOtherNodeModules | src/utils/object-cache.ts:48-50 | creating `.cache/orbiting` below a `node_modules` adds no `node_modules` to any directory deeper than the one it sits in |
| ObjectCache.GetCacheFolder | src/utils/object-cache.ts:47-53 | `mkdir -p` adds exactly the folder and its missing ancestors; when the working directory exists, the path returned after the second walk is the folder that was created |
| ObjectCache.SecondWalkSameFolder | src/utils/object-cache.ts:48-52 | the second walk's `.cache/orbiting` resolves to the folder the first walk's `mkdir` created |
| ObjectCache.SecondWalkAfterHit | src/utils/object-cache.ts:48-52 | when the first walk found a `node_modules`, creating the cache folder below it leaves the walk's answer unchanged |
| ObjectCache.SecondWalkAfterFallback | src/utils/object-cache.ts:39-52 | when the first walk fell back to `./node_modules`, the second walk answers `./node_modules` or the `node_modules` just created in the working directory |
| ObjectCache.CacheFileNameInjective | src/utils/object-cache.ts:61 | distinct keys give distinct `latest-<key>-hash.txt` file names |
| ObjectCache.Store.constructor | src/utils/object-cache.ts:7-14 | the store is created with the hashing library (or none when its import failed), whether writes succeed, and the folder's files |
| ObjectCache.Store.IsNewCacheObject | src/utils/object-cache.ts:55-83 | the answer and the folder's new files are those of the reference `Consult` |
| ObjectCache.ConsultFailsOpen | src/utils/object-cache.ts:56-58 | without the hashing library every object is new and no file is read or written |
| ObjectCache.ConsultCompares | src/utils/object-cache.ts:60-82 | an object is new if and only if no readable stored hash equals its hash; an unchanged object leaves the files alone; a new one is recorded under its key when writing succeeds; a failed write leaves the files as they were and still answers new; a key containing `/` names a file in a missing subdirectory, so its object is always new and nothing is recorded |
| ObjectCache.ConsultTouchesOnlyKey | src/utils/object-cache.ts:61-80 | the stored hash of every other key is unchanged |
| ObjectCache.ConsultTwice | src/utils/object-cache.ts:60-82 | on an empty slot, two calls with the same object answer new, then unchanged exactly when the key has no `/`; with a differently hashed object the second call answers new |
| ObjectCache.ConsultUnwritableAlwaysNew | src/utils/object-cache.ts:75-82 | when the cache file cannot be written, an unseen object stays new on every call |
| OrbitingClient.WebsocketUrl | src/orbiting-client.ts:133-138 | `https:` becomes `wss:` and `http:` becomes `ws:`; `wss:` is produced only from a secure base; host and query are kept; `/ws` is appended to the path |
| OrbitingClient.Client.Init | src/orbiting-client.ts:91-100 | a new client is not initialized, has no interval, has made no requests, and its snapshot is the given defaults |
| OrbitingClient.Client.Create | src/orbiting-client.ts:102-146 | construction fails with the decoder's error, or else with the missing-default error; otherwise the snapshot is the schema defaults and the cache-key parts come from the payload; the mode defaults to fetch; fetch mode has no websocket client; live mode's websocket client uses the URL derived from the base URL (default `https://orbiting.app/api`) and the token |
| OrbitingClient.Client.Config | src/orbiting-client.ts:148-150 | the getter returns the last configuration emitted, or the defaults when none was |
| OrbitingClient.Client.SendSettings | src/orbiting-client.ts:152-191 | its settlement, the stored hashes and the requests it makes are those of the reference `SendSettingsSpec` |
| OrbitingClient.Client.PushIfNew | src/orbiting-client.ts:161-180 | one gated block (the schema's or the layout's): it consults the cache only when caching is on, POSTs when told to, and translates a failed POST |
| OrbitingClient.Client.FetchConfig | src/orbiting-client.ts:193-213 | it makes one GET; on success the snapshot is replaced wholesale by the body and emitted; on failure the snapshot is unchanged and the error is translated with `Failed to update the config: ` |
| OrbitingClient.Client.Initialize | src/orbiting-client.ts:215-244 | a second call fails with `Client is already initialized` and changes nothing; a first call does what `Start` states |
| OrbitingClient.Client.Start | src/orbiting-client.ts:220-244 | a failed settings push is surfaced and the client stays uninitialized; otherwise the client is initialized even if the fetch later fails; fetch mode GETs once, then arms the interval of `(fetchFrequencySecs ?? 1800) * 1000` ms only if that GET succeeded; live mode connects the websocket client |
| OrbitingClient.Client.Dispatch | src/orbiting-client.ts:225-243 | in fetch mode the first fetch comes before the interval is armed, and a failed fetch arms none; in live mode the effect is one connect |
| OrbitingClient.Client.PollTick | src/orbiting-client.ts:229-232 | each tick of an armed interval runs one fetch with the same effect on the snapshot as `fetchConfig` |
| OrbitingClient.Client.ReceiveLiveConfig | src/orbiting-client.ts:239-243 | in live mode after `init`, an emitted configuration becomes the snapshot |
| OrbitingClient.Client.Close | src/orbiting-client.ts:246-255 | it closes the websocket client if there is one, and clears the interval if one is armed; afterwards no interval is armed, so a second call clears nothing; it is allowed before `init` |
| OrbitingClient.Builder.constructor | src/orbiting-client.ts:46-49 | a new builder has an empty schema and no layout |
| OrbitingClient.Builder.WithSchema | src/orbiting-client.ts:51-59 | the schema is replaced and the same builder is returned |
| OrbitingClient.Builder.WithLayout | src/orbiting-client.ts:61-64 | the layout becomes the array of the given sections (truthy even when empty) and the same builder is returned |
| OrbitingClient.Builder.CreateConnection | src/orbiting-client.ts:66-76 | a connection is created if and only if construction succeeds, and a failed construction touches no cache file; the client carries the builder's settings, schema and layout; it is initialized exactly when the settings push succeeded; a failed push is the pending `init` result |
| OrbitingClient.SendSettingsSteps | src/orbiting-client.ts:157-180 | the push is the schema step, then (unless that failed, and only if there is a layout) the layout step, which sees the hashes the schema step stored |
| OrbitingClient.TokenParts | src/orbiting-client.ts:107-113 | `tokenType` is the payload's string `tokenType` claim, else `dev`; `tokenIdPart` is the last six characters of its string `token` claim, or all of it when shorter, else `unset` |
| OrbitingClient.NoClaimsPlaceholders | src/orbiting-client.ts:99-113 | for a token without a payload segment, or with a payload that is not an object, the parts are `dev` and `unset` |
| OrbitingClient.PurposesNeverCollide | src/orbiting-client.ts:153-155 | the schema's and the layout's cache keys differ whatever the token parts |
| OrbitingClient.CredentialsCanShareSlot | src/orbiting-client.ts:112-113 | two different tokens ending in the same six characters get the same cache key |
| OrbitingClient.TranslateKeepsCause | src/orbiting-client.ts:181-190 | an HTTP error with a response becomes an `OrbitingError` whose message is the prefix followed by the server's `error` text (`undefined` when absent); any other error is rethrown unchanged |
| OrbitingClient.SchemaPushGate | src/orbiting-client.ts:158-168 | the schema is POSTed first, and exactly when schema caching is off or the cache reports it new; it is POSTed at most once; with schema caching off its stored hash is neither read nor written |
| OrbitingClient.LayoutPushLast | src/orbiting-client.ts:170-180 | a layout POST is the last request, carries the layout, and happens only when there is a layout and the schema step completed |
| OrbitingClient.LayoutPushGate | src/orbiting-client.ts:170-177 | once the schema step completed, a present layout is POSTed exactly when layout caching is off or the cache, as it stood before the call, reports it new |
| OrbitingClient.LayoutHashUntouched | src/orbiting-client.ts:170-177 | without a layout, or with layout caching off, the layout's stored hash is neither read nor written |
| OrbitingClient.SendSettingsOutcome | src/orbiting-client.ts:157-190 | at most two requests, all POSTs; the push succeeds exactly when every POST it made succeeded; a failure is the translation of the last POST's error, and nothing follows it |
| OrbitingClient.StaleHashAfterFailedPush | src/orbiting-client.ts:161-168 | with caching on and a key without `/`, a failed first push of a schema still stores its hash, so the next push of the same schema is skipped |
| OrbitingClient.SlashInTokenDisablesCache | src/utils/object-cache.ts:61-82 | with a `/` in the token parts, every call POSTs the schema first and leaves its stored hash as it was |

## Left out

- The websocket client: `src/websocket-handler.ts` is commented out and `WebSocketClient` is not part of this model. The client is a value holding its URL and the token. `connect()` and `close()` are effects, the configurations it emits are inputs to `ReceiveLiveConfig`, and the `websocket` options are not modelled.
- URL parsing and serialisation: the base URL is given already parsed. A base URL that `new URL` rejects, percent-encoding by the `pathname` setter and `toString()` are not modelled. An absent base URL and an empty string (both replaced by `||`) are the same `None`.
- HTTP: each request's settlement is an input, and only the path and body of a request are recorded. The `Authorization` header and the axios instance are not modelled. A server `error` field that is not a string is not modelled: it is either a string or absent.
- Events and logging: emissions are recorded as effects. The `error` listener that only logs, all logging, and listeners an application adds or removes are not modelled.
- Timers: the interval is a value holding its period, and its ticks are calls to `PollTick`. A tick's failure is returned, where the source leaves it as an unhandled rejection.
- OrbitingClient.PollPeriodMs: it is the raw `(fetchFrequencySecs ?? 1800) * 1000`. Node's `setInterval` turns a delay above 2^31-1 ms, or below 1 ms, into 1 ms. That clamping is not modelled.
- Unawaited `init`: `createConnection` does not await `init()` (`src/orbiting-client.ts:73`), so a failed `init` is an unhandled rejection in the source. The model returns it as `pendingInit`.
- Aliasing:
  - The `config` getter and the `configUpdate` event hand out the live snapshot object (`src/orbiting-client.ts:149,212`).
  - The defaults record shares nested default objects with the schema (`src/utils/generate-defaults-from-schema.ts:19`).
  - `settings.mode ??= 'fetch'` writes into the caller's settings object (`src/orbiting-client.ts:127`).
  - In the model these are immutable values. A caller that mutates them, and so changes the snapshot, the schema or its hash, is not modelled.
- OrbitingClient.Translate: a failed response whose body `data` is `null` or absent makes `err.response.data.error` throw a `TypeError` inside the `catch` (`src/orbiting-client.ts:188,205`). The model's `ErrorResponse` always has a body, so it always becomes an `OrbitingError`.
- OrbitingClient.SliceLast: `slice(-6)` counts UTF-16 code units, while the model counts characters. For a token whose last characters lie outside the Basic Multilingual Plane, the model's six characters are more than the source's six code units.
- Concurrency: calls run one at a time. Two overlapping `init` calls are not modelled, and neither is a `close` that lands while `init` is still awaiting (which in the source arms the interval after the close).
- Token decoding: the splitting of the token at `.`, base64 decoding and JSON parsing are not modelled. The decoder's outcome is an input.
- Hashing: `object-hash` is an arbitrary function from JSON values to strings, and hash collisions are not reasoned about.
- Filesystem:
  - the cache folder's files are a map from file name to content;
  - an unreadable file is absent;
  - whether writes succeed is fixed per store;
  - `mkdirSync` failing is not modelled;
  - the directories that exist are a set, so a plain file named `node_modules`, which `existsSync` would also accept, is not distinguished.
- `isNewCacheObject` re-resolving the cache folder: the source walks and creates the folder on every call. The `Store` works on one fixed folder, and that resolution is modelled by `GetCacheFolder` on its own.
- ObjectCache.ConsultTouchesOnlyKey: cache file names are compared as exact strings and are never too long. Two cases are not modelled.
  - On a filesystem that ignores letter case (the default on macOS and Windows), keys that differ only in case name the same file. Two tokens whose last six characters differ only in case then share a slot, and one call rewrites the other's stored hash.
  - A file name longer than the filesystem's name limit makes both the read and the write fail, so such an object would be new on every call.
- Paths: they are normalised segment lists with a root. `..` segments, symbolic links and platform-specific separators are not modelled. Every key containing `/` is taken to name a file in a missing subdirectory. A key whose `..` segments `path.join` cancels back into the cache folder is not modelled.
- Numbers: JSON numbers are reals, and `fetchFrequencySecs` is an integer. Fractional seconds are not modelled.
- Type-level code: `src/types/`, `src/json-schema-infer.ts` and `src/errors.ts` have no runtime behaviour beyond the error constructors of `Failure`.
- The legacy JavaScript client in `lib/` is not part of this model. It replaces the path with `/ws` where the core appends `/ws`.
- OrbitingClient.Builder.CreateConnection: it states the new client's state only through `isInitialized` and the cache files. The full trace of requests made by the `init` it starts is the contract of `Client.Initialize`.
