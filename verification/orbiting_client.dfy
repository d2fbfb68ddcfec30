/**
 * The client controller: it holds the configuration snapshot, pushes the
 * schema and layout (de-duplicated through the object cache), then either
 * polls the configuration endpoint or hands over to the real-time channel.
 *
 * HTTP, timers and the websocket client are collaborators: each request's
 * settlement is an input (`Reply`), and every observable interaction is
 * appended, in order, to the client's `effects`.
 */
module OrbitingClient {
  import opened Wrappers
  import opened Json
  import opened Schema
  import SchemaDefaults
  import ObjectCache

  // ---------------------------------------------------------------------------
  // Constants
  // ---------------------------------------------------------------------------

  const SCHEMA_PATH := "/apps/schema"
  const LAYOUT_PATH := "/apps/layout"
  const CONFIG_PATH := "/apps/config"
  const SETTINGS_ERROR_PREFIX := "Failed to push new application settings: "
  const FETCH_ERROR_PREFIX := "Failed to update the config: "
  const ALREADY_INITIALIZED := "Client is already initialized"
  const DEFAULT_TOKEN_TYPE := "dev"
  const DEFAULT_TOKEN_ID_PART := "unset"
  const TOKEN_ID_LENGTH := 6
  const DEFAULT_FETCH_FREQUENCY_SECS := 60 * 30

  // ---------------------------------------------------------------------------
  // URLs
  // ---------------------------------------------------------------------------

  /** A parsed URL (`new URL(...)`): scheme with its colon, host, path and query. */
  datatype Url = Url(protocol: string, host: string, pathname: string, search: string)

  const API_BASE_URL := Url("https:", "orbiting.app", "/api", "")

  predicate IsSpecialScheme(p: string) {
    p in {"ftp:", "file:", "http:", "https:", "ws:", "wss:"}
  }

  /**
   * Assigning `url.protocol` a special scheme: the URL standard ignores the
   * assignment when the current scheme is not special, or is `file:` with an
   * empty host.
   */
  function SetProtocol(u: Url, p: string): Url
    requires IsSpecialScheme(p)
  {
    if IsSpecialScheme(u.protocol) && !(u.protocol == "file:" && u.host == "") then u.(protocol := p) else u
  }

  /** The websocket URL derived from the base URL: scheme rewritten, `/ws` appended to the path. */
  function WebsocketUrl(base: Url): (ws: Url)
    ensures base.protocol == "https:" ==> ws.protocol == "wss:"
    ensures base.protocol == "http:" ==> ws.protocol == "ws:"
    ensures ws.protocol == "wss:" ==> base.protocol in {"https:", "wss:"}
    ensures ws.host == base.host && ws.search == base.search
    ensures ws.pathname == base.pathname + "/ws"
  {
    var scheme := if base.protocol == "https:" then "wss:" else "ws:";
    SetProtocol(base, scheme).(pathname := base.pathname + "/ws")
  }

  // ---------------------------------------------------------------------------
  // Settings and collaborators
  // ---------------------------------------------------------------------------

  datatype Mode = FetchMode | LiveMode

  datatype CacheSettings = CacheSettings(schema: Option<bool>, layout: Option<bool>)

  /** The caller's settings; None stands for an omitted key. */
  datatype ClientSettings = ClientSettings(
    token: string,
    caching: Option<CacheSettings>,
    baseURL: Option<Url>,
    mode: Option<Mode>,
    fetchFrequencySecs: Option<int>)

  /**
   * The schema and the optional layout: `null` is None, and a layout is an
   * array of sections, which is truthy even when it is empty.
   */
  datatype AppSettings = AppSettings(schema: Schema, layout: Option<seq<Value>>)

  /** `caching?.schema ?? true` and `caching?.layout ?? true`. */
  function CacheSchema(caching: Option<CacheSettings>): bool {
    if caching.Some? then caching.value.schema.GetOr(true) else true
  }

  function CacheLayout(caching: Option<CacheSettings>): bool {
    if caching.Some? then caching.value.layout.GetOr(true) else true
  }

  /** The poll period in milliseconds: `(fetchFrequencySecs ?? 1800) * 1000`. */
  function PollPeriodMs(settings: ClientSettings): int {
    settings.fetchFrequencySecs.GetOr(DEFAULT_FETCH_FREQUENCY_SECS) * 1000
  }

  /** The decoded token payload: absent (no second segment), a JSON value, or a decoding failure. */
  datatype TokenPayload = NoPayload | Decoded(payload: Value) | Undecodable(cause: string)

  /** `payload?.[name]` when it is a string. */
  function StringClaim(payload: TokenPayload, name: string): Option<string> {
    if payload.Decoded? && payload.payload.Obj? && name in payload.payload.fields
       && payload.payload.fields[name].Str?
    then Some(payload.payload.fields[name].s)
    else None
  }

  /** `s.slice(-n)`: the last `n` characters, or all of `s` when it is shorter. */
  function SliceLast(s: string, n: nat): string {
    if |s| <= n then s else s[|s| - n..]
  }

  function TokenType(payload: TokenPayload): string {
    StringClaim(payload, "tokenType").GetOr(DEFAULT_TOKEN_TYPE)
  }

  function TokenIdPart(payload: TokenPayload): string {
    match StringClaim(payload, "token")
    case Some(t) => SliceLast(t, TOKEN_ID_LENGTH)
    case None => DEFAULT_TOKEN_ID_PART
  }

  /** `getCacheKey(purpose)`: `<purpose>-<tokenType>-<tokenIdPart>`. */
  function CacheKey(purpose: string, tokenType: string, tokenIdPart: string): string {
    purpose + "-" + tokenType + "-" + tokenIdPart
  }

  /** The websocket client: opaque here; its `connect()` and `close()` are effects. */
  datatype WsClient = WsClient(url: Url, token: string)

  /** How an HTTP request settles: a response, an HTTP error carrying the server's `error` field, or any other failure. */
  datatype Reply =
    | Response(body: Value)
    | ErrorResponse(serverError: Option<string>)
    | NoResponse(cause: string)

  /** What the client's operations throw. */
  datatype Failure =
    | OrbitingError(message: string)
    | SchemaError(message: string)
    | Rethrown(cause: string)

  /** How a missing `error` field is rendered in a message. */
  function ErrorText(serverError: Option<string>): string {
    serverError.GetOr("undefined")
  }

  /** The `catch` of `sendSettings` and `fetchConfig`: wrap an HTTP error, rethrow anything else unchanged. */
  function Translate(prefix: string, reply: Reply): Failure
    requires !reply.Response?
  {
    match reply
    case ErrorResponse(e) => OrbitingError(prefix + ErrorText(e))
    case NoResponse(cause) => Rethrown(cause)
  }

  /** An observable interaction, in the order it happens. */
  datatype Effect =
    | Post(path: string, body: Value)
    | Get(path: string)
    | ConfigUpdate(config: Value)
    | WsConnect
    | WsClose
    | ArmInterval(periodMs: int)
    | ClearInterval

  datatype Timer = Interval(periodMs: int)

  /** The snapshot after `effects`: the last configuration emitted, or `initial` when none was. */
  function LatestSnapshot(effects: seq<Effect>, initial: Value): Value {
    if effects == [] then initial
    else if effects[|effects| - 1].ConfigUpdate? then effects[|effects| - 1].config
    else LatestSnapshot(effects[..|effects| - 1], initial)
  }

  // ---------------------------------------------------------------------------
  // Pushing the schema and layout
  // ---------------------------------------------------------------------------

  function SchemaBody(schema: Schema): Value {
    Obj(map["type" := Str("object"), "properties" := SchemaValue(schema)])
  }

  function LayoutBody(layout: seq<Value>): Value {
    Obj(map["layout" := Arr(layout)])
  }

  /** The settlement, stored hashes and effects of one `sendSettings` call. */
  datatype Push = Push(outcome: Outcome<Failure>, entries: map<string, ObjectCache.Hash>, effects: seq<Effect>)

  /** `!caching || isNewCacheObject(key, obj)`: whether to POST, and the stored hashes afterwards. */
  function Gate(caching: bool, hashFn: Option<Value -> ObjectCache.Hash>, writable: bool,
                entries: map<string, ObjectCache.Hash>, key: string, obj: Value): (bool, map<string, ObjectCache.Hash>)
  {
    if caching then ObjectCache.Consult(hashFn, writable, entries, key, obj) else (true, entries)
  }

  /** One gated POST of `sendSettings`: whether the cache gates it, the cache key and hashed object, and the request. */
  datatype Request = Request(caching: bool, key: string, obj: Value, path: string, body: Value, reply: Reply)

  /** The stored hashes after one gated POST, its effects, and its failure if the POST failed. */
  datatype Step = Step(entries: map<string, ObjectCache.Hash>, effects: seq<Effect>, failure: Option<Failure>)

  /** Consult the gate for the request's object; if it says push, POST and translate a failed reply. */
  function PushStep(req: Request, hashFn: Option<Value -> ObjectCache.Hash>, writable: bool,
                    entries: map<string, ObjectCache.Hash>): Step
  {
    var (push, after) := Gate(req.caching, hashFn, writable, entries, req.key, req.obj);
    if !push then Step(after, [], None)
    else if req.reply.Response? then Step(after, [Post(req.path, req.body)], None)
    else Step(after, [Post(req.path, req.body)], Some(Translate(SETTINGS_ERROR_PREFIX, req.reply)))
  }

  /** The requests in order, each seeing the hashes the previous ones stored; the first failed POST ends the run. */
  function PushAll(requests: seq<Request>, hashFn: Option<Value -> ObjectCache.Hash>, writable: bool,
                   entries: map<string, ObjectCache.Hash>): Push
    decreases |requests|
  {
    if requests == [] then Push(Done, entries, [])
    else
      var step := PushStep(requests[0], hashFn, writable, entries);
      if step.failure.Some? then Push(Failed(step.failure.value), step.entries, step.effects)
      else
        var rest := PushAll(requests[1..], hashFn, writable, step.entries);
        Push(rest.outcome, rest.entries, step.effects + rest.effects)
  }

  function SchemaRequest(app: AppSettings, caching: Option<CacheSettings>, tokenType: string, tokenIdPart: string,
                         reply: Reply): Request
  {
    Request(CacheSchema(caching), CacheKey("schema", tokenType, tokenIdPart), SchemaValue(app.schema),
            SCHEMA_PATH, SchemaBody(app.schema), reply)
  }

  function LayoutRequest(layout: seq<Value>, caching: Option<CacheSettings>, tokenType: string, tokenIdPart: string,
                         reply: Reply): Request
  {
    Request(CacheLayout(caching), CacheKey("layout", tokenType, tokenIdPart), Arr(layout),
            LAYOUT_PATH, LayoutBody(layout), reply)
  }

  /** The schema request, followed by the layout request when there is a layout. */
  function SettingsRequests(app: AppSettings, caching: Option<CacheSettings>, tokenType: string, tokenIdPart: string,
                            schemaReply: Reply, layoutReply: Reply): seq<Request>
  {
    [SchemaRequest(app, caching, tokenType, tokenIdPart, schemaReply)]
    + (if app.layout.Some? then [LayoutRequest(app.layout.value, caching, tokenType, tokenIdPart, layoutReply)] else [])
  }

  /**
   * Reference definition of `sendSettings`: consult the cache for the schema
   * (unless schema caching is off), POST it if new, then do the same for the
   * layout when there is one. The first failing POST ends the call.
   */
  function SendSettingsSpec(app: AppSettings, caching: Option<CacheSettings>,
                            tokenType: string, tokenIdPart: string,
                            hashFn: Option<Value -> ObjectCache.Hash>, writable: bool,
                            entries: map<string, ObjectCache.Hash>,
                            schemaReply: Reply, layoutReply: Reply): Push
  {
    PushAll(SettingsRequests(app, caching, tokenType, tokenIdPart, schemaReply, layoutReply), hashFn, writable, entries)
  }

  /** `sendSettings` as its two steps: the schema step, then, unless it failed and if there is a layout, the layout step. */
  lemma {:induction false} SendSettingsSteps(app: AppSettings, caching: Option<CacheSettings>,
                                             tokenType: string, tokenIdPart: string,
                                             hashFn: Option<Value -> ObjectCache.Hash>, writable: bool,
                                             entries: map<string, ObjectCache.Hash>,
                                             schemaReply: Reply, layoutReply: Reply)
    ensures var p := SendSettingsSpec(app, caching, tokenType, tokenIdPart, hashFn, writable, entries,
                                      schemaReply, layoutReply);
            var s := PushStep(SchemaRequest(app, caching, tokenType, tokenIdPart, schemaReply), hashFn, writable, entries);
            && (s.failure.Some? ==> p == Push(Failed(s.failure.value), s.entries, s.effects))
            && (s.failure.None? && app.layout.None? ==> p == Push(Done, s.entries, s.effects))
            && (s.failure.None? && app.layout.Some? ==>
                  var l := PushStep(LayoutRequest(app.layout.value, caching, tokenType, tokenIdPart, layoutReply),
                                    hashFn, writable, s.entries);
                  p == Push(if l.failure.Some? then Failed(l.failure.value) else Done, l.entries, s.effects + l.effects))
  {
    var reqs := SettingsRequests(app, caching, tokenType, tokenIdPart, schemaReply, layoutReply);
    var schema := SchemaRequest(app, caching, tokenType, tokenIdPart, schemaReply);
    assert reqs[0] == schema;
    var s := PushStep(schema, hashFn, writable, entries);
    if s.failure.None? {
      if app.layout.Some? {
        var layout := LayoutRequest(app.layout.value, caching, tokenType, tokenIdPart, layoutReply);
        assert reqs[1..] == [layout];
        assert [layout][1..] == [];
        var l := PushStep(layout, hashFn, writable, s.entries);
        assert PushAll([layout], hashFn, writable, s.entries)
            == (if l.failure.Some? then Push(Failed(l.failure.value), l.entries, l.effects)
                else Push(Done, l.entries, l.effects + []));
        assert l.effects + [] == l.effects;
      } else {
        assert reqs[1..] == [];
        assert PushAll(reqs[1..], hashFn, writable, s.entries) == Push(Done, s.entries, []);
        assert s.effects + [] == s.effects;
      }
    }
  }

  predicate PostsTo(e: Effect, path: string) {
    e.Post? && e.path == path
  }

  /** The stored hash of `key`, as a cache file read would see it. */
  function Stored(entries: map<string, ObjectCache.Hash>, key: string): Option<ObjectCache.Hash> {
    var file := ObjectCache.CacheFileName(key);
    if file in entries then Some(entries[file]) else None
  }

  // ---------------------------------------------------------------------------
  // The client
  // ---------------------------------------------------------------------------

  class Client {
    const settings: ClientSettings
    const app: AppSettings
    const mode: Mode
    const wsClient: Option<WsClient>
    /** The process-wide object cache. */
    const cache: ObjectCache.Store
    /** The snapshot built from the schema's defaults at construction. */
    ghost const defaults: Value

    var tokenType: string
    var tokenIdPart: string
    var config: Value
    var isInitialized: bool
    var fetchInterval: Option<Timer>
    var effects: seq<Effect>

    ghost predicate Valid()
      reads this
    {
      && (wsClient.Some? <==> mode == LiveMode)
      && (fetchInterval.Some? ==>
            mode == FetchMode && isInitialized && fetchInterval.value == Interval(PollPeriodMs(settings)))
      && config == LatestSnapshot(effects, defaults)
    }

    constructor Init(settings: ClientSettings, app: AppSettings, mode: Mode, wsClient: Option<WsClient>,
                     cache: ObjectCache.Store, tokenType: string, tokenIdPart: string, defaults: Value)
      requires wsClient.Some? <==> mode == LiveMode
      ensures Valid()
      ensures this.settings == settings && this.app == app && this.mode == mode && this.wsClient == wsClient
      ensures this.cache == cache && this.tokenType == tokenType && this.tokenIdPart == tokenIdPart
      ensures this.defaults == defaults && config == defaults
      ensures !isInitialized && fetchInterval == None && effects == []
    {
      this.settings := settings;
      this.app := app;
      this.mode := mode;
      this.wsClient := wsClient;
      this.cache := cache;
      this.tokenType := tokenType;
      this.tokenIdPart := tokenIdPart;
      this.defaults := defaults;
      config := defaults;
      isInitialized := false;
      fetchInterval := None;
      effects := [];
    }

    /**
     * `new OrbitingClient(settings)`: derive the cache-key parts from the
     * token payload, build the snapshot from the schema defaults, resolve the
     * mode and, outside fetch mode, the websocket client.
     */
    static method Create(settings: ClientSettings, app: AppSettings, payload: TokenPayload,
                         cache: ObjectCache.Store)
      returns (r: Result<Client, Failure>)
      ensures payload.Undecodable? ==> r == Err(Rethrown(payload.cause))
      ensures !payload.Undecodable? && SchemaDefaults.Defaults(app.schema).Err? ==>
                r == Err(SchemaError(SchemaDefaults.Defaults(app.schema).error.Message()))
      ensures r.Ok? <==> !payload.Undecodable? && SchemaDefaults.Defaults(app.schema).Ok?
      ensures r.Ok? ==>
                var c := r.value;
                && fresh(c) && c.Valid()
                && c.settings == settings && c.app == app && c.cache == cache
                && c.config == Obj(SchemaDefaults.Defaults(app.schema).value)
                && c.tokenType == TokenType(payload) && c.tokenIdPart == TokenIdPart(payload)
                && c.mode == settings.mode.GetOr(FetchMode)
                && c.wsClient == (if c.mode == FetchMode then None
                                  else Some(WsClient(WebsocketUrl(settings.baseURL.GetOr(API_BASE_URL)), settings.token)))
                && !c.isInitialized && c.fetchInterval == None && c.effects == []
    {
      if payload.Undecodable? {
        return Err(Rethrown(payload.cause));
      }
      var tokenType := DEFAULT_TOKEN_TYPE;
      var tokenIdPart := DEFAULT_TOKEN_ID_PART;
      var tokenTypeClaim := StringClaim(payload, "tokenType");
      if tokenTypeClaim.Some? {
        tokenType := tokenTypeClaim.value;
      }
      var tokenClaim := StringClaim(payload, "token");
      if tokenClaim.Some? {
        tokenIdPart := SliceLast(tokenClaim.value, TOKEN_ID_LENGTH);
      }
      var defaults := SchemaDefaults.GenerateDefaults(app.schema);
      if defaults.Err? {
        return Err(SchemaError(defaults.error.Message()));
      }
      var baseURL := settings.baseURL.GetOr(API_BASE_URL);
      var mode := settings.mode.GetOr(FetchMode);
      var wsClient: Option<WsClient> := None;
      if mode != FetchMode {
        wsClient := Some(WsClient(WebsocketUrl(baseURL), settings.token));
      }
      var c := new Client.Init(settings, app, mode, wsClient, cache, tokenType, tokenIdPart, Obj(defaults.value));
      return Ok(c);
    }

    /** The `config` getter: the last configuration emitted, or the defaults before any. */
    function Config(): (c: Value)
      reads this
      requires Valid()
      ensures c == LatestSnapshot(effects, defaults)
    {
      config
    }

    /** `sendSettings`: push the schema, then the layout, each gated by the cache. */
    method SendSettings(schemaReply: Reply, layoutReply: Reply) returns (r: Outcome<Failure>)
      modifies this`effects, cache
      ensures var p := SendSettingsSpec(app, settings.caching, tokenType, tokenIdPart,
                                        cache.hashFn, cache.writable, old(cache.entries),
                                        schemaReply, layoutReply);
              r == p.outcome && cache.entries == p.entries && effects == old(effects) + p.effects
    {
      SendSettingsSteps(app, settings.caching, tokenType, tokenIdPart, cache.hashFn, cache.writable, cache.entries,
                        schemaReply, layoutReply);
      var failure := PushIfNew(SchemaRequest(app, settings.caching, tokenType, tokenIdPart, schemaReply));
      if failure.Some? {
        return Failed(failure.value);
      }
      if app.layout.Some? {
        failure := PushIfNew(LayoutRequest(app.layout.value, settings.caching, tokenType, tokenIdPart, layoutReply));
        if failure.Some? {
          return Failed(failure.value);
        }
      }
      return Done;
    }

    /** One of the two blocks of `sendSettings`: POST unless caching is on and the cache has seen the object. */
    method PushIfNew(req: Request) returns (failure: Option<Failure>)
      modifies this`effects, cache
      ensures var step := PushStep(req, cache.hashFn, cache.writable, old(cache.entries));
              failure == step.failure && cache.entries == step.entries && effects == old(effects) + step.effects
    {
      var push := true;
      if req.caching {
        push := cache.IsNewCacheObject(req.key, req.obj);
      }
      failure := None;
      if push {
        effects := effects + [Post(req.path, req.body)];
        if !req.reply.Response? {
          failure := Some(Translate(SETTINGS_ERROR_PREFIX, req.reply));
        }
      }
    }

    /** `fetchConfig`: GET the configuration; on success replace the snapshot wholesale and emit it. */
    method FetchConfig(reply: Reply) returns (r: Outcome<Failure>)
      requires Valid()
      modifies this`config, this`effects
      ensures Valid()
      ensures reply.Response? ==>
                r == Done && config == reply.body
                && effects == old(effects) + [Get(CONFIG_PATH), ConfigUpdate(reply.body)]
      ensures !reply.Response? ==>
                r == Failed(Translate(FETCH_ERROR_PREFIX, reply)) && config == old(config)
                && effects == old(effects) + [Get(CONFIG_PATH)]
    {
      effects := effects + [Get(CONFIG_PATH)];
      if !reply.Response? {
        return Failed(Translate(FETCH_ERROR_PREFIX, reply));
      }
      config := reply.body;
      effects := effects + [ConfigUpdate(config)];
      return Done;
    }

    /**
     * `init`: refuse a second call; push the settings; then, in fetch mode,
     * fetch once and arm the poll interval, or, in live mode, connect the
     * websocket client and follow the configurations it emits.
     */
    method Initialize(schemaReply: Reply, layoutReply: Reply, fetchReply: Reply) returns (r: Outcome<Failure>)
      requires Valid()
      modifies this`isInitialized, this`fetchInterval, this`config, this`effects, cache
      ensures Valid()
      ensures old(isInitialized) ==>
                r == Failed(OrbitingError(ALREADY_INITIALIZED)) && unchanged(this) && unchanged(cache)
      ensures !old(isInitialized) ==> StartedAs(old(effects), old(config), old(fetchInterval), old(cache.entries),
                                                 schemaReply, layoutReply, fetchReply, r)
    {
      if isInitialized {
        return Failed(OrbitingError(ALREADY_INITIALIZED));
      }
      r := Start(schemaReply, layoutReply, fetchReply);
    }

    /**
     * What a first `init` leaves behind, given the state before it: the
     * settings push of `SendSettingsSpec`; if it failed, nothing more and the
     * client stays uninitialized; otherwise the client is initialized and, in
     * live mode, connects, or, in fetch mode, fetches once and arms the poll
     * interval only if that fetch succeeded.
     */
    ghost predicate StartedAs(effects0: seq<Effect>, config0: Value, interval0: Option<Timer>,
                              entries0: map<string, ObjectCache.Hash>,
                              schemaReply: Reply, layoutReply: Reply, fetchReply: Reply, r: Outcome<Failure>)
      reads this, cache
    {
      var p := SendSettingsSpec(app, settings.caching, tokenType, tokenIdPart,
                                cache.hashFn, cache.writable, entries0, schemaReply, layoutReply);
      && cache.entries == p.entries
      && (p.outcome.Failed? ==>
            r == p.outcome && !isInitialized && config == config0
            && fetchInterval == interval0 && effects == effects0 + p.effects)
      && (p.outcome.Done? ==> isInitialized)
      && (p.outcome.Done? && mode == LiveMode ==>
            r == Done && config == config0 && fetchInterval == interval0
            && effects == effects0 + p.effects + [WsConnect])
      && (p.outcome.Done? && mode == FetchMode && fetchReply.Response? ==>
            r == Done && config == fetchReply.body
            && fetchInterval == Some(Interval(PollPeriodMs(settings)))
            && effects == effects0 + p.effects
                          + [Get(CONFIG_PATH), ConfigUpdate(fetchReply.body), ArmInterval(PollPeriodMs(settings))])
      && (p.outcome.Done? && mode == FetchMode && !fetchReply.Response? ==>
            r == Failed(Translate(FETCH_ERROR_PREFIX, fetchReply)) && config == config0
            && fetchInterval == interval0 && effects == effects0 + p.effects + [Get(CONFIG_PATH)])
    }

    /** A first `init`: push the settings, mark the client initialized, then dispatch on the mode. */
    method Start(schemaReply: Reply, layoutReply: Reply, fetchReply: Reply) returns (r: Outcome<Failure>)
      requires Valid() && !isInitialized
      modifies this`isInitialized, this`fetchInterval, this`config, this`effects, cache
      ensures Valid()
      ensures StartedAs(old(effects), old(config), old(fetchInterval), old(cache.entries),
                        schemaReply, layoutReply, fetchReply, r)
    {
      ghost var p := SendSettingsSpec(app, settings.caching, tokenType, tokenIdPart,
                                      cache.hashFn, cache.writable, cache.entries,
                                      schemaReply, layoutReply);
      ghost var before := effects;
      r := SendSettings(schemaReply, layoutReply);
      SendSettingsOnlyPosts(app, settings.caching, tokenType, tokenIdPart,
                            cache.hashFn, cache.writable, old(cache.entries), schemaReply, layoutReply);
      LatestSnapshotSkipsPosts(before, p.effects, defaults);
      if r.Failed? {
        return;
      }
      // regardless of what follows, the client is initialized
      isInitialized := true;
      r := Dispatch(fetchReply);
    }

    /**
     * The second half of `init`: in fetch mode fetch once and, if that
     * succeeds, arm the poll interval; in live mode connect the websocket
     * client and listen for the configurations it emits.
     */
    method Dispatch(fetchReply: Reply) returns (r: Outcome<Failure>)
      requires Valid() && isInitialized
      modifies this`fetchInterval, this`config, this`effects
      ensures Valid()
      ensures mode == LiveMode ==>
                r == Done && config == old(config) && fetchInterval == old(fetchInterval)
                && effects == old(effects) + [WsConnect]
      ensures mode == FetchMode && fetchReply.Response? ==>
                r == Done && config == fetchReply.body
                && fetchInterval == Some(Interval(PollPeriodMs(settings)))
                && effects == old(effects) + [Get(CONFIG_PATH), ConfigUpdate(fetchReply.body), ArmInterval(PollPeriodMs(settings))]
      ensures mode == FetchMode && !fetchReply.Response? ==>
                r == Failed(Translate(FETCH_ERROR_PREFIX, fetchReply)) && config == old(config)
                && fetchInterval == old(fetchInterval) && effects == old(effects) + [Get(CONFIG_PATH)]
    {
      if mode == FetchMode {
        r := FetchConfig(fetchReply);
        if r.Failed? {
          return;
        }
        fetchInterval := Some(Interval(PollPeriodMs(settings)));
        LatestSnapshotSkipsPosts(effects, [ArmInterval(PollPeriodMs(settings))], defaults);
        effects := effects + [ArmInterval(PollPeriodMs(settings))];
        return;
      }
      LatestSnapshotSkipsPosts(effects, [WsConnect], defaults);
      effects := effects + [WsConnect];
      r := Done;
    }

    /** A tick of the poll interval: it runs `fetchConfig`; a failure is not caught by anyone. */
    method PollTick(reply: Reply) returns (r: Outcome<Failure>)
      requires Valid() && fetchInterval.Some?
      modifies this`config, this`effects
      ensures Valid()
      ensures reply.Response? ==>
                r == Done && config == reply.body
                && effects == old(effects) + [Get(CONFIG_PATH), ConfigUpdate(reply.body)]
      ensures !reply.Response? ==>
                r == Failed(Translate(FETCH_ERROR_PREFIX, reply)) && config == old(config)
                && effects == old(effects) + [Get(CONFIG_PATH)]
    {
      r := FetchConfig(reply);
    }

    /**
     * A `configUpdate` emitted by the websocket client once `init` has
     * connected it: the listener `init` registered stores it as the snapshot.
     */
    method ReceiveLiveConfig(received: Value)
      requires Valid() && mode == LiveMode && isInitialized
      modifies this`config, this`effects
      ensures Valid()
      ensures config == received && effects == old(effects) + [ConfigUpdate(received)]
    {
      effects := effects + [ConfigUpdate(received)];
      config := received;
    }

    /** `close`: close the websocket client if there is one; clear and forget the interval if one is armed. */
    method Close()
      requires Valid()
      modifies this`fetchInterval, this`effects
      ensures Valid()
      ensures fetchInterval == None
      ensures effects == old(effects)
                         + (if wsClient.Some? then [WsClose] else [])
                         + (if old(fetchInterval).Some? then [ClearInterval] else [])
    {
      var closing: seq<Effect> := [];
      if wsClient.Some? {
        closing := closing + [WsClose];
      }
      if fetchInterval.Some? {
        closing := closing + [ClearInterval];
        fetchInterval := None;
      }
      LatestSnapshotSkipsPosts(effects, closing, defaults);
      effects := effects + closing;
    }
  }

  /** `sendSettings` emits no configuration. */
  lemma SendSettingsOnlyPosts(app: AppSettings, caching: Option<CacheSettings>,
                              tokenType: string, tokenIdPart: string,
                              hashFn: Option<Value -> ObjectCache.Hash>, writable: bool,
                              entries: map<string, ObjectCache.Hash>,
                              schemaReply: Reply, layoutReply: Reply)
    ensures var p := SendSettingsSpec(app, caching, tokenType, tokenIdPart, hashFn, writable, entries,
                                      schemaReply, layoutReply);
            forall i :: 0 <= i < |p.effects| ==> p.effects[i].Post?
  {
    SendSettingsSteps(app, caching, tokenType, tokenIdPart, hashFn, writable, entries, schemaReply, layoutReply);
  }

  /** Effects that emit no configuration leave the snapshot as it was. */
  lemma {:induction false} LatestSnapshotSkipsPosts(before: seq<Effect>, after: seq<Effect>, initial: Value)
    requires forall i :: 0 <= i < |after| ==> !after[i].ConfigUpdate?
    ensures LatestSnapshot(before + after, initial) == LatestSnapshot(before, initial)
  {
    if after != [] {
      var last := |before + after| - 1;
      assert (before + after)[..last] == before + after[..|after| - 1];
      LatestSnapshotSkipsPosts(before, after[..|after| - 1], initial);
    } else {
      assert before + after == before;
    }
  }

  // ---------------------------------------------------------------------------
  // The builder
  // ---------------------------------------------------------------------------

  class Builder {
    const settings: ClientSettings
    var schema: Schema
    var layout: Option<seq<Value>>

    constructor(settings: ClientSettings)
      ensures this.settings == settings && schema == [] && layout == None
    {
      this.settings := settings;
      schema := [];
      layout := None;
    }

    /** `withSchema`: replace the schema; the builder itself is returned for chaining. */
    method WithSchema(schema: Schema) returns (b: Builder)
      modifies this`schema
      ensures this.schema == schema && b == this
    {
      this.schema := schema;
      return this;
    }

    /** `withLayout(...sections)`: the layout becomes the array of the given sections. */
    method WithLayout(sections: seq<Value>) returns (b: Builder)
      modifies this`layout
      ensures layout == Some(sections) && b == this
    {
      layout := Some(sections);
      return this;
    }

    /**
     * `createConnection`: construct the client from the settings, the schema
     * and the layout, and start `init`. The caller is handed the client at
     * once and never awaits `init`; its settlement is returned beside it.
     */
    method CreateConnection(payload: TokenPayload, cache: ObjectCache.Store,
                            schemaReply: Reply, layoutReply: Reply, fetchReply: Reply)
      returns (r: Result<Client, Failure>, pendingInit: Outcome<Failure>)
      modifies cache
      ensures r.Ok? <==> !payload.Undecodable? && SchemaDefaults.Defaults(schema).Ok?
      ensures r.Err? ==> unchanged(cache)
      ensures r.Ok? ==>
                var p := SendSettingsSpec(AppSettings(schema, layout), settings.caching,
                                          TokenType(payload), TokenIdPart(payload),
                                          cache.hashFn, cache.writable, old(cache.entries),
                                          schemaReply, layoutReply);
                && fresh(r.value) && r.value.Valid()
                && r.value.settings == settings && r.value.app == AppSettings(schema, layout)
                && r.value.cache == cache && cache.entries == p.entries
                && (r.value.isInitialized <==> p.outcome.Done?)
                && (p.outcome.Failed? ==> pendingInit == p.outcome)
    {
      r := Client.Create(settings, AppSettings(schema, layout), payload, cache);
      pendingInit := Done;
      if r.Ok? {
        pendingInit := r.value.Initialize(schemaReply, layoutReply, fetchReply);
      }
    }
  }

  // ---------------------------------------------------------------------------
  // Properties of the token parts, the cache keys and `sendSettings`
  // ---------------------------------------------------------------------------

  /**
   * `tokenType` is the payload's string `tokenType` claim, else `dev`;
   * `tokenIdPart` is the last six characters of its string `token` claim
   * (all of it when shorter), else `unset`.
   */
  lemma TokenParts(payload: TokenPayload)
    ensures StringClaim(payload, "tokenType").Some? ==> TokenType(payload) == StringClaim(payload, "tokenType").value
    ensures StringClaim(payload, "tokenType").None? ==> TokenType(payload) == "dev"
    ensures StringClaim(payload, "token").None? ==> TokenIdPart(payload) == "unset"
    ensures StringClaim(payload, "token").Some? ==>
              var t := StringClaim(payload, "token").value;
              var id := TokenIdPart(payload);
              |id| == (if |t| < 6 then |t| else 6) && id == t[|t| - |id|..]
  {
  }

  /** A token without a payload segment, or whose payload is not an object of claims, gets the placeholder parts. */
  lemma NoClaimsPlaceholders(payload: TokenPayload)
    requires payload.NoPayload? || (payload.Decoded? && !payload.payload.Obj?)
    ensures TokenType(payload) == "dev" && TokenIdPart(payload) == "unset"
  {
  }

  /** The schema and the layout never share a cache slot, whatever the token parts. */
  lemma PurposesNeverCollide(tokenType: string, tokenIdPart: string, tokenType': string, tokenIdPart': string)
    ensures CacheKey("schema", tokenType, tokenIdPart) != CacheKey("layout", tokenType', tokenIdPart')
  {
    assert CacheKey("schema", tokenType, tokenIdPart)[0] == 's';
    assert CacheKey("layout", tokenType', tokenIdPart')[0] == 'l';
  }

  /** Two different tokens of the same type whose last six characters agree share a cache slot. */
  lemma CredentialsCanShareSlot()
    ensures var first := Decoded(Obj(map["token" := Str("first-123456")]));
            var other := Decoded(Obj(map["token" := Str("other-123456")]));
            first != other
            && CacheKey("schema", TokenType(first), TokenIdPart(first))
               == CacheKey("schema", TokenType(other), TokenIdPart(other))
  {
    var first := Decoded(Obj(map["token" := Str("first-123456")]));
    var other := Decoded(Obj(map["token" := Str("other-123456")]));
    assert first.payload.fields["token"] != other.payload.fields["token"];
    assert StringClaim(first, "token") == Some("first-123456");
    assert StringClaim(other, "token") == Some("other-123456");
    assert "first-123456"[6..] == "123456" == "other-123456"[6..];
  }

  /** The three fates of a failed request: the server's text behind the prefix, or the original error. */
  lemma TranslateKeepsCause(prefix: string, reply: Reply)
    requires !reply.Response?
    ensures reply.ErrorResponse? ==>
              && Translate(prefix, reply).OrbitingError?
              && Translate(prefix, reply).message[..|prefix|] == prefix
              && Translate(prefix, reply).message[|prefix|..] == ErrorText(reply.serverError)
    ensures reply.ErrorResponse? && reply.serverError.None? ==>
              Translate(prefix, reply).message == prefix + "undefined"
    ensures reply.NoResponse? ==> Translate(prefix, reply) == Rethrown(reply.cause)
  {
  }

  /**
   * Schema gating: the schema is POSTed first, exactly when schema caching is
   * off or the cache reports it new; with schema caching off its stored hash
   * is neither read nor written.
   */
  lemma {:induction false} SchemaPushGate(app: AppSettings, caching: Option<CacheSettings>,
                                          tokenType: string, tokenIdPart: string,
                                          hashFn: Option<Value -> ObjectCache.Hash>, writable: bool,
                                          entries: map<string, ObjectCache.Hash>,
                                          schemaReply: Reply, layoutReply: Reply)
    ensures var p := SendSettingsSpec(app, caching, tokenType, tokenIdPart, hashFn, writable, entries,
                                      schemaReply, layoutReply);
            var key := CacheKey("schema", tokenType, tokenIdPart);
            && ((|p.effects| > 0 && p.effects[0] == Post(SCHEMA_PATH, SchemaBody(app.schema)))
                <==> (!CacheSchema(caching) || ObjectCache.Consult(hashFn, writable, entries, key, SchemaValue(app.schema)).0))
            && (forall i :: 0 < i < |p.effects| ==> !PostsTo(p.effects[i], SCHEMA_PATH))
            && (!CacheSchema(caching) ==> Stored(p.entries, key) == Stored(entries, key))
  {
    SendSettingsSteps(app, caching, tokenType, tokenIdPart, hashFn, writable, entries, schemaReply, layoutReply);
    var p := SendSettingsSpec(app, caching, tokenType, tokenIdPart, hashFn, writable, entries,
                              schemaReply, layoutReply);
    var key := CacheKey("schema", tokenType, tokenIdPart);
    var afterSchema := Gate(CacheSchema(caching), hashFn, writable, entries, key, SchemaValue(app.schema)).1;
    if app.layout.Some? {
      PurposesNeverCollide(tokenType, tokenIdPart, tokenType, tokenIdPart);
      ObjectCache.ConsultTouchesOnlyKey(hashFn, writable, afterSchema, CacheKey("layout", tokenType, tokenIdPart),
                                        Arr(app.layout.value), key);
    }
  }

  /** Whether the schema step of `sendSettings` completed: skipped by the cache, or POSTed successfully. */
  predicate SchemaStepCompleted(app: AppSettings, caching: Option<CacheSettings>,
                                tokenType: string, tokenIdPart: string,
                                hashFn: Option<Value -> ObjectCache.Hash>, writable: bool,
                                entries: map<string, ObjectCache.Hash>, schemaReply: Reply)
  {
    var pushed := Gate(CacheSchema(caching), hashFn, writable, entries,
                       CacheKey("schema", tokenType, tokenIdPart), SchemaValue(app.schema)).0;
    pushed ==> schemaReply.Response?
  }

  /**
   * Layout ordering: a layout POST is the last effect, happens only when
   * there is a layout, and only after the schema step completed.
   */
  lemma LayoutPushLast(app: AppSettings, caching: Option<CacheSettings>,
                       tokenType: string, tokenIdPart: string,
                       hashFn: Option<Value -> ObjectCache.Hash>, writable: bool,
                       entries: map<string, ObjectCache.Hash>,
                       schemaReply: Reply, layoutReply: Reply)
    ensures var p := SendSettingsSpec(app, caching, tokenType, tokenIdPart, hashFn, writable, entries,
                                      schemaReply, layoutReply);
            && (forall i :: 0 <= i < |p.effects| - 1 ==> !PostsTo(p.effects[i], LAYOUT_PATH))
            && (|p.effects| > 0 && PostsTo(p.effects[|p.effects| - 1], LAYOUT_PATH) ==>
                  && app.layout.Some?
                  && SchemaStepCompleted(app, caching, tokenType, tokenIdPart, hashFn, writable, entries, schemaReply)
                  && p.effects[|p.effects| - 1] == Post(LAYOUT_PATH, LayoutBody(app.layout.value)))
  {
    SendSettingsSteps(app, caching, tokenType, tokenIdPart, hashFn, writable, entries, schemaReply, layoutReply);
  }

  /**
   * Layout gating: once the schema step completed, a present layout is
   * POSTed exactly when layout caching is off or the cache, as it stood
   * before the call, reports the layout new.
   */
  lemma {:induction false} LayoutPushGate(app: AppSettings, caching: Option<CacheSettings>,
                                          tokenType: string, tokenIdPart: string,
                                          hashFn: Option<Value -> ObjectCache.Hash>, writable: bool,
                                          entries: map<string, ObjectCache.Hash>,
                                          schemaReply: Reply, layoutReply: Reply)
    requires app.layout.Some?
    requires SchemaStepCompleted(app, caching, tokenType, tokenIdPart, hashFn, writable, entries, schemaReply)
    ensures var p := SendSettingsSpec(app, caching, tokenType, tokenIdPart, hashFn, writable, entries,
                                      schemaReply, layoutReply);
            (|p.effects| > 0 && PostsTo(p.effects[|p.effects| - 1], LAYOUT_PATH))
            <==> (!CacheLayout(caching)
                  || ObjectCache.Consult(hashFn, writable, entries, CacheKey("layout", tokenType, tokenIdPart), Arr(app.layout.value)).0)
  {
    SendSettingsSteps(app, caching, tokenType, tokenIdPart, hashFn, writable, entries, schemaReply, layoutReply);
    var key := CacheKey("layout", tokenType, tokenIdPart);
    var schema := PushStep(SchemaRequest(app, caching, tokenType, tokenIdPart, schemaReply), hashFn, writable, entries);
    var layout := PushStep(LayoutRequest(app.layout.value, caching, tokenType, tokenIdPart, layoutReply),
                           hashFn, writable, schema.entries);
    assert schema.failure.None?;
    PurposesNeverCollide(tokenType, tokenIdPart, tokenType, tokenIdPart);
    ObjectCache.ConsultTouchesOnlyKey(hashFn, writable, entries, CacheKey("schema", tokenType, tokenIdPart),
                                      SchemaValue(app.schema), key);
    GateReadsOnlyKey(CacheLayout(caching), hashFn, writable, schema.entries, entries, key, Arr(app.layout.value));
    assert layout.effects != [] <==> Gate(CacheLayout(caching), hashFn, writable, entries, key, Arr(app.layout.value)).0;
    assert schema.effects == [] || schema.effects == [Post(SCHEMA_PATH, SchemaBody(app.schema))];
  }

  /** Whether the gate lets a POST through depends only on the stored hash of its own key. */
  lemma GateReadsOnlyKey(caching: bool, hashFn: Option<Value -> ObjectCache.Hash>, writable: bool,
                         entries: map<string, ObjectCache.Hash>, entries': map<string, ObjectCache.Hash>,
                         key: string, obj: Value)
    requires Stored(entries, key) == Stored(entries', key)
    ensures Gate(caching, hashFn, writable, entries, key, obj).0 == Gate(caching, hashFn, writable, entries', key, obj).0
  {
  }

  /** The layout's stored hash is neither read nor written when there is no layout or layout caching is off. */
  lemma {:induction false} LayoutHashUntouched(app: AppSettings, caching: Option<CacheSettings>,
                                               tokenType: string, tokenIdPart: string,
                                               hashFn: Option<Value -> ObjectCache.Hash>, writable: bool,
                                               entries: map<string, ObjectCache.Hash>,
                                               schemaReply: Reply, layoutReply: Reply)
    requires app.layout.None? || !CacheLayout(caching)
    ensures var p := SendSettingsSpec(app, caching, tokenType, tokenIdPart, hashFn, writable, entries,
                                      schemaReply, layoutReply);
            var key := CacheKey("layout", tokenType, tokenIdPart);
            Stored(p.entries, key) == Stored(entries, key)
  {
    SendSettingsSteps(app, caching, tokenType, tokenIdPart, hashFn, writable, entries, schemaReply, layoutReply);
    PurposesNeverCollide(tokenType, tokenIdPart, tokenType, tokenIdPart);
    ObjectCache.ConsultTouchesOnlyKey(hashFn, writable, entries, CacheKey("schema", tokenType, tokenIdPart),
                                      SchemaValue(app.schema), CacheKey("layout", tokenType, tokenIdPart));
  }

  /**
   * A call settles with success exactly when every POST it made succeeded;
   * a failure is the translation of the last POST's reply, and nothing is
   * POSTed after it.
   */
  lemma {:induction false} SendSettingsOutcome(app: AppSettings, caching: Option<CacheSettings>,
                                               tokenType: string, tokenIdPart: string,
                                               hashFn: Option<Value -> ObjectCache.Hash>, writable: bool,
                                               entries: map<string, ObjectCache.Hash>,
                                               schemaReply: Reply, layoutReply: Reply)
    ensures var p := SendSettingsSpec(app, caching, tokenType, tokenIdPart, hashFn, writable, entries,
                                      schemaReply, layoutReply);
            && |p.effects| <= 2
            && (forall i :: 0 <= i < |p.effects| ==> PostsTo(p.effects[i], SCHEMA_PATH) || PostsTo(p.effects[i], LAYOUT_PATH))
            && (p.outcome.Done? <==>
                  forall i :: 0 <= i < |p.effects| ==>
                    (PostsTo(p.effects[i], SCHEMA_PATH) ==> schemaReply.Response?)
                    && (PostsTo(p.effects[i], LAYOUT_PATH) ==> layoutReply.Response?))
            && (p.outcome.Failed? ==>
                  var last := p.effects[|p.effects| - 1];
                  && |p.effects| > 0
                  && (PostsTo(last, SCHEMA_PATH) ==>
                        !schemaReply.Response? && p.outcome.failure == Translate(SETTINGS_ERROR_PREFIX, schemaReply))
                  && (PostsTo(last, LAYOUT_PATH) ==>
                        !layoutReply.Response? && p.outcome.failure == Translate(SETTINGS_ERROR_PREFIX, layoutReply)))
  {
    SendSettingsSteps(app, caching, tokenType, tokenIdPart, hashFn, writable, entries, schemaReply, layoutReply);
    var p := SendSettingsSpec(app, caching, tokenType, tokenIdPart, hashFn, writable, entries,
                              schemaReply, layoutReply);
    if p.outcome.Failed? {
      var last := |p.effects| - 1;
      assert !((PostsTo(p.effects[last], SCHEMA_PATH) ==> schemaReply.Response?)
               && (PostsTo(p.effects[last], LAYOUT_PATH) ==> layoutReply.Response?));
    }
  }

  /**
   * The hash is stored before the POST, so a push that fails still records
   * it: the next call with the same schema skips the push, although the
   * server never received that schema.
   */
  lemma {:induction false} StaleHashAfterFailedPush(app: AppSettings, caching: Option<CacheSettings>,
                                                    tokenType: string, tokenIdPart: string,
                                                    hash: Value -> ObjectCache.Hash,
                                                    entries: map<string, ObjectCache.Hash>,
                                                    failing: Reply, layoutReply: Reply,
                                                    schemaReply': Reply, layoutReply': Reply)
    requires CacheSchema(caching) && !failing.Response?
    requires '/' !in tokenType && '/' !in tokenIdPart
    requires Stored(entries, CacheKey("schema", tokenType, tokenIdPart)).None?
    ensures var first := SendSettingsSpec(app, caching, tokenType, tokenIdPart, Some(hash), true, entries,
                                          failing, layoutReply);
            var second := SendSettingsSpec(app, caching, tokenType, tokenIdPart, Some(hash), true, first.entries,
                                           schemaReply', layoutReply');
            && first.outcome.Failed?
            && first.effects == [Post(SCHEMA_PATH, SchemaBody(app.schema))]
            && (forall i :: 0 <= i < |second.effects| ==> !PostsTo(second.effects[i], SCHEMA_PATH))
  {
    SendSettingsSteps(app, caching, tokenType, tokenIdPart, Some(hash), true, entries, failing, layoutReply);
    var first := SendSettingsSpec(app, caching, tokenType, tokenIdPart, Some(hash), true, entries,
                                  failing, layoutReply);
    var key := CacheKey("schema", tokenType, tokenIdPart);
    ObjectCache.ConsultTwice(hash, entries, key, SchemaValue(app.schema), SchemaValue(app.schema));
    SchemaPushGate(app, caching, tokenType, tokenIdPart, Some(hash), true, first.entries, schemaReply', layoutReply');
    SendSettingsSteps(app, caching, tokenType, tokenIdPart, Some(hash), true, first.entries, schemaReply', layoutReply');
  }

  /**
   * A `/` in the token parts puts the cache files in a subdirectory that is
   * never created: every call POSTs the schema again, and no hash is ever
   * stored for it.
   */
  lemma {:induction false} SlashInTokenDisablesCache(app: AppSettings, caching: Option<CacheSettings>,
                                                     tokenType: string, tokenIdPart: string,
                                                     hashFn: Option<Value -> ObjectCache.Hash>, writable: bool,
                                                     entries: map<string, ObjectCache.Hash>,
                                                     schemaReply: Reply, layoutReply: Reply)
    requires '/' in tokenType || '/' in tokenIdPart
    ensures var p := SendSettingsSpec(app, caching, tokenType, tokenIdPart, hashFn, writable, entries,
                                      schemaReply, layoutReply);
            var key := CacheKey("schema", tokenType, tokenIdPart);
            && |p.effects| > 0 && p.effects[0] == Post(SCHEMA_PATH, SchemaBody(app.schema))
            && Stored(p.entries, key) == Stored(entries, key)
  {
    var key := CacheKey("schema", tokenType, tokenIdPart);
    assert !ObjectCache.InFolder(key);
    SendSettingsSteps(app, caching, tokenType, tokenIdPart, hashFn, writable, entries, schemaReply, layoutReply);
    if app.layout.Some? {
      PurposesNeverCollide(tokenType, tokenIdPart, tokenType, tokenIdPart);
      ObjectCache.ConsultTouchesOnlyKey(hashFn, writable, entries, CacheKey("layout", tokenType, tokenIdPart),
                                        Arr(app.layout.value), key);
    }
  }
}
