/** The HTTP traffic-log policy engine of `http_log_interceptors.ts`: given a
    request or a response and the policy for its kind, it decides whether to
    log it, at which level, and renders the line. `JSON.stringify` is the
    parameter `Json`; the loggers are the records the interceptor emits. */
module HttpLogInterceptors {
  import opened Wrappers
  import opened Strings

  // ---------------------------------------------------------------- levels

  /** log4js's standard levels. */
  datatype Level = ALL | TRACE | DEBUG | INFO | WARN | ERROR | FATAL | MARK | OFF

  /** What a level property or a level callback yields: `string | Level`,
      or, where a callback hands back a function instead, that function. */
  datatype LevelValue = Std(level: Level) | Named(name: string) | Function
  {
    /** A `Level` object and a function are truthy; a level name unless it
        is empty. */
    predicate Truthy()
    {
      Std? || Function? || name != ""
    }
  }

  // -------------------------------------------------------------- messages

  /** A JSON value, as a request's `body` or a response's `data`. */
  datatype Value =
    | Undefined
    | Null
    | Bool(b: bool)
    | Number(n: int)
    | Str(s: string)
    | Arr(items: seq<Value>)
    | Obj(fields: map<string, Value>)
  {
    /** JavaScript truthiness (`!!value`). */
    predicate Truthy()
    {
      match this
      case Undefined => false
      case Null => false
      case Bool(b) => b
      case Number(n) => n != 0
      case Str(s) => s != ""
      case _ => true
    }
  }

  /** A header entry: a value, or (on an outgoing request) a group of headers
      such as axios's `common` or `get`. */
  datatype HeaderValue = Text(text: string) | Group(entries: map<string, HeaderValue>)

  type Headers = map<string, HeaderValue>

  /** The two messages the interceptors see: an axios request config and an
      axios response, whose `request` holds the method and path it answered. */
  datatype HttpMessage =
    | Request(httpMethod: string, url: string, body: Value, headers: Headers)
    | Response(requestMethod: string, requestPath: string, status: int, statusText: string,
               data: Value, responseHeaders: Option<Headers>)

  /** `JSON.stringify` of a body and of a header dictionary: the text, or
      how the error it throws prints (a circular structure, a BigInt). */
  datatype Json = Json(value: Value -> Result<string, string>, headers: Headers -> Result<string, string>)

  // ------------------------------------------------------------- policies

  /** `level`: a level or level name, or a callback on the message. */
  datatype LevelProperty = Fixed(value: LevelValue) | Computed(get: HttpMessage -> LevelValue)
  {
    predicate Truthy()
    {
      Computed? || value.Truthy()
    }
  }

  /** `body`: a flag or a predicate on the message. */
  datatype BodyProperty = Flag(on: bool) | Predicate(accepts: HttpMessage -> bool)

  /** The header selections `false | true | 'all' | '<name>' | ['<name>', ...]`. */
  datatype HeaderSelection = Toggle(on: bool) | Name(name: string) | Names(names: seq<string>)

  /** `headers`: a selection, or a callback that returns one. */
  datatype HeadersProperty = Static(selection: HeaderSelection) | Dynamic(select: HttpMessage -> HeaderSelection)
  {
    /** `headers ?? false` taken as a condition. */
    predicate Truthy()
    {
      match this
      case Static(Toggle(on)) => on
      case Static(Name(name)) => name != ""
      case _ => true
    }
  }

  /** `BaseLoggerProperties` with every field present. */
  datatype BaseProperties = BaseProperties(logIt: bool, level: LevelProperty, body: BodyProperty, headers: HeadersProperty)

  datatype RequestProperties = RequestProperties(base: BaseProperties, httpMethod: bool, url: bool)

  datatype ResponseProperties = ResponseProperties(base: BaseProperties, methodAndPath: bool, statusCode: bool)

  /** `LoggerProperties` in effect: one policy per message kind. */
  datatype LogProperties = LogProperties(request: RequestProperties, response: ResponseProperties)

  /** The user's properties, where any field may be left undefined. */
  datatype UserBase = UserBase(logIt: Option<bool>, level: Option<LevelProperty>,
                               body: Option<BodyProperty>, headers: Option<HeadersProperty>)

  datatype UserRequest = UserRequest(base: UserBase, httpMethod: Option<bool>, url: Option<bool>)

  datatype UserResponse = UserResponse(base: UserBase, methodAndPath: Option<bool>, statusCode: Option<bool>,
                                       level2xx: Option<LevelValue>, level3xx: Option<LevelValue>,
                                       level4xx: Option<LevelValue>, level5xx: Option<LevelValue>)

  datatype UserProperties = UserProperties(request: Option<UserRequest>, response: Option<UserResponse>)

  /** What `Object.assign({}, undefined)` gives: nothing set. */
  const NoUserBase := UserBase(None, None, None, None)

  // ------------------------------------------------------------- defaults

  /** The default response level: INFO below status 400, ERROR otherwise (a
      request has no status, and `undefined < 400` is false). */
  function DefaultResponseLevel(m: HttpMessage): LevelValue
  {
    if m.Response? && m.status < 400 then Std(INFO) else Std(ERROR)
  }

  /** `defaultLogProperties`: log both kinds with every segment but the
      body, all headers, requests at INFO and responses at INFO below status
      400 and ERROR from 400 on. */
  function DefaultLogProperties(): (r: LogProperties)
    ensures r.request.base.logIt && r.response.base.logIt
    ensures r.request.httpMethod && r.request.url && r.response.methodAndPath && r.response.statusCode
    ensures r.request.base.body == Flag(false) && r.response.base.body == Flag(false)
    ensures r.request.base.headers == Static(Name("all")) && r.response.base.headers == Static(Name("all"))
    ensures r.request.base.level.Computed? && r.response.base.level.Computed?
    ensures forall m: HttpMessage :: r.request.base.level.get(m) == Std(INFO)
    ensures forall m: HttpMessage :: m.Response? ==> r.response.base.level.get(m) == (if m.status < 400 then Std(INFO) else Std(ERROR))
  {
    LogProperties(
      RequestProperties(BaseProperties(true, Computed(_ => Std(INFO)), Flag(false), Static(Name("all"))), true, true),
      ResponseProperties(BaseProperties(true, Computed(DefaultResponseLevel), Flag(false), Static(Name("all"))), true, true))
  }

  // ----------------------------------------------------- level conversion

  /** `convertLogLevelRequestPropertyToFunction`: a callback stays as it is,
      anything else becomes a callback that returns it for every message. */
  function ConvertLogLevelRequestPropertyToFunction(level: LevelProperty): (r: LevelProperty)
    ensures r.Computed?
    ensures level.Computed? ==> r == level
    ensures level.Fixed? ==> forall m :: r.get(m) == level.value
  {
    match level
    case Computed(_) => level
    case Fixed(value) => Computed(_ => value)
  }

  /** The level for a status under `'auto'`: `Math.floor(status / 100)` picks
      the bucket; a message without a status falls to the last bucket. */
  function StatusBucketLevel(m: HttpMessage, level2xx: LevelValue, level3xx: LevelValue,
                             level4xx: LevelValue, level5xx: LevelValue): LevelValue
  {
    if !m.Response? then level5xx
    else
      var bucket := m.status / 100;
      if bucket == 1 || bucket == 2 then level2xx
      else if bucket == 3 then level3xx
      else if bucket == 4 then level4xx
      else level5xx
  }

  /** `convertFromAutoValue`: a response's level follows its status class:
      1xx and 2xx take `level2xx`, 3xx `level3xx`, 4xx `level4xx`, anything
      else (below 100, 5xx and above) `level5xx`; unset bucket levels default
      to INFO, INFO, ERROR and ERROR. */
  function ConvertFromAutoValue(p: UserResponse): (r: HttpMessage -> LevelValue)
    ensures forall m: HttpMessage :: m.Response? && 100 <= m.status < 300 ==> r(m) == p.level2xx.GetOr(Std(INFO))
    ensures forall m: HttpMessage :: m.Response? && 300 <= m.status < 400 ==> r(m) == p.level3xx.GetOr(Std(INFO))
    ensures forall m: HttpMessage :: m.Response? && 400 <= m.status < 500 ==> r(m) == p.level4xx.GetOr(Std(ERROR))
    ensures forall m: HttpMessage :: m.Response? && (m.status < 100 || 500 <= m.status) ==> r(m) == p.level5xx.GetOr(Std(ERROR))
  {
    var level2xx := p.level2xx.GetOr(Std(INFO));
    var level3xx := p.level3xx.GetOr(Std(INFO));
    var level4xx := p.level4xx.GetOr(Std(ERROR));
    var level5xx := p.level5xx.GetOr(Std(ERROR));
    m => StatusBucketLevel(m, level2xx, level3xx, level4xx, level5xx)
  }

  /** `convertLogLevelResponsePropertyToFunction` as written: a callback
      stays and `'auto'` buckets by status. Any other level becomes a callback
      that reads `responseProps.level` when it is called; by then
      `createFullLogProperties` has stored that very callback in the field,
      so the callback returns itself, a function, and not the level. */
  function ConvertLogLevelResponsePropertyToFunction(p: UserResponse): (r: LevelProperty)
    requires p.base.level.Some?
    ensures r.Computed?
    ensures p.base.level.value.Computed? ==> r == p.base.level.value
    ensures p.base.level.value == Fixed(Named("auto")) ==> r == Computed(ConvertFromAutoValue(p))
    ensures p.base.level.value.Fixed? && p.base.level.value.value != Named("auto") ==>
      forall m :: r.get(m) == Function
  {
    match p.base.level.value
    case Computed(_) => p.base.level.value
    case Fixed(value) =>
      if value == Named("auto") then Computed(ConvertFromAutoValue(p))
      else Computed(_ => Function)
  }

  /** The conversion as evidently intended: a level other than `'auto'`
      becomes a callback that returns that level for every message, as the
      request conversion does. */
  function ConvertLogLevelResponsePropertyIntended(p: UserResponse): (r: LevelProperty)
    requires p.base.level.Some?
    ensures r.Computed?
    ensures p.base.level.value.Computed? ==> r == p.base.level.value
    ensures p.base.level.value == Fixed(Named("auto")) ==> r == Computed(ConvertFromAutoValue(p))
    ensures p.base.level.value.Fixed? && p.base.level.value.value != Named("auto") ==>
      forall m :: r.get(m) == p.base.level.value.value
  {
    match p.base.level.value
    case Computed(_) => p.base.level.value
    case Fixed(value) =>
      if value == Named("auto") then Computed(ConvertFromAutoValue(p))
      else Computed(_ => value)
  }

  // ------------------------------------------------------------ merging

  /** Whether a policy can be used by the interceptor: its levels are
      callbacks, or falsy (which the interceptor reads as INFO). */
  predicate LevelsCallable(p: LogProperties)
  {
    && (p.request.base.level.Computed? || !p.request.base.level.Truthy())
    && (p.response.base.level.Computed? || !p.response.base.level.Truthy())
  }

  /** `_.defaultsDeep` over one policy record: the user's value where it is
      defined, the default's elsewhere. */
  function MergeBase(u: UserBase, d: BaseProperties): BaseProperties
  {
    BaseProperties(u.logIt.GetOr(d.logIt), u.level.GetOr(d.level), u.body.GetOr(d.body), u.headers.GetOr(d.headers))
  }

  /** The user's request properties with a truthy level turned into a callback. */
  function PrepareRequest(u: UserRequest): UserRequest
  {
    if u.base.level.Some? && u.base.level.value.Truthy() then
      u.(base := u.base.(level := Some(ConvertLogLevelRequestPropertyToFunction(u.base.level.value))))
    else u
  }

  /** The user's response properties with a truthy level turned into a callback. */
  function PrepareResponse(u: UserResponse): UserResponse
  {
    if u.base.level.Some? && u.base.level.value.Truthy() then
      u.(base := u.base.(level := Some(ConvertLogLevelResponsePropertyToFunction(u))))
    else u
  }

  /** `createFullLogProperties`. */
  function CreateFullLogProperties(user: UserProperties): (r: LogProperties)
    ensures LevelsCallable(r)
  {
    var d := DefaultLogProperties();
    var req := PrepareRequest(user.request.GetOr(UserRequest(NoUserBase, None, None)));
    var res := PrepareResponse(user.response.GetOr(UserResponse(NoUserBase, None, None, None, None, None, None)));
    LogProperties(
      RequestProperties(MergeBase(req.base, d.request.base), req.httpMethod.GetOr(d.request.httpMethod), req.url.GetOr(d.request.url)),
      ResponseProperties(MergeBase(res.base, d.response.base),
                         res.methodAndPath.GetOr(d.response.methodAndPath), res.statusCode.GetOr(d.response.statusCode)))
  }

  /** Every field the user set wins (a truthy level after conversion to a
      callback) and every field left undefined comes from the defaults. */
  lemma UserFieldsWin(user: UserProperties)
    ensures var r := CreateFullLogProperties(user);
      var d := DefaultLogProperties();
      var u := user.request.GetOr(UserRequest(NoUserBase, None, None));
      && (u.base.logIt.Some? ==> r.request.base.logIt == u.base.logIt.value)
      && (u.base.logIt.None? ==> r.request.base.logIt == d.request.base.logIt)
      && (u.base.body.Some? ==> r.request.base.body == u.base.body.value)
      && (u.base.body.None? ==> r.request.base.body == d.request.base.body)
      && (u.base.headers.Some? ==> r.request.base.headers == u.base.headers.value)
      && (u.base.headers.None? ==> r.request.base.headers == d.request.base.headers)
      && (u.httpMethod.Some? ==> r.request.httpMethod == u.httpMethod.value)
      && (u.httpMethod.None? ==> r.request.httpMethod == d.request.httpMethod)
      && (u.url.Some? ==> r.request.url == u.url.value)
      && (u.url.None? ==> r.request.url == d.request.url)
      && (u.base.level.None? ==> r.request.base.level == d.request.base.level)
      && (u.base.level.Some? && u.base.level.value.Computed? ==> r.request.base.level == u.base.level.value)
      && (u.base.level.Some? && u.base.level.value.Fixed? ==>
            if u.base.level.value.Truthy() then forall m :: r.request.base.level.get(m) == u.base.level.value.value
            else r.request.base.level == u.base.level.value)
  {
  }

  /** A user response level `'auto'` makes the merged policy level each
      response by its status class, with the bucket defaults of
      `convertFromAutoValue`. */
  lemma AutoLevelByStatusClass(user: UserProperties, m: HttpMessage)
    requires user.response.Some? && user.response.value.base.level == Some(Fixed(Named("auto")))
    requires m.Response?
    ensures var level := CreateFullLogProperties(user).response.base.level;
      var u := user.response.value;
      && level.Computed?
      && (100 <= m.status < 300 ==> level.get(m) == u.level2xx.GetOr(Std(INFO)))
      && (300 <= m.status < 400 ==> level.get(m) == u.level3xx.GetOr(Std(INFO)))
      && (400 <= m.status < 500 ==> level.get(m) == u.level4xx.GetOr(Std(ERROR)))
      && (m.status < 100 || 500 <= m.status ==> level.get(m) == u.level5xx.GetOr(Std(ERROR)))
  {
  }

  /** The same for the response policy. */
  lemma UserResponseFieldsWin(user: UserProperties)
    ensures var r := CreateFullLogProperties(user);
      var d := DefaultLogProperties();
      var u := user.response.GetOr(UserResponse(NoUserBase, None, None, None, None, None, None));
      && (u.base.logIt.Some? ==> r.response.base.logIt == u.base.logIt.value)
      && (u.base.logIt.None? ==> r.response.base.logIt == d.response.base.logIt)
      && (u.base.body.Some? ==> r.response.base.body == u.base.body.value)
      && (u.base.body.None? ==> r.response.base.body == d.response.base.body)
      && (u.base.headers.Some? ==> r.response.base.headers == u.base.headers.value)
      && (u.base.headers.None? ==> r.response.base.headers == d.response.base.headers)
      && (u.methodAndPath.Some? ==> r.response.methodAndPath == u.methodAndPath.value)
      && (u.methodAndPath.None? ==> r.response.methodAndPath == d.response.methodAndPath)
      && (u.statusCode.Some? ==> r.response.statusCode == u.statusCode.value)
      && (u.statusCode.None? ==> r.response.statusCode == d.response.statusCode)
      && (u.base.level.None? ==> r.response.base.level == d.response.base.level)
      && (u.base.level.Some? && u.base.level.value.Computed? ==> r.response.base.level == u.base.level.value)
      && (u.base.level.Some? && u.base.level.value.Fixed? && u.base.level.value.value != Named("auto") ==>
            if u.base.level.value.Truthy() then forall m :: r.response.base.level.get(m) == Function
            else r.response.base.level == u.base.level.value)
      && (u.base.level == Some(Fixed(Named("auto"))) ==> r.response.base.level == Computed(ConvertFromAutoValue(u)))
  {
  }

  // ------------------------------------------------------- message parts

  /** The field that holds the body: `body` on a request, `data` on a response. */
  function BodyOf(m: HttpMessage): Value
  {
    if m.Request? then m.body else m.data
  }

  /** `hasBody`: the body field is not one of JavaScript's falsy values. */
  predicate HasBody(m: HttpMessage)
    ensures !HasBody(m) <==> BodyOf(m) in {Undefined, Null, Bool(false), Number(0), Str("")}
  {
    BodyOf(m).Truthy()
  }

  /** `isAddBody`: the flag set, the body there, and the predicate (if the
      flag is one) accepting the message. */
  predicate IsAddBody(m: HttpMessage, body: BodyProperty)
    ensures IsAddBody(m, body) <==>
      (body.Predicate? || body.on) && HasBody(m) && (body.Predicate? ==> body.accepts(m))
  {
    match body
    case Flag(on) => on && HasBody(m)
    case Predicate(accepts) => HasBody(m) && accepts(m)
  }

  /** `getBody`: the body field as JSON; what `JSON.stringify` throws
      propagates, and prints as it did. */
  function GetBody(m: HttpMessage, json: Json): (r: Result<string, RenderError>)
    ensures r.Ok? <==> json.value(BodyOf(m)).Ok?
    ensures r.Ok? ==> r.value == json.value(BodyOf(m)).value
    ensures r.Err? ==> r.error.StringifyFailed? && ErrorText(r.error) == json.value(BodyOf(m)).error
  {
    match json.value(BodyOf(m))
    case Ok(text) => Ok(text)
    case Err(e) => Err(StringifyFailed(e))
  }

  /** The header keys removed from a request before logging. */
  const ScrubbedHeaders: seq<string> := ["common", "get", "post", "head", "put", "patch", "delete", "authorization"]

  /** The headers a group entry contributes to a spread (`...group`). */
  function GroupOf(h: Headers, key: string): Headers
  {
    if key in h && h[key].Group? then h[key].entries else map[]
  }

  /** `{ ...headers.common, ...headers[method], ...headers }`: later groups
      override earlier ones. */
  function MergedRequestHeaders(h: Headers, verb: string): Headers
  {
    GroupOf(h, "common") + GroupOf(h, verb) + h
  }

  /** The request headers that may be logged. */
  function AllowedRequestHeaders(h: Headers, verb: string): Headers
  {
    MergedRequestHeaders(h, verb) - set k | k in ScrubbedHeaders
  }

  /** `getAllowedHeadersToLog` of either kind: a request's merged headers
      without the scrubbed keys, or a response's headers, `{}` when it has
      none. */
  function AllowedHeaders(m: HttpMessage): (r: Headers)
    ensures m.Request? ==> forall k :: k in ScrubbedHeaders ==> k !in r
    ensures m.Request? ==> forall k :: k in r ==> k in m.headers || k in GroupOf(m.headers, m.httpMethod) || k in GroupOf(m.headers, "common")
    ensures m.Response? && m.responseHeaders.None? ==> r == map[]
    ensures m.Response? && m.responseHeaders.Some? ==> r == m.responseHeaders.value
  {
    if m.Request? then AllowedRequestHeaders(m.headers, m.httpMethod) else m.responseHeaders.GetOr(map[])
  }

  /** A request's loggable headers: never a group key nor `authorization`;
      any other key comes from the top-level headers, else from the method's
      group, else from `common`. */
  lemma AllowedRequestHeadersPrecedence(h: Headers, verb: string, k: string)
    ensures var allowed := AllowedRequestHeaders(h, verb);
      && (k in ScrubbedHeaders ==> k !in allowed)
      && (k !in ScrubbedHeaders ==>
            (k in allowed <==> k in h || k in GroupOf(h, verb) || k in GroupOf(h, "common")))
      && (k !in ScrubbedHeaders && k in h ==> allowed[k] == h[k])
      && (k !in ScrubbedHeaders && k !in h && k in GroupOf(h, verb) ==> allowed[k] == GroupOf(h, verb)[k])
      && (k !in ScrubbedHeaders && k !in h && k !in GroupOf(h, verb) && k in GroupOf(h, "common") ==>
            allowed[k] == GroupOf(h, "common")[k])
  {
  }

  /** `getAllowedHeadersToLog` of a request: spread the groups, then delete
      the scrubbed keys one by one. */
  method GetAllowedRequestHeadersToLog(m: HttpMessage) returns (headers: Headers)
    requires m.Request?
    ensures headers == AllowedRequestHeaders(m.headers, m.httpMethod)
  {
    headers := GroupOf(m.headers, "common") + GroupOf(m.headers, m.httpMethod) + m.headers;
    ghost var merged := headers;
    var i := 0;
    while i < |ScrubbedHeaders|
      invariant 0 <= i <= |ScrubbedHeaders|
      invariant forall k :: k in headers <==> k in merged && k !in ScrubbedHeaders[..i]
      invariant forall k :: k in headers ==> headers[k] == merged[k]
    {
      assert ScrubbedHeaders[..i + 1] == ScrubbedHeaders[..i] + [ScrubbedHeaders[i]];
      headers := headers - {ScrubbedHeaders[i]};
      i := i + 1;
    }
    assert ScrubbedHeaders[..i] == ScrubbedHeaders;
    assert headers.Keys == AllowedRequestHeaders(m.headers, m.httpMethod).Keys;
  }

  /** `${headers[name]}`: a value as it is, a group as `[object Object]`, a
      missing header as `undefined`. */
  function HeaderText(h: Headers, name: string): string
  {
    if name !in h then "undefined"
    else match h[name]
      case Text(text) => text
      case Group(_) => "[object Object]"
  }

  /** What `getHeaders` returns: one string, or an array of them. */
  datatype HeadersOutput = One(text: string) | Many(items: seq<string>)

  /** The errors building a line can throw. */
  datatype RenderError =
    | HeadersNotAList           // `.map` on a selection that is `false`
    | LevelNotCallable          // a level that is neither a callback nor falsy
    | StringifyFailed(text: string)  // `JSON.stringify` threw; `text` is how the error prints

  /** The text `${e}` gives for an error. */
  function ErrorText(e: RenderError): string
  {
    match e
    case HeadersNotAList => "TypeError: requireHeaders.map is not a function"
    case LevelNotCallable => "TypeError: logProperties.level is not a function"
    case StringifyFailed(text) => text
  }

  /** The selection once a callback has been applied to the message. */
  function ResolveHeaders(prop: HeadersProperty, m: HttpMessage): HeaderSelection
  {
    match prop
    case Static(selection) => selection
    case Dynamic(select) => select(m)
  }

  /** The header part of `getHeaders`, on the headers allowed to be logged. */
  function SelectHeaders(selection: HeaderSelection, allowed: Headers, json: Json): Result<HeadersOutput, RenderError>
  {
    if selection == Name("all") || selection == Toggle(true) then
      match json.headers(allowed)
      case Ok(text) => Ok(One("headers: " + text))
      case Err(e) => Err(StringifyFailed(e))
    else match selection
      case Name(name) => Ok(One(name + ": " + HeaderText(allowed, name)))
      case Names(names) => Ok(Many(seq(|names|, i requires 0 <= i < |names| => names[i] + ": " + HeaderText(allowed, names[i]))))
      case Toggle(_) => Err(HeadersNotAList)
  }

  /** `getHeaders`: the selection is resolved on the message first. Then
      `'all'` or `true` gives the whole dictionary as JSON, a name gives that
      header, and a list gives one `key: value` per name, in list order. It
      throws exactly when the selection is `false` (`.map` on a boolean) or
      when the dictionary cannot be turned into JSON. */
  function GetHeaders(m: HttpMessage, prop: HeadersProperty, json: Json): (r: Result<HeadersOutput, RenderError>)
    ensures var selection := ResolveHeaders(prop, m);
      var allowed := AllowedHeaders(m);
      && (selection == Name("all") || selection == Toggle(true) ==>
            match json.headers(allowed)
            case Ok(text) => r == Ok(One("headers: " + text))
            case Err(e) => r == Err(StringifyFailed(e)))
      && (selection.Name? && selection.name != "all" ==> r == Ok(One(selection.name + ": " + HeaderText(allowed, selection.name))))
      && (selection.Names? ==>
            r.Ok? && r.value.Many? && |r.value.items| == |selection.names| &&
            forall i :: 0 <= i < |selection.names| ==>
              r.value.items[i] == selection.names[i] + ": " + HeaderText(allowed, selection.names[i]))
      && (r.Err? <==>
            (selection == Toggle(false) ||
             ((selection == Name("all") || selection == Toggle(true)) && json.headers(allowed).Err?)))
  {
    SelectHeaders(ResolveHeaders(prop, m), AllowedHeaders(m), json)
  }

  /** How the pushed value reads once `join(' | ')` turns it into a string: an
      array is joined with commas. */
  function OutputText(out: HeadersOutput): string
  {
    match out
    case One(text) => text
    case Many(items) => Join(",", items)
  }

  // ------------------------------------------------------------ rendering

  /** The kinds of segment a line can hold, in the order they appear. */
  datatype Part = MethodPart | UrlPart | StatusPart | BodyPart | HeadersPart
  {
    function Rank(): nat
    {
      match this
      case MethodPart => 0
      case UrlPart => 1
      case StatusPart => 2
      case BodyPart => 3
      case HeadersPart => 4
    }
  }

  datatype Segment = Segment(part: Part, text: string)

  function Texts(segments: seq<Segment>): seq<string>
  {
    seq(|segments|, i requires 0 <= i < |segments| => segments[i].text)
  }

  predicate Has(segments: seq<Segment>, part: Part)
  {
    exists i :: 0 <= i < |segments| && segments[i].part == part
  }

  /** A part is in a concatenation iff it is in one of its halves. */
  lemma HasConcat(a: seq<Segment>, b: seq<Segment>, part: Part)
    ensures Has(a + b, part) <==> Has(a, part) || Has(b, part)
  {
    if Has(a + b, part) {
      var i :| 0 <= i < |a + b| && (a + b)[i].part == part;
      if i >= |a| { assert b[i - |a|].part == part; }
    }
    if Has(a, part) {
      var i :| 0 <= i < |a| && a[i].part == part;
      assert (a + b)[i].part == part;
    }
    if Has(b, part) {
      var i :| 0 <= i < |b| && b[i].part == part;
      assert (a + b)[|a| + i].part == part;
    }
  }

  /** Every segment of the part reads `text`. */
  predicate AllRead(segments: seq<Segment>, part: Part, text: string)
  {
    forall i :: 0 <= i < |segments| && segments[i].part == part ==> segments[i].text == text
  }

  lemma AllReadConcat(a: seq<Segment>, b: seq<Segment>, part: Part, text: string)
    requires AllRead(a, part, text) && AllRead(b, part, text)
    ensures AllRead(a + b, part, text)
  {
    forall i | 0 <= i < |a + b| && (a + b)[i].part == part
      ensures (a + b)[i].text == text
    {
      if i >= |a| { assert (a + b)[i] == b[i - |a|]; }
    }
  }

  /** Four consecutive runs that each read `text` for a part read it together. */
  lemma AllReadFour(a: seq<Segment>, b: seq<Segment>, c: seq<Segment>, d: seq<Segment>, part: Part, text: string)
    requires AllRead(a, part, text) && AllRead(b, part, text) && AllRead(c, part, text) && AllRead(d, part, text)
    ensures AllRead(a + b + c + d, part, text)
  {
    AllReadConcat(a, b, part, text);
    AllReadConcat(a + b, c, part, text);
    AllReadConcat(a + b + c, d, part, text);
  }

  /** `getMethod`: the method with every lower-case ASCII letter made
      upper-case and every other character kept. */
  function GetMethod(m: HttpMessage): (r: string)
    requires m.Request?
    ensures |r| == |m.httpMethod|
    ensures forall i :: 0 <= i < |r| ==> !('a' <= r[i] <= 'z')
    ensures forall i :: 0 <= i < |r| ==>
      if 'a' <= m.httpMethod[i] <= 'z' then r[i] as int == m.httpMethod[i] as int - 32 else r[i] == m.httpMethod[i]
  {
    ToUpper(m.httpMethod)
  }

  /** `getStatusCode`: `code:[`, the status in decimal, a space, the status
      text and `]`. */
  function GetStatusCode(m: HttpMessage): (r: string)
    requires m.Response?
    ensures var digits := IntToString(m.status);
      && |r| == 8 + |digits| + |m.statusText|
      && r[..6] == "code:[" && r[|r| - 1] == ']'
      && r[6..6 + |digits|] == digits && r[6 + |digits|] == ' '
      && r[7 + |digits|..|r| - 1] == m.statusText
  {
    "code:[" + IntToString(m.status) + " " + m.statusText + "]"
  }

  /** `getMethodAndPath`: `For `, the request's method as it was sent (not
      upper-cased), a space and the path. */
  function GetMethodAndPath(m: HttpMessage): (r: string)
    requires m.Response?
    ensures |r| == 5 + |m.requestMethod| + |m.requestPath|
    ensures r[..4] == "For " && r[4..4 + |m.requestMethod|] == m.requestMethod
    ensures r[4 + |m.requestMethod|] == ' ' && r[5 + |m.requestMethod|..] == m.requestPath
  {
    "For " + m.requestMethod + " " + m.requestPath
  }

  /** The segment a header selection adds, when `headers` is truthy. */
  function HeadersSegment(m: HttpMessage, base: BaseProperties, json: Json): Result<seq<Segment>, RenderError>
  {
    if base.headers.Truthy() then
      match GetHeaders(m, base.headers, json)
      case Ok(out) => Ok([Segment(HeadersPart, OutputText(out))])
      case Err(e) => Err(e)
    else Ok([])
  }

  /** A segment, when it is selected. */
  function Opt(selected: bool, segment: Segment): seq<Segment>
  {
    if selected then [segment] else []
  }

  /** The segments whose flag is set, in the given order. */
  function Selected(front: seq<(bool, Segment)>): seq<Segment>
  {
    if |front| == 0 then [] else Opt(front[0].0, front[0].1) + Selected(front[1..])
  }

  /** The body segment, when `isAddBody` holds; `getBody` may throw. */
  function BodySegment(m: HttpMessage, body: BodyProperty, json: Json): Result<seq<Segment>, RenderError>
  {
    if IsAddBody(m, body) then
      match GetBody(m, json)
      case Ok(text) => Ok([Segment(BodyPart, text)])
      case Err(e) => Err(e)
    else Ok([])
  }

  /** What `getBody` returns, or nothing when it throws. */
  function BodyText(m: HttpMessage, json: Json): string
  {
    match GetBody(m, json)
    case Ok(text) => text
    case Err(_) => ""
  }

  /** The segments before the body on a request line. */
  function RequestFront(m: HttpMessage, p: RequestProperties): seq<Segment>
    requires m.Request?
  {
    Opt(p.httpMethod, Segment(MethodPart, GetMethod(m))) + Opt(p.url, Segment(UrlPart, m.url))
  }

  /** The segments before the body on a response line. */
  function ResponseFront(m: HttpMessage, p: ResponseProperties): seq<Segment>
    requires m.Response?
  {
    Opt(p.statusCode, Segment(StatusPart, GetStatusCode(m)))
  }

  /** The segments of a request line, in their fixed order; the first throw,
      from the body or then from the headers, ends the line. */
  function RequestSegments(m: HttpMessage, p: RequestProperties, json: Json): Result<seq<Segment>, RenderError>
    requires m.Request?
  {
    match BodySegment(m, p.base.body, json)
    case Err(e) => Err(e)
    case Ok(body) =>
      match HeadersSegment(m, p.base, json)
      case Ok(tail) => Ok(RequestFront(m, p) + body + tail)
      case Err(e) => Err(e)
  }

  /** The segments of a response line, in their fixed order. */
  function ResponseSegments(m: HttpMessage, p: ResponseProperties, json: Json): Result<seq<Segment>, RenderError>
    requires m.Response?
  {
    match BodySegment(m, p.base.body, json)
    case Err(e) => Err(e)
    case Ok(body) =>
      match HeadersSegment(m, p.base, json)
      case Ok(tail) => Ok(ResponseFront(m, p) + body + tail)
      case Err(e) => Err(e)
  }

  /** The request line: `Requesting ` and the segments joined by ` | `. */
  function RequestLine(m: HttpMessage, p: RequestProperties, json: Json): Result<string, RenderError>
    requires m.Request?
  {
    match RequestSegments(m, p, json)
    case Ok(segments) => Ok("Requesting " + Join(" | ", Texts(segments)))
    case Err(e) => Err(e)
  }

  /** The response line: `For <method> <path> | ` when selected, then
      `Response ` and the segments joined by ` | `. */
  function ResponseLine(m: HttpMessage, p: ResponseProperties, json: Json): Result<string, RenderError>
    requires m.Response?
  {
    var prefix := if p.methodAndPath then GetMethodAndPath(m) + " | " else "";
    match ResponseSegments(m, p, json)
    case Ok(segments) => Ok(prefix + "Response " + Join(" | ", Texts(segments)))
    case Err(e) => Err(e)
  }

  /** `HttpLogEventData.buildLogMessage`: `build` picks the line by the
      message's kind, so a request is rendered under the request policy and
      a response under the response policy; rendering throws exactly when
      that kind's segments throw. */
  function LogMessage(m: HttpMessage, p: LogProperties, json: Json): (r: Result<string, RenderError>)
    ensures m.Request? ==> (r.Err? <==> RequestSegments(m, p.request, json).Err?)
    ensures m.Request? && r.Ok? ==> |r.value| >= 11 && r.value[..11] == "Requesting "
    ensures m.Response? ==> (r.Err? <==> ResponseSegments(m, p.response, json).Err?)
    ensures m.Response? && r.Ok? ==>
      var start := (if p.response.methodAndPath then GetMethodAndPath(m) + " | " else "") + "Response ";
      |start| <= |r.value| && r.value[..|start|] == start
  {
    if m.Request? then RequestLine(m, p.request, json)
    else
      ResponseSegmentsSelected(m, p.response, json);
      ResponseLine(m, p.response, json)
  }

  /** Ranks strictly increase along the segments. */
  predicate InOrder(segments: seq<Segment>)
  {
    forall i, j :: 0 <= i < j < |segments| ==> segments[i].part.Rank() < segments[j].part.Rank()
  }

  /** Every rank lies in `[lo, hi)`. */
  predicate RanksWithin(segments: seq<Segment>, lo: nat, hi: nat)
  {
    forall i :: 0 <= i < |segments| ==> lo <= segments[i].part.Rank() < hi
  }

  lemma InOrderConcat(a: seq<Segment>, b: seq<Segment>, lo: nat, mid: nat, hi: nat)
    requires lo <= mid <= hi
    requires InOrder(a) && InOrder(b) && RanksWithin(a, lo, mid) && RanksWithin(b, mid, hi)
    ensures InOrder(a + b) && RanksWithin(a + b, lo, hi)
  {
    forall i, j | 0 <= i < j < |a + b|
      ensures (a + b)[i].part.Rank() < (a + b)[j].part.Rank()
    {
      if j < |a| {
      } else if i >= |a| {
        assert (a + b)[i] == b[i - |a|] && (a + b)[j] == b[j - |a|];
      } else {
        assert (a + b)[i] == a[i] && (a + b)[j] == b[j - |a|];
      }
    }
    forall i | 0 <= i < |a + b|
      ensures lo <= (a + b)[i].part.Rank() < hi
    {
      if i >= |a| { assert (a + b)[i] == b[i - |a|]; }
    }
  }

  lemma OptInOrder(selected: bool, segment: Segment)
    ensures InOrder(Opt(selected, segment))
    ensures RanksWithin(Opt(selected, segment), segment.part.Rank(), segment.part.Rank() + 1)
  {
  }

  /** The header segment is one `HeadersPart` segment or none. */
  lemma HeadersSegmentShape(m: HttpMessage, base: BaseProperties, json: Json)
    ensures var r := HeadersSegment(m, base, json);
      r.Ok? ==> |r.value| <= 1 && InOrder(r.value) && RanksWithin(r.value, 4, 5)
  {
    if base.headers.Truthy() {
      var out := GetHeaders(m, base.headers, json);
      if out.Ok? {
        assert HeadersSegment(m, base, json) == Ok([Segment(HeadersPart, OutputText(out.value))]);
      }
    }
  }

  /** The body segment is the body's JSON text when `isAddBody` holds, and
      nothing otherwise. */
  lemma BodySegmentShape(m: HttpMessage, body: BodyProperty, json: Json)
    ensures var r := BodySegment(m, body, json);
      r.Ok? ==> r.value == Opt(IsAddBody(m, body), Segment(BodyPart, BodyText(m, json)))
  {
  }

  /** Optional segments of increasing rank below the headers, then a
      headers tail, are in order. */
  lemma {:induction false} OptionalSegmentsInOrder(front: seq<(bool, Segment)>, tail: seq<Segment>, lo: nat)
    requires lo <= 4
    requires forall i :: 0 <= i < |front| ==> lo <= front[i].1.part.Rank() < 4
    requires forall i, j :: 0 <= i < j < |front| ==> front[i].1.part.Rank() < front[j].1.part.Rank()
    requires InOrder(tail) && RanksWithin(tail, 4, 5)
    ensures InOrder(Selected(front) + tail) && RanksWithin(Selected(front) + tail, lo, 5)
    decreases |front|
  {
    if |front| > 0 {
      var r := front[0].1.part.Rank();
      var rest := front[1..];
      forall i | 0 <= i < |rest|
        ensures r + 1 <= rest[i].1.part.Rank() < 4
      {
        assert rest[i] == front[i + 1];
      }
      forall i, j | 0 <= i < j < |rest|
        ensures rest[i].1.part.Rank() < rest[j].1.part.Rank()
      {
        assert rest[i] == front[i + 1] && rest[j] == front[j + 1];
      }
      OptionalSegmentsInOrder(rest, tail, r + 1);
      OptInOrder(front[0].0, front[0].1);
      InOrderConcat(Opt(front[0].0, front[0].1), Selected(rest) + tail, r, r + 1, 5);
      assert Selected(front) + tail == Opt(front[0].0, front[0].1) + (Selected(rest) + tail);
    }
  }

  lemma SelectedTwo(x: (bool, Segment), y: (bool, Segment))
    ensures Selected([x, y]) == Opt(x.0, x.1) + Opt(y.0, y.1)
  {
    assert [x, y][1..] == [y];
    assert [y][1..] == [];
    assert Selected([y]) == Opt(y.0, y.1) + [];
    assert Opt(y.0, y.1) + [] == Opt(y.0, y.1);
  }

  lemma SelectedThree(x: (bool, Segment), y: (bool, Segment), z: (bool, Segment))
    ensures Selected([x, y, z]) == Opt(x.0, x.1) + Opt(y.0, y.1) + Opt(z.0, z.1)
  {
    assert [x, y, z][1..] == [y, z];
    SelectedTwo(y, z);
  }

  /** The segments of a request line are in the fixed order method, url,
      body, headers, so none appears twice. */
  lemma RequestSegmentsInFixedOrder(m: HttpMessage, p: RequestProperties, json: Json)
    requires m.Request?
    ensures RequestSegments(m, p, json).Ok? ==> InOrder(RequestSegments(m, p, json).value)
  {
    var body := BodySegment(m, p.base.body, json);
    var tail := HeadersSegment(m, p.base, json);
    if body.Ok? && tail.Ok? {
      HeadersSegmentShape(m, p.base, json);
      BodySegmentShape(m, p.base.body, json);
      var front := [(p.httpMethod, Segment(MethodPart, GetMethod(m))),
                    (p.url, Segment(UrlPart, m.url)),
                    (IsAddBody(m, p.base.body), Segment(BodyPart, BodyText(m, json)))];
      OptionalSegmentsInOrder(front, tail.value, 0);
      SelectedThree(front[0], front[1], front[2]);
    }
  }

  /** The segments of a response line are in the fixed order status, body,
      headers, so none appears twice. */
  lemma ResponseSegmentsInFixedOrder(m: HttpMessage, p: ResponseProperties, json: Json)
    requires m.Response?
    ensures ResponseSegments(m, p, json).Ok? ==> InOrder(ResponseSegments(m, p, json).value)
  {
    var body := BodySegment(m, p.base.body, json);
    var tail := HeadersSegment(m, p.base, json);
    if body.Ok? && tail.Ok? {
      HeadersSegmentShape(m, p.base, json);
      BodySegmentShape(m, p.base.body, json);
      var front := [(p.statusCode, Segment(StatusPart, GetStatusCode(m))),
                    (IsAddBody(m, p.base.body), Segment(BodyPart, BodyText(m, json)))];
      OptionalSegmentsInOrder(front, tail.value, 0);
      SelectedTwo(front[0], front[1]);
    }
  }

  /** A request line holds the method (upper-cased) iff `method`, the url iff
      `url`, the body iff the flag is set, the body is truthy and the
      predicate (if any) accepts, and the headers iff `headers` is truthy;
      never a status. Building throws iff the body or the headers throw, and
      a throwing body is the error reported, as it is pushed first. */
  lemma RequestSegmentsSelected(m: HttpMessage, p: RequestProperties, json: Json)
    requires m.Request?
    ensures var r := RequestSegments(m, p, json);
      var b := p.base.body;
      && (r.Err? <==> (IsAddBody(m, b) && json.value(m.body).Err?) ||
                      (p.base.headers.Truthy() && GetHeaders(m, p.base.headers, json).Err?))
      && (IsAddBody(m, b) && json.value(m.body).Err? ==> r == Err(StringifyFailed(json.value(m.body).error)))
      && (r.Ok? ==>
            && (Has(r.value, MethodPart) <==> p.httpMethod)
            && (Has(r.value, UrlPart) <==> p.url)
            && !Has(r.value, StatusPart)
            && (Has(r.value, BodyPart) <==> (b.Predicate? || b.on) && m.body.Truthy() && (b.Predicate? ==> b.accepts(m)))
            && (Has(r.value, HeadersPart) <==> p.base.headers.Truthy())
            && AllRead(r.value, MethodPart, ToUpper(m.httpMethod))
            && AllRead(r.value, UrlPart, m.url)
            && (json.value(m.body).Ok? ==> AllRead(r.value, BodyPart, json.value(m.body).value))
            && (p.base.headers.Truthy() ==>
                  GetHeaders(m, p.base.headers, json).Ok? &&
                  AllRead(r.value, HeadersPart, OutputText(GetHeaders(m, p.base.headers, json).value))))
  {
    var r := RequestSegments(m, p, json);
    if r.Ok? {
      RequestSegmentsHave(m, p, json);
      RequestSegmentsRead(m, p, json);
    }
  }

  /** Which parts a request line holds. */
  lemma RequestSegmentsHave(m: HttpMessage, p: RequestProperties, json: Json)
    requires m.Request? && RequestSegments(m, p, json).Ok?
    ensures forall part: Part :: Has(RequestSegments(m, p, json).value, part) <==>
      (p.httpMethod && part == MethodPart) || (p.url && part == UrlPart) ||
      (IsAddBody(m, p.base.body) && part == BodyPart) || (p.base.headers.Truthy() && part == HeadersPart)
  {
    var r := RequestSegments(m, p, json);
    BodySegmentShape(m, p.base.body, json);
    var s1 := Opt(p.httpMethod, Segment(MethodPart, GetMethod(m)));
    var s2 := Opt(p.url, Segment(UrlPart, m.url));
    var s3 := Opt(IsAddBody(m, p.base.body), Segment(BodyPart, BodyText(m, json)));
    var tail := HeadersSegment(m, p.base, json).value;
    assert r.value == s1 + s2 + s3 + tail;
    forall part: Part
      ensures Has(r.value, part) <==>
        (p.httpMethod && part == MethodPart) || (p.url && part == UrlPart) ||
        (IsAddBody(m, p.base.body) && part == BodyPart) || (p.base.headers.Truthy() && part == HeadersPart)
    {
      HasConcat(s1, s2, part);
      HasConcat(s1 + s2, s3, part);
      HasConcat(s1 + s2 + s3, tail, part);
      assert p.httpMethod ==> s1[0].part == MethodPart;
      assert p.url ==> s2[0].part == UrlPart;
      assert IsAddBody(m, p.base.body) ==> s3[0].part == BodyPart;
      assert p.base.headers.Truthy() ==> tail[0].part == HeadersPart;
    }
  }

  /** Each segment of a request line reads as its getter gives it. */
  lemma RequestSegmentsRead(m: HttpMessage, p: RequestProperties, json: Json)
    requires m.Request? && RequestSegments(m, p, json).Ok?
    ensures var segments := RequestSegments(m, p, json).value;
      && AllRead(segments, MethodPart, ToUpper(m.httpMethod))
      && AllRead(segments, UrlPart, m.url)
      && AllRead(segments, BodyPart, BodyText(m, json))
      && (p.base.headers.Truthy() ==>
            GetHeaders(m, p.base.headers, json).Ok? &&
            AllRead(segments, HeadersPart, OutputText(GetHeaders(m, p.base.headers, json).value)))
  {
    BodySegmentShape(m, p.base.body, json);
    var s1 := Opt(p.httpMethod, Segment(MethodPart, GetMethod(m)));
    var s2 := Opt(p.url, Segment(UrlPart, m.url));
    var s3 := Opt(IsAddBody(m, p.base.body), Segment(BodyPart, BodyText(m, json)));
    var tail := HeadersSegment(m, p.base, json).value;
    assert RequestSegments(m, p, json).value == s1 + s2 + s3 + tail;
    AllReadFour(s1, s2, s3, tail, MethodPart, ToUpper(m.httpMethod));
    AllReadFour(s1, s2, s3, tail, UrlPart, m.url);
    AllReadFour(s1, s2, s3, tail, BodyPart, BodyText(m, json));
    if p.base.headers.Truthy() {
      var text := OutputText(GetHeaders(m, p.base.headers, json).value);
      assert tail == [Segment(HeadersPart, text)];
      AllReadFour(s1, s2, s3, tail, HeadersPart, text);
    }
  }

  /** A response line holds the status iff `statusCode`, the body and headers
      as for a request, and never a method or url segment; the
      `For <method> <path>` prefix is there iff `methodAndPath`. */
  lemma ResponseSegmentsSelected(m: HttpMessage, p: ResponseProperties, json: Json)
    requires m.Response?
    ensures var r := ResponseSegments(m, p, json);
      var b := p.base.body;
      && (r.Err? <==> (IsAddBody(m, b) && json.value(m.data).Err?) ||
                      (p.base.headers.Truthy() && GetHeaders(m, p.base.headers, json).Err?))
      && (IsAddBody(m, b) && json.value(m.data).Err? ==> r == Err(StringifyFailed(json.value(m.data).error)))
      && (r.Ok? ==>
            && (Has(r.value, StatusPart) <==> p.statusCode)
            && !Has(r.value, MethodPart) && !Has(r.value, UrlPart)
            && (Has(r.value, BodyPart) <==> (b.Predicate? || b.on) && m.data.Truthy() && (b.Predicate? ==> b.accepts(m)))
            && (Has(r.value, HeadersPart) <==> p.base.headers.Truthy())
            && AllRead(r.value, StatusPart, "code:[" + IntToString(m.status) + " " + m.statusText + "]")
            && (json.value(m.data).Ok? ==> AllRead(r.value, BodyPart, json.value(m.data).value))
            && (p.base.headers.Truthy() ==>
                  GetHeaders(m, p.base.headers, json).Ok? &&
                  AllRead(r.value, HeadersPart, OutputText(GetHeaders(m, p.base.headers, json).value))))
      && (var line := ResponseLine(m, p, json);
          line.Ok? ==>
            var start := (if p.methodAndPath then "For " + m.requestMethod + " " + m.requestPath + " | " else "") + "Response ";
            |start| <= |line.value| && line.value[..|start|] == start)
  {
    var r := ResponseSegments(m, p, json);
    if r.Ok? {
      BodySegmentShape(m, p.base.body, json);
      var s1 := Opt(p.statusCode, Segment(StatusPart, GetStatusCode(m)));
      var s3 := Opt(IsAddBody(m, p.base.body), Segment(BodyPart, BodyText(m, json)));
      var tail := HeadersSegment(m, p.base, json).value;
      assert r.value == s1 + s3 + tail;
      forall part: Part
        ensures Has(r.value, part) <==>
          (p.statusCode && part == StatusPart) ||
          (IsAddBody(m, p.base.body) && part == BodyPart) || (p.base.headers.Truthy() && part == HeadersPart)
      {
        HasConcat(s1, s3, part);
        HasConcat(s1 + s3, tail, part);
        assert p.statusCode ==> s1[0].part == StatusPart;
        assert IsAddBody(m, p.base.body) ==> s3[0].part == BodyPart;
        assert p.base.headers.Truthy() ==> tail[0].part == HeadersPart;
      }
      ResponseSegmentsRead(m, p, json);
    }
  }

  /** Each segment of a response line reads as its getter gives it. */
  lemma ResponseSegmentsRead(m: HttpMessage, p: ResponseProperties, json: Json)
    requires m.Response? && ResponseSegments(m, p, json).Ok?
    ensures var segments := ResponseSegments(m, p, json).value;
      && AllRead(segments, StatusPart, "code:[" + IntToString(m.status) + " " + m.statusText + "]")
      && AllRead(segments, BodyPart, BodyText(m, json))
      && (p.base.headers.Truthy() ==>
            GetHeaders(m, p.base.headers, json).Ok? &&
            AllRead(segments, HeadersPart, OutputText(GetHeaders(m, p.base.headers, json).value)))
  {
    BodySegmentShape(m, p.base.body, json);
    var s1 := Opt(p.statusCode, Segment(StatusPart, GetStatusCode(m)));
    var s3 := Opt(IsAddBody(m, p.base.body), Segment(BodyPart, BodyText(m, json)));
    var tail := HeadersSegment(m, p.base, json).value;
    assert ResponseSegments(m, p, json).value == s1 + s3 + tail;
    var code := "code:[" + IntToString(m.status) + " " + m.statusText + "]";
    AllReadFour([], s1, s3, tail, StatusPart, code);
    AllReadFour([], s1, s3, tail, BodyPart, BodyText(m, json));
    if p.base.headers.Truthy() {
      var text := OutputText(GetHeaders(m, p.base.headers, json).value);
      assert tail == [Segment(HeadersPart, text)];
      AllReadFour([], s1, s3, tail, HeadersPart, text);
    }
    assert [] + s1 + s3 + tail == s1 + s3 + tail;
  }

  /** `RequestLogEventData.buildLogMessage`: pushes the selected segments one
      by one, then joins them; a throw from `getBody` or `getHeaders` ends
      it. */
  method BuildRequestLogMessage(m: HttpMessage, p: RequestProperties, json: Json) returns (r: Result<string, RenderError>)
    requires m.Request?
    ensures r == RequestLine(m, p, json)
  {
    var logEventData: seq<string> := [];
    ghost var segments: seq<Segment> := [];
    if p.httpMethod {
      logEventData := logEventData + [GetMethod(m)];
      segments := segments + [Segment(MethodPart, GetMethod(m))];
    }
    if p.url {
      logEventData := logEventData + [m.url];
      segments := segments + [Segment(UrlPart, m.url)];
    }
    assert segments == RequestFront(m, p);
    ghost var bodySegment: seq<Segment> := [];
    if IsAddBody(m, p.base.body) {
      var body := GetBody(m, json);
      if body.Err? {
        return Err(body.error);
      }
      bodySegment := [Segment(BodyPart, body.value)];
      logEventData := logEventData + [body.value];
      segments := segments + bodySegment;
    }
    assert BodySegment(m, p.base.body, json) == Ok(bodySegment);
    ghost var tail: seq<Segment> := [];
    if p.base.headers.Truthy() {
      var allowed := GetAllowedRequestHeadersToLog(m);
      var out := SelectHeaders(ResolveHeaders(p.base.headers, m), allowed, json);
      assert out == GetHeaders(m, p.base.headers, json);
      if out.Err? {
        return Err(out.error);
      }
      assert HeadersSegment(m, p.base, json) == Ok([Segment(HeadersPart, OutputText(out.value))]);
      tail := [Segment(HeadersPart, OutputText(out.value))];
      logEventData := logEventData + [OutputText(out.value)];
      segments := segments + tail;
    }
    assert HeadersSegment(m, p.base, json) == Ok(tail);
    assert segments == RequestFront(m, p) + bodySegment + tail;
    assert logEventData == Texts(segments);
    r := Ok("Requesting " + Join(" | ", logEventData));
  }

  /** `ResponseLogEventData.buildLogMessage`. */
  method BuildResponseLogMessage(m: HttpMessage, p: ResponseProperties, json: Json) returns (r: Result<string, RenderError>)
    requires m.Response?
    ensures r == ResponseLine(m, p, json)
  {
    var logEventData: seq<string> := [];
    ghost var segments: seq<Segment> := [];
    var requestString := "";
    if p.methodAndPath {
      requestString := GetMethodAndPath(m);
    }
    if p.statusCode {
      logEventData := logEventData + [GetStatusCode(m)];
      segments := segments + [Segment(StatusPart, GetStatusCode(m))];
    }
    assert segments == ResponseFront(m, p);
    ghost var bodySegment: seq<Segment> := [];
    if IsAddBody(m, p.base.body) {
      var body := GetBody(m, json);
      if body.Err? {
        return Err(body.error);
      }
      bodySegment := [Segment(BodyPart, body.value)];
      logEventData := logEventData + [body.value];
      segments := segments + bodySegment;
    }
    assert BodySegment(m, p.base.body, json) == Ok(bodySegment);
    ghost var tail: seq<Segment> := [];
    if p.base.headers.Truthy() {
      var out := SelectHeaders(ResolveHeaders(p.base.headers, m), m.responseHeaders.GetOr(map[]), json);
      assert out == GetHeaders(m, p.base.headers, json);
      if out.Err? {
        return Err(out.error);
      }
      assert HeadersSegment(m, p.base, json) == Ok([Segment(HeadersPart, OutputText(out.value))]);
      tail := [Segment(HeadersPart, OutputText(out.value))];
      logEventData := logEventData + [OutputText(out.value)];
      segments := segments + tail;
    }
    assert HeadersSegment(m, p.base, json) == Ok(tail);
    assert segments == ResponseFront(m, p) + bodySegment + tail;
    assert logEventData == Texts(segments);
    r := Ok((if requestString != "" then requestString + " | " else "") + "Response " + Join(" | ", logEventData));
  }

  // ----------------------------------------------------------- interceptor

  /** The logger a record goes to: the one the interceptors were built with,
      or the engine's own module logger. */
  datatype LoggerName = TrafficLogger | ModuleLogger

  datatype LogRecord = LogRecord(logger: LoggerName, level: LevelValue, text: string)

  /** The policy of the message's kind. */
  function BaseFor(p: LogProperties, m: HttpMessage): BaseProperties
  {
    if m.Request? then p.request.base else p.response.base
  }

  /** The level the line is logged at: the callback's answer, INFO when the
      level is falsy; a truthy non-callback throws. */
  function LevelFor(level: LevelProperty, m: HttpMessage): (r: Result<LevelValue, RenderError>)
    ensures level.Computed? ==> r == Ok(level.get(m))
    ensures level.Fixed? ==> (r.Err? <==> level.value.Truthy())
    ensures level.Fixed? && r.Ok? ==> r.value == Std(INFO)
    ensures r.Err? ==> r.error == LevelNotCallable
  {
    match level
    case Computed(get) => Ok(get(m))
    case Fixed(value) => if value.Truthy() then Err(LevelNotCallable) else Ok(Std(INFO))
  }

  /** The record `moduleLogger.error` writes when building the line throws. */
  function FailureRecord(m: HttpMessage, e: RenderError): LogRecord
  {
    LogRecord(ModuleLogger, Std(ERROR), "Failed to log " + (if m.Request? then "request" else "response") + ": " + ErrorText(e))
  }

  /** What one interceptor call logs: nothing when `logIt` is off, otherwise
      one record; a record on the module logger is an error. */
  function Emitted(p: LogProperties, m: HttpMessage, json: Json): (r: seq<LogRecord>)
    ensures |r| <= 1
    ensures r == [] <==> !BaseFor(p, m).logIt
    ensures |r| == 1 && r[0].logger == ModuleLogger ==> r[0].level == Std(ERROR)
  {
    var base := BaseFor(p, m);
    if !base.logIt then []
    else match LogMessage(m, p, json)
      case Err(e) => [FailureRecord(m, e)]
      case Ok(line) =>
        match LevelFor(base.level, m)
        case Err(e) => [FailureRecord(m, e)]
        case Ok(level) => [LogRecord(TrafficLogger, level, line)]
  }

  /** With `logIt` on, the record is the line at the policy's level (INFO
      when the level is falsy), or, when building the line throws, one error
      on the module logger. */
  lemma InterceptorOutcome(p: LogProperties, m: HttpMessage, json: Json)
    ensures var e := Emitted(p, m, json);
      var base := BaseFor(p, m);
      && (base.logIt && LogMessage(m, p, json).Err? ==> e == [FailureRecord(m, LogMessage(m, p, json).error)])
      && (base.logIt && LogMessage(m, p, json).Ok? && LevelsCallable(p) ==>
            e == [LogRecord(TrafficLogger,
                            if base.level.Computed? then base.level.get(m) else Std(INFO),
                            LogMessage(m, p, json).value)])
      && (|e| == 1 && e[0].logger == TrafficLogger ==> LogMessage(m, p, json) == Ok(e[0].text))
  {
  }

  /** A user response level that is neither a callback nor `'auto'` never
      reaches the logger as written: the merged callback returns itself, so
      every logged response carries a function where its level should be. */
  lemma SelfReadingLevelReachesLogger(user: UserProperties, m: HttpMessage, json: Json, level: LevelValue)
    requires user.response.Some? && user.response.value.base.level == Some(Fixed(level))
    requires level.Truthy() && level != Named("auto") && !level.Function?
    requires m.Response?
    ensures var p := CreateFullLogProperties(user);
      p.response.base.logIt && LogMessage(m, p, json).Ok? ==>
        && Emitted(p, m, json) == [LogRecord(TrafficLogger, Function, LogMessage(m, p, json).value)]
        && Emitted(p, m, json)[0].level != level
  {
  }

  /** `createFullLogProperties` with the intended response conversion. */
  function CreateFullLogPropertiesIntended(user: UserProperties): (r: LogProperties)
    ensures LevelsCallable(r)
    ensures r.request == CreateFullLogProperties(user).request
  {
    var full := CreateFullLogProperties(user);
    var u := user.response.GetOr(UserResponse(NoUserBase, None, None, None, None, None, None));
    if u.base.level.Some? && u.base.level.value.Truthy() then
      full.(response := full.response.(base := full.response.base.(level := ConvertLogLevelResponsePropertyIntended(u))))
    else full
  }

  /** With the intended conversion, a configured response level is the level
      every logged response carries. */
  lemma ConfiguredLevelReachesLogger(user: UserProperties, m: HttpMessage, json: Json, level: LevelValue)
    requires user.response.Some? && user.response.value.base.level == Some(Fixed(level))
    requires level.Truthy() && level != Named("auto") && !level.Function?
    requires m.Response?
    ensures var p := CreateFullLogPropertiesIntended(user);
      p.response.base.logIt && LogMessage(m, p, json).Ok? ==>
        Emitted(p, m, json) == [LogRecord(TrafficLogger, level, LogMessage(m, p, json).value)]
  {
  }

  /** Without user properties: requests at INFO, responses at INFO below
      status 400 and ERROR from 400 on. */
  lemma DefaultLevels(m: HttpMessage)
    ensures LevelsCallable(DefaultLogProperties())
    ensures m.Request? ==> LevelFor(BaseFor(DefaultLogProperties(), m).level, m) == Ok(Std(INFO))
    ensures m.Response? ==>
      LevelFor(BaseFor(DefaultLogProperties(), m).level, m) == Ok(if m.status < 400 then Std(INFO) else Std(ERROR))
  {
  }

  /** The module state of `http_log_interceptors.ts`: `_logProperties`, set by
      `setLogProperties` and read by every interceptor call. */
  class Interceptors {
    var logProperties: Option<LogProperties>

    ghost predicate Valid()
      reads this
    {
      logProperties.Some? ==> LevelsCallable(logProperties.value)
    }

    constructor ()
      ensures logProperties == None && Valid()
    {
      logProperties := None;
    }

    /** `setLogProperties`: merged user properties, or the defaults. */
    method SetLogProperties(user: Option<UserProperties>)
      modifies this
      ensures Valid()
      ensures logProperties == Some(if user.Some? then CreateFullLogProperties(user.value) else DefaultLogProperties())
    {
      if user.Some? {
        logProperties := Some(CreateFullLogProperties(user.value));
      } else {
        logProperties := Some(DefaultLogProperties());
      }
    }

    /** `getHttpLogProperties`: the properties set, or the defaults before
        any were. */
    function GetHttpLogProperties(): (r: LogProperties)
      reads this
      ensures Valid() ==> LevelsCallable(r)
    {
      if logProperties.Some? then logProperties.value else DefaultLogProperties()
    }

    /** `logInterceptor`: logs the message as its policy says and hands back
        the very message it was given, whether logging is off, succeeds or
        throws. */
    method LogInterceptor(httpMsg: HttpMessage, json: Json) returns (out: HttpMessage, emitted: seq<LogRecord>)
      ensures out == httpMsg
      ensures emitted == Emitted(GetHttpLogProperties(), httpMsg, json)
    {
      out := httpMsg;
      emitted := [];
      var props := GetHttpLogProperties();
      var base := BaseFor(props, httpMsg);
      if base.logIt {
        var line;
        if httpMsg.Request? {
          line := BuildRequestLogMessage(httpMsg, props.request, json);
        } else {
          line := BuildResponseLogMessage(httpMsg, props.response, json);
        }
        if line.Err? {
          emitted := [FailureRecord(httpMsg, line.error)];
          return;
        }
        var level := LevelFor(base.level, httpMsg);
        if level.Err? {
          emitted := [FailureRecord(httpMsg, level.error)];
          return;
        }
        emitted := [LogRecord(TrafficLogger, level.value, line.value)];
      }
    }
  }
}
