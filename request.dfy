/** One HTTP request to the webhook server: routing, body collection with the
    size ceiling, the transport-error handler and the end-of-stream handler
    that parses, validates, acknowledges and then dispatches.

    Every observable thing the handler does to the exchange is recorded, in
    order, in an effect log: the response written (`res.writeHead` followed by
    `res.end`), the connection reset (`req.destroy`), the hand-off to
    `onMessage`, and a handler failure that was caught. `res.headersSent` is
    "the log holds a response". */
module RequestHandling {
  import opened Wrappers
  import opened Json
  import opened Validation

  /** MAX_BODY_SIZE: the ceiling on the accumulated body length (1 MiB). */
  const MaxBodySize: nat := 1024 * 1024

  const HealthBody: string := "{\"status\":\"ok\"}"
  const TooLargeBody: string := "{\"error\":\"Payload too large\"}"
  const InvalidJsonBody: string := "{\"error\":\"Invalid JSON\"}"
  const InvalidPayloadBody: string := "{\"error\":\"Invalid payload: missing required fields\"}"
  const ReceivedBody: string := "{\"received\":true}"

  datatype Headers = NoHeaders | JsonContentType

  datatype Effect =
    | Respond(status: int, headers: Headers, body: string)
    /** `res.writeHead` on a response whose headers were already sent: Node
        throws ERR_HTTP_HEADERS_SENT out of the event listener. */
    | HeadersSentFault
    | Destroy
    | Dispatch(message: Value)
    | HandlerFailed

  const HealthResponse: Effect := Respond(200, JsonContentType, HealthBody)
  const NotFoundResponse: Effect := Respond(404, NoHeaders, "")
  const TooLargeResponse: Effect := Respond(413, JsonContentType, TooLargeBody)
  const ServerErrorResponse: Effect := Respond(500, NoHeaders, "")
  const InvalidJsonResponse: Effect := Respond(400, JsonContentType, InvalidJsonBody)
  const InvalidPayloadResponse: Effect := Respond(400, JsonContentType, InvalidPayloadBody)
  const Ack: Effect := Respond(200, JsonContentType, ReceivedBody)

  /** Outcome of `JSON.parse` on a body: a value or a thrown SyntaxError. */
  datatype ParseResult = Parsed(value: Value) | SyntaxError

  /** How the promise returned by `onMessage` settles. */
  datatype Settlement = Fulfilled | Rejected

  /** The collaborators the handler calls but this model does not implement:
      the JSON parser and the configured message handler. */
  datatype Env = Env(parse: string -> ParseResult, onMessage: Value -> Settlement)

  /** The request-stream events the handler listens to. */
  datatype Event = Data(chunk: string) | Error | End

  /** The per-request state: whether the data/error/end listeners were attached,
      the closure's `body` and `bodyTooLarge`, and the effect log. */
  datatype RequestState = RequestState(listening: bool, body: string, bodyTooLarge: bool, effects: seq<Effect>)

  /** A JavaScript string's `length`: its number of UTF-16 code units, two for
      a character outside the Basic Multilingual Plane. */
  function Utf16Length(s: string): nat {
    if s == [] then 0 else (if s[0] as int >= 0x1_0000 then 2 else 1) + Utf16Length(s[1..])
  }

  /** Number of responses written to the exchange. */
  function Responses(effects: seq<Effect>): nat {
    if effects == [] then 0 else (if effects[0].Respond? then 1 else 0) + Responses(effects[1..])
  }

  /** Number of hand-offs to `onMessage`. */
  function Dispatches(effects: seq<Effect>): nat {
    if effects == [] then 0 else (if effects[0].Dispatch? then 1 else 0) + Dispatches(effects[1..])
  }

  /** `res.headersSent`. */
  predicate HeadersSent(effects: seq<Effect>) {
    Responses(effects) > 0
  }

  /** `payload.is_outbound` is truthy. */
  predicate IsOutbound(payload: Value) {
    Truthy(Get(payload, "is_outbound"))
  }

  // ---------------------------------------------------------------- routing

  datatype Route = Health | NotFound | Collect

  /** The routing test at the top of the request callback: exactly `GET /health`
      is the liveness probe; a request that is not a POST or whose URL does not
      start with the configured path is not found; every other request has its
      body collected. */
  function RouteOf(httpMethod: string, url: Option<string>, path: string): (r: Route)
    ensures r == Health <==> httpMethod == "GET" && url == Some("/health")
    ensures r == Collect <==> httpMethod == "POST" && url.Some? && path <= url.value
    ensures r == NotFound <==>
      !(httpMethod == "GET" && url == Some("/health")) &&
      (httpMethod != "POST" || url.None? || !(path <= url.value))
  {
    if httpMethod == "GET" && url == Some("/health") then Health
    else if httpMethod != "POST" || !(url.Some? && path <= url.value) then NotFound
    else Collect
  }

  /** The state right after the request callback returns. */
  function Begin(httpMethod: string, url: Option<string>, path: string): RequestState {
    match RouteOf(httpMethod, url, path)
    case Health => RequestState(false, "", false, [HealthResponse])
    case NotFound => RequestState(false, "", false, [NotFoundResponse])
    case Collect => RequestState(true, "", false, [])
  }

  // ---------------------------------------------------------------- events

  /** The 'data' listener. */
  function DataStep(s: RequestState, chunk: string): RequestState {
    if !s.listening || s.bodyTooLarge then s
    else
      var body := s.body + chunk;
      if Utf16Length(body) <= MaxBodySize then s.(body := body)
      else if HeadersSent(s.effects) then
        s.(body := body, bodyTooLarge := true, effects := s.effects + [HeadersSentFault])
      else
        s.(body := body, bodyTooLarge := true, effects := s.effects + [TooLargeResponse, Destroy])
  }

  /** The 'error' listener. */
  function ErrorStep(s: RequestState): RequestState {
    if !s.listening || HeadersSent(s.effects) then s
    else s.(effects := s.effects + [ServerErrorResponse])
  }

  /** What the 'end' listener writes once it gets past its guard: a parse
      failure or an invalid payload is answered 400; a valid payload is
      acknowledged 200 and then, unless outbound, handed to `onMessage`, whose
      failure is caught. */
  function EndEffects(parsed: ParseResult, onMessage: Value -> Settlement): seq<Effect> {
    match parsed
    case SyntaxError => [InvalidJsonResponse]
    case Parsed(payload) =>
      if !IsValidSendbluePayload(payload) then [InvalidPayloadResponse]
      else if IsOutbound(payload) then [Ack]
      else if onMessage(payload).Rejected? then [Ack, Dispatch(payload), HandlerFailed]
      else [Ack, Dispatch(payload)]
  }

  /** The 'end' listener. */
  function EndStep(s: RequestState, env: Env): RequestState {
    if !s.listening || s.bodyTooLarge || HeadersSent(s.effects) then s
    else s.(effects := s.effects + EndEffects(env.parse(s.body), env.onMessage))
  }

  function Step(s: RequestState, e: Event, env: Env): RequestState {
    match e
    case Data(chunk) => DataStep(s, chunk)
    case Error => ErrorStep(s)
    case End => EndStep(s, env)
  }

  /** The state after a sequence of stream events. */
  function Run(s: RequestState, events: seq<Event>, env: Env): RequestState
    decreases |events|
  {
    if events == [] then s else Run(Step(s, events[0], env), events[1..], env)
  }

  /** The order in which Node delivers request-stream events: once 'end' or
      'error' has been emitted (`closed`), no further 'data' follows. */
  predicate Admissible(closed: bool, events: seq<Event>)
    decreases |events|
  {
    events == [] ||
    ((!closed || !events[0].Data?) && Admissible(closed || !events[0].Data?, events[1..]))
  }

  /** One 'data' event per chunk, in order. */
  function Uploads(chunks: seq<string>): seq<Event> {
    if chunks == [] then [] else [Data(chunks[0])] + Uploads(chunks[1..])
  }

  /** The chunks joined in order. */
  function Concat(chunks: seq<string>): string {
    if chunks == [] then "" else chunks[0] + Concat(chunks[1..])
  }

  // ---------------------------------------------------------------- the handler object

  /** The state one invocation of the request callback creates: the closure's
      `body` and `bodyTooLarge` and the exchange it writes to. */
  class Request {
    const env: Env
    const listening: bool
    var body: string
    var bodyTooLarge: bool
    var effects: seq<Effect>

    function State(): RequestState
      reads this
    {
      RequestState(listening, body, bodyTooLarge, effects)
    }

    /** `res.headersSent`. */
    function HeadersAreSent(): (sent: bool)
      reads this
      ensures sent <==> exists i :: 0 <= i < |effects| && effects[i].Respond?
    {
      ResponsesAreWrites(effects);
      HeadersSent(effects)
    }

    /** The request callback: route, then either answer immediately or attach
        the body listeners. */
    constructor (httpMethod: string, url: Option<string>, path: string, env: Env)
      ensures State() == Begin(httpMethod, url, path) && this.env == env
    {
      this.env := env;
      body := "";
      bodyTooLarge := false;
      match RouteOf(httpMethod, url, path)
      case Health =>
        listening := false;
        effects := [HealthResponse];
      case NotFound =>
        listening := false;
        effects := [NotFoundResponse];
      case Collect =>
        listening := true;
        effects := [];
    }

    /** A 'data' event carrying `chunk`. */
    method OnData(chunk: string)
      modifies this
      ensures State() == DataStep(old(State()), chunk)
    {
      if !listening || bodyTooLarge {
        return;
      }
      body := body + chunk;
      if Utf16Length(body) > MaxBodySize {
        bodyTooLarge := true;
        if HeadersSent(effects) {
          effects := effects + [HeadersSentFault];
        } else {
          effects := effects + [TooLargeResponse];
          effects := effects + [Destroy];
        }
      }
    }

    /** An 'error' event on the request stream. */
    method OnError()
      modifies this
      ensures State() == ErrorStep(old(State()))
    {
      if !listening {
        return;
      }
      if !HeadersSent(effects) {
        effects := effects + [ServerErrorResponse];
      }
    }

    /** The 'end' event: parse, validate, acknowledge, then dispatch. */
    method OnEnd()
      modifies this
      ensures State() == EndStep(old(State()), env)
    {
      if !listening || bodyTooLarge || HeadersSent(effects) {
        return;
      }
      var parsed := env.parse(body);
      match parsed
      case SyntaxError =>
        effects := effects + [InvalidJsonResponse];
      case Parsed(payload) =>
        if !IsValidSendbluePayload(payload) {
          effects := effects + [InvalidPayloadResponse];
          return;
        }
        effects := effects + [Ack];
        if IsOutbound(payload) {
          return;
        }
        effects := effects + [Dispatch(payload)];
        var settled := env.onMessage(payload);
        if settled.Rejected? {
          effects := effects + [HandlerFailed];
        }
    }
  }

  // ---------------------------------------------------------------- lemmas

  /** The length of a joined string is the sum of the lengths. */
  lemma {:induction false} Utf16LengthAppend(a: string, b: string)
    ensures Utf16Length(a + b) == Utf16Length(a) + Utf16Length(b)
    decreases |a|
  {
    if a == [] {
      assert a + b == b;
    } else {
      assert (a + b)[0] == a[0] && (a + b)[1..] == a[1..] + b;
      Utf16LengthAppend(a[1..], b);
    }
  }

  /** `length` counts every character once or twice: it lies between the
      number of characters and twice that, and equals it exactly when no
      character lies outside the Basic Multilingual Plane. */
  lemma {:induction false} Utf16LengthBounds(s: string)
    ensures |s| <= Utf16Length(s) <= 2 * |s|
    ensures Utf16Length(s) == |s| <==> forall i | 0 <= i < |s| :: s[i] as int < 0x1_0000
    decreases |s|
  {
    if s != [] {
      Utf16LengthBounds(s[1..]);
      if Utf16Length(s) == |s| {
        forall i | 0 <= i < |s| ensures s[i] as int < 0x1_0000 {
          if i > 0 { assert s[i] == s[1..][i - 1]; }
        }
      }
    }
  }

  /** A string made only of characters outside the Basic Multilingual Plane
      has `length` twice its number of characters. */
  lemma {:induction false} AstralLength(s: string)
    requires forall i | 0 <= i < |s| :: s[i] as int >= 0x1_0000
    ensures Utf16Length(s) == 2 * |s|
    decreases |s|
  {
    if s != [] {
      assert forall i | 0 <= i < |s[1..]| :: s[1..][i] == s[i + 1];
      AstralLength(s[1..]);
    }
  }

  /** The size check counts code units, not characters: a single chunk of
      2^20 emoji (U+1F600) is 2^21 units long and is answered 413. */
  lemma EmojiBodyTooLarge(path: string, env: Env)
    ensures var chunk := seq(MaxBodySize, _ => '\U{1F600}');
      Run(Begin("POST", Some(path), path), [Data(chunk)], env).effects == [TooLargeResponse, Destroy]
  {
    var chunk := seq(MaxBodySize, _ => '\U{1F600}');
    AstralLength(chunk);
    var s0 := Begin("POST", Some(path), path);
    assert s0 == RequestState(true, "", false, []);
    assert s0.body + chunk == chunk;
    assert [Data(chunk)][0] == Data(chunk) && [Data(chunk)][1..] == [];
  }

  /** `Responses` counts the writes in the log. */
  lemma {:induction false} ResponsesAreWrites(effects: seq<Effect>)
    ensures HeadersSent(effects) <==> exists i :: 0 <= i < |effects| && effects[i].Respond?
    decreases |effects|
  {
    if effects != [] {
      ResponsesAreWrites(effects[1..]);
      if effects[0].Respond? {
      } else if HeadersSent(effects) {
        var i :| 0 <= i < |effects[1..]| && effects[1..][i].Respond?;
        assert effects[i + 1].Respond?;
      } else {
        forall i | 0 <= i < |effects| ensures !effects[i].Respond? {
          if i > 0 { assert effects[i] == effects[1..][i - 1]; }
        }
      }
    }
  }

  /** Running events one after another is running them in one go. */
  lemma {:induction false} RunAppend(s: RequestState, a: seq<Event>, b: seq<Event>, env: Env)
    ensures Run(s, a + b, env) == Run(Run(s, a, env), b, env)
    decreases |a|
  {
    if a == [] {
      assert a + b == b;
    } else {
      assert (a + b)[0] == a[0] && (a + b)[1..] == a[1..] + b;
      RunAppend(Step(s, a[0], env), a[1..], b, env);
    }
  }

  /** A request without listeners (the health probe and 404) is unaffected by
      any stream event. */
  lemma {:induction false} IdleRequestUnchanged(s: RequestState, events: seq<Event>, env: Env)
    requires !s.listening
    ensures Run(s, events, env) == s
    decreases |events|
  {
    if events != [] {
      IdleRequestUnchanged(Step(s, events[0], env), events[1..], env);
    }
  }

  /** `GET /health` is answered 200 `{"status":"ok"}` whatever path is
      configured, with no body read and nothing dispatched, whatever the stream
      does afterwards. */
  lemma HealthCheck(httpMethod: string, url: Option<string>, path: string, events: seq<Event>, env: Env)
    requires httpMethod == "GET" && url == Some("/health")
    ensures var r := Run(Begin(httpMethod, url, path), events, env);
      r.effects == [Respond(200, JsonContentType, HealthBody)] && r.body == "" && Dispatches(r.effects) == 0
  {
    IdleRequestUnchanged(Begin(httpMethod, url, path), events, env);
  }

  /** Any other request that is not a POST, or whose URL does not start with
      the configured path, is answered 404 with an empty body and nothing else
      happens. */
  lemma NotFoundRequest(httpMethod: string, url: Option<string>, path: string, events: seq<Event>, env: Env)
    requires !(httpMethod == "GET" && url == Some("/health"))
    requires httpMethod != "POST" || url.None? || !(path <= url.value)
    ensures var r := Run(Begin(httpMethod, url, path), events, env);
      r.effects == [Respond(404, NoHeaders, "")] && r.body == "" && Dispatches(r.effects) == 0
  {
    IdleRequestUnchanged(Begin(httpMethod, url, path), events, env);
  }

  /** Once the 413 is out, the request is frozen: later chunks are dropped, the
      error and end listeners do nothing, and `bodyTooLarge` stays set. */
  lemma {:induction false} TooLargeIsFinal(s: RequestState, events: seq<Event>, env: Env)
    requires s.listening && s.bodyTooLarge && HeadersSent(s.effects)
    ensures Run(s, events, env) == s
    decreases |events|
  {
    if events != [] {
      TooLargeIsFinal(Step(s, events[0], env), events[1..], env);
    }
  }

  /** Body collection: starting from an untouched request, a run of chunks
      either leaves no response and the body equal to the chunks joined, or -
      exactly when the joined length exceeds the ceiling - writes one 413 and
      resets the connection. */
  lemma {:induction false} CollectChunks(s: RequestState, chunks: seq<string>, env: Env)
    requires s.listening && !s.bodyTooLarge && s.effects == [] && Utf16Length(s.body) <= MaxBodySize
    ensures var r := Run(s, Uploads(chunks), env);
      && r.listening
      && (r.bodyTooLarge <==> Utf16Length(s.body + Concat(chunks)) > MaxBodySize)
      && (!r.bodyTooLarge ==> r.body == s.body + Concat(chunks) && r.effects == [])
      && (r.bodyTooLarge ==> r.effects == [TooLargeResponse, Destroy])
    decreases |chunks|
  {
    if chunks == [] {
      assert s.body + Concat(chunks) == s.body;
    } else {
      var next := Step(s, Data(chunks[0]), env);
      assert Uploads(chunks)[0] == Data(chunks[0]) && Uploads(chunks)[1..] == Uploads(chunks[1..]);
      assert s.body + Concat(chunks) == (s.body + chunks[0]) + Concat(chunks[1..]);
      Utf16LengthAppend(s.body + chunks[0], Concat(chunks[1..]));
      if Utf16Length(s.body + chunks[0]) > MaxBodySize {
        assert next.effects == [TooLargeResponse, Destroy];
        TooLargeIsFinal(next, Uploads(chunks[1..]), env);
      } else {
        CollectChunks(next, chunks[1..], env);
      }
    }
  }

  /** A complete POST to the webhook path: the body handed to the parser is
      exactly the chunks joined; an oversized body gets 413 and nothing else; a
      parse failure or an invalid payload gets 400 and no dispatch; a valid
      payload gets 200 `{"received":true}` first, then - unless outbound - one
      dispatch of that payload, and a handler failure leaves the 200 as it was. */
  lemma CompleteRequest(httpMethod: string, url: Option<string>, path: string, chunks: seq<string>, env: Env)
    requires httpMethod == "POST" && url.Some? && path <= url.value
    ensures var r := Run(Begin(httpMethod, url, path), Uploads(chunks) + [End], env);
      var body := Concat(chunks);
      && (Utf16Length(body) > MaxBodySize ==> r.effects == [TooLargeResponse, Destroy])
      && (Utf16Length(body) <= MaxBodySize ==> r.body == body)
      && (Utf16Length(body) <= MaxBodySize && env.parse(body).SyntaxError? ==>
            r.effects == [Respond(400, JsonContentType, InvalidJsonBody)])
      && (Utf16Length(body) <= MaxBodySize && env.parse(body).Parsed? && !IsValidSendbluePayload(env.parse(body).value) ==>
            r.effects == [Respond(400, JsonContentType, InvalidPayloadBody)])
      && (Utf16Length(body) <= MaxBodySize && env.parse(body).Parsed? && IsValidSendbluePayload(env.parse(body).value) &&
          IsOutbound(env.parse(body).value) ==>
            r.effects == [Respond(200, JsonContentType, ReceivedBody)])
      && (Utf16Length(body) <= MaxBodySize && env.parse(body).Parsed? && IsValidSendbluePayload(env.parse(body).value) &&
          !IsOutbound(env.parse(body).value) ==>
            r.effects == [Respond(200, JsonContentType, ReceivedBody), Dispatch(env.parse(body).value)] +
                         (if env.onMessage(env.parse(body).value).Rejected? then [HandlerFailed] else []))
  {
    var s0 := Begin(httpMethod, url, path);
    assert s0 == RequestState(true, "", false, []);
    assert s0.body + Concat(chunks) == Concat(chunks);
    CollectChunks(s0, chunks, env);
    RunAppend(s0, Uploads(chunks), [End], env);
    var mid := Run(s0, Uploads(chunks), env);
    assert Run(mid, [End], env) == Step(mid, End, env);
  }

  /** A transport error before the body is complete is answered 500 with an
      empty body, unless the 413 was already sent. */
  lemma ErrorDuringUpload(httpMethod: string, url: Option<string>, path: string, chunks: seq<string>, env: Env)
    requires httpMethod == "POST" && url.Some? && path <= url.value
    ensures var r := Run(Begin(httpMethod, url, path), Uploads(chunks) + [Error], env);
      && (Utf16Length(Concat(chunks)) > MaxBodySize ==> r.effects == [TooLargeResponse, Destroy])
      && (Utf16Length(Concat(chunks)) <= MaxBodySize ==> r.effects == [Respond(500, NoHeaders, "")])
  {
    var s0 := Begin(httpMethod, url, path);
    assert s0 == RequestState(true, "", false, []);
    assert s0.body + Concat(chunks) == Concat(chunks);
    CollectChunks(s0, chunks, env);
    RunAppend(s0, Uploads(chunks), [Error], env);
    var mid := Run(s0, Uploads(chunks), env);
    assert Run(mid, [Error], env) == Step(mid, Error, env);
  }

  /** The reachable shapes of a collecting request, given whether the stream has
      already emitted 'end' or 'error' (`closed`). */
  ghost predicate Exchange(s: RequestState, closed: bool, env: Env) {
    && s.listening
    && (s.bodyTooLarge <==> s.effects == [TooLargeResponse, Destroy])
    && (s.bodyTooLarge ==> Utf16Length(s.body) > MaxBodySize)
    && (!s.bodyTooLarge ==> Utf16Length(s.body) <= MaxBodySize)
    && (closed ==> s.effects != [])
    && (!closed && s.effects != [] ==> s.bodyTooLarge)
    && (|| s.effects == []
        || s.effects == [TooLargeResponse, Destroy]
        || s.effects == [ServerErrorResponse]
        || s.effects == EndEffects(env.parse(s.body), env.onMessage))
  }

  lemma StepKeepsExchange(s: RequestState, closed: bool, e: Event, env: Env)
    requires Exchange(s, closed, env)
    requires closed ==> !e.Data?
    ensures Exchange(Step(s, e, env), closed || !e.Data?, env)
  {
    if s.effects != [] {
      assert s.effects[0].Respond?;
      assert HeadersSent(s.effects);
    }
    match e
    case Data(chunk) =>
    case Error =>
    case End =>
      if !s.bodyTooLarge && !HeadersSent(s.effects) {
        assert s.effects == [];
        assert EndStep(s, env).effects == EndEffects(env.parse(s.body), env.onMessage);
      }
  }

  lemma {:induction false} RunKeepsExchange(s: RequestState, closed: bool, events: seq<Event>, env: Env)
    returns (closedAfter: bool)
    requires Exchange(s, closed, env) && Admissible(closed, events)
    ensures Exchange(Run(s, events, env), closedAfter, env)
    decreases |events|
  {
    if events == [] {
      closedAfter := closed;
    } else {
      StepKeepsExchange(s, closed, events[0], env);
      closedAfter := RunKeepsExchange(Step(s, events[0], env), closed || !events[0].Data?, events[1..], env);
    }
  }

  /** What every reachable exchange guarantees. */
  lemma ExchangeGuarantees(s: RequestState, closed: bool, env: Env)
    requires Exchange(s, closed, env)
    ensures Responses(s.effects) <= 1
    ensures Dispatches(s.effects) <= 1
    ensures HeadersSentFault !in s.effects
    ensures forall i | 0 <= i < |s.effects| && s.effects[i].Dispatch? ::
      && i == 1
      && s.effects[0] == Respond(200, JsonContentType, ReceivedBody)
      && env.parse(s.body) == Parsed(s.effects[i].message)
      && IsValidSendbluePayload(s.effects[i].message)
      && !IsOutbound(s.effects[i].message)
  {
    var e := s.effects;
    if e == [TooLargeResponse, Destroy] {
      Counts3(TooLargeResponse, [Destroy], []);
    } else if e == [ServerErrorResponse] {
      Counts3(ServerErrorResponse, [], []);
    } else if e != [] {
      match env.parse(s.body)
      case SyntaxError =>
        Counts3(InvalidJsonResponse, [], []);
      case Parsed(payload) =>
        if !IsValidSendbluePayload(payload) {
          Counts3(InvalidPayloadResponse, [], []);
        } else if IsOutbound(payload) {
          Counts3(Ack, [], []);
        } else if env.onMessage(payload).Rejected? {
          Counts3(Ack, [Dispatch(payload)], [HandlerFailed]);
        } else {
          Counts3(Ack, [Dispatch(payload)], []);
        }
    }
  }

  /** The two counts of an exchange of up to three entries. */
  lemma Counts3(x: Effect, y: seq<Effect>, z: seq<Effect>)
    requires |y| <= 1 && |z| <= 1
    ensures Responses([x] + y + z) ==
      (if x.Respond? then 1 else 0) + (if y != [] && y[0].Respond? then 1 else 0) + (if z != [] && z[0].Respond? then 1 else 0)
    ensures Dispatches([x] + y + z) ==
      (if x.Dispatch? then 1 else 0) + (if y != [] && y[0].Dispatch? then 1 else 0) + (if z != [] && z[0].Dispatch? then 1 else 0)
  {
    var e := [x] + y + z;
    assert e[0] == x && e[1..] == y + z;
    if z != [] {
      assert z[1..] == [];
    }
    assert Responses(z) == (if z != [] && z[0].Respond? then 1 else 0);
    assert Dispatches(z) == (if z != [] && z[0].Dispatch? then 1 else 0);
    if y != [] {
      assert (y + z)[0] == y[0] && (y + z)[1..] == z;
    } else {
      assert y + z == z;
    }
    assert Responses(y + z) == (if y != [] && y[0].Respond? then 1 else 0) + Responses(z);
    assert Dispatches(y + z) == (if y != [] && y[0].Dispatch? then 1 else 0) + Dispatches(z);
  }

  /** Across every order in which Node can deliver the request-stream events:
      at most one response is written (no `writeHead` ever hits a sent
      response), `onMessage` is called at most once, and only after the 200
      acknowledgement, with the payload parsed from the whole body, which
      passed validation and is not outbound. */
  lemma AtMostOneResponse(httpMethod: string, url: Option<string>, path: string, events: seq<Event>, env: Env)
    requires Admissible(false, events)
    ensures var r := Run(Begin(httpMethod, url, path), events, env);
      && Responses(r.effects) <= 1
      && Dispatches(r.effects) <= 1
      && HeadersSentFault !in r.effects
      && forall i | 0 <= i < |r.effects| && r.effects[i].Dispatch? ::
        && i == 1
        && r.effects[0] == Respond(200, JsonContentType, ReceivedBody)
        && env.parse(r.body) == Parsed(r.effects[i].message)
        && IsValidSendbluePayload(r.effects[i].message)
        && !IsOutbound(r.effects[i].message)
  {
    var s0 := Begin(httpMethod, url, path);
    if s0.listening {
      assert s0 == RequestState(true, "", false, []);
      var closed := RunKeepsExchange(s0, false, events, env);
      ExchangeGuarantees(Run(s0, events, env), closed, env);
    } else {
      IdleRequestUnchanged(s0, events, env);
    }
  }

  /** The guarantee rests on Node's event order: a 'data' event past the
      ceiling after the 500 would make the data listener call `writeHead` on a
      response already sent. */
  lemma DataAfterErrorFaults(path: string, chunk: string, env: Env)
    requires Utf16Length(chunk) > MaxBodySize
    ensures HeadersSentFault in Run(Begin("POST", Some(path), path), [Error, Data(chunk)], env).effects
  {
    var s0 := Begin("POST", Some(path), path);
    assert s0 == RequestState(true, "", false, []);
    var s1 := Step(s0, Error, env);
    assert s1.effects == [ServerErrorResponse];
    assert HeadersSent(s1.effects);
    assert s1.body + chunk == chunk;
    var events := [Error, Data(chunk)];
    assert events[0] == Error && events[1..] == [Data(chunk)] && events[1..][1..] == [];
    assert Run(s0, events, env) == Run(s1, [Data(chunk)], env);
    assert Run(s1, [Data(chunk)], env) == Step(s1, Data(chunk), env);
  }
}
