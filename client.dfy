/**
 * The HTTP API client: sending a pipe of commands in one request, and the
 * single-command calls built on it.
 *
 * What the client does not itself decide is a parameter (`Env`): the JSON
 * encoder's verdict on one command, the request constructor's verdict on
 * an endpoint, and the HTTP exchange. The response body is given as the
 * sequence of results successive `Decode` calls would return.
 */
module Api {
  import opened Base
  import opened Options
  import opened Errors
  import opened Pipes

  /** The server's reply to one command: an optional error and the raw result. */
  datatype Reply = Reply(error: Option<ReplyError>, result: Bytes)

  /** Which `*http.Client` requests go through. */
  datatype HttpClient = DefaultHttpClient | CustomHttpClient(id: nat)

  /** `GetAddr`: asked for the endpoint before every request. */
  type Resolver = () -> Result<string, Error>

  datatype Config = Config(addr: string, getAddr: Option<Resolver>, key: string, httpClient: Option<HttpClient>)

  datatype Client = Client(endpoint: string, getEndpoint: Option<Resolver>, apiKey: string, httpClient: HttpClient)

  /** `New`: a missing HTTP client is replaced by the default one. */
  function New(config: Config): (c: Client)
    ensures c.endpoint == config.addr && c.apiKey == config.key
    ensures c.getEndpoint == config.getAddr
    ensures config.httpClient.Some? ==> c.httpClient == config.httpClient.value
    ensures config.httpClient.None? ==> c.httpClient == DefaultHttpClient
  {
    Client(config.addr, config.getAddr, config.key,
           if config.httpClient.Some? then config.httpClient.value else DefaultHttpClient)
  }

  datatype Request = Request(verb: string, url: string, headers: map<string, string>, body: Bytes)

  /** One result of the response decoder: a reply, the end of the body, or a decoding error. */
  datatype DecodeStep = Decoded(reply: Reply) | EndOfStream | Malformed(error: Error)

  datatype HttpResponse = HttpResponse(statusCode: int, body: seq<DecodeStep>)

  datatype Env = Env(
    /** What `json.Encoder.Encode` writes for one value, before its newline. */
    serialize: Json -> Result<Bytes, Error>,
    /** The error `http.NewRequest` reports for an endpoint, if any. */
    newRequest: string -> Option<Error>,
    /** `httpClient.Do`. */
    network: (HttpClient, Request) -> Result<HttpResponse, Error>)

  const StatusOK := 200

  // ---------------------------------------------------------------------------
  // The request body: one JSON line per command.

  /** The commands encoded in order, each followed by a newline; the first failure wins. */
  function EncodeLines(serialize: Json -> Result<Bytes, Error>, cmds: seq<Command>): (r: Result<Bytes, Error>)
    ensures r.Success? <==> forall j :: 0 <= j < |cmds| ==> serialize(CommandJson(cmds[j])).Success?
    decreases |cmds|
  {
    if cmds == [] then Success([])
    else match serialize(CommandJson(cmds[0]))
      case Failure(e) => Failure(e)
      case Success(line) =>
        var rest := EncodeLines(serialize, cmds[1..]);
        assert rest.Success? <==> forall j :: 1 <= j < |cmds| ==> serialize(CommandJson(cmds[j])).Success? by {
          assert forall j :: 1 <= j < |cmds| ==> cmds[j] == cmds[1..][j - 1];
        }
        match rest
        case Failure(e) => Failure(e)
        case Success(tail) => Success(line + [Newline] + tail)
  }

  /** Puts `prefix` in front of a successful result. */
  function Prefixed(prefix: Bytes, r: Result<Bytes, Error>): Result<Bytes, Error> {
    match r
    case Success(b) => Success(prefix + b)
    case Failure(e) => Failure(e)
  }

  method EncodeBody(serialize: Json -> Result<Bytes, Error>, cmds: seq<Command>) returns (body: Result<Bytes, Error>)
    ensures body == EncodeLines(serialize, cmds)
  {
    var buf: Bytes := [];
    var i := 0;
    assert cmds[0..] == cmds;
    ghost var whole := EncodeLines(serialize, cmds);
    if whole.Success? {
      assert [] + whole.value == whole.value;
    }
    while i < |cmds|
      invariant 0 <= i <= |cmds|
      invariant EncodeLines(serialize, cmds) == Prefixed(buf, EncodeLines(serialize, cmds[i..]))
    {
      assert cmds[i..][0] == cmds[i] && cmds[i..][1..] == cmds[i + 1..];
      var line := serialize(CommandJson(cmds[i]));
      if line.Failure? {
        return Failure(line.error);
      }
      ghost var rest := EncodeLines(serialize, cmds[i + 1..]);
      if rest.Success? {
        assert buf + (line.value + [Newline] + rest.value) == (buf + line.value + [Newline]) + rest.value;
      }
      buf := buf + line.value + [Newline];
      i := i + 1;
    }
    assert cmds[i..] == [];
    assert buf + [] == buf;
    return Success(buf);
  }

  /** The encoder stops at the first command it cannot encode and reports that error. */
  lemma {:induction false} EncodeLinesFirstFailure(serialize: Json -> Result<Bytes, Error>, cmds: seq<Command>, i: nat)
    requires i < |cmds|
    requires forall j :: 0 <= j < i ==> serialize(CommandJson(cmds[j])).Success?
    requires serialize(CommandJson(cmds[i])).Failure?
    ensures EncodeLines(serialize, cmds) == Failure(serialize(CommandJson(cmds[i])).error)
    decreases i
  {
    if i > 0 {
      assert cmds[1..][i - 1] == cmds[i];
      assert forall j :: 0 <= j < i - 1 ==> cmds[1..][j] == cmds[j + 1];
      EncodeLinesFirstFailure(serialize, cmds[1..], i - 1);
    }
  }

  /** The encodings of the commands, when every one of them succeeds. */
  function Encodings(serialize: Json -> Result<Bytes, Error>, cmds: seq<Command>): (lines: seq<Bytes>)
    requires forall j :: 0 <= j < |cmds| ==> serialize(CommandJson(cmds[j])).Success?
    ensures |lines| == |cmds|
    ensures forall j :: 0 <= j < |cmds| ==> lines[j] == serialize(CommandJson(cmds[j])).value
  {
    seq(|cmds|, j requires 0 <= j < |cmds| => serialize(CommandJson(cmds[j])).value)
  }

  /** Lines, each followed by a newline. */
  function Framed(lines: seq<Bytes>): Bytes
    decreases |lines|
  {
    if lines == [] then [] else lines[0] + [Newline] + Framed(lines[1..])
  }

  /** The position of the first newline, or the length when there is none. */
  function IndexOfNewline(b: Bytes): (i: nat)
    ensures i <= |b|
    ensures forall k :: 0 <= k < i ==> b[k] != Newline
    ensures i < |b| ==> b[i] == Newline
    decreases |b|
  {
    if b == [] || b[0] == Newline then 0 else 1 + IndexOfNewline(b[1..])
  }

  /** How a server reading the body line by line sees it. */
  function SplitLines(b: Bytes): seq<Bytes>
    decreases |b|
  {
    if b == [] then []
    else
      var i := IndexOfNewline(b);
      if i == |b| then [b] else [b[..i]] + SplitLines(b[i + 1..])
  }

  /** When every command encodes, the body is those encodings framed by newlines. */
  lemma {:induction false} EncodeLinesFramed(serialize: Json -> Result<Bytes, Error>, cmds: seq<Command>)
    requires forall j :: 0 <= j < |cmds| ==> serialize(CommandJson(cmds[j])).Success?
    ensures EncodeLines(serialize, cmds) == Success(Framed(Encodings(serialize, cmds)))
    decreases |cmds|
  {
    if cmds != [] {
      assert forall j :: 0 <= j < |cmds| - 1 ==> cmds[1..][j] == cmds[j + 1];
      EncodeLinesFramed(serialize, cmds[1..]);
      assert Encodings(serialize, cmds)[1..] == Encodings(serialize, cmds[1..]);
    }
  }

  /** Splitting framed lines gives the lines back, provided none contains a newline. */
  lemma {:induction false} SplitFramed(lines: seq<Bytes>)
    requires forall j :: 0 <= j < |lines| ==> Newline !in lines[j]
    ensures SplitLines(Framed(lines)) == lines
    decreases |lines|
  {
    if lines != [] {
      var l := lines[0];
      var b := Framed(lines);
      assert b == l + ([Newline] + Framed(lines[1..]));
      var i := IndexOfNewline(b);
      assert b[|l|] == Newline;
      assert i == |l|;
      assert b[..i] == l;
      assert b[i + 1..] == Framed(lines[1..]);
      SplitFramed(lines[1..]);
    }
  }

  // ---------------------------------------------------------------------------
  // The response body: replies until the end of the stream.

  function PrefixedReplies(prefix: seq<Reply>, r: Result<seq<Reply>, Error>): Result<seq<Reply>, Error> {
    match r
    case Success(rs) => Success(prefix + rs)
    case Failure(e) => Failure(e)
  }

  /** The replies decoded until the end of the body; a decoding error discards them all. */
  function DecodeAll(steps: seq<DecodeStep>): Result<seq<Reply>, Error>
    decreases |steps|
  {
    if steps == [] then Success([])
    else match steps[0]
      case EndOfStream => Success([])
      case Malformed(e) => Failure(e)
      case Decoded(rep) => PrefixedReplies([rep], DecodeAll(steps[1..]))
  }

  method DecodeReplies(steps: seq<DecodeStep>) returns (replies: Result<seq<Reply>, Error>)
    ensures replies == DecodeAll(steps)
  {
    var decoded: seq<Reply> := [];
    var i := 0;
    assert steps[0..] == steps;
    ghost var whole := DecodeAll(steps);
    if whole.Success? {
      assert [] + whole.value == whole.value;
    }
    while i < |steps|
      invariant 0 <= i <= |steps|
      invariant DecodeAll(steps) == PrefixedReplies(decoded, DecodeAll(steps[i..]))
    {
      assert steps[i..][0] == steps[i] && steps[i..][1..] == steps[i + 1..];
      match steps[i]
      case EndOfStream =>
        assert decoded + [] == decoded;
        return Success(decoded);
      case Malformed(e) =>
        return Failure(e);
      case Decoded(rep) =>
        ghost var rest := DecodeAll(steps[i + 1..]);
        if rest.Success? {
          assert decoded + ([rep] + rest.value) == (decoded + [rep]) + rest.value;
        }
        decoded := decoded + [rep];
      i := i + 1;
    }
    assert steps[i..] == [];
    assert decoded + [] == decoded;
    return Success(decoded);
  }

  /** n replies then the end of the body (or of the steps) decode to exactly those n replies. */
  lemma {:induction false} DecodeAllSucceeds(steps: seq<DecodeStep>, n: nat)
    requires n <= |steps|
    requires forall k :: 0 <= k < n ==> steps[k].Decoded?
    requires n == |steps| || steps[n].EndOfStream?
    ensures DecodeAll(steps).Success?
    ensures |DecodeAll(steps).value| == n
    ensures forall k :: 0 <= k < n ==> DecodeAll(steps).value[k] == steps[k].reply
    decreases n
  {
    if n > 0 {
      assert forall k :: 0 <= k < n - 1 ==> steps[1..][k] == steps[k + 1];
      DecodeAllSucceeds(steps[1..], n - 1);
    }
  }

  /** A decoding error after n replies fails the whole response with that error. */
  lemma {:induction false} DecodeAllFails(steps: seq<DecodeStep>, n: nat)
    requires n < |steps|
    requires forall k :: 0 <= k < n ==> steps[k].Decoded?
    requires steps[n].Malformed?
    ensures DecodeAll(steps) == Failure(steps[n].error)
    decreases n
  {
    if n > 0 {
      assert forall k :: 0 <= k < n - 1 ==> steps[1..][k] == steps[k + 1];
      assert steps[1..][n - 1] == steps[n];
      DecodeAllFails(steps[1..], n - 1);
    }
  }

  // ---------------------------------------------------------------------------
  // Sending.

  /** The endpoint of one call: the resolver's answer when one is set, the fixed address otherwise. */
  function Endpoint(c: Client): (r: Result<string, Error>)
    ensures c.getEndpoint.None? ==> r == Success(c.endpoint)
    ensures c.getEndpoint.Some? ==> r == c.getEndpoint.value()
  {
    match c.getEndpoint
    case Some(resolve) => resolve()
    case None => Success(c.endpoint)
  }

  /** The API key is sent only when there is one; the content type always. */
  function Headers(c: Client): (h: map<string, string>)
    ensures h.Keys == if c.apiKey != "" then {"Authorization", "Content-Type"} else {"Content-Type"}
    ensures h["Content-Type"] == "application/json"
    ensures "Authorization" in h ==> h["Authorization"] == "apikey " + c.apiKey
  {
    var auth: map<string, string> := if c.apiKey != "" then map["Authorization" := "apikey " + c.apiKey] else map[];
    auth["Content-Type" := "application/json"]
  }

  /** The request `send` hands to the HTTP client, or the error that stops it first. */
  function BuildRequest(c: Client, cmds: seq<Command>, env: Env): (r: Result<Request, Error>)
    ensures r.Success? <==>
      && EncodeLines(env.serialize, cmds).Success?
      && Endpoint(c).Success?
      && env.newRequest(Endpoint(c).value).None?
    ensures EncodeLines(env.serialize, cmds).Failure? ==> r == Failure(EncodeLines(env.serialize, cmds).error)
    ensures EncodeLines(env.serialize, cmds).Success? && Endpoint(c).Failure? ==> r == Failure(Endpoint(c).error)
    ensures r.Success? ==>
      && r.value.verb == "POST"
      && Success(r.value.url) == Endpoint(c)
      && r.value.headers == Headers(c)
      && Success(r.value.body) == EncodeLines(env.serialize, cmds)
  {
    match EncodeLines(env.serialize, cmds)
    case Failure(e) => Failure(e)
    case Success(body) =>
      match Endpoint(c)
      case Failure(e) => Failure(e)
      case Success(url) =>
        match env.newRequest(url)
        case Some(e) => Failure(e)
        case None => Success(Request("POST", url, Headers(c), body))
  }

  /** The replies or the error, and the request that reached the HTTP client, if any did. */
  datatype Outcome = Outcome(replies: Result<seq<Reply>, Error>, request: Option<Request>)

  /** `send`: encode, resolve, build, exchange, check the status, decode. */
  function Exchange(c: Client, cmds: seq<Command>, env: Env): (o: Outcome)
    ensures BuildRequest(c, cmds, env).Failure? ==> o == Outcome(Failure(BuildRequest(c, cmds, env).error), None)
    ensures BuildRequest(c, cmds, env).Success? ==> o.request == Some(BuildRequest(c, cmds, env).value)
    ensures o.request.Some? ==>
      var sent := env.network(c.httpClient, o.request.value);
      && (sent.Failure? ==> o.replies == Failure(sent.error))
      && (sent.Success? && sent.value.statusCode != StatusOK ==> o.replies == Failure(ErrStatusCode(sent.value.statusCode)))
      && (sent.Success? && sent.value.statusCode == StatusOK ==> o.replies == DecodeAll(sent.value.body))
  {
    match BuildRequest(c, cmds, env)
    case Failure(e) => Outcome(Failure(e), None)
    case Success(req) =>
      var replies :=
        match env.network(c.httpClient, req)
        case Failure(e) => Failure(e)
        case Success(resp) =>
          if resp.statusCode != StatusOK then Failure(ErrStatusCode(resp.statusCode)) else DecodeAll(resp.body);
      Outcome(replies, Some(req))
  }

  /** `SendPipe`: an empty pipe is refused before anything is sent; a reply count mismatch is malformed. */
  function SendPipeOutcome(c: Client, cmds: seq<Command>, env: Env): (o: Outcome)
    ensures cmds == [] ==> o == Outcome(Failure(ErrPipeEmpty), None)
    ensures o.replies.Success? ==> |o.replies.value| == |cmds|
  {
    if |cmds| == 0 then Outcome(Failure(ErrPipeEmpty), None)
    else
      var o := Exchange(c, cmds, env);
      if o.replies.Success? && |o.replies.value| != |cmds| then Outcome(Failure(ErrMalformedResponse), o.request)
      else o
  }

  method Send(c: Client, cmds: seq<Command>, env: Env) returns (replies: Result<seq<Reply>, Error>, request: Option<Request>)
    ensures Outcome(replies, request) == Exchange(c, cmds, env)
  {
    var body := EncodeBody(env.serialize, cmds);
    if body.Failure? {
      return Failure(body.error), None;
    }
    var endpoint := ResolveEndpoint(c);
    if endpoint.Failure? {
      return Failure(endpoint.error), None;
    }
    var bad := env.newRequest(endpoint.value);
    if bad.Some? {
      return Failure(bad.value), None;
    }
    var headers := RequestHeaders(c);
    var req := Request("POST", endpoint.value, headers, body.value);
    assert BuildRequest(c, cmds, env) == Success(req);
    request := Some(req);
    var resp := env.network(c.httpClient, req);
    if resp.Failure? {
      return Failure(resp.error), request;
    }
    if resp.value.statusCode != StatusOK {
      return Failure(ErrStatusCode(resp.value.statusCode)), request;
    }
    replies := DecodeReplies(resp.value.body);
  }

  /** The resolver is asked when there is one; otherwise the fixed address is used. */
  method ResolveEndpoint(c: Client) returns (endpoint: Result<string, Error>)
    ensures endpoint == Endpoint(c)
  {
    match c.getEndpoint {
      case Some(resolve) =>
        endpoint := resolve();
      case None =>
        endpoint := Success(c.endpoint);
    }
  }

  method RequestHeaders(c: Client) returns (headers: map<string, string>)
    ensures headers == Headers(c)
  {
    headers := map[];
    if c.apiKey != "" {
      headers := headers["Authorization" := "apikey " + c.apiKey];
    }
    headers := headers["Content-Type" := "application/json"];
  }

  method SendPipe(c: Client, pipe: Pipe, env: Env) returns (replies: Result<seq<Reply>, Error>, request: Option<Request>)
    ensures Outcome(replies, request) == SendPipeOutcome(c, pipe.commands, env)
  {
    if |pipe.commands| == 0 {
      return Failure(ErrPipeEmpty), None;
    }
    replies, request := Send(c, pipe.commands, env);
    if replies.Success? && |replies.value| != |pipe.commands| {
      replies := Failure(ErrMalformedResponse);
    }
  }

  // ---------------------------------------------------------------------------
  // What sending a pipe guarantees.

  /** The first command that cannot be encoded stops the send before any request is made. */
  lemma SendPipeEncodeFailure(c: Client, cmds: seq<Command>, env: Env, i: nat)
    requires i < |cmds|
    requires forall j :: 0 <= j < i ==> env.serialize(CommandJson(cmds[j])).Success?
    requires env.serialize(CommandJson(cmds[i])).Failure?
    ensures SendPipeOutcome(c, cmds, env) == Outcome(Failure(env.serialize(CommandJson(cmds[i])).error), None)
  {
    EncodeLinesFirstFailure(env.serialize, cmds, i);
  }

  /**
   * A request is made exactly when every command encodes, the endpoint
   * resolves and the request can be built; it is a POST to that endpoint
   * with the client's headers whose lines are the commands' encodings, in
   * order.
   */
  lemma SendPipeRequest(c: Client, cmds: seq<Command>, env: Env)
    requires cmds != []
    ensures var o := SendPipeOutcome(c, cmds, env);
      o.request.Some? <==>
        (forall j :: 0 <= j < |cmds| ==> env.serialize(CommandJson(cmds[j])).Success?)
        && Endpoint(c).Success? && env.newRequest(Endpoint(c).value).None?
    ensures var o := SendPipeOutcome(c, cmds, env);
      o.request.Some? ==>
        && o.request.value.verb == "POST"
        && Endpoint(c) == Success(o.request.value.url)
        && o.request.value.headers == Headers(c)
        && o.request.value.body == Framed(Encodings(env.serialize, cmds))
    ensures var o := SendPipeOutcome(c, cmds, env);
      o.request.Some? && NoRawNewlines(env.serialize, cmds) ==>
        && |SplitLines(o.request.value.body)| == |cmds|
        && forall j :: 0 <= j < |cmds| ==>
             Success(SplitLines(o.request.value.body)[j]) == env.serialize(CommandJson(cmds[j]))
  {
    var o := SendPipeOutcome(c, cmds, env);
    if o.request.Some? {
      EncodeLinesFramed(env.serialize, cmds);
      var lines := Encodings(env.serialize, cmds);
      assert o.request.value.body == Framed(lines);
      if NoRawNewlines(env.serialize, cmds) {
        SplitFramed(lines);
      }
    }
  }

  /** No command's encoding contains a raw newline byte (the JSON encoder escapes them in strings). */
  predicate NoRawNewlines(serialize: Json -> Result<Bytes, Error>, cmds: seq<Command>) {
    forall j :: 0 <= j < |cmds| ==> Newline !in (match serialize(CommandJson(cmds[j]))
                                                 case Success(b) => b
                                                 case Failure(_) => [])
  }

  /** A resolver that fails stops the send before any request is made. */
  lemma SendPipeNoEndpoint(c: Client, cmds: seq<Command>, env: Env)
    requires cmds != []
    requires forall j :: 0 <= j < |cmds| ==> env.serialize(CommandJson(cmds[j])).Success?
    requires c.getEndpoint.Some? && c.getEndpoint.value().Failure?
    ensures SendPipeOutcome(c, cmds, env) == Outcome(Failure(c.getEndpoint.value().error), None)
  {
  }

  /** The HTTP client's error, or a status other than 200, is what SendPipe returns. */
  lemma SendPipeRejected(c: Client, cmds: seq<Command>, env: Env, req: Request)
    requires cmds != []
    requires BuildRequest(c, cmds, env) == Success(req)
    ensures SendPipeOutcome(c, cmds, env).request == Some(req)
    ensures env.network(c.httpClient, req).Failure? ==>
      SendPipeOutcome(c, cmds, env).replies == Failure(env.network(c.httpClient, req).error)
    ensures env.network(c.httpClient, req).Success? && env.network(c.httpClient, req).value.statusCode != StatusOK ==>
      SendPipeOutcome(c, cmds, env).replies == Failure(ErrStatusCode(env.network(c.httpClient, req).value.statusCode))
  {
  }

  /**
   * With status 200 and n replies before the end of the body, SendPipe
   * returns the replies in order when there is one per command, errors and
   * all, and ErrMalformedResponse otherwise.
   */
  lemma SendPipeReplies(c: Client, cmds: seq<Command>, env: Env, req: Request, resp: HttpResponse, n: nat)
    requires cmds != []
    requires BuildRequest(c, cmds, env) == Success(req)
    requires env.network(c.httpClient, req) == Success(resp) && resp.statusCode == StatusOK
    requires n <= |resp.body|
    requires forall k :: 0 <= k < n ==> resp.body[k].Decoded?
    requires n == |resp.body| || resp.body[n].EndOfStream?
    ensures n == |cmds| ==> SendPipeOutcome(c, cmds, env).replies.Success?
    ensures n == |cmds| ==> forall k :: 0 <= k < n ==> SendPipeOutcome(c, cmds, env).replies.value[k] == resp.body[k].reply
    ensures n != |cmds| ==> SendPipeOutcome(c, cmds, env).replies == Failure(ErrMalformedResponse)
  {
    DecodeAllSucceeds(resp.body, n);
  }

  /** A decoding error in a 200 response fails the whole pipe, whatever came before it. */
  lemma SendPipeMalformed(c: Client, cmds: seq<Command>, env: Env, req: Request, resp: HttpResponse, n: nat)
    requires cmds != []
    requires BuildRequest(c, cmds, env) == Success(req)
    requires env.network(c.httpClient, req) == Success(resp) && resp.statusCode == StatusOK
    requires n < |resp.body|
    requires forall k :: 0 <= k < n ==> resp.body[k].Decoded?
    requires resp.body[n].Malformed?
    ensures SendPipeOutcome(c, cmds, env).replies == Failure(resp.body[n].error)
  {
    DecodeAllFails(resp.body, n);
  }

  // ---------------------------------------------------------------------------
  // Single-command calls.

  /** A one-command call's result: the send's error, else the reply's error, else the decoded result. */
  function CallResult<T>(replies: Result<seq<Reply>, Error>, decode: Bytes -> Result<T, Error>): Result<T, Error>
    requires replies.Success? ==> |replies.value| == 1
  {
    match replies
    case Failure(e) => Failure(e)
    case Success(rs) =>
      if rs[0].error.Some? then Failure(ServerError(rs[0].error.value)) else decode(rs[0].result)
  }

  /** The same for the calls that return only an error. */
  function CallError(replies: Result<seq<Reply>, Error>): Option<Error>
    requires replies.Success? ==> |replies.value| == 1
  {
    match replies
    case Failure(e) => Some(e)
    case Success(rs) => if rs[0].error.Some? then Some(ServerError(rs[0].error.value)) else None
  }

  /**
   * When the server answers a one-command pipe with a single reply, a reply
   * error is returned as it came and the decoder is never consulted; without
   * one the result is what the decoder makes of the reply's result.
   */
  lemma SingleCallReply<T>(c: Client, cmd: Command, env: Env, req: Request, resp: HttpResponse,
                           decode: Bytes -> Result<T, Error>)
    requires BuildRequest(c, [cmd], env) == Success(req)
    requires env.network(c.httpClient, req) == Success(resp) && resp.statusCode == StatusOK
    requires |resp.body| >= 1 && resp.body[0].Decoded?
    requires |resp.body| == 1 || resp.body[1].EndOfStream?
    ensures resp.body[0].reply.error.Some? ==>
      && CallResult(SendPipeOutcome(c, [cmd], env).replies, decode) == Failure(ServerError(resp.body[0].reply.error.value))
      && CallError(SendPipeOutcome(c, [cmd], env).replies) == Some(ServerError(resp.body[0].reply.error.value))
    ensures resp.body[0].reply.error.None? ==>
      && CallResult(SendPipeOutcome(c, [cmd], env).replies, decode) == decode(resp.body[0].reply.result)
      && CallError(SendPipeOutcome(c, [cmd], env).replies) == None
  {
    SendPipeReplies(c, [cmd], env, req, resp, 1);
  }

  method Publish<T>(c: Client, channel: string, data: Bytes, opts: seq<PublishOption>, env: Env,
                    decode: Bytes -> Result<T, Error>) returns (res: Result<T, Error>)
    ensures res == CallResult(SendPipeOutcome(c, [PublishCommand(channel, data, opts)], env).replies, decode)
  {
    var pipe := new Pipe();
    var _ := pipe.AddPublish(channel, data, opts);  // adding to a pipe never fails
    assert pipe.commands == [PublishCommand(channel, data, opts)];
    var result, _ := SendPipe(c, pipe, env);
    if result.Failure? {
      return Failure(result.error);
    }
    var reply := result.value[0];
    if reply.error.Some? {
      return Failure(ServerError(reply.error.value));
    }
    res := decode(reply.result);
  }

  method Broadcast<T>(c: Client, channels: seq<string>, data: Bytes, opts: seq<PublishOption>, env: Env,
                      decode: Bytes -> Result<T, Error>) returns (res: Result<T, Error>)
    ensures res == CallResult(SendPipeOutcome(c, [BroadcastCommand(channels, data, opts)], env).replies, decode)
  {
    var pipe := new Pipe();
    var _ := pipe.AddBroadcast(channels, data, opts);  // adding to a pipe never fails
    assert pipe.commands == [BroadcastCommand(channels, data, opts)];
    var result, _ := SendPipe(c, pipe, env);
    if result.Failure? {
      return Failure(result.error);
    }
    var reply := result.value[0];
    if reply.error.Some? {
      return Failure(ServerError(reply.error.value));
    }
    res := decode(reply.result);
  }

  method Subscribe(c: Client, channel: string, user: string, opts: seq<SubscribeOption>, env: Env)
    returns (err: Option<Error>)
    ensures err == CallError(SendPipeOutcome(c, [SubscribeCommand(channel, user, opts)], env).replies)
  {
    var pipe := new Pipe();
    var _ := pipe.AddSubscribe(channel, user, opts);  // adding to a pipe never fails
    assert pipe.commands == [SubscribeCommand(channel, user, opts)];
    var result, _ := SendPipe(c, pipe, env);
    if result.Failure? {
      return Some(result.error);
    }
    var reply := result.value[0];
    if reply.error.Some? {
      return Some(ServerError(reply.error.value));
    }
    return None;
  }

  method Unsubscribe(c: Client, channel: string, user: string, opts: seq<UnsubscribeOption>, env: Env)
    returns (err: Option<Error>)
    ensures err == CallError(SendPipeOutcome(c, [UnsubscribeCommand(channel, user, opts)], env).replies)
  {
    var pipe := new Pipe();
    var _ := pipe.AddUnsubscribe(channel, user, opts);  // adding to a pipe never fails
    assert pipe.commands == [UnsubscribeCommand(channel, user, opts)];
    var result, _ := SendPipe(c, pipe, env);
    if result.Failure? {
      return Some(result.error);
    }
    var reply := result.value[0];
    if reply.error.Some? {
      return Some(ServerError(reply.error.value));
    }
    return None;
  }

  method Disconnect(c: Client, user: string, opts: seq<DisconnectOption>, env: Env) returns (err: Option<Error>)
    ensures err == CallError(SendPipeOutcome(c, [DisconnectCommand(user, opts)], env).replies)
  {
    var pipe := new Pipe();
    var _ := pipe.AddDisconnect(user, opts);  // adding to a pipe never fails
    assert pipe.commands == [DisconnectCommand(user, opts)];
    var result, _ := SendPipe(c, pipe, env);
    if result.Failure? {
      return Some(result.error);
    }
    var reply := result.value[0];
    if reply.error.Some? {
      return Some(ServerError(reply.error.value));
    }
    return None;
  }

  method Presence<T>(c: Client, channel: string, env: Env, decode: Bytes -> Result<T, Error>)
    returns (res: Result<T, Error>)
    ensures res == CallResult(SendPipeOutcome(c, [PresenceCommand(channel)], env).replies, decode)
  {
    var pipe := new Pipe();
    var _ := pipe.AddPresence(channel);  // adding to a pipe never fails
    assert pipe.commands == [PresenceCommand(channel)];
    var result, _ := SendPipe(c, pipe, env);
    if result.Failure? {
      return Failure(result.error);
    }
    var reply := result.value[0];
    if reply.error.Some? {
      return Failure(ServerError(reply.error.value));
    }
    res := decode(reply.result);
  }

  method PresenceStats<T>(c: Client, channel: string, env: Env, decode: Bytes -> Result<T, Error>)
    returns (res: Result<T, Error>)
    ensures res == CallResult(SendPipeOutcome(c, [PresenceStatsCommand(channel)], env).replies, decode)
  {
    var pipe := new Pipe();
    var _ := pipe.AddPresenceStats(channel);  // adding to a pipe never fails
    assert pipe.commands == [PresenceStatsCommand(channel)];
    var result, _ := SendPipe(c, pipe, env);
    if result.Failure? {
      return Failure(result.error);
    }
    var reply := result.value[0];
    if reply.error.Some? {
      return Failure(ServerError(reply.error.value));
    }
    res := decode(reply.result);
  }

  method History<T>(c: Client, channel: string, opts: seq<HistoryOption>, env: Env, decode: Bytes -> Result<T, Error>)
    returns (res: Result<T, Error>)
    ensures res == CallResult(SendPipeOutcome(c, [HistoryCommand(channel, opts)], env).replies, decode)
  {
    var pipe := new Pipe();
    var _ := pipe.AddHistory(channel, opts);  // adding to a pipe never fails
    assert pipe.commands == [HistoryCommand(channel, opts)];
    var result, _ := SendPipe(c, pipe, env);
    if result.Failure? {
      return Failure(result.error);
    }
    var reply := result.value[0];
    if reply.error.Some? {
      return Failure(ServerError(reply.error.value));
    }
    res := decode(reply.result);
  }

  method HistoryRemove(c: Client, channel: string, env: Env) returns (err: Option<Error>)
    ensures err == CallError(SendPipeOutcome(c, [HistoryRemoveCommand(channel)], env).replies)
  {
    var pipe := new Pipe();
    var _ := pipe.AddHistoryRemove(channel);  // adding to a pipe never fails
    assert pipe.commands == [HistoryRemoveCommand(channel)];
    var result, _ := SendPipe(c, pipe, env);
    if result.Failure? {
      return Some(result.error);
    }
    var reply := result.value[0];
    if reply.error.Some? {
      return Some(ServerError(reply.error.value));
    }
    return None;
  }

  method Channels<T>(c: Client, opts: seq<ChannelsOption>, env: Env, decode: Bytes -> Result<T, Error>)
    returns (res: Result<T, Error>)
    ensures res == CallResult(SendPipeOutcome(c, [ChannelsCommand(opts)], env).replies, decode)
  {
    var pipe := new Pipe();
    var _ := pipe.AddChannels(opts);  // adding to a pipe never fails
    assert pipe.commands == [ChannelsCommand(opts)];
    var result, _ := SendPipe(c, pipe, env);
    if result.Failure? {
      return Failure(result.error);
    }
    var reply := result.value[0];
    if reply.error.Some? {
      return Failure(ServerError(reply.error.value));
    }
    res := decode(reply.result);
  }

  method Info<T>(c: Client, env: Env, decode: Bytes -> Result<T, Error>) returns (res: Result<T, Error>)
    ensures res == CallResult(SendPipeOutcome(c, [InfoCommand], env).replies, decode)
  {
    var pipe := new Pipe();
    var _ := pipe.AddInfo();  // adding to a pipe never fails
    assert pipe.commands == [InfoCommand];
    var result, _ := SendPipe(c, pipe, env);
    if result.Failure? {
      return Failure(result.error);
    }
    var reply := result.value[0];
    if reply.error.Some? {
      return Failure(ServerError(reply.error.value));
    }
    res := decode(reply.result);
  }
}
