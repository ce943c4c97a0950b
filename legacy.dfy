/**
 * The legacy API client: a client object that buffers commands itself,
 * signs each request with the project secret, and sends the buffered
 * commands as one JSON array.
 *
 * The JSON marshaller and unmarshaller, the signature, the request
 * constructor and the HTTP exchange are parameters (`Env`).
 */
module Legacy {
  import opened Base

  datatype Error =
    | ErrClientNotEmpty
    | ErrMalformedResponse
      /** Any other error, which the legacy client only carries as its text. */
    | Failed(message: string)

  function ErrorText(e: Error): (t: string)
    ensures e == ErrClientNotEmpty ==> t == "client command buffer not empty, send commands or reset client"
    ensures e == ErrMalformedResponse ==> t == "malformed response returned from server"
    ensures e.Failed? ==> t == e.message
  {
    match e
    case ErrClientNotEmpty => "client command buffer not empty, send commands or reset client"
    case ErrMalformedResponse => "malformed response returned from server"
    case Failed(m) => m
  }

  /** A command: its method name and a parameter map. */
  datatype Command = Command(name: string, params: map<string, Json>)

  /** The server's answer to one command; an empty `error` means none. */
  datatype Response = Response(name: string, error: string, body: Bytes)

  datatype Request = Request(verb: string, url: string, headers: map<string, string>, body: Bytes)

  datatype HttpResponse = HttpResponse(statusCode: int, status: string, body: Bytes)

  datatype Env = Env(
    /** `json.Marshal`, with the text of its error. */
    marshal: Json -> Result<Bytes, string>,
    /** `auth.GenerateApiSign`. */
    sign: (string, Bytes) -> string,
    /** The error `http.NewRequest` reports for an endpoint, if any. */
    newRequest: string -> Option<string>,
    /** `Do` on an HTTP client with the given timeout. */
    network: (int, Request) -> Result<HttpResponse, string>,
    /** `json.Unmarshal` of the body into a list of responses. */
    unmarshal: Bytes -> Result<seq<Response>, string>)

  // ---------------------------------------------------------------------------
  // The endpoint.

  predicate HasSuffix(s: string, suffix: string) {
    |suffix| <= |s| && s[|s| - |suffix|..] == suffix
  }

  /** `strings.TrimRight(s, "/")`: drops every trailing slash and nothing else. */
  function TrimRightSlash(s: string): (r: string)
    ensures r <= s
    ensures forall k :: |r| <= k < |s| ==> s[k] == '/'
    ensures r == [] || r[|r| - 1] != '/'
    decreases |s|
  {
    if s != [] && s[|s| - 1] == '/' then TrimRightSlash(s[..|s| - 1]) else s
  }

  /** `NewClient`'s endpoint: trailing slashes dropped, "/api" added unless present, then "/". */
  function NormalizeEndpoint(addr: string): (r: string)
    ensures HasSuffix(r, "/api/")
    ensures r == TrimRightSlash(addr) + (if HasSuffix(TrimRightSlash(addr), "/api") then "/" else "/api/")
  {
    var trimmed := TrimRightSlash(addr);
    var withApi := if HasSuffix(trimmed, "/api") then trimmed else trimmed + "/api";
    assert HasSuffix(withApi, "/api");
    withApi + "/"
  }

  function Slashes(n: nat): (s: string)
    ensures |s| == n && forall k :: 0 <= k < n ==> s[k] == '/'
  {
    seq(n, _ => '/')
  }

  lemma {:induction false} TrimSlashes(host: string, n: nat)
    requires host == [] || host[|host| - 1] != '/'
    ensures TrimRightSlash(host + Slashes(n)) == host
    decreases n
  {
    if n > 0 {
      var s := host + Slashes(n);
      assert s[..|s| - 1] == host + Slashes(n - 1);
      TrimSlashes(host, n - 1);
    } else {
      assert host + Slashes(0) == host;
    }
  }

  /**
   * "/api" is never doubled: an address given with or without "/api", with
   * any number of trailing slashes, yields the same endpoint.
   */
  lemma NormalizeEndpointApiOnce(host: string, n: nat)
    requires host == [] || host[|host| - 1] != '/'
    requires !HasSuffix(host, "/api")
    ensures NormalizeEndpoint(host + Slashes(n)) == host + "/api/"
    ensures NormalizeEndpoint(host + "/api" + Slashes(n)) == host + "/api/"
  {
    TrimSlashes(host, n);
    TrimSlashes(host + "/api", n);
    assert HasSuffix(host + "/api", "/api");
    assert host + "/api" + "/" == host + "/api/";
  }

  /** Normalising an endpoint twice changes nothing. */
  lemma NormalizeEndpointIdempotent(addr: string)
    ensures NormalizeEndpoint(NormalizeEndpoint(addr)) == NormalizeEndpoint(addr)
  {
    var e := NormalizeEndpoint(addr);
    var base := e[..|e| - 1];
    assert e == base + Slashes(1);
    assert HasSuffix(base, "/api");
    TrimSlashes(base, 1);
    assert base + "/" == e;
  }

  // ---------------------------------------------------------------------------
  // Commands and sending.

  function PublishCommand(channel: string, data: Bytes): Command {
    Command("publish", map["channel" := Str(channel), "data" := Raw(data)])
  }

  function UnsubscribeCommand(channel: string, user: string): Command {
    Command("unsubscribe", map["channel" := Str(channel), "user" := Str(user)])
  }

  function DisconnectCommand(user: string): Command {
    Command("disconnect", map["user" := Str(user)])
  }

  function PresenceCommand(channel: string): Command {
    Command("presence", map["channel" := Str(channel)])
  }

  function HistoryCommand(channel: string): Command {
    Command("history", map["channel" := Str(channel)])
  }

  const ChannelsCommand := Command("channels", map[])

  const StatsCommand := Command("stats", map[])

  /** The JSON array the buffered commands marshal to, in buffer order. */
  function CommandsJson(cmds: seq<Command>): (j: Json)
    ensures j.Array? && |j.items| == |cmds|
    ensures forall k :: 0 <= k < |cmds| ==>
      j.items[k] == Object(map["method" := Str(cmds[k].name), "params" := Object(cmds[k].params)])
  {
    Array(seq(|cmds|, k requires 0 <= k < |cmds| =>
      Object(map["method" := Str(cmds[k].name), "params" := Object(cmds[k].params)])))
  }

  /**
   * Buffering more commands appends their objects after the ones already
   * buffered: the array is marshalled in the order the commands were added.
   */
  lemma CommandsJsonAppend(a: seq<Command>, b: seq<Command>)
    ensures CommandsJson(a + b).items == CommandsJson(a).items + CommandsJson(b).items
  {
    var l := CommandsJson(a + b).items;
    var r := CommandsJson(a).items + CommandsJson(b).items;
    assert |l| == |r|;
    forall k | 0 <= k < |l|
      ensures l[k] == r[k]
    {
      if k < |a| {
        assert (a + b)[k] == a[k];
      } else {
        assert (a + b)[k] == b[k - |a|];
      }
    }
  }

  /**
   * Two publishes buffered one after the other go out after whatever was
   * buffered before them, the first one first.
   */
  lemma TwoPublishesInOrder(buffered: seq<Command>, c1: string, d1: Bytes, c2: string, d2: Bytes)
    ensures CommandsJson(buffered + [PublishCommand(c1, d1)] + [PublishCommand(c2, d2)]).items ==
      CommandsJson(buffered).items +
      [Object(map["method" := Str("publish"), "params" := Object(map["channel" := Str(c1), "data" := Raw(d1)])]),
       Object(map["method" := Str("publish"), "params" := Object(map["channel" := Str(c2), "data" := Raw(d2)])])]
  {
    assert buffered + [PublishCommand(c1, d1)] + [PublishCommand(c2, d2)] ==
      buffered + [PublishCommand(c1, d1), PublishCommand(c2, d2)];
    CommandsJsonAppend(buffered, [PublishCommand(c1, d1), PublishCommand(c2, d2)]);
  }

  const StatusOK := 200

  const StatusPrefix := "wrong status code: "

  /**
   * The request headers: the signature of the body and the content type,
   * under the canonical names `Header.Set` and `Header.Add` store them as.
   */
  function Headers(signature: string): map<string, string> {
    map["X-Api-Sign" := signature, "Content-Type" := "application/json"]
  }

  /** The POST `send` builds: the marshalled commands, signed with the secret. */
  function SignedRequest(endpoint: string, secret: string, data: Bytes, env: Env): Request {
    Request("POST", endpoint, Headers(env.sign(secret, data)), data)
  }

  /**
   * `send`: marshal, build, sign, exchange, check the status, unmarshal.
   * Every step's error stops it and is reported by its text; the responses
   * come back only from a 200 answer whose body unmarshals.
   */
  function Exchange(endpoint: string, secret: string, timeout: int, cmds: seq<Command>, env: Env)
    : (r: Result<seq<Response>, Error>)
    ensures env.marshal(CommandsJson(cmds)).Failure? ==>
      r == Failure(Failed(env.marshal(CommandsJson(cmds)).error))
    ensures r.Success? ==>
      && env.marshal(CommandsJson(cmds)).Success?
      && env.newRequest(endpoint).None?
      && var sent := env.network(timeout, SignedRequest(endpoint, secret, env.marshal(CommandsJson(cmds)).value, env));
         && sent.Success? && sent.value.statusCode == StatusOK
         && env.unmarshal(sent.value.body) == Success(r.value)
    ensures r.Failure? ==> r.error.Failed?
  {
    match env.marshal(CommandsJson(cmds))
    case Failure(m) => Failure(Failed(m))
    case Success(data) =>
      match env.newRequest(endpoint)
      case Some(m) => Failure(Failed(m))
      case None =>
        match env.network(timeout, SignedRequest(endpoint, secret, data, env))
        case Failure(m) => Failure(Failed(m))
        case Success(resp) =>
          if resp.statusCode != StatusOK then Failure(Failed(StatusPrefix + resp.status))
          else match env.unmarshal(resp.body)
            case Failure(m) => Failure(Failed(m))
            case Success(rs) => Success(rs)
  }

  /** `Send`: the exchange, with a response count that differs from the command count rejected. */
  function SendOutcome(endpoint: string, secret: string, timeout: int, cmds: seq<Command>, env: Env)
    : (r: Result<seq<Response>, Error>)
    ensures r.Success? ==> |r.value| == |cmds|
    ensures r.Success? <==> Exchange(endpoint, secret, timeout, cmds, env).Success?
                            && |Exchange(endpoint, secret, timeout, cmds, env).value| == |cmds|
    ensures Exchange(endpoint, secret, timeout, cmds, env).Failure? ==>
      r == Exchange(endpoint, secret, timeout, cmds, env)
    ensures Exchange(endpoint, secret, timeout, cmds, env).Success? ==>
      r == if |Exchange(endpoint, secret, timeout, cmds, env).value| == |cmds|
           then Exchange(endpoint, secret, timeout, cmds, env)
           else Failure(ErrMalformedResponse)
  {
    match Exchange(endpoint, secret, timeout, cmds, env)
    case Failure(e) => Failure(e)
    case Success(rs) => if |rs| != |cmds| then Failure(ErrMalformedResponse) else Success(rs)
  }

  /** ErrMalformedResponse is reported exactly when the server answered with the wrong number of responses. */
  lemma SendOutcomeMalformed(endpoint: string, secret: string, timeout: int, cmds: seq<Command>, env: Env)
    ensures SendOutcome(endpoint, secret, timeout, cmds, env) == Failure(ErrMalformedResponse) <==>
      Exchange(endpoint, secret, timeout, cmds, env).Success?
      && |Exchange(endpoint, secret, timeout, cmds, env).value| != |cmds|
  {
    var x := Exchange(endpoint, secret, timeout, cmds, env);
    if x.Failure? {
      assert x.error.Failed?;
    }
  }

  /** A status other than 200 is reported with the status text after the fixed prefix. */
  lemma SendOutcomeStatus(endpoint: string, secret: string, timeout: int, cmds: seq<Command>, env: Env,
                          data: Bytes, resp: HttpResponse)
    requires env.marshal(CommandsJson(cmds)) == Success(data)
    requires env.newRequest(endpoint).None?
    requires env.network(timeout, SignedRequest(endpoint, secret, data, env)) == Success(resp)
    requires resp.statusCode != StatusOK
    ensures SendOutcome(endpoint, secret, timeout, cmds, env) == Failure(Failed(StatusPrefix + resp.status))
    ensures ErrorText(SendOutcome(endpoint, secret, timeout, cmds, env).error)[|StatusPrefix|..] == resp.status
  {
    var text := StatusPrefix + resp.status;
    assert text[|StatusPrefix|..] == resp.status;
  }

  /** The result of a single-command call: the send's error, else the response's error, else the decoded body. */
  function CallResult<T>(sent: Result<seq<Response>, Error>, decode: Bytes -> Result<T, Error>): Result<T, Error>
    requires sent.Success? ==> |sent.value| == 1
  {
    match sent
    case Failure(e) => Failure(e)
    case Success(rs) => if rs[0].error != "" then Failure(Failed(rs[0].error)) else decode(rs[0].body)
  }

  /**
   * A single-command call, whatever its decoder: the send's error comes back
   * as it is; a response count other than one is malformed; a response
   * carrying an error is reported by that error without decoding; otherwise
   * the result is what the decoder makes of the response's body.
   */
  lemma SingleCallResponse<T>(endpoint: string, secret: string, timeout: int, cmd: Command, env: Env,
                              decode: Bytes -> Result<T, Error>)
    ensures var x := Exchange(endpoint, secret, timeout, [cmd], env);
      var res := CallResult(SendOutcome(endpoint, secret, timeout, [cmd], env), decode);
      && (x.Failure? ==> res == Failure(x.error))
      && (x.Success? && |x.value| != 1 ==> res == Failure(ErrMalformedResponse))
      && (x.Success? && |x.value| == 1 && x.value[0].error != "" ==> res == Failure(Failed(x.value[0].error)))
      && (x.Success? && |x.value| == 1 && x.value[0].error == "" ==> res == decode(x.value[0].body))
  {
  }

  /** Publish, unsubscribe and disconnect replies carry nothing: no error means success. */
  function DecodePublish(body: Bytes): (r: Result<bool, Error>)
    ensures r == Success(true)
  {
    Success(true)
  }

  function DecodeUnsubscribe(body: Bytes): (r: Result<bool, Error>)
    ensures r == Success(true)
  {
    Success(true)
  }

  function DecodeDisconnect(body: Bytes): (r: Result<bool, Error>)
    ensures r == Success(true)
  {
    Success(true)
  }

  /**
   * A publish, unsubscribe or disconnect call reports true exactly when the
   * send succeeded and the server's response carried no error; otherwise
   * it reports that error.
   */
  lemma FlagCallResult(sent: Result<seq<Response>, Error>, decode: Bytes -> Result<bool, Error>)
    requires sent.Success? ==> |sent.value| == 1
    requires decode == DecodePublish || decode == DecodeUnsubscribe || decode == DecodeDisconnect
    ensures CallResult(sent, decode) == Success(true) <==> sent.Success? && sent.value[0].error == ""
    ensures sent.Failure? ==> CallResult(sent, decode) == Failure(sent.error)
    ensures sent.Success? && sent.value[0].error != "" ==>
      CallResult(sent, decode) == Failure(Failed(sent.value[0].error))
  {
    if sent.Success? && sent.value[0].error == "" {
      assert decode(sent.value[0].body) == Success(true);
    }
  }

  // ---------------------------------------------------------------------------
  // The client.

  class Client {
    var endpoint: string
    var secret: string
    /** The request timeout, as a `time.Duration`. */
    var timeout: int
    /** The buffered commands, oldest first. */
    var cmds: seq<Command>

    /** `NewClient`. */
    constructor(addr: string, secret: string, timeout: int)
      ensures this.endpoint == NormalizeEndpoint(addr)
      ensures this.secret == secret && this.timeout == timeout
      ensures cmds == []
    {
      this.endpoint := NormalizeEndpoint(addr);
      this.secret := secret;
      this.timeout := timeout;
      cmds := [];
    }

    /** `empty`. */
    function Empty(): (r: bool)
      reads this
      ensures r <==> |cmds| == 0
    {
      |cmds| == 0
    }

    method Reset()
      modifies this`cmds
      ensures cmds == []
    {
      cmds := [];
    }

    method AddPublish(channel: string, data: Bytes) returns (err: Option<Error>)
      modifies this`cmds
      ensures cmds == old(cmds) + [PublishCommand(channel, data)]
      ensures err == None
    {
      cmds := cmds + [Command("publish", map["channel" := Str(channel), "data" := Raw(data)])];
      err := None;
    }

    method AddUnsubscribe(channel: string, user: string) returns (err: Option<Error>)
      modifies this`cmds
      ensures cmds == old(cmds) + [UnsubscribeCommand(channel, user)]
      ensures err == None
    {
      cmds := cmds + [Command("unsubscribe", map["channel" := Str(channel), "user" := Str(user)])];
      err := None;
    }

    method AddDisconnect(user: string) returns (err: Option<Error>)
      modifies this`cmds
      ensures cmds == old(cmds) + [DisconnectCommand(user)]
      ensures err == None
    {
      cmds := cmds + [Command("disconnect", map["user" := Str(user)])];
      err := None;
    }

    method AddPresence(channel: string) returns (err: Option<Error>)
      modifies this`cmds
      ensures cmds == old(cmds) + [PresenceCommand(channel)]
      ensures err == None
    {
      cmds := cmds + [Command("presence", map["channel" := Str(channel)])];
      err := None;
    }

    method AddHistory(channel: string) returns (err: Option<Error>)
      modifies this`cmds
      ensures cmds == old(cmds) + [HistoryCommand(channel)]
      ensures err == None
    {
      cmds := cmds + [Command("history", map["channel" := Str(channel)])];
      err := None;
    }

    method AddChannels() returns (err: Option<Error>)
      modifies this`cmds
      ensures cmds == old(cmds) + [ChannelsCommand]
      ensures err == None
    {
      cmds := cmds + [Command("channels", map[])];
      err := None;
    }

    method AddStats() returns (err: Option<Error>)
      modifies this`cmds
      ensures cmds == old(cmds) + [StatsCommand]
      ensures err == None
    {
      cmds := cmds + [Command("stats", map[])];
      err := None;
    }

    /** Takes the whole buffer and leaves it empty, whatever happens to the request. */
    method Send(env: Env) returns (result: Result<seq<Response>, Error>)
      modifies this`cmds
      ensures cmds == []
      ensures result == SendOutcome(endpoint, secret, timeout, old(cmds), env)
    {
      var taken := cmds;
      cmds := [];
      result := Exchange(endpoint, secret, timeout, taken, env);
      if result.Success? && |result.value| != |taken| {
        result := Failure(ErrMalformedResponse);
      }
    }

    method Publish(channel: string, data: Bytes, env: Env) returns (res: Result<bool, Error>)
      modifies this`cmds
      ensures old(cmds) != [] ==> res == Failure(ErrClientNotEmpty) && cmds == old(cmds)
      ensures old(cmds) == [] ==> cmds == []
      ensures old(cmds) == [] ==>
        res == CallResult(SendOutcome(endpoint, secret, timeout, [PublishCommand(channel, data)], env), DecodePublish)
    {
      if !Empty() {
        return Failure(ErrClientNotEmpty);
      }
      var _ := AddPublish(channel, data);
      assert cmds == [PublishCommand(channel, data)];
      var result := Send(env);
      if result.Failure? {
        return Failure(result.error);
      }
      var resp := result.value[0];
      if resp.error != "" {
        return Failure(Failed(resp.error));
      }
      res := DecodePublish(resp.body);
    }

    method Unsubscribe(channel: string, user: string, env: Env) returns (res: Result<bool, Error>)
      modifies this`cmds
      ensures old(cmds) != [] ==> res == Failure(ErrClientNotEmpty) && cmds == old(cmds)
      ensures old(cmds) == [] ==> cmds == []
      ensures old(cmds) == [] ==>
        res == CallResult(SendOutcome(endpoint, secret, timeout, [UnsubscribeCommand(channel, user)], env), DecodeUnsubscribe)
    {
      if !Empty() {
        return Failure(ErrClientNotEmpty);
      }
      var _ := AddUnsubscribe(channel, user);
      assert cmds == [UnsubscribeCommand(channel, user)];
      var result := Send(env);
      if result.Failure? {
        return Failure(result.error);
      }
      var resp := result.value[0];
      if resp.error != "" {
        return Failure(Failed(resp.error));
      }
      res := DecodeUnsubscribe(resp.body);
    }

    method Disconnect(user: string, env: Env) returns (res: Result<bool, Error>)
      modifies this`cmds
      ensures old(cmds) != [] ==> res == Failure(ErrClientNotEmpty) && cmds == old(cmds)
      ensures old(cmds) == [] ==> cmds == []
      ensures old(cmds) == [] ==>
        res == CallResult(SendOutcome(endpoint, secret, timeout, [DisconnectCommand(user)], env), DecodeDisconnect)
    {
      if !Empty() {
        return Failure(ErrClientNotEmpty);
      }
      var _ := AddDisconnect(user);
      assert cmds == [DisconnectCommand(user)];
      var result := Send(env);
      if result.Failure? {
        return Failure(result.error);
      }
      var resp := result.value[0];
      if resp.error != "" {
        return Failure(Failed(resp.error));
      }
      res := DecodeDisconnect(resp.body);
    }

    method Presence<T>(channel: string, env: Env, decode: Bytes -> Result<T, Error>) returns (res: Result<T, Error>)
      modifies this`cmds
      ensures old(cmds) != [] ==> res == Failure(ErrClientNotEmpty) && cmds == old(cmds)
      ensures old(cmds) == [] ==> cmds == []
      ensures old(cmds) == [] ==>
        res == CallResult(SendOutcome(endpoint, secret, timeout, [PresenceCommand(channel)], env), decode)
    {
      if !Empty() {
        return Failure(ErrClientNotEmpty);
      }
      var _ := AddPresence(channel);
      assert cmds == [PresenceCommand(channel)];
      var result := Send(env);
      if result.Failure? {
        return Failure(result.error);
      }
      var resp := result.value[0];
      if resp.error != "" {
        return Failure(Failed(resp.error));
      }
      res := decode(resp.body);
    }

    method History<T>(channel: string, env: Env, decode: Bytes -> Result<T, Error>) returns (res: Result<T, Error>)
      modifies this`cmds
      ensures old(cmds) != [] ==> res == Failure(ErrClientNotEmpty) && cmds == old(cmds)
      ensures old(cmds) == [] ==> cmds == []
      ensures old(cmds) == [] ==>
        res == CallResult(SendOutcome(endpoint, secret, timeout, [HistoryCommand(channel)], env), decode)
    {
      if !Empty() {
        return Failure(ErrClientNotEmpty);
      }
      var _ := AddHistory(channel);
      assert cmds == [HistoryCommand(channel)];
      var result := Send(env);
      if result.Failure? {
        return Failure(result.error);
      }
      var resp := result.value[0];
      if resp.error != "" {
        return Failure(Failed(resp.error));
      }
      res := decode(resp.body);
    }

    method Channels<T>(env: Env, decode: Bytes -> Result<T, Error>) returns (res: Result<T, Error>)
      modifies this`cmds
      ensures old(cmds) != [] ==> res == Failure(ErrClientNotEmpty) && cmds == old(cmds)
      ensures old(cmds) == [] ==> cmds == []
      ensures old(cmds) == [] ==>
        res == CallResult(SendOutcome(endpoint, secret, timeout, [ChannelsCommand], env), decode)
    {
      if !Empty() {
        return Failure(ErrClientNotEmpty);
      }
      var _ := AddChannels();
      assert cmds == [ChannelsCommand];
      var result := Send(env);
      if result.Failure? {
        return Failure(result.error);
      }
      var resp := result.value[0];
      if resp.error != "" {
        return Failure(Failed(resp.error));
      }
      res := decode(resp.body);
    }
  }
}
