# gocent command pipeline, modelled in Dafny

This project models gocent, the Go client for Centrifugo's HTTP API. It covers the client's batched command pipeline and proves properties of the model.

The modelled behaviour is:

- **Options.** Option records are built from functional decorators.
- **Pipe.** A `Pipe` buffers typed commands in order.
- **Sending.** `SendPipe` encodes the buffer as newline-delimited JSON. It resolves the endpoint, makes one POST and checks the status. It decodes the reply stream and checks that there is exactly one reply per command.
- **Single-command calls.** Each call sends a one-command pipe. A reply's error is returned before any decoding.
- **Legacy client.** `main.go` is the older client. It normalises its endpoint to end in `/api/`, buffers commands itself, signs requests, and empties its buffer on every `Send`. Its single-command calls refuse to run while the buffer is not empty.

Files and modules:

- `base.dfy` (`Base`): option and result types, bytes, and a JSON value type. Through this type, `omitempty` shows up as a key that is absent.
- `options.dfy` (`Options`): the option records of `options.go`.
  - A decorator is modelled as a datatype value.
  - `ApplyX` is the write a decorator performs.
  - `FoldX` applies a decorator list from left to right, as every `AddX` loop does.
  - `XJson` is the JSON object a record marshals to.
- `errors.dfy` (`Errors`): the errors of `client.go` and their texts, including the decimal `%d` formatting of a status code.
- `pipe.dfy` (`Pipes`): the request structures as one tagged datatype (`Params`), the JSON of a command, and the `Pipe` class.
- `client.dfy` (`Api`): `New`, the body encoder and reply decoder, `send`, `SendPipe` and the eleven single-command calls.
- `legacy.dfy` (`Legacy`): the legacy client of `main.go`, as a class.

What the code relies on from outside is a parameter:

- the JSON encoder's output for one value;
- `http.NewRequest`'s verdict on an endpoint;
- the HTTP exchange;
- the result decoders;
- in the legacy client, also the signature and the unmarshaller.

A response body is modelled as the sequence of results that successive `json.Decoder.Decode` calls return: a reply, end of stream, or an error.

Where the code does more or other than its description, the model follows the code:

- `SendPipe` does not clear the pipe. The new client never clears a pipe by itself, while the legacy `Send` always empties its buffer.
- The untagged `Disconnect` and `ClientWhitelist` fields of a disconnect request are always sent, as `null` when unset.
- The legacy client marshals the whole buffer as a single JSON array.
- A history limit of 0 is documented as asking for the current stream top position only (options.go:177-180). The `limit` tag is `omitempty`, though, so `WithLimit(0)` sends no `limit`, the same request as no decorator at all.
- `WithSubscribeClient` and `WithUnsubscribeClient` are documented as not used by `Client.Subscribe` and `Client.Unsubscribe` (options.go:86, options.go:117). Those calls pass their decorators through to `AddSubscribe` and `AddUnsubscribe` (client.go:126, client.go:144), so a client id is sent; `Api.Subscribe` and `Api.Unsubscribe` do the same.

## Model

| member | source | states |
|---|---|---|
| Options.ApplyPublish | options.go:12-17 | `WithSkipHistory(skip)` sets the skip-history flag to `skip` |
| Options.FoldPublishLastWins | options.go:9-17 | after a list of publish decorators, the last one decides the flag; an empty list leaves the record as it was |
| Options.PublishOptionsJson | options.go:5-7 | `skip_history` is written, as true, exactly when the flag is set (omitempty) |
| Options.StreamPositionJson | options.go:199-213 | `offset` and `epoch` are each written only when non-zero, with their values |
| Options.ApplySubscribe | options.go:50-105 | each subscribe decorator writes exactly its own field with its argument and leaves the seven other fields unchanged |
| Options.SubscribeIdempotent | options.go:50-105 | applying a subscribe decorator twice equals applying it once |
| Options.SubscribeLaterWins | options.go:50-105 | of two decorators on the same field, the later one wins |
| Options.SubscribeCommute | options.go:50-105 | decorators on different fields commute |
| Options.PresenceLastWins | options.go:57-62 | `WithPresence(true)` followed by `WithPresence(false)` leaves presence off |
| Options.FoldSubscribeUntouched | options.go:47-105 | a field that no decorator in the list writes keeps its value through the fold |
| Options.FoldSubscribeLastWins | options.go:47-105 | the last decorator in the list that writes a field decides that field's value |
| Options.SubscribeOptionsJson | options.go:19-45 | a subscribe options record writes only the eight tagged keys of its fields |
| Options.SubscribeOptionsJsonFields | options.go:19-45 | every subscribe field is written under its own JSON name exactly when it is not zero, and with its value |
| Options.SubscribeKeysAfterApply | options.go:19-105 | a decorator that writes a zero value removes its key from the payload, one that writes anything else adds it, and no other key changes |
| Options.ApplyUnsubscribe | options.go:116-122 | `WithUnsubscribeClient` sets the client id |
| Options.FoldUnsubscribeLastWins | options.go:113-122 | the last unsubscribe decorator decides the client id; none leaves it unchanged |
| Options.UnsubscribeOptionsJson | options.go:107-111 | `client` is written exactly when the id is non-empty |
| Options.DisconnectJson | options.go:124-135 | `code` is written only when non-zero; `reason` and `reconnect` are always written |
| Options.ApplyDisconnect | options.go:151-170 | each disconnect decorator writes exactly its own field and leaves the others unchanged |
| Options.FoldDisconnectUntouched | options.go:148-170 | a field that no decorator in the list writes keeps its value |
| Options.FoldDisconnectLastWins | options.go:148-170 | the last decorator that writes a field decides it |
| Options.DisconnectOptionsJson | options.go:137-146 | untagged `Disconnect` and `ClientWhitelist` are always present, each null when unset and otherwise the disconnect object or the whitelist array; `client` is written exactly when non-empty, with its value |
| Options.ApplyHistory | options.go:186-227 | each history decorator writes exactly its own field and leaves the others unchanged |
| Options.FoldHistoryUntouched | options.go:186-227 | a field that no decorator in the list writes keeps its value |
| Options.FoldHistoryLastWins | options.go:186-227 | the last decorator that writes a field decides it |
| Options.HistoryCommute | options.go:192-227 | history decorators on different fields commute |
| Options.FoldHistoryAppend | options.go:186-227 | folding `a + b` equals folding `b` over the result of folding `a` |
| Options.FoldHistoryIdempotent | options.go:186-227 | repeating a decorator anywhere in the list changes nothing |
| Options.FoldHistoryCommute | options.go:186-227 | two adjacent decorators on different fields may be swapped anywhere in the list |
| Options.HistoryOptionsJson | options.go:172-184 | `since`, `limit` and `reverse` are each written exactly when non-zero, with their values (`reverse` as true) |
| Options.NoLimitIsSent | options.go:176-196 | `NoLimit` is -1, so `WithLimit(NoLimit)` sends `"limit": -1` instead of omitting it |
| Options.ZeroLimitIsOmitted | options.go:176-182 | a limit of 0 is omitted from the payload, so `WithLimit(0)` alone gives the same history options as no decorator |
| Options.ApplyChannels | options.go:238-243 | `WithPattern` sets the pattern |
| Options.FoldChannelsLastWins | options.go:235-243 | the last channels decorator decides the pattern |
| Options.ChannelsOptionsJson | options.go:229-233 | `pattern` is written exactly when non-empty |
| Errors.ErrorText | client.go:15-29 | the two sentinels have their fixed texts; a status-code error's text starts with the prefix and its code can be read back; other errors keep their own message |
| Errors.StatusCodeText | client.go:22-29 | the text is "wrong status code: " followed by the code in decimal, and the code can be read back from it |
| Errors.StatusCodeTextInjective | client.go:27-29 | different status codes give different texts |
| Errors.DecimalRoundTrip | client.go:28 | reading back the `%d` rendering of any integer, negative ones included, gives that integer |
| Pipes.RequiredFields | pipe.go:35-225 | each request writes its own fields under their tags: `channel` and `data` for publish; `channels` (null when empty) and `data` for broadcast; `channel` and `user` for subscribe and unsubscribe; `user` for disconnect; `channel` for presence, presence stats, history and history removal; `pattern` only when non-empty for channels; nothing for info |
| Pipes.OptionalFields | pipe.go:35-193 | the embedded options of publish, broadcast, subscribe, unsubscribe, disconnect and history requests write their own payloads; the other requests embed none |
| Pipes.CommandFields | pipe.go:48-55 | a command is written as an object with exactly the keys `method` (its name) and `params` (its request object) |
| Pipes.OptionsNeverShadow | pipe.go:35-233 | the keys an embedded options record writes never collide with the request's own fields, so both come through unchanged |
| Pipes.ZeroOptionsJson | pipe.go:35-233 | with no decorators, a request writes only its own fields, except a disconnect, which also writes `Disconnect` and `ClientWhitelist` as null |
| Pipes.PublishCommandJson | pipe.go:35-57 | a publish command goes out as method "publish" with its channel and data, and with `skip_history` exactly when the last decorator set it |
| Pipes.Pipe.constructor | client.go:80-85 | a new pipe holds no commands |
| Pipes.Pipe.Reset | pipe.go:14-19 | after a reset the pipe holds no commands |
| Pipes.Pipe.Add | pipe.go:21-26 | appends one command and returns no error |
| Pipes.Pipe.AddMany | pipe.go:28-33 | appends the commands in order and returns no error |
| Pipes.Pipe.AddPublish | pipe.go:41-57 | appends one "publish" command whose options are the decorators applied in order to zero options |
| Pipes.Pipe.AddPublishRequests | pipe.go:59-70 | appends one "publish" command per request, in order, after the commands already buffered |
| Pipes.Pipe.AddBroadcast | pipe.go:78-94 | appends one "broadcast" command with the folded publish options |
| Pipes.Pipe.AddSubscribe | pipe.go:102-118 | appends one "subscribe" command with the folded subscribe options |
| Pipes.Pipe.AddUnsubscribe | pipe.go:126-142 | appends one "unsubscribe" command with the folded options |
| Pipes.Pipe.AddDisconnect | pipe.go:149-164 | appends one "disconnect" command with the folded options |
| Pipes.Pipe.AddPresence | pipe.go:166-176 | appends one "presence" command for the channel |
| Pipes.Pipe.AddPresenceStats | pipe.go:178-188 | appends one "presence_stats" command for the channel |
| Pipes.Pipe.AddHistory | pipe.go:195-210 | appends one "history" command with the folded history options |
| Pipes.Pipe.AddHistoryRemove | pipe.go:212-222 | appends one "history_remove" command for the channel |
| Pipes.Pipe.AddChannels | pipe.go:228-242 | appends one "channels" command carrying the pattern the decorators chose |
| Pipes.Pipe.AddInfo | pipe.go:244-252 | appends one "info" command with empty parameters |
| Api.New | client.go:59-73 | the client keeps the address, resolver and key; a missing HTTP client becomes the default one |
| Api.EncodeLines | client.go:370-378 | encoding the body succeeds exactly when every command encodes |
| Api.EncodeBody | client.go:370-378 | the encoding loop produces the body `EncodeLines` specifies, or its error |
| Api.EncodeLinesFirstFailure | client.go:373-378 | the first command that cannot be encoded decides the error |
| Api.EncodeLinesFramed | client.go:370-378 | when every command encodes, the body is the encodings in order, each followed by a newline |
| Api.SplitFramed | client.go:370-378 | splitting such a body at newlines gives back each command's encoding, in order, when no encoding holds a raw newline |
| Api.DecodeReplies | client.go:413-424 | the decoding loop produces the replies `DecodeAll` specifies, or its error |
| Api.DecodeAllSucceeds | client.go:415-424 | n replies followed by the end of the stream decode to exactly those n replies, in order |
| Api.DecodeAllFails | client.go:415-422 | a decoding error after any number of replies fails the whole response with that error |
| Api.Endpoint | client.go:380-390 | with a resolver set, the resolver's answer is used and the fixed address ignored; without one, the fixed address |
| Api.BuildRequest | client.go:370-401 | a request is built exactly when the body encodes, the endpoint resolves and `http.NewRequest` accepts it; the encoding error, then the resolver's error, stop it first; the request is a POST to the endpoint with the client's headers and the encoded body |
| Api.Exchange | client.go:369-427 | no request, and the building error, when building fails; otherwise the built request is sent, the HTTP client's error or a non-200 status as ErrStatusCode is the result, and a 200 body is decoded |
| Api.Headers | client.go:398-401 | Content-Type is always application/json; Authorization is "apikey <key>" and is present exactly when the key is non-empty |
| Api.SendPipeOutcome | client.go:355-367 | an empty pipe fails with ErrPipeEmpty and makes no request; success always has one reply per command |
| Api.Send | client.go:369-427 | the method computes what `Exchange` specifies, including which request reached the HTTP client |
| Api.SendPipe | client.go:355-367 | the method computes what `SendPipeOutcome` specifies for the pipe's commands |
| Api.SendPipeEncodeFailure | client.go:373-378 | an unencodable command stops the send with its error before any request is made |
| Api.SendPipeRequest | client.go:369-401 | a request is made exactly when every command encodes, the endpoint resolves and the request can be built; that request is a POST to the endpoint, with the client's headers, and its body is the command encodings in order, each followed by a newline; when no encoding holds a raw newline, splitting the body at newlines gives back each encoding |
| Api.SendPipeNoEndpoint | client.go:380-390 | a failing resolver stops the send with its error before any request is made |
| Api.SendPipeRejected | client.go:403-411 | the HTTP client's error, or a status other than 200 as ErrStatusCode with that code, is the result |
| Api.SendPipeReplies | client.go:355-426 | on status 200, n replies are returned in order, server errors included, when n equals the command count; otherwise the result is ErrMalformedResponse |
| Api.SendPipeMalformed | client.go:415-422 | a decoding error in a 200 response fails the whole pipe |
| Api.SingleCallReply | client.go:87-103 | for a one-command call, a reply error is returned as it came and the decoder is not consulted; otherwise the decoder's result is returned |
| Api.Publish | client.go:87-103 | returns the send's error, else the reply's error, else the decoded result of a one-command publish pipe |
| Api.Broadcast | client.go:105-121 | the same for a one-command broadcast pipe |
| Api.Subscribe | client.go:123-139 | returns the send's error, else the reply's error, else none, for a one-command subscribe pipe |
| Api.Unsubscribe | client.go:141-157 | the same for unsubscribe |
| Api.Disconnect | client.go:159-175 | the same for disconnect |
| Api.Presence | client.go:177-193 | the send's error, else the reply's error, else the decoded presence result |
| Api.PresenceStats | client.go:195-211 | the same for presence stats |
| Api.History | client.go:213-229 | the same for history with its folded options |
| Api.HistoryRemove | client.go:231-247 | the send's error, else the reply's error, else none |
| Api.Channels | client.go:249-265 | the send's error, else the reply's error, else the decoded channels result |
| Api.Info | client.go:267-283 | the same for info |
| Legacy.TrimRightSlash | main.go:85 | the result is a prefix of the input, the removed tail is all slashes, and the result does not end in a slash |
| Legacy.NormalizeEndpoint | main.go:83-90 | the endpoint always ends in "/api/"; "/api" is added only when the trimmed address lacks it |
| Legacy.NormalizeEndpointApiOnce | main.go:85-90 | an address given with or without "/api", and with any number of trailing slashes, yields the same endpoint |
| Legacy.NormalizeEndpointIdempotent | main.go:83-90 | normalising an endpoint a second time changes nothing |
| Legacy.CommandsJson | main.go:434-438 | the buffer marshals to one JSON array with one `{method, params}` object per command, in order |
| Legacy.ErrorText | main.go:48-52 | ErrClientNotEmpty and ErrMalformedResponse have their fixed texts; any other error keeps its own message |
| Legacy.CommandsJsonAppend | main.go:434-438 | commands buffered later are marshalled after those buffered earlier: the array of `a + b` is the array of `a` followed by that of `b` |
| Legacy.TwoPublishesInOrder | main.go:113-129 | two publishes added one after the other are marshalled after the earlier buffer, the first one first, each with its channel and data |
| Legacy.Exchange | main.go:434-464 | a marshalling error is reported by its text; success means the body marshalled, the request was built, the signed POST came back with status 200, and the responses are what the body unmarshals to; every failure is a text error |
| Legacy.SendOutcome | main.go:418-432 | an exchange error comes back unchanged; a successful exchange with one response per command is returned as it is, and one with any other count gives ErrMalformedResponse |
| Legacy.SendOutcomeMalformed | main.go:418-432 | ErrMalformedResponse is the result exactly when the exchange succeeded with a response count other than the command count |
| Legacy.SendOutcomeStatus | main.go:454-456 | a status other than 200 fails with "wrong status code: " followed by the status text |
| Legacy.DecodePublish | main.go:357-362 | always true without error |
| Legacy.DecodeUnsubscribe | main.go:364-369 | always true without error |
| Legacy.DecodeDisconnect | main.go:371-376 | always true without error |
| Legacy.SingleCallResponse | main.go:278-336 | for any decoder, a one-command call returns the send's error as it is, ErrMalformedResponse when the response count is not one, the response's error without decoding, and otherwise the decoder's result for the body |
| Legacy.FlagCallResult | main.go:218-276 | publish, unsubscribe and disconnect report true exactly when the send succeeded and the response has no error; otherwise they report that error |
| Legacy.Client.constructor | main.go:81-98 | the endpoint is the normalised address; secret and timeout are kept; the buffer is empty |
| Legacy.Client.Empty | main.go:100-104 | true exactly when no command is buffered |
| Legacy.Client.Reset | main.go:106-111 | the buffer is emptied |
| Legacy.Client.AddPublish | main.go:113-129 | appends a "publish" command with channel and raw data |
| Legacy.Client.AddUnsubscribe | main.go:131-145 | appends an "unsubscribe" command with channel and user |
| Legacy.Client.AddDisconnect | main.go:147-160 | appends a "disconnect" command with the user |
| Legacy.Client.AddPresence | main.go:162-175 | appends a "presence" command with the channel |
| Legacy.Client.AddHistory | main.go:177-190 | appends a "history" command with the channel |
| Legacy.Client.AddChannels | main.go:192-203 | appends a "channels" command with empty parameters |
| Legacy.Client.AddStats | main.go:205-216 | appends a "stats" command with empty parameters |
| Legacy.Client.Send | main.go:418-432 | the buffer is empty afterwards whatever happens; the result is the send of the old buffer |
| Legacy.Client.Publish | main.go:218-236 | with a non-empty buffer it fails with ErrClientNotEmpty and leaves the buffer alone; otherwise it sends one publish and leaves the buffer empty |
| Legacy.Client.Unsubscribe | main.go:238-256 | the same guard, then one unsubscribe |
| Legacy.Client.Disconnect | main.go:258-276 | the same guard, then one disconnect |
| Legacy.Client.Presence | main.go:278-296 | the same guard, then one presence, with its decoded result |
| Legacy.Client.History | main.go:298-316 | the same guard, then one history, with its decoded result |
| Legacy.Client.Channels | main.go:318-336 | the same guard, then one channels, with its decoded result |

## Left out

- The HTTP transport, TLS and `DefaultHTTPClient`'s settings are out of scope: the exchange is a parameter, and an HTTP client is only an identity.
- The context and cancellation (the `ctx` arguments and `WithContext`) are not modelled: cancellation lives inside the HTTP exchange, which is a parameter.
- The mutexes of `Pipe` and of the legacy client are not modelled, because the model has no concurrency. Concurrent `Reset`/`Add` is therefore not covered.
- `SetHTTPClient` (client.go:75-78) is not modelled: `Client` is an immutable value.
- JSON encoding and decoding are parameters, not modelled internals.
  - Where the two differ in Go, the model does not tell a nil slice or `RawMessage` from an empty one. An empty list or an empty `RawMessage` behaves as nil and is marshalled as null or left to the encoder.
  - Whether raw data is valid JSON is the encoder's concern.
- The result decoders (`decodePublish` … `decodePresenceStats`, client.go:285-351) are generic decoder parameters. The result types they produce are declared in no file of this model.
- The new client's `Command` and `Reply` types are declared in no file of this model. A command is written with the `method` and `params` keys that pipe.go:48-55 fills.
- Errors.ErrorText: the type of a server reply's error, and its `Error()` method, are declared in no file of this model. client.go:133-136 returns it as it is, and the model takes its text to be its message.
- In the legacy client, `DecodeHistory`, `DecodeChannels` and `DecodePresence` are generic decoder parameters. Their libcentrifugo types are not part of this model.
- The legacy `Stats` call and `DecodeStats` (main.go:338-406) are left out: `Stats` returns a value of the wrong type and does not compile.
- Legacy.Client.AddChannels, Legacy.Client.AddStats: as written these do not compile either, because main.go:199 and main.go:212 assign a `map[string]string{}` to the `map[string]interface{}` field `Params`. The model gives both their evident meaning, a command with an empty parameter map.
- `auth.GenerateApiSign` is a parameter of the legacy client.
- Legacy `send` ignores the error from `ioutil.ReadAll`. The model hands the whole body to the unmarshaller.
- The `uid` field of a command is not modelled, because no `AddX` sets it.
- The note that a marshalled `Disconnect` must stay under 127 bytes is a comment, not code, and is not modelled.
- Api.SplitFramed: the round trip needs the hypothesis that no command encoding contains a raw newline byte. `json.Encoder` guarantees this, since it escapes newlines inside strings, but the model never derives it from the encoder.
- Api.DecodeAll: running out of decoder results is treated like `io.EOF`. The results are modelled as a finite sequence, and a decoder over a finite body reaches end of stream.
- Api.SendPipeReplies: the response body is the sequence of decoder results, not bytes. The model does not show how those results arise from the bytes.
- The single-command calls (`Api.Publish` … `Api.Info`) drop the `if err != nil` check after `AddX`. `add` always returns nil, so the branch is dead.
- Aliasing is not modelled: every buffered value is a copy. In Go these values stay shared with the caller:
  - the `*StreamPosition` of `WithRecoverSince` and `WithSince` (options.go:101-104, 216-219);
  - the `*Disconnect` of `WithDisconnect` (options.go:152-155);
  - the whitelist slice of `WithDisconnectClientWhitelist` (options.go:166-169);
  - the `Info` and `Data` `RawMessage` slices of `WithSubscribeInfo` and `WithSubscribeData` (options.go:51-54, 94-97);
  - the `data` and `channels` slices of `AddPublish` and `AddBroadcast` (pipe.go:43-54, 80-91);
  - the legacy `raw` data of `AddPublish` (main.go:118-119).

  A caller that changes one of these after `AddX` changes what a later `SendPipe` or `Send` sends. In the model a buffered command never changes.
- Api.Endpoint: the resolver is a pure function, so it gives the same answer on every send. A `GetAddr` that rotates endpoints or otherwise changes between sends (client.go:35-38) cannot be expressed. Each send is modelled for a single answer of the resolver.
- The history limit: Go's platform-sized `int` limit is modelled as a 64-bit integer.
