/**
 * The command buffer of the HTTP API client.
 *
 * A `Pipe` holds the commands added to it, in the order they were added,
 * until the client sends them in one request. Every `AddX` builds one command
 * from its arguments and its option decorators (applied in order to a
 * zero-valued options record) and appends it. The parameters of a command
 * are a tagged datatype, one variant per request structure.
 */
module Pipes {
  import opened Base
  import opened Options
  import opened Errors

  /** A publish request: the channel, the raw JSON data and the publish options. */
  datatype PublishRequest = PublishRequest(channel: string, data: Bytes, options: PublishOptions)

  /** The parameters of a command, one variant per request structure. */
  datatype Params =
    | PublishParams(request: PublishRequest)
    | BroadcastParams(channels: seq<string>, data: Bytes, publishOptions: PublishOptions)
    | SubscribeParams(channel: string, user: string, subscribeOptions: SubscribeOptions)
    | UnsubscribeParams(channel: string, user: string, unsubscribeOptions: UnsubscribeOptions)
    | DisconnectParams(user: string, disconnectOptions: DisconnectOptions)
      /** The `{"channel": ...}` map of presence, presence_stats and history_remove. */
    | ChannelParams(channel: string)
    | HistoryParams(channel: string, historyOptions: HistoryOptions)
    | ChannelsParams(pattern: string)
      /** The empty map of info. */
    | NoParams

  datatype Command = Command(name: string, params: Params)

  // ---------------------------------------------------------------------------
  // The commands each `AddX` builds.

  function PublishCommand(channel: string, data: Bytes, opts: seq<PublishOption>): Command {
    Command("publish", PublishParams(PublishRequest(channel, data, FoldPublish(ZeroPublishOptions, opts))))
  }

  function BroadcastCommand(channels: seq<string>, data: Bytes, opts: seq<PublishOption>): Command {
    Command("broadcast", BroadcastParams(channels, data, FoldPublish(ZeroPublishOptions, opts)))
  }

  function SubscribeCommand(channel: string, user: string, opts: seq<SubscribeOption>): Command {
    Command("subscribe", SubscribeParams(channel, user, FoldSubscribe(ZeroSubscribeOptions, opts)))
  }

  function UnsubscribeCommand(channel: string, user: string, opts: seq<UnsubscribeOption>): Command {
    Command("unsubscribe", UnsubscribeParams(channel, user, FoldUnsubscribe(ZeroUnsubscribeOptions, opts)))
  }

  function DisconnectCommand(user: string, opts: seq<DisconnectOption>): Command {
    Command("disconnect", DisconnectParams(user, FoldDisconnect(ZeroDisconnectOptions, opts)))
  }

  function PresenceCommand(channel: string): Command {
    Command("presence", ChannelParams(channel))
  }

  function PresenceStatsCommand(channel: string): Command {
    Command("presence_stats", ChannelParams(channel))
  }

  function HistoryCommand(channel: string, opts: seq<HistoryOption>): Command {
    Command("history", HistoryParams(channel, FoldHistory(ZeroHistoryOptions, opts)))
  }

  function HistoryRemoveCommand(channel: string): Command {
    Command("history_remove", ChannelParams(channel))
  }

  function ChannelsCommand(opts: seq<ChannelsOption>): Command {
    Command("channels", ChannelsParams(FoldChannels(ZeroChannelsOptions, opts).pattern))
  }

  const InfoCommand := Command("info", NoParams)

  // ---------------------------------------------------------------------------
  // The JSON a command marshals to.

  /**
   * The fields a request structure declares itself (not those of the
   * embedded options), under their JSON tags. Only `pattern` is `omitempty`;
   * an empty channel list goes out as null, as a nil slice does.
   */
  function RequiredJson(p: Params): map<string, Json>
  {
    match p
    case PublishParams(r) => map["channel" := Str(r.channel), "data" := Raw(r.data)]
    case BroadcastParams(chs, data, _) =>
      map["channels" := (if chs == [] then Null else Array(StrArray(chs))), "data" := Raw(data)]
    case SubscribeParams(ch, user, _) => map["channel" := Str(ch), "user" := Str(user)]
    case UnsubscribeParams(ch, user, _) => map["channel" := Str(ch), "user" := Str(user)]
    case DisconnectParams(user, _) => map["user" := Str(user)]
    case ChannelParams(ch) => map["channel" := Str(ch)]
    case HistoryParams(ch, _) => map["channel" := Str(ch)]
    case ChannelsParams(pattern) => if pattern != "" then map["pattern" := Str(pattern)] else map[]
    case NoParams => map[]
  }

  /**
   * The fields of the embedded options record, flattened into the request
   * object; presence, presence-stats, history-remove, channels and info
   * requests embed none.
   */
  function OptionalJson(p: Params): map<string, Json>
  {
    match p
    case PublishParams(r) => PublishOptionsJson(r.options)
    case BroadcastParams(_, _, o) => PublishOptionsJson(o)
    case SubscribeParams(_, _, o) => SubscribeOptionsJson(o)
    case UnsubscribeParams(_, _, o) => UnsubscribeOptionsJson(o)
    case DisconnectParams(_, o) => DisconnectOptionsJson(o)
    case ChannelParams(_) => map[]
    case HistoryParams(_, o) => HistoryOptionsJson(o)
    case ChannelsParams(_) => map[]
    case NoParams => map[]
  }

  /** Each request's own fields, under their tags, with their values. */
  lemma RequiredFields(p: Params)
    ensures p.PublishParams? ==> RequiredJson(p) == map["channel" := Str(p.request.channel), "data" := Raw(p.request.data)]
    ensures p.BroadcastParams? ==>
      && RequiredJson(p).Keys == {"channels", "data"} && RequiredJson(p)["data"] == Raw(p.data)
      && RequiredJson(p)["channels"] == if p.channels == [] then Null else Array(StrArray(p.channels))
    ensures p.SubscribeParams? ==> RequiredJson(p) == map["channel" := Str(p.channel), "user" := Str(p.user)]
    ensures p.UnsubscribeParams? ==> RequiredJson(p) == map["channel" := Str(p.channel), "user" := Str(p.user)]
    ensures p.DisconnectParams? ==> RequiredJson(p) == map["user" := Str(p.user)]
    ensures p.ChannelParams? || p.HistoryParams? ==> RequiredJson(p) == map["channel" := Str(p.channel)]
    ensures p.ChannelsParams? ==> ("pattern" in RequiredJson(p) <==> p.pattern != "") && RequiredJson(p).Keys <= {"pattern"}
    ensures p.ChannelsParams? && "pattern" in RequiredJson(p) ==> RequiredJson(p)["pattern"] == Str(p.pattern)
    ensures p.NoParams? ==> RequiredJson(p) == map[]
  {
  }

  /** Each request's embedded options, or none. */
  lemma OptionalFields(p: Params)
    ensures p.PublishParams? ==> OptionalJson(p) == PublishOptionsJson(p.request.options)
    ensures p.BroadcastParams? ==> OptionalJson(p) == PublishOptionsJson(p.publishOptions)
    ensures p.SubscribeParams? ==> OptionalJson(p) == SubscribeOptionsJson(p.subscribeOptions)
    ensures p.UnsubscribeParams? ==> OptionalJson(p) == UnsubscribeOptionsJson(p.unsubscribeOptions)
    ensures p.DisconnectParams? ==> OptionalJson(p) == DisconnectOptionsJson(p.disconnectOptions)
    ensures p.HistoryParams? ==> OptionalJson(p) == HistoryOptionsJson(p.historyOptions)
    ensures p.ChannelParams? || p.ChannelsParams? || p.NoParams? ==> OptionalJson(p) == map[]
  {
  }

  /** The request object: its own fields and, beside them, those of its embedded options. */
  function ParamsJson(p: Params): map<string, Json> {
    RequiredJson(p) + OptionalJson(p)
  }

  /** A command goes out as an object with exactly two keys: the method name and the request object. */
  function CommandJson(cmd: Command): Json {
    Object(map["method" := Str(cmd.name), "params" := Object(ParamsJson(cmd.params))])
  }

  /** A command is written as its method name and its request object, and nothing else. */
  lemma CommandFields(cmd: Command)
    ensures CommandJson(cmd).Object? && CommandJson(cmd).fields.Keys == {"method", "params"}
    ensures CommandJson(cmd).fields["method"] == Str(cmd.name)
    ensures CommandJson(cmd).fields["params"] == Object(ParamsJson(cmd.params))
  {
  }

  /**
   * The embedded options never shadow a field of the request: the two key
   * sets are disjoint, so the request's own fields come through unchanged
   * and so do the options'.
   */
  lemma OptionsNeverShadow(p: Params)
    ensures RequiredJson(p).Keys !! OptionalJson(p).Keys
    ensures ParamsJson(p).Keys == RequiredJson(p).Keys + OptionalJson(p).Keys
    ensures forall k :: k in RequiredJson(p) ==> ParamsJson(p)[k] == RequiredJson(p)[k]
    ensures forall k :: k in OptionalJson(p) ==> ParamsJson(p)[k] == OptionalJson(p)[k]
  {
    match p
    case SubscribeParams(_, _, o) =>
      assert RequiredJson(p).Keys == {"channel", "user"};
      assert "channel" !in SubscribeKeys && "user" !in SubscribeKeys;
    case _ =>
  }

  /**
   * With no option decorators, nothing beyond the request's own fields is
   * written, except that the untagged `Disconnect` and `ClientWhitelist`
   * fields of a disconnect are always written, as null.
   */
  lemma ZeroOptionsJson(p: Params)
    requires p.PublishParams? ==> p.request.options == ZeroPublishOptions
    requires p.BroadcastParams? ==> p.publishOptions == ZeroPublishOptions
    requires p.SubscribeParams? ==> p.subscribeOptions == ZeroSubscribeOptions
    requires p.UnsubscribeParams? ==> p.unsubscribeOptions == ZeroUnsubscribeOptions
    requires p.DisconnectParams? ==> p.disconnectOptions == ZeroDisconnectOptions
    requires p.HistoryParams? ==> p.historyOptions == ZeroHistoryOptions
    ensures !p.DisconnectParams? ==> ParamsJson(p) == RequiredJson(p)
    ensures p.DisconnectParams? ==>
      ParamsJson(p) == RequiredJson(p)["Disconnect" := Null]["ClientWhitelist" := Null]
  {
    match p
    case SubscribeParams(_, _, o) =>
      SubscribeOptionsJsonFields(o);
      forall k | k in SubscribeOptionsJson(o)
        ensures false
      {
        SubscribeKeysAreFields(k);
      }
      assert SubscribeOptionsJson(o) == map[];
    case DisconnectParams(_, o) =>
      assert OptionalJson(p) == map["Disconnect" := Null, "ClientWhitelist" := Null];
    case _ =>
  }

  /**
   * A publish command is sent as method "publish" with its channel and data
   * as given, and with `skip_history` exactly when the last `WithSkipHistory`
   * decorator asked for it.
   */
  lemma PublishCommandJson(channel: string, data: Bytes, opts: seq<PublishOption>)
    ensures var j := CommandJson(PublishCommand(channel, data, opts));
      && j.fields["method"] == Str("publish")
      && j.fields["params"].Object?
      && var params := j.fields["params"].fields;
      && params.Keys <= {"channel", "data", "skip_history"}
      && params["channel"] == Str(channel)
      && params["data"] == Raw(data)
      && ("skip_history" in params <==> opts != [] && opts[|opts| - 1].skip)
  {
    var cmd := PublishCommand(channel, data, opts);
    OptionsNeverShadow(cmd.params);
    FoldPublishLastWins(ZeroPublishOptions, opts);
  }

  /** Every key a subscribe options record can write is the key of one of its fields. */
  lemma SubscribeKeysAreFields(k: string)
    requires k in SubscribeKeys
    ensures exists f :: SubscribeKey(f) == k
  {
    var f := SubscribeFieldOf(k);
  }

  // ---------------------------------------------------------------------------
  // The pipe.

  class Pipe {
    /** The buffered commands, oldest first. */
    var commands: seq<Command>

    /** `Client.Pipe()`: a pipe with no commands. */
    constructor()
      ensures commands == []
    {
      commands := [];
    }

    method Reset()
      modifies this
      ensures commands == []
    {
      commands := [];
    }

    method Add(cmd: Command) returns (err: Option<Error>)
      modifies this
      ensures commands == old(commands) + [cmd]
      ensures err == None
    {
      commands := commands + [cmd];
      err := None;
    }

    method AddMany(cmds: seq<Command>) returns (err: Option<Error>)
      modifies this
      ensures commands == old(commands) + cmds
      ensures err == None
    {
      commands := commands + cmds;
      err := None;
    }

    method AddPublish(channel: string, data: Bytes, opts: seq<PublishOption>) returns (err: Option<Error>)
      modifies this
      ensures commands == old(commands) + [PublishCommand(channel, data, opts)]
      ensures err == None
    {
      var options := ZeroPublishOptions;
      for i := 0 to |opts|
        invariant FoldPublish(options, opts[i..]) == FoldPublish(ZeroPublishOptions, opts)
      {
        assert opts[i..][1..] == opts[i + 1..];
        options := ApplyPublish(options, opts[i]);
      }
      assert opts[|opts|..] == [];
      err := Add(Command("publish", PublishParams(PublishRequest(channel, data, options))));
    }

    /** Appends one publish command per request, in the order given. */
    method AddPublishRequests(requests: seq<PublishRequest>) returns (err: Option<Error>)
      modifies this
      ensures |commands| == |old(commands)| + |requests|
      ensures commands[..|old(commands)|] == old(commands)
      ensures forall k :: 0 <= k < |requests| ==>
        commands[|old(commands)| + k] == Command("publish", PublishParams(requests[k]))
      ensures err == None
    {
      var batch: seq<Command> := [];
      for i := 0 to |requests|
        invariant |batch| == i
        invariant forall k :: 0 <= k < i ==> batch[k] == Command("publish", PublishParams(requests[k]))
      {
        batch := batch + [Command("publish", PublishParams(requests[i]))];
      }
      err := AddMany(batch);
    }

    method AddBroadcast(channels: seq<string>, data: Bytes, opts: seq<PublishOption>) returns (err: Option<Error>)
      modifies this
      ensures commands == old(commands) + [BroadcastCommand(channels, data, opts)]
      ensures err == None
    {
      var options := ZeroPublishOptions;
      for i := 0 to |opts|
        invariant FoldPublish(options, opts[i..]) == FoldPublish(ZeroPublishOptions, opts)
      {
        assert opts[i..][1..] == opts[i + 1..];
        options := ApplyPublish(options, opts[i]);
      }
      assert opts[|opts|..] == [];
      err := Add(Command("broadcast", BroadcastParams(channels, data, options)));
    }

    method AddSubscribe(channel: string, user: string, opts: seq<SubscribeOption>) returns (err: Option<Error>)
      modifies this
      ensures commands == old(commands) + [SubscribeCommand(channel, user, opts)]
      ensures err == None
    {
      var options := ZeroSubscribeOptions;
      for i := 0 to |opts|
        invariant FoldSubscribe(options, opts[i..]) == FoldSubscribe(ZeroSubscribeOptions, opts)
      {
        assert opts[i..][1..] == opts[i + 1..];
        options := ApplySubscribe(options, opts[i]);
      }
      assert opts[|opts|..] == [];
      err := Add(Command("subscribe", SubscribeParams(channel, user, options)));
    }

    method AddUnsubscribe(channel: string, user: string, opts: seq<UnsubscribeOption>) returns (err: Option<Error>)
      modifies this
      ensures commands == old(commands) + [UnsubscribeCommand(channel, user, opts)]
      ensures err == None
    {
      var options := ZeroUnsubscribeOptions;
      for i := 0 to |opts|
        invariant FoldUnsubscribe(options, opts[i..]) == FoldUnsubscribe(ZeroUnsubscribeOptions, opts)
      {
        assert opts[i..][1..] == opts[i + 1..];
        options := ApplyUnsubscribe(options, opts[i]);
      }
      assert opts[|opts|..] == [];
      err := Add(Command("unsubscribe", UnsubscribeParams(channel, user, options)));
    }

    method AddDisconnect(user: string, opts: seq<DisconnectOption>) returns (err: Option<Error>)
      modifies this
      ensures commands == old(commands) + [DisconnectCommand(user, opts)]
      ensures err == None
    {
      var options := ZeroDisconnectOptions;
      for i := 0 to |opts|
        invariant FoldDisconnect(options, opts[i..]) == FoldDisconnect(ZeroDisconnectOptions, opts)
      {
        assert opts[i..][1..] == opts[i + 1..];
        options := ApplyDisconnect(options, opts[i]);
      }
      assert opts[|opts|..] == [];
      err := Add(Command("disconnect", DisconnectParams(user, options)));
    }

    method AddPresence(channel: string) returns (err: Option<Error>)
      modifies this
      ensures commands == old(commands) + [PresenceCommand(channel)]
      ensures err == None
    {
      err := Add(Command("presence", ChannelParams(channel)));
    }

    method AddPresenceStats(channel: string) returns (err: Option<Error>)
      modifies this
      ensures commands == old(commands) + [PresenceStatsCommand(channel)]
      ensures err == None
    {
      err := Add(Command("presence_stats", ChannelParams(channel)));
    }

    method AddHistory(channel: string, opts: seq<HistoryOption>) returns (err: Option<Error>)
      modifies this
      ensures commands == old(commands) + [HistoryCommand(channel, opts)]
      ensures err == None
    {
      var options := ZeroHistoryOptions;
      for i := 0 to |opts|
        invariant FoldHistory(options, opts[i..]) == FoldHistory(ZeroHistoryOptions, opts)
      {
        assert opts[i..][1..] == opts[i + 1..];
        options := ApplyHistory(options, opts[i]);
      }
      assert opts[|opts|..] == [];
      err := Add(Command("history", HistoryParams(channel, options)));
    }

    method AddHistoryRemove(channel: string) returns (err: Option<Error>)
      modifies this
      ensures commands == old(commands) + [HistoryRemoveCommand(channel)]
      ensures err == None
    {
      err := Add(Command("history_remove", ChannelParams(channel)));
    }

    method AddChannels(opts: seq<ChannelsOption>) returns (err: Option<Error>)
      modifies this
      ensures commands == old(commands) + [ChannelsCommand(opts)]
      ensures err == None
    {
      var options := ZeroChannelsOptions;
      for i := 0 to |opts|
        invariant FoldChannels(options, opts[i..]) == FoldChannels(ZeroChannelsOptions, opts)
      {
        assert opts[i..][1..] == opts[i + 1..];
        options := ApplyChannels(options, opts[i]);
      }
      assert opts[|opts|..] == [];
      err := Add(Command("channels", ChannelsParams(options.pattern)));
    }

    method AddInfo() returns (err: Option<Error>)
      modifies this
      ensures commands == old(commands) + [InfoCommand]
      ensures err == None
    {
      err := Add(Command("info", NoParams));
    }
  }
}
