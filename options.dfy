/**
 * The option records of the HTTP API client and their decorators.
 *
 * In the Go client every decorator is a closure that writes one field of a
 * zero-valued record; here a decorator is a datatype value naming the field
 * and the value, `ApplyX` is the write, and `FoldX` applies a list of
 * decorators left to right. `XJson` gives the JSON object a record marshals
 * to: a field tagged `omitempty` is absent when it holds its zero value.
 */
module Options {
  import opened Base

  newtype uint32 = x: int | 0 <= x < 0x1_0000_0000
  newtype uint64 = x: int | 0 <= x < 0x1_0000_0000_0000_0000
  newtype int64 = x: int | -0x8000_0000_0000_0000 <= x < 0x8000_0000_0000_0000

  // ---------------------------------------------------------------------------
  // Publish options: one field.

  datatype PublishOptions = PublishOptions(skipHistory: bool)

  const ZeroPublishOptions := PublishOptions(false)

  datatype PublishOption = WithSkipHistory(skip: bool)

  function ApplyPublish(o: PublishOptions, d: PublishOption): (r: PublishOptions)
    ensures r.skipHistory == d.skip
  {
    match d
    case WithSkipHistory(skip) => o.(skipHistory := skip)
  }

  /** Applies the decorators in order, the first one first. */
  function FoldPublish(o: PublishOptions, ds: seq<PublishOption>): PublishOptions
    decreases |ds|
  {
    if ds == [] then o else FoldPublish(ApplyPublish(o, ds[0]), ds[1..])
  }

  /** The last decorator decides the field; with none, the record is unchanged. */
  lemma {:induction false} FoldPublishLastWins(o: PublishOptions, ds: seq<PublishOption>)
    ensures FoldPublish(o, ds) == if ds == [] then o else PublishOptions(ds[|ds| - 1].skip)
    decreases |ds|
  {
    if ds != [] {
      FoldPublishLastWins(ApplyPublish(o, ds[0]), ds[1..]);
    }
  }

  function PublishOptionsJson(o: PublishOptions): (r: map<string, Json>)
    ensures r.Keys <= {"skip_history"}
    ensures "skip_history" in r <==> o.skipHistory
    ensures "skip_history" in r ==> r["skip_history"] == Bool(true)
  {
    if o.skipHistory then map["skip_history" := Bool(true)] else map[]
  }

  // ---------------------------------------------------------------------------
  // Stream positions, used by subscribe recovery and by history.

  datatype StreamPosition = StreamPosition(offset: uint64, epoch: string)

  function StreamPositionJson(p: StreamPosition): (r: map<string, Json>)
    ensures r.Keys <= {"offset", "epoch"}
    ensures "offset" in r <==> p.offset != 0
    ensures "epoch" in r <==> p.epoch != ""
    ensures "offset" in r ==> r["offset"] == Number(p.offset as int)
    ensures "epoch" in r ==> r["epoch"] == Str(p.epoch)
  {
    (if p.offset != 0 then map["offset" := Number(p.offset as int)] else map[])
    + (if p.epoch != "" then map["epoch" := Str(p.epoch)] else map[])
  }

  /** A Go `*StreamPosition`: nil marshals to null. */
  function PositionJson(p: Option<StreamPosition>): Json {
    match p
    case None => Null
    case Some(sp) => Object(StreamPositionJson(sp))
  }

  // ---------------------------------------------------------------------------
  // Subscribe options: eight independent fields.

  datatype SubscribeOptions = SubscribeOptions(
    info: Bytes,
    presence: bool,
    joinLeave: bool,
    position: bool,
    recover: bool,
    data: Bytes,
    recoverSince: Option<StreamPosition>,
    clientId: string)

  const ZeroSubscribeOptions := SubscribeOptions([], false, false, false, false, [], None, "")

  datatype SubscribeOption =
    | WithSubscribeInfo(info: Bytes)
    | WithPresence(enabled: bool)
    | WithJoinLeave(enabled: bool)
    | WithPosition(enabled: bool)
    | WithRecover(enabled: bool)
    | WithSubscribeClient(clientId: string)
    | WithSubscribeData(data: Bytes)
    | WithRecoverSince(since: Option<StreamPosition>)

  datatype SubscribeField =
    InfoField | PresenceField | JoinLeaveField | PositionField | RecoverField | DataField | RecoverSinceField | ClientField

  /** The field a decorator writes. */
  function SubscribeTarget(d: SubscribeOption): SubscribeField {
    match d
    case WithSubscribeInfo(_) => InfoField
    case WithPresence(_) => PresenceField
    case WithJoinLeave(_) => JoinLeaveField
    case WithPosition(_) => PositionField
    case WithRecover(_) => RecoverField
    case WithSubscribeClient(_) => ClientField
    case WithSubscribeData(_) => DataField
    case WithRecoverSince(_) => RecoverSinceField
  }

  /** Records a and b hold the same value in field f. */
  predicate SubscribeAgree(a: SubscribeOptions, b: SubscribeOptions, f: SubscribeField) {
    match f
    case InfoField => a.info == b.info
    case PresenceField => a.presence == b.presence
    case JoinLeaveField => a.joinLeave == b.joinLeave
    case PositionField => a.position == b.position
    case RecoverField => a.recover == b.recover
    case DataField => a.data == b.data
    case RecoverSinceField => a.recoverSince == b.recoverSince
    case ClientField => a.clientId == b.clientId
  }

  /** Record o holds, in the field d writes, the value d carries. */
  predicate SubscribeHolds(o: SubscribeOptions, d: SubscribeOption) {
    match d
    case WithSubscribeInfo(v) => o.info == v
    case WithPresence(v) => o.presence == v
    case WithJoinLeave(v) => o.joinLeave == v
    case WithPosition(v) => o.position == v
    case WithRecover(v) => o.recover == v
    case WithSubscribeClient(v) => o.clientId == v
    case WithSubscribeData(v) => o.data == v
    case WithRecoverSince(v) => o.recoverSince == v
  }

  /** A decorator writes exactly its own field and no other. */
  function ApplySubscribe(o: SubscribeOptions, d: SubscribeOption): (r: SubscribeOptions)
    ensures SubscribeHolds(r, d)
    ensures forall f :: f != SubscribeTarget(d) ==> SubscribeAgree(r, o, f)
  {
    match d
    case WithSubscribeInfo(v) => o.(info := v)
    case WithPresence(v) => o.(presence := v)
    case WithJoinLeave(v) => o.(joinLeave := v)
    case WithPosition(v) => o.(position := v)
    case WithRecover(v) => o.(recover := v)
    case WithSubscribeClient(v) => o.(clientId := v)
    case WithSubscribeData(v) => o.(data := v)
    case WithRecoverSince(v) => o.(recoverSince := v)
  }

  /** Two records that agree on every field are the same record. */
  lemma SubscribeExtensional(a: SubscribeOptions, b: SubscribeOptions)
    requires forall f :: SubscribeAgree(a, b, f)
    ensures a == b
  {
    assert SubscribeAgree(a, b, InfoField) && SubscribeAgree(a, b, PresenceField);
    assert SubscribeAgree(a, b, JoinLeaveField) && SubscribeAgree(a, b, PositionField);
    assert SubscribeAgree(a, b, RecoverField) && SubscribeAgree(a, b, DataField);
    assert SubscribeAgree(a, b, RecoverSinceField) && SubscribeAgree(a, b, ClientField);
  }

  /** Applying the same decorator twice is applying it once. */
  lemma SubscribeIdempotent(o: SubscribeOptions, d: SubscribeOption)
    ensures ApplySubscribe(ApplySubscribe(o, d), d) == ApplySubscribe(o, d)
  {
  }

  /** Of two decorators on the same field, the later one wins. */
  lemma SubscribeLaterWins(o: SubscribeOptions, d1: SubscribeOption, d2: SubscribeOption)
    requires SubscribeTarget(d1) == SubscribeTarget(d2)
    ensures ApplySubscribe(ApplySubscribe(o, d1), d2) == ApplySubscribe(o, d2)
  {
  }

  /** Decorators on different fields commute. */
  lemma SubscribeCommute(o: SubscribeOptions, d1: SubscribeOption, d2: SubscribeOption)
    requires SubscribeTarget(d1) != SubscribeTarget(d2)
    ensures ApplySubscribe(ApplySubscribe(o, d1), d2) == ApplySubscribe(ApplySubscribe(o, d2), d1)
  {
  }

  /** For instance, WithPresence(true) followed by WithPresence(false) leaves presence off. */
  lemma PresenceLastWins(o: SubscribeOptions)
    ensures !FoldSubscribe(o, [WithPresence(true), WithPresence(false)]).presence
  {
    FoldSubscribeLastWins(o, [WithPresence(true), WithPresence(false)], 1);
  }

  function FoldSubscribe(o: SubscribeOptions, ds: seq<SubscribeOption>): SubscribeOptions
    decreases |ds|
  {
    if ds == [] then o else FoldSubscribe(ApplySubscribe(o, ds[0]), ds[1..])
  }

  /** A field no decorator of the list writes keeps its value. */
  lemma {:induction false} FoldSubscribeUntouched(o: SubscribeOptions, ds: seq<SubscribeOption>, f: SubscribeField)
    requires forall j :: 0 <= j < |ds| ==> SubscribeTarget(ds[j]) != f
    ensures SubscribeAgree(FoldSubscribe(o, ds), o, f)
    decreases |ds|
  {
    if ds != [] {
      var next := ApplySubscribe(o, ds[0]);
      assert SubscribeAgree(next, o, f);
      assert forall j :: 0 <= j < |ds| - 1 ==> ds[1..][j] == ds[j + 1];
      FoldSubscribeUntouched(next, ds[1..], f);
      SubscribeAgreeTrans(FoldSubscribe(next, ds[1..]), next, o, f);
    }
  }

  lemma SubscribeAgreeTrans(a: SubscribeOptions, b: SubscribeOptions, c: SubscribeOptions, f: SubscribeField)
    requires SubscribeAgree(a, b, f) && SubscribeAgree(b, c, f)
    ensures SubscribeAgree(a, c, f)
  {
    match f
    case InfoField =>
    case PresenceField =>
    case JoinLeaveField =>
    case PositionField =>
    case RecoverField =>
    case DataField =>
    case RecoverSinceField =>
    case ClientField =>
  }

  /** The last decorator of the list that writes a field decides its value. */
  lemma {:induction false} FoldSubscribeLastWins(o: SubscribeOptions, ds: seq<SubscribeOption>, i: nat)
    requires i < |ds|
    requires forall j :: i < j < |ds| ==> SubscribeTarget(ds[j]) != SubscribeTarget(ds[i])
    ensures SubscribeHolds(FoldSubscribe(o, ds), ds[i])
    decreases |ds|
  {
    var next := ApplySubscribe(o, ds[0]);
    if i == 0 {
      FoldSubscribeUntouched(next, ds[1..], SubscribeTarget(ds[0]));
    } else {
      FoldSubscribeLastWins(next, ds[1..], i - 1);
    }
  }

  const SubscribeKeys: set<string> :=
    {"info", "presence", "join_leave", "position", "recover", "data", "recover_since", "client"}

  /** The JSON name of each field. */
  function SubscribeKey(f: SubscribeField): string {
    match f
    case InfoField => "info"
    case PresenceField => "presence"
    case JoinLeaveField => "join_leave"
    case PositionField => "position"
    case RecoverField => "recover"
    case DataField => "data"
    case RecoverSinceField => "recover_since"
    case ClientField => "client"
  }

  /** The JSON value of each field when it is present. */
  function SubscribeFieldJson(o: SubscribeOptions, f: SubscribeField): Json {
    match f
    case InfoField => Raw(o.info)
    case PresenceField => Bool(o.presence)
    case JoinLeaveField => Bool(o.joinLeave)
    case PositionField => Bool(o.position)
    case RecoverField => Bool(o.recover)
    case DataField => Raw(o.data)
    case RecoverSinceField => PositionJson(o.recoverSince)
    case ClientField => Str(o.clientId)
  }

  /** Every field is `omitempty`: a key is present exactly when its field is not zero. */
  function SubscribeOptionsJson(o: SubscribeOptions): (r: map<string, Json>)
    ensures r.Keys <= SubscribeKeys
  {
    var m0: map<string, Json> := map[];
    var m1 := if |o.info| > 0 then m0["info" := Raw(o.info)] else m0;
    var m2 := if o.presence then m1["presence" := Bool(true)] else m1;
    var m3 := if o.joinLeave then m2["join_leave" := Bool(true)] else m2;
    var m4 := if o.position then m3["position" := Bool(true)] else m3;
    var m5 := if o.recover then m4["recover" := Bool(true)] else m4;
    var m6 := if |o.data| > 0 then m5["data" := Raw(o.data)] else m5;
    var m7 := if o.recoverSince.Some? then m6["recover_since" := PositionJson(o.recoverSince)] else m6;
    if o.clientId != "" then m7["client" := Str(o.clientId)] else m7
  }

  /** Every field is written under its own key, and only when it is not zero. */
  lemma SubscribeOptionsJsonFields(o: SubscribeOptions)
    ensures forall f :: SubscribeKey(f) in SubscribeOptionsJson(o) <==> !SubscribeAgree(o, ZeroSubscribeOptions, f)
    ensures forall f :: SubscribeKey(f) in SubscribeOptionsJson(o) ==> SubscribeOptionsJson(o)[SubscribeKey(f)] == SubscribeFieldJson(o, f)
  {
    var r := SubscribeOptionsJson(o);
    forall f
      ensures SubscribeKey(f) in r <==> !SubscribeAgree(o, ZeroSubscribeOptions, f)
      ensures SubscribeKey(f) in r ==> r[SubscribeKey(f)] == SubscribeFieldJson(o, f)
    {
      match f
      case InfoField =>
      case PresenceField =>
      case JoinLeaveField =>
      case PositionField =>
      case RecoverField =>
      case DataField =>
      case RecoverSinceField =>
      case ClientField =>
    }
  }

  /**
   * A decorator that writes a zero value removes its key from the payload;
   * one that writes anything else puts its key there. No other key changes.
   */
  lemma SubscribeKeysAfterApply(o: SubscribeOptions, d: SubscribeOption)
    ensures var k := SubscribeKey(SubscribeTarget(d));
            SubscribeOptionsJson(ApplySubscribe(o, d)).Keys
            == (SubscribeOptionsJson(o).Keys - {k})
               + (if SubscribeHolds(ZeroSubscribeOptions, d) then {} else {k})
  {
    var next := ApplySubscribe(o, d);
    var k := SubscribeKey(SubscribeTarget(d));
    SubscribeOptionsJsonFields(o);
    SubscribeOptionsJsonFields(next);
    var after := SubscribeOptionsJson(next).Keys;
    var expected := (SubscribeOptionsJson(o).Keys - {k})
                    + (if SubscribeHolds(ZeroSubscribeOptions, d) then {} else {k});
    forall key | key in after + expected
      ensures key in after <==> key in expected
    {
      var f := SubscribeFieldOf(key);
      SubscribeKeyInjective(f, SubscribeTarget(d));
      if f == SubscribeTarget(d) {
        SubscribeHoldsZero(next, d);
      } else {
        SubscribeAgreeZero(next, o, f);
      }
    }
  }

  /** In the field d writes, a record that holds d is zero exactly when d writes the zero value. */
  lemma SubscribeHoldsZero(r: SubscribeOptions, d: SubscribeOption)
    requires SubscribeHolds(r, d)
    ensures SubscribeAgree(r, ZeroSubscribeOptions, SubscribeTarget(d)) <==> SubscribeHolds(ZeroSubscribeOptions, d)
  {
    match d
    case WithSubscribeInfo(_) =>
    case WithPresence(_) =>
    case WithJoinLeave(_) =>
    case WithPosition(_) =>
    case WithRecover(_) =>
    case WithSubscribeClient(_) =>
    case WithSubscribeData(_) =>
    case WithRecoverSince(_) =>
  }

  /** Records that agree on a field are both zero there or both not. */
  lemma SubscribeAgreeZero(a: SubscribeOptions, b: SubscribeOptions, f: SubscribeField)
    requires SubscribeAgree(a, b, f)
    ensures SubscribeAgree(a, ZeroSubscribeOptions, f) <==> SubscribeAgree(b, ZeroSubscribeOptions, f)
  {
    match f
    case InfoField =>
    case PresenceField =>
    case JoinLeaveField =>
    case PositionField =>
    case RecoverField =>
    case DataField =>
    case RecoverSinceField =>
    case ClientField =>
  }

  /** Distinct fields have distinct JSON names. */
  lemma SubscribeKeyInjective(f: SubscribeField, g: SubscribeField)
    ensures SubscribeKey(f) == SubscribeKey(g) ==> f == g
  {
  }

  /** The field a JSON name belongs to. */
  function SubscribeFieldOf(key: string): (f: SubscribeField)
    requires key in SubscribeKeys
    ensures SubscribeKey(f) == key
  {
    if key == "info" then InfoField
    else if key == "presence" then PresenceField
    else if key == "join_leave" then JoinLeaveField
    else if key == "position" then PositionField
    else if key == "recover" then RecoverField
    else if key == "data" then DataField
    else if key == "recover_since" then RecoverSinceField
    else ClientField
  }

  // ---------------------------------------------------------------------------
  // Unsubscribe options: one field.

  datatype UnsubscribeOptions = UnsubscribeOptions(clientId: string)

  const ZeroUnsubscribeOptions := UnsubscribeOptions("")

  datatype UnsubscribeOption = WithUnsubscribeClient(clientId: string)

  function ApplyUnsubscribe(o: UnsubscribeOptions, d: UnsubscribeOption): (r: UnsubscribeOptions)
    ensures r.clientId == d.clientId
  {
    match d
    case WithUnsubscribeClient(id) => o.(clientId := id)
  }

  function FoldUnsubscribe(o: UnsubscribeOptions, ds: seq<UnsubscribeOption>): UnsubscribeOptions
    decreases |ds|
  {
    if ds == [] then o else FoldUnsubscribe(ApplyUnsubscribe(o, ds[0]), ds[1..])
  }

  lemma {:induction false} FoldUnsubscribeLastWins(o: UnsubscribeOptions, ds: seq<UnsubscribeOption>)
    ensures FoldUnsubscribe(o, ds) == if ds == [] then o else UnsubscribeOptions(ds[|ds| - 1].clientId)
    decreases |ds|
  {
    if ds != [] {
      FoldUnsubscribeLastWins(ApplyUnsubscribe(o, ds[0]), ds[1..]);
    }
  }

  function UnsubscribeOptionsJson(o: UnsubscribeOptions): (r: map<string, Json>)
    ensures r.Keys <= {"client"}
    ensures "client" in r <==> o.clientId != ""
    ensures "client" in r ==> r["client"] == Str(o.clientId)
  {
    if o.clientId != "" then map["client" := Str(o.clientId)] else map[]
  }

  // ---------------------------------------------------------------------------
  // Disconnect records and disconnect options.

  datatype Disconnect = Disconnect(code: uint32, reason: string, reconnect: bool)

  /** `code` is `omitempty`; `reason` and `reconnect` are always written. */
  function DisconnectJson(d: Disconnect): (r: map<string, Json>)
    ensures r.Keys <= {"code", "reason", "reconnect"}
    ensures "code" in r <==> d.code != 0
    ensures "code" in r ==> r["code"] == Number(d.code as int)
    ensures "reason" in r && r["reason"] == Str(d.reason)
    ensures "reconnect" in r && r["reconnect"] == Bool(d.reconnect)
  {
    (if d.code != 0 then map["code" := Number(d.code as int)] else map[])
    + map["reason" := Str(d.reason), "reconnect" := Bool(d.reconnect)]
  }

  datatype DisconnectOptions = DisconnectOptions(
    disconnect: Option<Disconnect>,
    clientWhitelist: seq<string>,
    clientId: string)

  const ZeroDisconnectOptions := DisconnectOptions(None, [], "")

  datatype DisconnectOption =
    | WithDisconnect(disconnect: Option<Disconnect>)
    | WithDisconnectClient(clientId: string)
    | WithDisconnectClientWhitelist(whitelist: seq<string>)

  datatype DisconnectField = DisconnectValueField | WhitelistField | DisconnectClientField

  function DisconnectTarget(d: DisconnectOption): DisconnectField {
    match d
    case WithDisconnect(_) => DisconnectValueField
    case WithDisconnectClient(_) => DisconnectClientField
    case WithDisconnectClientWhitelist(_) => WhitelistField
  }

  predicate DisconnectAgree(a: DisconnectOptions, b: DisconnectOptions, f: DisconnectField) {
    match f
    case DisconnectValueField => a.disconnect == b.disconnect
    case WhitelistField => a.clientWhitelist == b.clientWhitelist
    case DisconnectClientField => a.clientId == b.clientId
  }

  predicate DisconnectHolds(o: DisconnectOptions, d: DisconnectOption) {
    match d
    case WithDisconnect(v) => o.disconnect == v
    case WithDisconnectClient(v) => o.clientId == v
    case WithDisconnectClientWhitelist(v) => o.clientWhitelist == v
  }

  function ApplyDisconnect(o: DisconnectOptions, d: DisconnectOption): (r: DisconnectOptions)
    ensures DisconnectHolds(r, d)
    ensures forall f :: f != DisconnectTarget(d) ==> DisconnectAgree(r, o, f)
  {
    match d
    case WithDisconnect(v) => o.(disconnect := v)
    case WithDisconnectClient(v) => o.(clientId := v)
    case WithDisconnectClientWhitelist(v) => o.(clientWhitelist := v)
  }

  function FoldDisconnect(o: DisconnectOptions, ds: seq<DisconnectOption>): DisconnectOptions
    decreases |ds|
  {
    if ds == [] then o else FoldDisconnect(ApplyDisconnect(o, ds[0]), ds[1..])
  }

  lemma {:induction false} FoldDisconnectUntouched(o: DisconnectOptions, ds: seq<DisconnectOption>, f: DisconnectField)
    requires forall j :: 0 <= j < |ds| ==> DisconnectTarget(ds[j]) != f
    ensures DisconnectAgree(FoldDisconnect(o, ds), o, f)
    decreases |ds|
  {
    if ds != [] {
      FoldDisconnectUntouched(ApplyDisconnect(o, ds[0]), ds[1..], f);
    }
  }

  lemma {:induction false} FoldDisconnectLastWins(o: DisconnectOptions, ds: seq<DisconnectOption>, i: nat)
    requires i < |ds|
    requires forall j :: i < j < |ds| ==> DisconnectTarget(ds[j]) != DisconnectTarget(ds[i])
    ensures DisconnectHolds(FoldDisconnect(o, ds), ds[i])
    decreases |ds|
  {
    var next := ApplyDisconnect(o, ds[0]);
    if i == 0 {
      FoldDisconnectUntouched(next, ds[1..], DisconnectTarget(ds[0]));
    } else {
      FoldDisconnectLastWins(next, ds[1..], i - 1);
    }
  }

  /**
   * `Disconnect` and `ClientWhitelist` carry no JSON tag, so they are always
   * written under their Go names (null when unset); `client` is `omitempty`.
   */
  function DisconnectOptionsJson(o: DisconnectOptions): (r: map<string, Json>)
    ensures r.Keys <= {"Disconnect", "ClientWhitelist", "client"}
    ensures "Disconnect" in r && "ClientWhitelist" in r
    ensures r["Disconnect"] == if o.disconnect.Some? then Object(DisconnectJson(o.disconnect.value)) else Null
    ensures r["ClientWhitelist"] == if o.clientWhitelist == [] then Null else Array(StrArray(o.clientWhitelist))
    ensures "client" in r <==> o.clientId != ""
    ensures "client" in r ==> r["client"] == Str(o.clientId)
  {
    map["Disconnect" := (match o.disconnect
                         case None => Null
                         case Some(d) => Object(DisconnectJson(d))),
        "ClientWhitelist" := (if o.clientWhitelist == [] then Null else Array(StrArray(o.clientWhitelist)))]
    + (if o.clientId != "" then map["client" := Str(o.clientId)] else map[])
  }

  // ---------------------------------------------------------------------------
  // History options: three fields.

  datatype HistoryOptions = HistoryOptions(since: Option<StreamPosition>, limit: int64, reverse: bool)

  const ZeroHistoryOptions := HistoryOptions(None, 0, false)

  /** The limit that asks for every publication in the stream. */
  const NoLimit: int64 := -1

  datatype HistoryOption =
    | WithLimit(limit: int64)
    | WithSince(since: Option<StreamPosition>)
    | WithReverse(reverse: bool)

  datatype HistoryField = SinceField | LimitField | ReverseField

  function HistoryTarget(d: HistoryOption): HistoryField {
    match d
    case WithLimit(_) => LimitField
    case WithSince(_) => SinceField
    case WithReverse(_) => ReverseField
  }

  predicate HistoryAgree(a: HistoryOptions, b: HistoryOptions, f: HistoryField) {
    match f
    case SinceField => a.since == b.since
    case LimitField => a.limit == b.limit
    case ReverseField => a.reverse == b.reverse
  }

  predicate HistoryHolds(o: HistoryOptions, d: HistoryOption) {
    match d
    case WithLimit(v) => o.limit == v
    case WithSince(v) => o.since == v
    case WithReverse(v) => o.reverse == v
  }

  function ApplyHistory(o: HistoryOptions, d: HistoryOption): (r: HistoryOptions)
    ensures HistoryHolds(r, d)
    ensures forall f :: f != HistoryTarget(d) ==> HistoryAgree(r, o, f)
  {
    match d
    case WithLimit(v) => o.(limit := v)
    case WithSince(v) => o.(since := v)
    case WithReverse(v) => o.(reverse := v)
  }

  function FoldHistory(o: HistoryOptions, ds: seq<HistoryOption>): HistoryOptions
    decreases |ds|
  {
    if ds == [] then o else FoldHistory(ApplyHistory(o, ds[0]), ds[1..])
  }

  lemma {:induction false} FoldHistoryUntouched(o: HistoryOptions, ds: seq<HistoryOption>, f: HistoryField)
    requires forall j :: 0 <= j < |ds| ==> HistoryTarget(ds[j]) != f
    ensures HistoryAgree(FoldHistory(o, ds), o, f)
    decreases |ds|
  {
    if ds != [] {
      FoldHistoryUntouched(ApplyHistory(o, ds[0]), ds[1..], f);
    }
  }

  lemma {:induction false} FoldHistoryLastWins(o: HistoryOptions, ds: seq<HistoryOption>, i: nat)
    requires i < |ds|
    requires forall j :: i < j < |ds| ==> HistoryTarget(ds[j]) != HistoryTarget(ds[i])
    ensures HistoryHolds(FoldHistory(o, ds), ds[i])
    decreases |ds|
  {
    var next := ApplyHistory(o, ds[0]);
    if i == 0 {
      FoldHistoryUntouched(next, ds[1..], HistoryTarget(ds[0]));
    } else {
      FoldHistoryLastWins(next, ds[1..], i - 1);
    }
  }

  /** Decorators on different fields commute. */
  lemma HistoryCommute(o: HistoryOptions, d1: HistoryOption, d2: HistoryOption)
    requires HistoryTarget(d1) != HistoryTarget(d2)
    ensures ApplyHistory(ApplyHistory(o, d1), d2) == ApplyHistory(ApplyHistory(o, d2), d1)
  {
  }

  /** Folding a concatenation folds the second list over the result of the first. */
  lemma {:induction false} FoldHistoryAppend(o: HistoryOptions, a: seq<HistoryOption>, b: seq<HistoryOption>)
    ensures FoldHistory(o, a + b) == FoldHistory(FoldHistory(o, a), b)
    decreases |a|
  {
    if a != [] {
      assert (a + b)[0] == a[0];
      assert (a + b)[1..] == a[1..] + b;
      FoldHistoryAppend(ApplyHistory(o, a[0]), a[1..], b);
    } else {
      assert a + b == b;
    }
  }

  /** Repeating a decorator anywhere in the list changes nothing. */
  lemma FoldHistoryIdempotent(o: HistoryOptions, a: seq<HistoryOption>, d: HistoryOption, b: seq<HistoryOption>)
    ensures FoldHistory(o, a + [d, d] + b) == FoldHistory(o, a + [d] + b)
  {
    var mid := FoldHistory(o, a);
    FoldHistoryAppend(o, a + [d, d], b);
    FoldHistoryAppend(o, a, [d, d]);
    FoldHistoryAppend(o, a + [d], b);
    FoldHistoryAppend(o, a, [d]);
    assert [d, d][1..] == [d];
    assert FoldHistory(mid, [d, d]) == ApplyHistory(ApplyHistory(mid, d), d);
    assert FoldHistory(mid, [d]) == ApplyHistory(mid, d);
  }

  /** Two adjacent decorators on different fields may be swapped, e.g. WithLimit and WithReverse. */
  lemma FoldHistoryCommute(o: HistoryOptions, a: seq<HistoryOption>, d1: HistoryOption, d2: HistoryOption, b: seq<HistoryOption>)
    requires HistoryTarget(d1) != HistoryTarget(d2)
    ensures FoldHistory(o, a + [d1, d2] + b) == FoldHistory(o, a + [d2, d1] + b)
  {
    var mid := FoldHistory(o, a);
    FoldHistoryAppend(o, a + [d1, d2], b);
    FoldHistoryAppend(o, a, [d1, d2]);
    FoldHistoryAppend(o, a + [d2, d1], b);
    FoldHistoryAppend(o, a, [d2, d1]);
    assert [d1, d2][1..] == [d2] && [d2, d1][1..] == [d1];
    assert FoldHistory(ApplyHistory(mid, d1), [d2]) == ApplyHistory(ApplyHistory(mid, d1), d2);
    assert FoldHistory(ApplyHistory(mid, d2), [d1]) == ApplyHistory(ApplyHistory(mid, d2), d1);
    HistoryCommute(mid, d1, d2);
  }

  function HistoryOptionsJson(o: HistoryOptions): (r: map<string, Json>)
    ensures r.Keys <= {"since", "limit", "reverse"}
    ensures "since" in r <==> o.since.Some?
    ensures "limit" in r <==> o.limit != 0
    ensures "reverse" in r <==> o.reverse
    ensures "since" in r ==> r["since"] == PositionJson(o.since)
    ensures "limit" in r ==> r["limit"] == Number(o.limit as int)
    ensures "reverse" in r ==> r["reverse"] == Bool(true)
  {
    (if o.since.Some? then map["since" := PositionJson(o.since)] else map[])
    + (if o.limit != 0 then map["limit" := Number(o.limit as int)] else map[])
    + (if o.reverse then map["reverse" := Bool(true)] else map[])
  }

  /** NoLimit is -1, which is not the zero value, so it is sent and not omitted. */
  lemma NoLimitIsSent(o: HistoryOptions)
    ensures NoLimit as int == -1
    ensures ApplyHistory(o, WithLimit(NoLimit)).limit == NoLimit
    ensures "limit" in HistoryOptionsJson(ApplyHistory(o, WithLimit(NoLimit)))
    ensures HistoryOptionsJson(ApplyHistory(o, WithLimit(NoLimit)))["limit"] == Number(-1)
  {
  }

  /**
   * A limit of 0 is the zero value, so `omitempty` drops it: `WithLimit(0)`
   * ("only the current stream top position") sends no `limit` at all, and on
   * its own gives the same request as no decorator.
   */
  lemma ZeroLimitIsOmitted(o: HistoryOptions)
    ensures "limit" !in HistoryOptionsJson(ApplyHistory(o, WithLimit(0)))
    ensures HistoryOptionsJson(ApplyHistory(o, WithLimit(0))) == HistoryOptionsJson(o.(limit := 0))
    ensures HistoryOptionsJson(FoldHistory(ZeroHistoryOptions, [WithLimit(0)])) ==
      HistoryOptionsJson(FoldHistory(ZeroHistoryOptions, []))
  {
    assert [WithLimit(0)][1..] == [];
  }

  // ---------------------------------------------------------------------------
  // Channels options: one field.

  datatype ChannelsOptions = ChannelsOptions(pattern: string)

  const ZeroChannelsOptions := ChannelsOptions("")

  datatype ChannelsOption = WithPattern(pattern: string)

  function ApplyChannels(o: ChannelsOptions, d: ChannelsOption): (r: ChannelsOptions)
    ensures r.pattern == d.pattern
  {
    match d
    case WithPattern(p) => o.(pattern := p)
  }

  function FoldChannels(o: ChannelsOptions, ds: seq<ChannelsOption>): ChannelsOptions
    decreases |ds|
  {
    if ds == [] then o else FoldChannels(ApplyChannels(o, ds[0]), ds[1..])
  }

  lemma {:induction false} FoldChannelsLastWins(o: ChannelsOptions, ds: seq<ChannelsOption>)
    ensures FoldChannels(o, ds) == if ds == [] then o else ChannelsOptions(ds[|ds| - 1].pattern)
    decreases |ds|
  {
    if ds != [] {
      FoldChannelsLastWins(ApplyChannels(o, ds[0]), ds[1..]);
    }
  }

  function ChannelsOptionsJson(o: ChannelsOptions): (r: map<string, Json>)
    ensures r.Keys <= {"pattern"}
    ensures "pattern" in r <==> o.pattern != ""
    ensures "pattern" in r ==> r["pattern"] == Str(o.pattern)
  {
    if o.pattern != "" then map["pattern" := Str(o.pattern)] else map[]
  }
}
