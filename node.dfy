/** The "save time series" rule node: per-message processing of POST_TELEMETRY_REQUEST messages. */
module Node {
  import opened Wrappers
  import opened Telemetry
  import opened Persistence
  import opened Ttl
  import opened Flattening

  /** The node's configuration (TbMsgTimeseriesNodeConfiguration). */
  datatype NodeConfig = NodeConfig(
    defaultTtl: int,
    useServerTs: bool,
    persistenceSettings: PersistenceSettings)

  /** The timestamp of a message: the current time when told to ignore the metadata timestamp. */
  function ComputeTs(msg: TbMsg, ignoreMetadataTs: bool, now: int): (ts: int)
    ensures ignoreMetadataTs ==> ts == now
    ensures !ignoreMetadataTs ==> ts == msg.metaDataTs
  {
    if ignoreMetadataTs then now else msg.metaDataTs
  }

  /**
   * What happens to a message once its save strategy is known: nothing more when every flag
   * is off; otherwise the payload is decoded, an empty result fails the message, and the
   * flattened samples are submitted with the resolved TTL.
   */
  function Conclude(tenantId: Uuid, msg: TbMsg, ts: int, strategy: SaveStrategy, decode: Decoder,
                    defaultTtl: int, tenantDefaultTtl: int): (r: Outcome)
    ensures r.Success? <==> IsSkipAll(strategy)
    ensures !IsSkipAll(strategy) && decode(msg.data, ts) == [] ==>
              r == Failure("Msg body is empty: " + msg.data)
    ensures !IsSkipAll(strategy) && decode(msg.data, ts) != [] &&
            ResolveTtl(MetadataTtl(msg.metadata), defaultTtl, tenantDefaultTtl).Err? ==>
              r == Failure(ResolveTtl(MetadataTtl(msg.metadata), defaultTtl, tenantDefaultTtl).reason)
    ensures !IsSkipAll(strategy) && decode(msg.data, ts) != [] &&
            ResolveTtl(MetadataTtl(msg.metadata), defaultTtl, tenantDefaultTtl).Ok? ==>
              r == Submit(SaveRequest(tenantId, msg.customerId, msg.originator, Flatten(decode(msg.data, ts)),
                                      ResolveTtl(MetadataTtl(msg.metadata), defaultTtl, tenantDefaultTtl).value,
                                      strategy))
    ensures r.Submit? ==>
              decode(msg.data, ts) != [] &&
              r.request.tenantId == tenantId &&
              r.request.customerId == msg.customerId &&
              r.request.entityId == msg.originator &&
              |r.request.entries| == TotalSize(decode(msg.data, ts)) &&
              r.request.entries == Flatten(decode(msg.data, ts)) &&
              Ok(r.request.ttl) == ResolveTtl(MetadataTtl(msg.metadata), defaultTtl, tenantDefaultTtl) &&
              r.request.strategy == strategy
  {
    if IsSkipAll(strategy) then Success
    else
      var tsKvMap := decode(msg.data, ts);
      if tsKvMap == [] then Failure("Msg body is empty: " + msg.data)
      else
        var ttl := ResolveTtl(MetadataTtl(msg.metadata), defaultTtl, tenantDefaultTtl);
        if ttl.Err? then Failure(ttl.reason)
        else
          FlattenLength(tsKvMap);
          Submit(SaveRequest(tenantId, msg.customerId, msg.originator, Flatten(tsKvMap), ttl.value, strategy))
  }

  /**
   * The whole of onMsg on values: the outcome and the persistence settings afterwards.
   * A message of any other type fails before anything is consulted.
   */
  function Process(settings: SettingsValue, useServerTs: bool, defaultTtl: int, tenantDefaultTtl: int,
                   tenantId: Uuid, msg: TbMsg, now: int, decode: Decoder): (r: (Outcome, SettingsValue))
    ensures !IsPostTelemetry(msg) ==> r == (Failure("Unsupported msg type: " + msg.msgType), settings)
    ensures IsPostTelemetry(msg) ==>
              var c := Call(ComputeTs(msg, useServerTs, now), msg.originator.id);
              r.1 == Decide(settings, c).1 &&
              r.0 == Conclude(tenantId, msg, c.ts, Decide(settings, c).0, decode, defaultTtl, tenantDefaultTtl) &&
              (r.0.Success? <==> IsSkipAll(Decide(settings, c).0)) &&
              (r.0.Submit? ==> r.0.request.strategy == Decide(settings, c).0 &&
                               r.0.request.entries == Flatten(decode(msg.data, c.ts)))
  {
    if !IsPostTelemetry(msg) then (Failure("Unsupported msg type: " + msg.msgType), settings)
    else
      var ts := ComputeTs(msg, useServerTs, now);
      var (strategy, settings') := Decide(settings, Call(ts, msg.originator.id));
      (Conclude(tenantId, msg, ts, strategy, decode, defaultTtl, tenantDefaultTtl), settings')
  }

  /** Under OnEveryMessage and WebSocketsOnly no message short-circuits and the settings stay as they are. */
  lemma ConstantSettingsNeverShortCircuit(settings: SettingsValue, useServerTs: bool, defaultTtl: int,
                                          tenantDefaultTtl: int, tenantId: Uuid, msg: TbMsg, now: int,
                                          decode: Decoder)
    requires settings.OnEveryMessage? || settings.WebSocketsOnly?
    ensures var r := Process(settings, useServerTs, defaultTtl, tenantDefaultTtl, tenantId, msg, now, decode);
            !r.0.Success? && r.1 == settings
  {
  }

  /**
   * A payload that decodes to nothing fails the message when something is to be saved, and
   * is never looked at when nothing is.
   */
  lemma EmptyBody(settings: SettingsValue, useServerTs: bool, defaultTtl: int, tenantDefaultTtl: int,
                  tenantId: Uuid, msg: TbMsg, now: int, decode: Decoder)
    requires IsPostTelemetry(msg)
    requires decode(msg.data, ComputeTs(msg, useServerTs, now)) == []
    ensures var r := Process(settings, useServerTs, defaultTtl, tenantDefaultTtl, tenantId, msg, now, decode);
            r.0 == Success || r.0 == Failure("Msg body is empty: " + msg.data)
  {
  }

  /** What the node itself does while processing a message; strategy calls go to the call log. */
  datatype Event =
    | TsComputed(ts: int)
    | Decoded(src: string, ts: int)

  /** The strategy objects the settings hold. */
  function StrategiesOf(settings: PersistenceSettings): (strategies: set<PersistenceStrategy>) {
    match settings
    case OnEveryMessage => {}
    case WebSocketsOnly => {}
    case Deduplicate(s) => {s}
    case Advanced(t, l, w) => {t, l, w}
  }

  /** Advanced's three strategies are three different objects. */
  predicate DistinctStrategies(settings: PersistenceSettings) {
    settings.Advanced? ==>
      settings.timeseries != settings.latest &&
      settings.timeseries != settings.webSockets &&
      settings.latest != settings.webSockets
  }

  class TbMsgTimeseriesNode {
    var config: NodeConfig
    var tenantId: Uuid
    var tenantProfileDefaultStorageTtl: int
    var persistenceSettings: PersistenceSettings
    /** The log every held strategy appends its calls to. */
    ghost const log: CallLog
    /** The timestamps computed and payloads decoded so far. */
    ghost var trace: seq<Event>

    ghost function Strategies(): (strategies: set<PersistenceStrategy>)
      reads this
    {
      StrategiesOf(persistenceSettings)
    }

    ghost predicate Valid()
      reads this
    {
      DistinctStrategies(persistenceSettings) &&
      forall s :: s in Strategies() ==> s.log == log
    }

    /** The persistence settings as a value: each strategy's rule and current state. */
    ghost function SettingsNow(): (settings: SettingsValue)
      reads this, Strategies()
    {
      match persistenceSettings
      case OnEveryMessage => OnEveryMessage
      case WebSocketsOnly => WebSocketsOnly
      case Deduplicate(s) => Deduplicate(StrategyValue(s.step, s.state))
      case Advanced(t, l, w) =>
        Advanced(StrategyValue(t.step, t.state), StrategyValue(l.step, l.state), StrategyValue(w.step, w.state))
    }

    /** init: takes the configuration and the tenant profile's default storage TTL in days. */
    constructor (tenantId: Uuid, config: NodeConfig, defaultStorageTtlDays: int, ghost log: CallLog)
      requires DistinctStrategies(config.persistenceSettings)
      requires forall s :: s in StrategiesOf(config.persistenceSettings) ==> s.log == log
      ensures Valid()
      ensures this.config == config && this.tenantId == tenantId && this.log == log
      ensures persistenceSettings == config.persistenceSettings
      ensures tenantProfileDefaultStorageTtl == DaysToSeconds(defaultStorageTtlDays)
      ensures trace == []
    {
      this.config := config;
      this.tenantId := tenantId;
      this.log := log;
      tenantProfileDefaultStorageTtl := DaysToSeconds(defaultStorageTtlDays);
      persistenceSettings := config.persistenceSettings;
      trace := [];
    }

    /** The tenant profile changed: keep its default storage TTL, converted from days to seconds. */
    method OnTenantProfileUpdate(defaultStorageTtlDays: int)
      modifies this`tenantProfileDefaultStorageTtl
      ensures tenantProfileDefaultStorageTtl == DaysToSeconds(defaultStorageTtlDays)
    {
      tenantProfileDefaultStorageTtl := DaysToSeconds(defaultStorageTtlDays);
    }

    /**
     * determineSaveActions: calls the strategies the settings name, each once and in the
     * order timeseries, latest, webSockets, and combines their answers.
     */
    method DetermineSaveActions(ts: int, originator: Uuid) returns (strategy: SaveStrategy)
      requires Valid()
      modifies Strategies(), log
      ensures (strategy, SettingsNow()) == Decide(old(SettingsNow()), Call(ts, originator))
      ensures log.entries == old(log.entries) + Consultations(persistenceSettings, Call(ts, originator))
    {
      match persistenceSettings {
        case OnEveryMessage =>
          strategy := SAVE_ALL;
        case WebSocketsOnly =>
          strategy := WS_ONLY;
        case Deduplicate(d) =>
          var isFirstMsgInInterval := d.ShouldPersist(ts, originator);
          strategy := if isFirstMsgInInterval then SAVE_ALL else SKIP_ALL;
        case Advanced(t, l, w) =>
          var saveTimeseries := t.ShouldPersist(ts, originator);
          var saveLatest := l.ShouldPersist(ts, originator);
          var sendWsUpdate := w.ShouldPersist(ts, originator);
          strategy := SaveStrategy(saveTimeseries, saveLatest, sendWsUpdate);
      }
    }

    /**
     * onMsg: the outcome and the new strategy states are those of Process. A message of
     * another type computes no timestamp and calls no strategy; otherwise the strategies are
     * called as Consultations says, with the computed timestamp, and the payload is decoded
     * only when some flag is on.
     */
    method OnMsg(msg: TbMsg, now: int, decode: Decoder) returns (r: Outcome)
      requires Valid()
      modifies this`trace, Strategies(), log
      ensures (r, SettingsNow()) ==
              Process(old(SettingsNow()), config.useServerTs, config.defaultTtl, tenantProfileDefaultStorageTtl,
                      tenantId, msg, now, decode)
      ensures !IsPostTelemetry(msg) ==> trace == old(trace) && log.entries == old(log.entries)
      ensures IsPostTelemetry(msg) ==>
                var c := Call(ComputeTs(msg, config.useServerTs, now), msg.originator.id);
                log.entries == old(log.entries) + Consultations(persistenceSettings, c) &&
                trace == old(trace) + [TsComputed(c.ts)] +
                         (if IsSkipAll(Decide(old(SettingsNow()), c).0) then [] else [Decoded(msg.data, c.ts)])
    {
      ghost var before := SettingsNow();
      if !IsPostTelemetry(msg) {
        r := Failure("Unsupported msg type: " + msg.msgType);
        return;
      }
      var ts := ComputeTs(msg, config.useServerTs, now);
      trace := trace + [TsComputed(ts)];

      var strategy := DetermineSaveActions(ts, msg.originator.id);
      ghost var after := SettingsNow();
      assert (strategy, after) == Decide(before, Call(ts, msg.originator.id));
      r := Finish(msg, ts, strategy, decode);
    }
    /** onMsg from the short-circuit on: its outcome is Conclude's. */
    method Finish(msg: TbMsg, ts: int, strategy: SaveStrategy, decode: Decoder) returns (r: Outcome)
      modifies this`trace
      ensures r == Conclude(tenantId, msg, ts, strategy, decode, config.defaultTtl, tenantProfileDefaultStorageTtl)
      ensures trace == old(trace) + (if IsSkipAll(strategy) then [] else [Decoded(msg.data, ts)])
    {
      if IsSkipAll(strategy) {
        r := Success;
        return;
      }

      var src := msg.data;
      trace := trace + [Decoded(src, ts)];
      var tsKvMap := decode(src, ts);
      if tsKvMap == [] {
        r := Failure("Msg body is empty: " + src);
        return;
      }
      var tsKvEntryList := FlattenEntries(tsKvMap);
      var ttl := ResolveTtl(MetadataTtl(msg.metadata), config.defaultTtl, tenantProfileDefaultStorageTtl);
      if ttl.Err? {
        r := Failure(ttl.reason);
        return;
      }
      r := Submit(SaveRequest(tenantId, msg.customerId, msg.originator, tsKvEntryList, ttl.value, strategy));
    }
  }
}
