/**
 * The values the "save time series" rule node works on: the inbound rule-engine message,
 * the decoded telemetry, the three-flag save strategy and the save request it submits.
 */
module Telemetry {

  /** A 128-bit UUID, kept opaque: the node only passes it on or uses it as a key. */
  datatype Uuid = Uuid(mostSigBits: int, leastSigBits: int)

  /** The originator of a message (device, asset, ...). */
  datatype EntityId = EntityId(entityType: string, id: Uuid)

  /** A typed telemetry value; doubles are carried as their text, JSON values as their text. */
  datatype KvValue =
    | BooleanValue(b: bool)
    | LongValue(n: int)
    | DoubleValue(text: string)
    | StringValue(s: string)
    | JsonValue(text: string)

  datatype KvEntry = KvEntry(key: string, value: KvValue)

  /** A key/value sample stamped with a timestamp (BasicTsKvEntry). */
  datatype TsKvEntry = TsKvEntry(ts: int, kv: KvEntry)

  /**
   * One entry of the decoder's timestamp -> samples map. The decoder's result is given as
   * the sequence of the map's entries in its iteration order, because the node's flattening
   * loop walks that order.
   */
  datatype Bucket = Bucket(ts: int, entries: seq<KvEntry>)

  type Buckets = seq<Bucket>

  /** The JSON payload decoder: payload text and default timestamp to the map's entries. */
  type Decoder = (string, int) -> Buckets

  /** TimeseriesSaveRequest.Strategy: which of the three persistence actions to perform. */
  datatype SaveStrategy = SaveStrategy(saveTimeseries: bool, saveLatest: bool, sendWsUpdate: bool)

  const SAVE_ALL := SaveStrategy(true, true, true)
  const WS_ONLY := SaveStrategy(false, false, true)
  const SKIP_ALL := SaveStrategy(false, false, false)

  predicate IsSkipAll(s: SaveStrategy) {
    !s.saveTimeseries && !s.saveLatest && !s.sendWsUpdate
  }

  const POST_TELEMETRY_REQUEST := "POST_TELEMETRY_REQUEST"

  /**
   * A rule-engine message. `metaDataTs` is what the message reports as its metadata
   * timestamp (the metadata "ts" value, or the message's own timestamp when absent).
   */
  datatype TbMsg = TbMsg(
    msgType: string,
    originator: EntityId,
    customerId: Uuid,
    metadata: map<string, string>,
    metaDataTs: int,
    data: string)

  predicate IsPostTelemetry(msg: TbMsg) {
    msg.msgType == POST_TELEMETRY_REQUEST
  }

  /** The request handed to the telemetry service (its completion callback is not modelled). */
  datatype SaveRequest = SaveRequest(
    tenantId: Uuid,
    customerId: Uuid,
    entityId: EntityId,
    entries: seq<TsKvEntry>,
    ttl: int,
    strategy: SaveStrategy)

  /**
   * How the processing of one message ends: the node tells the bus of a failure, tells it
   * of success, or submits a save request to the telemetry service.
   */
  datatype Outcome = Failure(reason: string) | Success | Submit(request: SaveRequest)
}
