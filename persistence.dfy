/**
 * Persistence strategies and the four persistence-settings variants that combine them
 * into a three-flag save strategy.
 */
module Persistence {
  import opened Telemetry

  /** One question put to a strategy: may the sample at `ts` from `originator` be persisted? */
  datatype Call = Call(ts: int, originator: Uuid)

  /**
   * What a strategy remembers between calls. Its contents are the strategy's own business
   * (the deduplicating strategy keeps a last-accepted timestamp per originator).
   */
  type State = map<Uuid, int>

  /** A strategy's decision rule: from its state and the call, the answer and the next state. */
  type Step = (State, Call) -> (bool, State)

  /** PersistenceStrategy.onEveryMessage(): always persist, remember nothing. */
  const ON_EVERY_MESSAGE: Step := (s: State, c: Call) => (true, s)

  /** PersistenceStrategy.skip(): never persist, remember nothing. */
  const SKIP: Step := (s: State, c: Call) => (false, s)

  /**
   * A record of strategy calls, shared by the strategies it is given to: each entry is the
   * strategy asked and the question, in the order the calls happened.
   */
  class CallLog {
    ghost var entries: seq<(PersistenceStrategy, Call)>

    constructor ()
      ensures entries == []
    {
      entries := [];
    }
  }

  /**
   * A persistence strategy: shouldPersist may change the strategy's own state. Every call is
   * appended to `log` as it happens.
   */
  class PersistenceStrategy {
    const step: Step
    var state: State
    ghost const log: CallLog

    constructor (step: Step, initial: State, ghost log: CallLog)
      ensures this.step == step && state == initial && this.log == log
    {
      this.step := step;
      state := initial;
      this.log := log;
    }

    method ShouldPersist(ts: int, originator: Uuid) returns (persist: bool)
      modifies this, log
      ensures log.entries == old(log.entries) + [(this, Call(ts, originator))]
      ensures (persist, state) == step(old(state), Call(ts, originator))
    {
      log.entries := log.entries + [(this, Call(ts, originator))];
      persist, state := step(state, Call(ts, originator)).0, step(state, Call(ts, originator)).1;
    }
  }

  /**
   * The closed set of persistence-settings variants, over what a strategy is: the node holds
   * PersistenceStrategy objects, the specification below works on their values, and the
   * stored configuration on their serialised forms.
   */
  datatype Settings<S> =
    | OnEveryMessage
    | WebSocketsOnly
    | Deduplicate(deduplicateStrategy: S)
    | Advanced(timeseries: S, latest: S, webSockets: S)

  type PersistenceSettings = Settings<PersistenceStrategy>

  /** A strategy as a value: its decision rule and its current state. */
  datatype StrategyValue = StrategyValue(step: Step, state: State)

  type SettingsValue = Settings<StrategyValue>

  /** Asks one strategy value: its answer and the strategy with its next state. */
  function Ask(s: StrategyValue, c: Call): (r: (bool, StrategyValue))
    ensures r.1.step == s.step
  {
    var (answer, next) := s.step(s.state, c);
    (answer, StrategyValue(s.step, next))
  }

  /**
   * The decision for one message (determineSaveActions) and the settings afterwards: the two
   * constant variants consult nothing; Deduplicate gates all three flags with the one answer
   * of its strategy; Advanced gives each flag the answer of its own strategy.
   */
  function Decide(v: SettingsValue, c: Call): (r: (SaveStrategy, SettingsValue))
    ensures v.OnEveryMessage? ==> r == (SAVE_ALL, v)
    ensures v.WebSocketsOnly? ==> r == (WS_ONLY, v)
    ensures v.Deduplicate? ==>
              (r.0 == SAVE_ALL || r.0 == SKIP_ALL) &&
              r.0.saveTimeseries == Ask(v.deduplicateStrategy, c).0 &&
              r.1 == Deduplicate(Ask(v.deduplicateStrategy, c).1)
    ensures v.Advanced? ==>
              r.0.saveTimeseries == Ask(v.timeseries, c).0 &&
              r.0.saveLatest == Ask(v.latest, c).0 &&
              r.0.sendWsUpdate == Ask(v.webSockets, c).0 &&
              r.1 == Advanced(Ask(v.timeseries, c).1, Ask(v.latest, c).1, Ask(v.webSockets, c).1)
  {
    match v
    case OnEveryMessage => (SAVE_ALL, v)
    case WebSocketsOnly => (WS_ONLY, v)
    case Deduplicate(s) =>
      var (p, s') := Ask(s, c);
      (if p then SAVE_ALL else SKIP_ALL, Deduplicate(s'))
    case Advanced(t, l, w) =>
      var (pt, t') := Ask(t, c);
      var (pl, l') := Ask(l, c);
      var (pw, w') := Ask(w, c);
      (SaveStrategy(pt, pl, pw), Advanced(t', l', w'))
  }

  /** The strategy that answers `answer` to every call. */
  function Constant(answer: bool): (strategy: StrategyValue) {
    StrategyValue(if answer then ON_EVERY_MESSAGE else SKIP, map[])
  }

  /**
   * Advanced settings can produce every combination of the three flags for one message:
   * none of the flags is tied to another.
   */
  lemma AdvancedFlagsIndependent(ts: bool, latest: bool, ws: bool, c: Call)
    ensures Decide(Advanced(Constant(ts), Constant(latest), Constant(ws)), c).0 == SaveStrategy(ts, latest, ws)
  {
  }

  /** Only Deduplicate and Advanced can decide to skip everything. */
  lemma OnlyStrategiesSkipAll(v: SettingsValue, c: Call)
    requires IsSkipAll(Decide(v, c).0)
    ensures v.Deduplicate? || v.Advanced?
  {
  }

  /**
   * The calls a settings value makes for one message, in the order it makes them: none for
   * the constant variants, one for Deduplicate, timeseries then latest then webSockets for
   * Advanced.
   */
  function Consultations<S>(v: Settings<S>, c: Call): (calls: seq<(S, Call)>) {
    match v
    case OnEveryMessage => []
    case WebSocketsOnly => []
    case Deduplicate(s) => [(s, c)]
    case Advanced(t, l, w) => [(t, c), (l, c), (w, c)]
  }
}
