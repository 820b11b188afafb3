/**
 * The addon's whole state as a value and the operations on it as steps, so
 * that properties of a sequence of hook calls and control calls can be stated.
 */
module Traces {
  import opened Wrappers
  import opened CountryCode
  import opened TariffRules
  import opened Decisions
  import opened Packets

  /**
   * The two tables, whether the GeoIP reader is still open, and the flow ids
   * whose release task has been created and has not run yet (one occurrence
   * per task).
   */
  datatype State = State(rules: RuleTable, cache: PacketCache, readerOpen: bool,
                         pending: multiset<string>)

  /** One call into the addon: the two proxy hooks, the release task, and the control calls. */
  datatype Op =
    | OnResponse(flow: Flow)
    | OnRelease(flow: Flow)
    | OnSetRule(code: string, rate: int, dropped: bool)
    | OnRemoveRule(code: string)
    | OnCleanCache
    | OnDone

  ghost predicate ValidState(s: State) {
    CanonicalKeys(s.rules) && ValidCache(s.cache)
  }

  function Initial(): (s: State)
    ensures ValidState(s)
  {
    State(map[], map[], true, multiset{})
  }

  function Step(geo: string -> Option<string>, s: State, op: Op): (t: State)
    ensures ValidState(s) ==> ValidState(t)
    ensures !op.OnDone? ==> t.readerOpen == s.readerOpen
  {
    match op
    case OnResponse(flow) =>
      var o := Respond(s.rules, s.cache, Resolve(geo, s.readerOpen, flow.serverIp), flow);
      var tasks := if o.action.InterceptUntilRelease? then s.pending + multiset{flow.id} else s.pending;
      s.(cache := o.cache, pending := tasks)
    case OnRelease(flow) =>
      // only a task created by a hold ever runs the release
      if flow.id in s.pending
      then s.(cache := Released(s.cache, flow), pending := s.pending - multiset{flow.id})
      else s
    case OnSetRule(code, rate, dropped) => s.(rules := WithRule(s.rules, code, rate, dropped))
    case OnRemoveRule(code) => s.(rules := WithoutRule(s.rules, code))
    case OnCleanCache => s.(cache := map[])
    case OnDone => State(map[], map[], false, s.pending)
  }

  function Run(geo: string -> Option<string>, s: State, ops: seq<Op>): State
    decreases |ops|
  {
    if ops == [] then s else Run(geo, Step(geo, s, ops[0]), ops[1..])
  }

  /** Every reachable state keeps upper-cased rule keys and well-formed audit records. */
  lemma {:induction false} RunPreservesValid(geo: string -> Option<string>, s: State, ops: seq<Op>)
    requires ValidState(s)
    ensures ValidState(Run(geo, s, ops))
    decreases |ops|
  {
    if ops != [] {
      RunPreservesValid(geo, Step(geo, s, ops[0]), ops[1..]);
    }
  }

  /** Traffic and cache cleaning never touch the rule table. */
  predicate IsTraffic(op: Op) {
    op.OnResponse? || op.OnRelease? || op.OnCleanCache?
  }

  lemma {:induction false} TrafficKeepsRules(geo: string -> Option<string>, s: State, ops: seq<Op>)
    requires forall i :: 0 <= i < |ops| ==> IsTraffic(ops[i])
    ensures Run(geo, s, ops).rules == s.rules
    decreases |ops|
  {
    if ops != [] {
      TrafficKeepsRules(geo, Step(geo, s, ops[0]), ops[1..]);
    }
  }

  /** A response schedules one release task exactly when its flow is held. */
  lemma OnlyHoldSchedulesRelease(geo: string -> Option<string>, s: State, flow: Flow)
    ensures var t := Step(geo, s, OnResponse(flow));
            t.pending == if Decide(s.rules, Resolve(geo, s.readerOpen, flow.serverIp), RoundTrip(flow)).Hold?
                         then s.pending + multiset{flow.id}
                         else s.pending
  {
  }

  /**
   * `op` leaves the cache entry `id` alone unless a release task for it is
   * pending: it is neither a cache clear, nor `done`, nor a new response for
   * the flow `id` itself.
   */
  predicate Spares(op: Op, id: string) {
    match op
    case OnResponse(flow) => flow.id != id
    case OnRelease(_) => true
    case OnSetRule(_, _, _) => true
    case OnRemoveRule(_) => true
    case OnCleanCache => false
    case OnDone => false
  }

  /**
   * A cache entry with no pending release task survives every operation other
   * than `clean_cached_packets`, `done`, or a new response for its own flow.
   */
  lemma {:induction false} EntrySurvivesSparingOps(geo: string -> Option<string>, s: State,
                                                   ops: seq<Op>, id: string)
    requires id in s.cache && id !in s.pending
    requires forall i :: 0 <= i < |ops| ==> Spares(ops[i], id)
    ensures id in Run(geo, s, ops).cache && Run(geo, s, ops).cache[id] == s.cache[id]
    ensures id !in Run(geo, s, ops).pending
    decreases |ops|
  {
    if ops != [] {
      EntrySurvivesSparingOps(geo, Step(geo, s, ops[0]), ops[1..], id);
    }
  }

  /**
   * A dropped flow schedules no release, so its "dropped" record is removed
   * only by `clean_cached_packets` or `done` (or overwritten by a new response
   * for the same flow id).
   */
  lemma DroppedRecordOnlyClearedByCleanOrDone(geo: string -> Option<string>, s: State,
                                              flow: Flow, ops: seq<Op>)
    requires flow.id !in s.pending
    requires Decide(s.rules, Resolve(geo, s.readerOpen, flow.serverIp), RoundTrip(flow)) == Drop
    requires forall i :: 0 <= i < |ops| ==> Spares(ops[i], flow.id)
    ensures var dropped := Step(geo, s, OnResponse(flow));
            var later := Run(geo, dropped, ops);
            && flow.id in later.cache
            && later.cache[flow.id] == dropped.cache[flow.id]
            && later.cache[flow.id].status == Dropped
  {
    var dropped := Step(geo, s, OnResponse(flow));
    OnlyHoldSchedulesRelease(geo, s, flow);
    EntrySurvivesSparingOps(geo, dropped, ops, flow.id);
  }

  /** After `done` the reader is closed, so every later response passes and records nothing. */
  lemma {:induction false} AfterDoneResponsesPass(geo: string -> Option<string>, s: State, ops: seq<Op>)
    requires !s.readerOpen && s.cache == map[]
    requires forall i :: 0 <= i < |ops| ==> ops[i].OnResponse? || ops[i].OnRelease?
    ensures Run(geo, s, ops).cache == map[]
    decreases |ops|
  {
    if ops != [] {
      AfterDoneResponsesPass(geo, Step(geo, s, ops[0]), ops[1..]);
    }
  }

  /**
   * Rule {XX, rate 2, not dropped}; a flow from a server that resolves to XX
   * with a 150 ms round trip is recorded as retained for 300 ms, and its
   * release empties the cache again.
   */
  lemma HoldThenReleaseExample(flow: Flow)
    requires flow.requestStart == 1000 && flow.responseEnd == 1150 && flow.hasResponse
    ensures var geo := (ip: string) => Some("XX");
            var s := Step(geo, Initial(), OnSetRule("xx", 2, false));
            var held := Step(geo, s, OnResponse(flow));
            && flow.id in held.cache
            && held.cache[flow.id].status == Retained
            && held.cache[flow.id].retainTime == Some(300)
            && held.pending == multiset{flow.id}
            && Step(geo, held, OnRelease(flow)).cache == map[]
            && Step(geo, held, OnRelease(flow)).pending == multiset{}
  {
    assert Upper("xx") == "XX";
  }
}
