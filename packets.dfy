/**
 * The audit cache `cache_packets`: flow id -> Packet, filled by `response`
 * for dropped and retained flows and emptied on release.
 */
module Packets {
  import opened Wrappers
  import opened CountryCode
  import opened TariffRules
  import opened Decisions

  /** The `status` string of a packet: "dropped" or "retained". */
  datatype Status = Dropped | Retained

  /** The audit record of one flow; times are integer milliseconds. */
  datatype Packet = Packet(
    requestUrl: string,
    size: nat,
    fromIp: string,
    fromCountryCode: string,
    recvTime: nat,
    rttTime: int,
    retainTime: Option<int>,
    status: Status)

  /**
   * What the addon reads from a host flow: its id, the request URL, the
   * response size, the server's address, the request-start and response-end
   * timestamps, and whether the flow still has a response.
   */
  datatype Flow = Flow(
    id: string,
    requestUrl: string,
    responseSize: nat,
    serverIp: string,
    requestStart: nat,
    responseEnd: nat,
    hasResponse: bool)

  /** What the addon asks the host to do with the flow. */
  datatype FlowAction = NoAction | Kill | InterceptUntilRelease(after: int)

  type PacketCache = map<string, Packet>

  datatype Outcome = Outcome(cache: PacketCache, action: FlowAction)

  function RoundTrip(flow: Flow): int {
    flow.responseEnd - flow.requestStart
  }

  /** A record is dropped exactly when it has no retain time, and names an upper-cased country. */
  ghost predicate WellFormed(p: Packet) {
    && (p.status == Dropped <==> p.retainTime == None)
    && IsCanonical(p.fromCountryCode)
  }

  ghost predicate ValidCache(cache: PacketCache) {
    forall id :: id in cache ==> WellFormed(cache[id])
  }

  /** The record `response` stores for a flow it drops (`retain` = None) or retains. */
  function AuditRecord(flow: Flow, code: string, retain: Option<int>): (p: Packet)
    ensures p.status == Dropped <==> retain == None
    ensures IsCanonical(code) ==> WellFormed(p)
  {
    Packet(flow.requestUrl, flow.responseSize, flow.serverIp, code,
           flow.responseEnd, RoundTrip(flow), retain,
           if retain == None then Dropped else Retained)
  }

  /**
   * `response` on values: the decision, the record it leaves under the flow's
   * id, and the host action. Only the flow's own entry is ever touched.
   */
  function Respond(rules: RuleTable, cache: PacketCache, country: Option<string>, flow: Flow): (o: Outcome)
    ensures o.cache.Keys <= cache.Keys + {flow.id}
    ensures forall id :: id in cache && id != flow.id ==> id in o.cache && o.cache[id] == cache[id]
    ensures o.action == NoAction <==> o.cache == cache && Decide(rules, country, RoundTrip(flow)) == Pass
    ensures CanonicalKeys(rules) && ValidCache(cache) ==> ValidCache(o.cache)
  {
    match Decide(rules, country, RoundTrip(flow))
    case Pass => Outcome(cache, NoAction)
    case Drop =>
      Outcome(cache[flow.id := AuditRecord(flow, country.value, None)], Kill)
    case Hold(t) =>
      Outcome(cache[flow.id := AuditRecord(flow, country.value, Some(t))], InterceptUntilRelease(t))
  }

  /** `retain_flow` after its sleep: drop the flow's entry if it still has a response (`pop` with a default). */
  function Released(cache: PacketCache, flow: Flow): (c: PacketCache)
    ensures flow.hasResponse ==> flow.id !in c
    ensures !flow.hasResponse ==> c == cache
    ensures c.Keys == (if flow.hasResponse then cache.Keys - {flow.id} else cache.Keys)
    ensures forall id :: id in c ==> c[id] == cache[id]
  {
    if flow.hasResponse then cache - {flow.id} else cache
  }

  /** Unknown country: no record, no action. */
  lemma NoCountryNoChange(rules: RuleTable, cache: PacketCache, flow: Flow)
    ensures Respond(rules, cache, None, flow) == Outcome(cache, NoAction)
  {
  }

  /** Known country without a rule: no record, no action. */
  lemma NoRuleNoChange(rules: RuleTable, cache: PacketCache, code: string, flow: Flow)
    requires code !in rules
    ensures Respond(rules, cache, Some(code), flow) == Outcome(cache, NoAction)
  {
  }

  /** A drop rule records a "dropped" packet without retain time and kills the flow. */
  lemma DropRecordsAndKills(rules: RuleTable, cache: PacketCache, code: string, flow: Flow)
    requires code in rules && rules[code].dropped
    ensures var o := Respond(rules, cache, Some(code), flow);
            && o.action == Kill
            && o.cache == cache[flow.id := AuditRecord(flow, code, None)]
            && o.cache[flow.id].status == Dropped && o.cache[flow.id].retainTime == None
  {
  }

  /** A rate rule records a "retained" packet holding `rtt * rate` and intercepts for that long. */
  lemma HoldRecordsAndIntercepts(rules: RuleTable, cache: PacketCache, code: string, flow: Flow)
    requires code in rules && !rules[code].dropped
    ensures var t := RoundTrip(flow) * rules[code].rate;
            var o := Respond(rules, cache, Some(code), flow);
            && o.action == InterceptUntilRelease(t)
            && o.cache == cache[flow.id := AuditRecord(flow, code, Some(t))]
            && o.cache[flow.id].status == Retained
  {
  }

  /** Two drop rules that differ only in rate give the same outcome. */
  lemma DropOutcomeIgnoresRate(rules: RuleTable, cache: PacketCache, code: string,
                               rate1: int, rate2: int, flow: Flow)
    ensures Respond(rules[code := TariffRule(rate1, true)], cache, Some(code), flow)
            == Respond(rules[code := TariffRule(rate2, true)], cache, Some(code), flow)
  {
  }

  /** With a non-negative rate and a response that ends after the request started, the hold is non-negative. */
  lemma InterceptTimeNonNegative(rules: RuleTable, cache: PacketCache, code: string, flow: Flow)
    requires code in rules && rules[code].rate >= 0
    requires flow.requestStart <= flow.responseEnd
    ensures Respond(rules, cache, Some(code), flow).action.InterceptUntilRelease? ==>
              Respond(rules, cache, Some(code), flow).action.after >= 0
  {
  }

  /** The release of a flow removes its entry and nothing else. */
  lemma ReleaseRemovesExactlyOne(cache: PacketCache, flow: Flow)
    requires flow.hasResponse && flow.id in cache
    ensures Released(cache, flow) == cache - {flow.id}
    ensures |Released(cache, flow)| == |cache| - 1
  {
  }

  /** A second release of the same flow is a no-op. */
  lemma ReleaseIdempotent(cache: PacketCache, flow: Flow)
    ensures Released(Released(cache, flow), flow) == Released(cache, flow)
  {
  }

  /** Holding a new flow and then releasing it leaves the cache as it was. */
  lemma ReleaseUndoesHold(rules: RuleTable, cache: PacketCache, code: string, flow: Flow)
    requires code in rules && !rules[code].dropped
    requires flow.hasResponse && flow.id !in cache
    ensures Released(Respond(rules, cache, Some(code), flow).cache, flow) == cache
  {
  }
}
