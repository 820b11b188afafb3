/**
 * The mitmproxy addon itself: an object holding the rule table and the
 * audit cache, updated in place by the proxy hooks and the control calls.
 */
module Addon {
  import opened Wrappers
  import opened CountryCode
  import opened TariffRules
  import opened Decisions
  import opened Packets
  import opened Traces

  class TrumproxyAddon {
    var tariffRules: RuleTable
    var cachePackets: PacketCache
    /** False once `done` has closed the GeoIP reader. */
    var readerOpen: bool
    /** The GeoIP database lookup, as an opaque resolver. */
    const geo: string -> Option<string>
    /** The flow ids whose `retain_flow` task has been created and has not run yet. */
    ghost var pendingReleases: multiset<string>

    ghost predicate Valid()
      reads this
    {
      CanonicalKeys(tariffRules) && ValidCache(cachePackets)
    }

    /** The object's state as a value of the trace model. */
    ghost function Snapshot(): State
      reads this
    {
      State(tariffRules, cachePackets, readerOpen, pendingReleases)
    }

    constructor (geo: string -> Option<string>)
      ensures Valid()
      ensures tariffRules == map[] && cachePackets == map[] && readerOpen
      ensures this.geo == geo
      ensures Snapshot() == Initial()
    {
      tariffRules := map[];
      cachePackets := map[];
      readerOpen := true;
      this.geo := geo;
      pendingReleases := multiset{};
    }

    /** The `response` hook: classify the flow and record, kill or intercept it. */
    method Response(flow: Flow) returns (action: FlowAction)
      requires Valid()
      modifies this
      ensures Valid()
      ensures tariffRules == old(tariffRules) && readerOpen == old(readerOpen)
      ensures var o := Respond(old(tariffRules), old(cachePackets),
                               Resolve(geo, old(readerOpen), flow.serverIp), flow);
              cachePackets == o.cache && action == o.action
      ensures Snapshot() == Step(geo, old(Snapshot()), OnResponse(flow))
    {
      var country := Resolve(geo, readerOpen, flow.serverIp);
      if country.None? {
        return NoAction;
      }
      var code := country.value;
      if code !in tariffRules {
        return NoAction;
      }
      var rule := tariffRules[code];
      if rule.dropped {
        cachePackets := cachePackets[flow.id := AuditRecord(flow, code, None)];
        return Kill;
      }
      var rtt := RoundTrip(flow);
      var retainTime := rtt * rule.rate;
      cachePackets := cachePackets[flow.id := AuditRecord(flow, code, Some(retainTime))];
      pendingReleases := pendingReleases + multiset{flow.id};
      action := InterceptUntilRelease(retainTime);
    }

    /** The `done` hook: close the reader and empty both tables; release tasks already created are not cancelled. */
    method Done()
      modifies this
      ensures Valid()
      ensures tariffRules == map[] && cachePackets == map[] && !readerOpen
      ensures pendingReleases == old(pendingReleases)
      ensures Snapshot() == Step(geo, old(Snapshot()), OnDone)
    {
      readerOpen := false;
      cachePackets := map[];
      tariffRules := map[];
    }

    /**
     * The release task once its sleep is over; returns whether the flow was
     * resumed. It runs only as a task that `Response` created on a hold.
     */
    method RetainFlow(flow: Flow) returns (resumed: bool)
      requires Valid()
      requires flow.id in pendingReleases
      modifies this`cachePackets, this`pendingReleases
      ensures Valid()
      ensures pendingReleases == old(pendingReleases) - multiset{flow.id}
      ensures resumed == flow.hasResponse
      ensures cachePackets == Released(old(cachePackets), flow)
      ensures Snapshot() == Step(geo, old(Snapshot()), OnRelease(flow))
    {
      resumed := false;
      pendingReleases := pendingReleases - multiset{flow.id};
      if flow.hasResponse {
        cachePackets := cachePackets - {flow.id};
        resumed := true;
      }
    }

    method GetTariffRules() returns (rules: RuleTable)
      ensures rules == tariffRules
    {
      rules := tariffRules;
    }

    method SetTariffRule(isoCode: string, tariff: int, dropped: bool := false)
      requires Valid()
      modifies this`tariffRules
      ensures Valid()
      ensures tariffRules == WithRule(old(tariffRules), isoCode, tariff, dropped)
      ensures Snapshot() == Step(geo, old(Snapshot()), OnSetRule(isoCode, tariff, dropped))
    {
      tariffRules := tariffRules[Upper(isoCode) := TariffRule(tariff, dropped)];
    }

    method RemoveTariffRule(isoCode: string)
      requires Valid()
      modifies this`tariffRules
      ensures Valid()
      ensures tariffRules == WithoutRule(old(tariffRules), isoCode)
      ensures Snapshot() == Step(geo, old(Snapshot()), OnRemoveRule(isoCode))
    {
      if isoCode in tariffRules {
        tariffRules := tariffRules - {Upper(isoCode)};
      }
    }

    method GetCachedPackets() returns (packets: PacketCache)
      ensures packets == cachePackets
    {
      packets := cachePackets;
    }

    method CleanCachedPackets()
      requires Valid()
      modifies this`cachePackets
      ensures Valid()
      ensures cachePackets == map[]
      ensures Snapshot() == Step(geo, old(Snapshot()), OnCleanCache)
    {
      cachePackets := map[];
    }
  }

  /** A session against the object: the rule set for "xx" holds a flow from XX, and its release clears it. */
  method HoldAndReleaseSession(flow: Flow)
    requires flow.requestStart == 1000 && flow.responseEnd == 1150 && flow.hasResponse
  {
    var addon := new TrumproxyAddon((ip: string) => Some("XX"));
    addon.SetTariffRule("xx", 2);
    assert Upper("xx") == "XX";
    var action := addon.Response(flow);
    assert action == InterceptUntilRelease(300);
    var packets := addon.GetCachedPackets();
    assert flow.id in packets && packets[flow.id].status == Retained;
    var resumed := addon.RetainFlow(flow);
    assert resumed && addon.cachePackets == map[];
    addon.RemoveTariffRule("xx");
    assert "XX" in addon.tariffRules;
    addon.Done();
    action := addon.Response(flow);
    assert action == NoAction;
  }
}
