/**
 * The branch `response` takes for one flow: resolve the server's country,
 * look up its rule, and pass, drop, or hold for `rtt * rate`.
 */
module Decisions {
  import opened Wrappers
  import opened TariffRules

  datatype Decision = Pass | Drop | Hold(retainTime: int)

  /**
   * The country of `ip`. The GeoIP reader is an opaque resolver; a lookup
   * that raises (unknown address, or the reader closed by `done`) is caught
   * by the handler and behaves like a missing ISO code.
   */
  function Resolve(geo: string -> Option<string>, readerOpen: bool, ip: string): (c: Option<string>)
    ensures !readerOpen ==> c == None
  {
    if readerOpen then geo(ip) else None
  }

  /** The decision tree of `response`; only a matched country leads anywhere but `Pass`. */
  function Decide(rules: RuleTable, country: Option<string>, rtt: int): (d: Decision)
    ensures !d.Pass? ==> country.Some? && country.value in rules
  {
    match country
    case None => Pass
    case Some(code) =>
      if code !in rules then Pass
      else if rules[code].dropped then Drop
      else Hold(rtt * rules[code].rate)
  }

  /** A flow passes exactly when its country is unknown or has no rule. */
  lemma PassIffNoRule(rules: RuleTable, country: Option<string>, rtt: int)
    ensures Decide(rules, country, rtt) == Pass <==> country.None? || country.value !in rules
  {
  }

  /** A flow is dropped exactly when its country's rule is a drop rule, whatever the rate and rtt. */
  lemma DropIffDroppedRule(rules: RuleTable, country: Option<string>, rtt: int)
    ensures Decide(rules, country, rtt) == Drop <==>
              country.Some? && country.value in rules && rules[country.value].dropped
  {
  }

  /** A hold lasts round-trip time times the rule's rate. */
  lemma HoldIsRttTimesRate(rules: RuleTable, code: string, rtt: int)
    requires code in rules && !rules[code].dropped
    ensures Decide(rules, Some(code), rtt) == Hold(rtt * rules[code].rate)
  {
  }

  /** The drop decision does not depend on the rule's rate nor on the round-trip time. */
  lemma DropIgnoresRate(rules: RuleTable, code: string, rate1: int, rate2: int, rtt1: int, rtt2: int)
    ensures Decide(rules[code := TariffRule(rate1, true)], Some(code), rtt1)
            == Decide(rules[code := TariffRule(rate2, true)], Some(code), rtt2)
            == Drop
  {
  }

  /** With a non-negative rate (documented 0-100) and round-trip time, a hold is never negative. */
  lemma HoldNonNegative(rules: RuleTable, country: Option<string>, rtt: int)
    requires rtt >= 0
    requires forall k :: k in rules ==> rules[k].rate >= 0
    ensures Decide(rules, country, rtt).Hold? ==> Decide(rules, country, rtt).retainTime >= 0
  {
  }

  /** The decision only reads the rule of the flow's own country. */
  lemma DecideReadsOwnRuleOnly(rules1: RuleTable, rules2: RuleTable, code: string, rtt: int)
    requires code in rules1 <==> code in rules2
    requires code in rules1 ==> rules1[code] == rules2[code]
    ensures Decide(rules1, Some(code), rtt) == Decide(rules2, Some(code), rtt)
  {
  }

  /** Rule {XX, rate 2, not dropped} and a 150 ms round trip hold for 300 ms. */
  lemma HoldExample()
    ensures Decide(map["XX" := TariffRule(2, false)], Some("XX"), 150) == Hold(300)
  {
  }
}
