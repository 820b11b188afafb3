/**
 * The rule table `tariff_rules`: upper-cased country code -> TariffRule,
 * and the two updates the control surface makes to it.
 */
module TariffRules {
  import opened CountryCode

  /** `rate` multiplies the round-trip time into a hold time; `dropped` overrides it. */
  datatype TariffRule = TariffRule(rate: int, dropped: bool)

  type RuleTable = map<string, TariffRule>

  /** Every key the table holds is an upper-cased code (what `set_tariff_rule` writes). */
  ghost predicate CanonicalKeys(rules: RuleTable) {
    forall k :: k in rules ==> IsCanonical(k)
  }

  /** `set_tariff_rule`: write `TariffRule(rate, dropped)` under the upper-cased code. */
  function WithRule(rules: RuleTable, code: string, rate: int, dropped: bool): (r: RuleTable)
    ensures r.Keys == rules.Keys + {Upper(code)}
    ensures r[Upper(code)] == TariffRule(rate, dropped)
    ensures forall k :: k in rules && k != Upper(code) ==> r[k] == rules[k]
    ensures CanonicalKeys(rules) ==> CanonicalKeys(r)
  {
    rules[Upper(code) := TariffRule(rate, dropped)]
  }

  /**
   * `remove_tariff_rule` as written: the membership test uses `code` itself,
   * the deletion uses its upper-cased form.
   */
  function WithoutRule(rules: RuleTable, code: string): (r: RuleTable)
    ensures code !in rules ==> r == rules
    ensures code in rules ==> r.Keys == rules.Keys - {Upper(code)}
    ensures forall k :: k in r ==> k in rules && r[k] == rules[k]
    ensures CanonicalKeys(rules) ==> CanonicalKeys(r)
  {
    if code in rules then rules - {Upper(code)} else rules
  }

  /** Setting the same rule twice leaves the same table as setting it once. */
  lemma SetRuleIdempotent(rules: RuleTable, code: string, rate: int, dropped: bool)
    ensures WithRule(WithRule(rules, code, rate, dropped), code, rate, dropped)
            == WithRule(rules, code, rate, dropped)
  {
  }

  /** Last write wins: a later rule for any spelling of the same code replaces the earlier one. */
  lemma SetRuleLastWriteWins(rules: RuleTable, code1: string, rate1: int, dropped1: bool,
                             code2: string, rate2: int, dropped2: bool)
    requires Upper(code1) == Upper(code2)
    ensures WithRule(WithRule(rules, code1, rate1, dropped1), code2, rate2, dropped2)
            == WithRule(rules, code2, rate2, dropped2)
  {
  }

  /** Upper-casing the code before the call changes nothing: the table is case-insensitive on write. */
  lemma SetRuleCaseInsensitive(rules: RuleTable, code: string, rate: int, dropped: bool)
    ensures WithRule(rules, Upper(code), rate, dropped) == WithRule(rules, code, rate, dropped)
  {
    UpperIdempotent(code);
  }

  /** On a table of upper-cased keys, removing a present key removes exactly that key. */
  lemma RemovePresentIsExact(rules: RuleTable, code: string)
    requires CanonicalKeys(rules)
    requires code in rules
    ensures WithoutRule(rules, code) == rules - {code}
  {
  }

  /**
   * A spelling with a lower-case letter is never a key, so removing it is a
   * no-op even when its upper-cased form holds a rule.
   */
  lemma RemoveLowerCaseSpellingIsNoop(rules: RuleTable, code: string)
    requires CanonicalKeys(rules)
    requires !IsCanonical(code)
    ensures WithoutRule(rules, code) == rules
  {
  }

  /** Set followed by a remove of the upper-cased code undoes the set, on a code that had no rule. */
  lemma RemoveUndoesSet(rules: RuleTable, code: string, rate: int, dropped: bool)
    requires Upper(code) !in rules
    ensures WithoutRule(WithRule(rules, code, rate, dropped), Upper(code)) == rules
  {
    UpperIdempotent(code);
  }

  /** Set and remove with the same lower-case spelling leaves the rule in place. */
  lemma RemoveSameLowerSpellingKeepsRule(rules: RuleTable, code: string, rate: int, dropped: bool)
    requires CanonicalKeys(rules)
    requires !IsCanonical(code)
    ensures var after := WithoutRule(WithRule(rules, code, rate, dropped), code);
            Upper(code) in after && after[Upper(code)] == TariffRule(rate, dropped)
  {
    RemoveLowerCaseSpellingIsNoop(WithRule(rules, code, rate, dropped), code);
  }

  /** Concrete case: with a rule for "CN", removing "cn" keeps it. */
  lemma RemoveLowerCaseExample()
    ensures var rules := map["CN" := TariffRule(10, false)];
            WithoutRule(rules, "cn") == rules
  {
    var rules := map["CN" := TariffRule(10, false)];
    assert "cn"[0] != "CN"[0];
    assert "cn" !in rules;
  }
}
