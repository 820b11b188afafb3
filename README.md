# trumproxy tariff engine in Dafny

This project models the policy engine of trumproxy, a mitmproxy addon that shapes HTTP
responses by the country of the server that sent them. The addon (`TrumproxyAddon` in
`app/trumproxy.py`) holds two tables:

- the rule table `tariff_rules`, which maps an upper-cased ISO 3166-1 alpha-2 code to
  `TariffRule(rate, dropped)`;
- the audit cache `cache_packets`, which maps a flow id to a `Packet` record.

On every response the addon resolves the server address to a country. Then:

- unknown country, or no rule for it: the response passes;
- the rule drops: the flow is recorded as "dropped" and killed;
- otherwise: the flow is recorded as "retained" with `retain_time = rtt * rate`,
  intercepted, and resumed by a release task that removes its record.

Layout, one module per file:

- `country_code.dfy` (`CountryCode`): the upper-casing of country codes.
- `tariff_rules.dfy` (`TariffRules`): `TariffRule`, and `set`/`remove` as functions on the table.
- `decisions.dfy` (`Decisions`): the resolver and the pass / drop / hold decision.
- `packets.dfy` (`Packets`): `Packet`, the host flow, the cache update of `response`, and release.
- `traces.dfy` (`Traces`): the whole state as a value, each call as a step, and lemmas over
  sequences of calls.
- `addon.dfy` (`Addon`): the class `TrumproxyAddon`. Its fields are updated in place, and each
  method is proved against the functions above and against one step of the trace model.
- `wrappers.dfy` (`Wrappers`): `Option`.

The model follows the code as written:

- A second `response` for a flow id that is already cached overwrites its record.
- `set_tariff_rule` checks neither the code nor the rate.
- A held flow has no cancellation path. Its record leaves the cache only through its own
  release task, `clean_cached_packets` or `done`. A dropped flow gets no release task, so its
  record leaves only through the last two.
- `remove_tariff_rule` tests membership with the code as given and deletes its upper-cased
  form. So a lower-case spelling of an existing key removes nothing
  (`TariffRules.RemoveLowerCaseSpellingIsNoop`).

The release tasks created by `response` are tracked as a multiset of flow ids
(`pending` in the trace model, the ghost field `pendingReleases` in the class). A release
runs only for a flow id that has a pending task, and consumes that task.

## Model

| member | source | states |
|---|---|---|
| `CountryCode.Upper` | app/trumproxy.py:168 | upper-casing keeps the length, maps each letter to its upper case, always yields a canonical code, and is the identity on canonical codes |
| `CountryCode.UpperIdempotent` | app/trumproxy.py:168 | upper-casing twice equals upper-casing once |
| `CountryCode.UpperFixedIffCanonical` | app/trumproxy.py:178-179 | a code is unchanged by upper-casing exactly when it has no lower-case letter (so a table key is its own upper case) |
| `CountryCode.SameKeyIffSameUpperLetters` | app/trumproxy.py:168 | two spellings land on the same rule key iff they agree letter by letter up to case |
| `TariffRules.WithRule` | app/trumproxy.py:158-168 | the table afterwards has the old keys plus upper(code), maps upper(code) to TariffRule(rate, dropped), keeps every other entry, and keeps keys canonical |
| `TariffRules.WithoutRule` | app/trumproxy.py:170-179 | a code that is not literally a key leaves the table unchanged; a key that is present loses upper(code) and nothing else; no entry is altered |
| `TariffRules.SetRuleIdempotent` | app/trumproxy.py:158-168 | two identical set calls leave the same table as one |
| `TariffRules.SetRuleLastWriteWins` | app/trumproxy.py:168 | a later set for any spelling of the same code replaces the earlier rule entirely |
| `TariffRules.SetRuleCaseInsensitive` | app/trumproxy.py:168 | setting with upper(code) or with code gives the same table |
| `TariffRules.RemovePresentIsExact` | app/trumproxy.py:178-179 | on a canonical table, removing a present key removes exactly that key |
| `TariffRules.RemoveLowerCaseSpellingIsNoop` | app/trumproxy.py:178-179 | on a canonical table, removing a spelling with a lower-case letter changes nothing, even if its upper case holds a rule |
| `TariffRules.RemoveUndoesSet` | app/trumproxy.py:158-179 | setting a rule for a code without one and removing upper(code) restores the table |
| `TariffRules.RemoveSameLowerSpellingKeepsRule` | app/trumproxy.py:168-179 | set then remove with the same lower-case spelling leaves the new rule in place |
| `TariffRules.RemoveLowerCaseExample` | app/trumproxy.py:178-179 | with a rule for "CN", removing "cn" leaves the table unchanged |
| `Decisions.Resolve` | app/trumproxy.py:80-81 | the country of a server; a closed reader (after done) yields none, as the caught exception does |
| `Decisions.Decide` | app/trumproxy.py:87-115 | any decision other than pass has a resolved country that holds a rule |
| `Decisions.PassIffNoRule` | app/trumproxy.py:87-95 | the decision is pass iff the country is unknown or has no rule |
| `Decisions.DropIffDroppedRule` | app/trumproxy.py:97-99 | the decision is drop iff the country's rule has dropped set, whatever rate and rtt |
| `Decisions.HoldIsRttTimesRate` | app/trumproxy.py:114-115 | a non-dropping rule holds for rtt times its rate |
| `Decisions.DropIgnoresRate` | app/trumproxy.py:99-112 | two drop rules with different rates, at any round-trip times, both decide drop |
| `Decisions.HoldNonNegative` | app/trumproxy.py:114-115 | with non-negative rates and rtt, every hold time is non-negative |
| `Decisions.DecideReadsOwnRuleOnly` | app/trumproxy.py:91-97 | the decision for a country depends only on that country's rule |
| `Decisions.HoldExample` | app/trumproxy.py:114-115 | rule XX with rate 2 and rtt 150 holds for 300 |
| `Packets.AuditRecord` | app/trumproxy.py:100-129 | the stored packet is "dropped" exactly when it has no retain time, and is well-formed (status matches retain time, upper-cased country) when the country code is upper-cased |
| `Packets.Respond` | app/trumproxy.py:77-135 | only the flow's own cache entry may change; the action is none iff the decision is pass and the cache is unchanged; well-formed records stay well-formed |
| `Packets.Released` | app/trumproxy.py:143-148 | with a response, the flow's entry is gone and every other entry is kept; without one, nothing changes |
| `Packets.NoCountryNoChange` | app/trumproxy.py:87-89 | an unknown country leaves the cache unchanged and takes no action |
| `Packets.NoRuleNoChange` | app/trumproxy.py:91-95 | a country without a rule leaves the cache unchanged and takes no action |
| `Packets.DropRecordsAndKills` | app/trumproxy.py:99-112 | a drop rule stores a "dropped" packet with no retain time under the flow id and kills the flow |
| `Packets.HoldRecordsAndIntercepts` | app/trumproxy.py:114-132 | a rate rule stores a "retained" packet with retain time rtt*rate and intercepts the flow with that delay |
| `Packets.DropOutcomeIgnoresRate` | app/trumproxy.py:99-112 | the cache and action after a drop do not depend on the rule's rate |
| `Packets.InterceptTimeNonNegative` | app/trumproxy.py:114-132 | with a non-negative rate and a response ending after the request started, the release delay is non-negative |
| `Packets.ReleaseRemovesExactlyOne` | app/trumproxy.py:145-147 | releasing a cached flow removes exactly its entry, shrinking the cache by one |
| `Packets.ReleaseIdempotent` | app/trumproxy.py:147 | a second release of the same flow is a no-op |
| `Packets.ReleaseUndoesHold` | app/trumproxy.py:120-147 | holding a new flow and then releasing it restores the cache |
| `Traces.Initial` | app/trumproxy.py:70-72 | the starting state is well-formed |
| `Traces.Step` | app/trumproxy.py:77-191 | every call keeps rule keys canonical and audit records well-formed; only done changes the reader |
| `Traces.RunPreservesValid` | app/trumproxy.py:77-191 | any sequence of calls keeps rule keys canonical and records well-formed |
| `Traces.TrafficKeepsRules` | app/trumproxy.py:77-148 | responses, releases and cache cleans never change the rule table |
| `Traces.EntrySurvivesSparingOps` | app/trumproxy.py:137-191 | a cache entry with no pending release task stays unchanged, and stays without a task, through any calls other than clean, done, or a new response for its own flow |
| `Traces.OnlyHoldSchedulesRelease` | app/trumproxy.py:99-132 | a response adds one pending release task for its flow exactly when the decision is a hold; pass and drop add none |
| `Traces.DroppedRecordOnlyClearedByCleanOrDone` | app/trumproxy.py:97-191 | after a drop of a flow with no pending task, its "dropped" record survives every later call except clean, done, or a new response for the same flow id |
| `Traces.AfterDoneResponsesPass` | app/trumproxy.py:137-140 | after done, responses and releases leave the cache empty |
| `Traces.HoldThenReleaseExample` | app/trumproxy.py:114-148 | rule "xx" rate 2 and a 150 ms flow from XX is recorded as retained for 300, and its release empties the cache and consumes the one pending task |
| `Addon.TrumproxyAddon.constructor` | app/trumproxy.py:70-75 | both tables start empty with the reader open |
| `Addon.TrumproxyAddon.Response` | app/trumproxy.py:77-135 | the rule table is unchanged; cache and returned action are those of `Respond` on the resolved country |
| `Addon.TrumproxyAddon.Done` | app/trumproxy.py:137-141 | both tables are empty, the reader is closed, and pending release tasks are kept |
| `Addon.TrumproxyAddon.RetainFlow` | app/trumproxy.py:143-148 | run as a pending task created by a hold, it consumes that task; the flow is resumed iff it has a response, and then only its own entry is removed |
| `Addon.TrumproxyAddon.GetTariffRules` | app/trumproxy.py:151-156 | returns the current rule table |
| `Addon.TrumproxyAddon.SetTariffRule` | app/trumproxy.py:158-168 | the table becomes `WithRule` of the old one, dropped defaulting to false |
| `Addon.TrumproxyAddon.RemoveTariffRule` | app/trumproxy.py:170-179 | the table becomes `WithoutRule` of the old one |
| `Addon.TrumproxyAddon.GetCachedPackets` | app/trumproxy.py:181-185 | returns the current audit cache |
| `Addon.TrumproxyAddon.CleanCachedPackets` | app/trumproxy.py:187-191 | the cache is empty and the rule table untouched |

## Left out

- GeoIP database access: the reader is an opaque resolver `ip -> Option<code>`. An exception from a lookup is a `None` result, and so is any lookup after `done`.
- mitmproxy flow primitives: `kill`, `intercept` and `resume` are the returned `FlowAction` and the `resumed` flag. Reading `peername` and the timestamps gives the fields of `Flow`.
- asyncio scheduling: the release is the explicit call `RetainFlow`, not a timer. Sleeping and concurrent interleaving are not modelled.
- Floating-point times: the source computes `rtt_time` and `retain_time` in seconds from mitmproxy's float timestamps, and sleeps `retain_time` seconds (app/trumproxy.py:114-115, 144), although the docstring at app/trumproxy.py:54 says milliseconds. The model scales all times to integer milliseconds: `recv_time` is the response-end timestamp, rtt is response end minus request start, and the retain time is rtt times the rate in the same unit.
- TariffRules.WithRule: rates are integers, as `rate: int` and the docstring at app/trumproxy.py:164 declare; the fractional rates that the CLI in app/main.py:47-51 can pass (`float(rate)`) are not modelled.
- The timing of a release: `InterceptUntilRelease(t)` carries the delay, but nothing relates it to when the release task runs. A release may run at any point after its task is created.
- CountryCode.Upper: maps only ASCII letters; Python's full Unicode `str.upper()` is not modelled (ISO alpha-2 codes are ASCII).
- Live views: `get_tariff_rules` and `get_cached_packets` return the dictionaries themselves, so a caller could mutate them. The model returns values.
- Exceptions other than a failed lookup inside the `response` handler (for example a flow without a response) are not modelled.
- `print` logging: it has no behaviour.
- The CLI bootstrap, the Flask wrapper, the browser UI and the earlier single-file revisions of the addon: they hold no decision logic and are not part of this model.
