# Whistle plugin manager: a Dafny model

This project models the plugin manager of the whistle HTTP/HTTPS debugging proxy
(`lib/plugins/index.js`). It covers the parts of that file that decide things, rather than the
parts that move bytes:

- **The registry.** `allPlugins` maps a scheme (`"foo:"`) to an installed plugin. One refresh
  re-reads the discovered packages (`readPackages`), diffs the result against the current
  registry (`update`), and emits `uninstall`, `update` and `updateRules` events. The listeners stop
  retired workers and rebuild the always-on rules, oldest plugin first, skipping disabled plugins
  (`pluginIsDisabled`).
- **The worker configuration.** The `conf` object handed to every worker holds the global
  configuration with the raw password removed and the password hash in its place.
- **Selection.** For each request the manager picks the plugin named by the matched rule URL's
  scheme, followed by the plugins that the request's `plugin` rules name, in order. Each plugin
  appears at most once and disabled plugins are left out (`resolveWhistlePlugins`).
- **The headers a plugin's rules server receives.** These are the matched host, rule, proxy and
  pac rules as raw/value pairs, the request's URLs and identity, the method, the next rule, and
  the upstream status (`getHeaderValueFromRule`, `addRuleHeaders`, `getOptions`).
- **One rules request.** A request that fails is retried up to five more times. A 304 answer
  becomes "not modified". A body that looks like a JSON object is parsed into rules and values
  (`requestRules`, `rulesToJson`).
- **The rules cache.** Entries are kept per plugin and rule type. A fresh entry is served without
  a request. A stale entry sends its etag. A 304 reuses the entry and refreshes its max-age. Any
  other response stores a new entry or evicts the old one. While one revalidation of an entry
  with a max-age is in flight, later lookups wait for it.
- **Assembly of the plugins' results.** This part of `getRulesFromPlugins` works as follows:
  - A plugin without a rules server contributes its hidden rules (`_rules.txt`).
  - A fetched body is followed by a newline and the hidden rules.
  - Fetched values override the hidden values (`_values.txt`).
  - The non-empty results are reversed, so that when values are merged, the first selected
    plugin wins a shared name.

Modules, one per concern:

| file | module | covers |
|---|---|---|
| `common.dfy` | `Common` | Option, header and value maps, JavaScript `trim`, `indexOf`, `slice(0, -1)` |
| `uri_encoding.dfy` | `UriEncoding` | `encodeURIComponent` on Unicode scalar values (UTF-8, then percent-encoding) |
| `registry.dfy` | `Registry` | `readPackages`, the diff and events of `update`, the stop and `updateRules` listeners, `pluginIsDisabled` |
| `plugin_config.dfy` | `PluginConfig` | the `conf` object |
| `selection.dfy` | `Selection` | `_getPlugin`, `getPluginByRuleUrl`, `getPluginByPluginRule`, `resolveWhistlePlugins` |
| `rule_headers.dfy` | `RuleHeaders` | `getHeaderValueFromRule`, `addRuleHeaders`, `getOptions` |
| `rule_fetch.dfy` | `RuleFetch` | `requestRules`, `rulesToJson` |
| `rule_cache.dfy` | `RuleCache` | the `rulesCache` entries: lookup, reply handling, coalescing |
| `rule_merge.dfy` | `RuleMerge` | per-plugin results, filter/reverse/extend |
| `plugin_rules.dfy` | `PluginRules` | `getRulesFromPlugins` as one pass over the selected plugins |

State that the source updates in place is modelled imperatively:

- `Registry.PluginRegistry` holds `allPlugins`.
- `RuleCache.Cache` holds a map from keys to `RuleCache.Entry` objects. The `ttl` and the queue
  of waiting callers of each entry are updated in place, as the source does with
  `data.maxAge`, `data.now` and `data.pendingCallbacks`.
- The loops of the source are methods with loop invariants. Each is proved against a
  specification function, and the properties of the source are proved about those functions.

Times are milliseconds and are passed in by the caller. The transport and `JSON.parse` are
function parameters.

## Model

| member | source | states |
|---|---|---|
| Registry.ReadPackages | lib/plugins/index.js:135-177 | The new registry holds only discovered plugins, each with its discovered path and mtime. A plugin whose path and mtime are unchanged keeps its registered entry. A new or changed plugin is present exactly when its package.json is readable and names a version, and then it carries that version and the rules.txt read from its directory. |
| Registry.Load | lib/plugins/index.js:148-166 | A re-read entry keeps the discovered path, package path and mtime, and takes its version, module name, homepage and description from package.json, and its rules, hidden rules and hidden values from the plugin's files. |
| Registry.ReadPackagesIdempotent | lib/plugins/index.js:135-177 | Reading the same discovery result again leaves the registry as the first read made it. |
| Registry.Classify | lib/plugins/index.js:184-195 | The loop over the registered names yields exactly the plugins that disappeared, with their old entries, and exactly those whose path or mtime changed, with their new entries. |
| Registry.Uninstalled | lib/plugins/index.js:186-190 | The uninstall set holds exactly the registered names missing from the new registry, each with its old entry. |
| Registry.Updated | lib/plugins/index.js:186-193 | The update set holds exactly the names present in both registries whose path or mtime changed, each with its new entry. |
| Registry.RefreshEventsShape | lib/plugins/index.js:198-202 | Events are emitted exactly when the condition of line 198 holds. There are at most three: an uninstall event, then an update event, each naming at least one plugin, and always a final updateRules. |
| Registry.RefreshEventsIffChanged | lib/plugins/index.js:184-202 | A refresh emits events (and so rebuilds the always-on rules) if and only if the set of names changed or some plugin changed its path or mtime. |
| Registry.RefreshClassifies | lib/plugins/index.js:184-201 | A registered plugin that is gone appears in the uninstall event with its old entry. One that changed appears in the update event with its new entry. An unchanged plugin appears in neither. |
| Registry.RefreshIdempotent | lib/plugins/index.js:179-207 | A second refresh against an unchanged installation leaves the registry as it is and emits nothing. |
| Registry.MovedPluginWorkerNotStoppedAsWritten | lib/plugins/index.js:85-94 | As written, the stop listeners receive the new entry of an updated plugin. For a plugin moved from /a to /b, the worker started from /a is never stopped. |
| Registry.StoppedPathsAsWritten | lib/plugins/index.js:85-94 | The listeners stop exactly the paths of the plugins named in the uninstall and update events. |
| Registry.StoppedAfterRefresh | lib/plugins/index.js:85-94 | After a refresh, the listeners stop the old path of every uninstalled plugin and the new path of every updated one. |
| Registry.RetiredPaths | lib/plugins/index.js:85-94 | The paths to stop after a refresh are exactly the old paths of the plugins that were uninstalled or changed. |
| Registry.RetiredPathsSpareUnchanged | lib/plugins/index.js:85-94 | The worker of an unchanged plugin is never stopped, unless it shares its directory with a retired plugin. |
| Registry.OrderByMtime | lib/plugins/index.js:67-71 | The rebuild visits every registered name exactly once, in ascending mtime order. |
| Registry.Contributors | lib/plugins/index.js:71-77 | The plugins that append rules are exactly those in the visiting order that are enabled and have non-empty rules.txt. |
| Registry.ContributorsSorted | lib/plugins/index.js:67-77 | Skipping disabled and rule-less plugins keeps the mtime order. |
| Registry.AlwaysOnRules | lib/plugins/index.js:71-77 | The k-th appended rule set is the rules.txt and directory of the k-th contributing plugin. |
| Registry.AlwaysOnRulesFromEnabledOldestFirst | lib/plugins/index.js:65-78 | Every appended rule set comes from an enabled plugin, carries that plugin's rules and path, and no earlier rule set comes from a newer plugin. |
| Registry.AllDisabledAppendsNothing | lib/plugins/index.js:347-350 | With every plugin disabled, the rebuild appends nothing. |
| Registry.PluginRegistry.Update | lib/plugins/index.js:183-202 | `allPlugins` becomes the new snapshot. The events are those of the diff. The stopped paths are the retired ones (the corrected listener, see Findings). |
| Registry.PluginRegistry.Refresh | lib/plugins/index.js:179-207 | One polling step: `allPlugins` becomes readPackages of the discovery result, with the events and stops of the diff. |
| Registry.PluginRegistry.RebuildAlwaysOn | lib/plugins/index.js:65-78 | The 'updateRules' listener visits every registered name once, oldest first, and appends exactly the rules of the contributing plugins, in that order. |
| PluginConfig.BuildConf | lib/plugins/index.js:53-63 | `conf` has `password` exactly when the configuration has `passwordHash`, and it holds the hash. It never holds `passwordHash`. Every other key is present exactly when its value is a string or a number, and it keeps that value. |
| Selection.GetPlugin | lib/plugins/index.js:355-357 | A protocol yields a plugin if and only if it is registered and its name (the protocol without its colon) is not disabled, and that plugin is the registered entry. |
| Selection.Protocol | lib/plugins/index.js:367-375 | A rule URL's protocol is the prefix up to and including its first colon. There is none exactly when the URL is absent or has no colon. |
| Selection.GetPluginByRuleUrl | lib/plugins/index.js:367-377 | A rule URL selects a plugin exactly when it has a protocol that is registered and whose name is not disabled, and the plugin is the entry under that protocol. |
| Selection.RuleUrlSelectsScheme | lib/plugins/index.js:367-377 | For "name:rest", the plugin is the entry under "name:" when it is registered and enabled, and nothing otherwise. |
| Selection.NoColonNoPlugin | lib/plugins/index.js:371-374 | A rule URL without a colon selects no plugin. |
| Selection.ParsePluginRef | lib/plugins/index.js:753-754 | A parsed reference always has a non-empty name made of `[a-z0-9_-]`. |
| Selection.ParseRefForms | lib/plugins/index.js:753-754 | "name", "name(arg)" and "name://arg" parse to that name and argument. |
| Selection.ParseRefSound | lib/plugins/index.js:753-754 | Whatever parses is one of those three forms, rebuilt from its name and argument. |
| Selection.GetPluginByPluginRule | lib/plugins/index.js:756-776 | A plugin rule selects only a registered, enabled plugin, under the key it names. |
| Selection.ParsedRefSelects | lib/plugins/index.js:756-776 | A rule whose reference text parses to a name and argument selects the entry under "name:" with that argument when it is registered and the name is not disabled, and nothing otherwise. |
| Selection.PluginUrlRuleSelects | lib/plugins/index.js:756-776 | For a `plugin://` rule whose matcher value is "name", "name(arg)" or "name://arg", the selection is the entry under "name:" with the argument (none for the bare name) when registered and enabled, and nothing otherwise. |
| Selection.WhistleRefText | lib/plugins/index.js:762-766 | For a `whistle.` rule, the reference text is what follows the first dot. |
| Selection.WhistleRuleSelects | lib/plugins/index.js:756-776 | For `whistle.name`, `whistle.name(arg)` and `whistle.name://arg`, the selection is the entry under "name:" with the argument when registered and enabled, and nothing otherwise. |
| Selection.Candidates | lib/plugins/index.js:790-791 | Each chained rule is resolved on its own, in declaration order. |
| Selection.ChainSelect | lib/plugins/index.js:788-797 | The chained plugins are all named by some rule, none appears twice, and none was already selected. |
| Selection.ChainSelectEnabled | lib/plugins/index.js:788-797 | Every chained plugin is registered and enabled. |
| Selection.ChainSelectComplete | lib/plugins/index.js:788-797 | Every plugin a chained rule names is selected, unless it was selected already. |
| Selection.ChainSelectFirstOccurrence | lib/plugins/index.js:788-797 | Each chained entry is the first candidate with its key, so a plugin named by several rules takes the argument of the first of them. |
| Selection.ChainSelectInOrder | lib/plugins/index.js:788-797 | The chain keeps declaration order: the first positions of its entries among the rules increase along the chain. |
| Selection.SelectChain | lib/plugins/index.js:788-797 | The loop over the chained rules computes exactly ChainSelect. |
| Selection.ResolveWhistlePlugins | lib/plugins/index.js:778-804 | The primary plugin is the rule URL's plugin and comes first, with the rule's value. It is followed by the chained plugins. The list is left unset when empty. |
| Selection.SelectionDistinct | lib/plugins/index.js:781-797 | No plugin is selected twice, including the primary plugin. |
| RuleHeaders.GetHeaderValueFromRule | lib/plugins/index.js:209-219 | There is a pair exactly when there is a rule. Its raw part is the encoded pattern, "%20", then the encoded matcher. Its value is the encoded matcher value, followed by "%3A" and the encoded port when there is a port, and it is empty exactly when both the matcher value and the port are empty. |
| RuleHeaders.WritePair | lib/plugins/index.js:222-249 | A matched rule writes its raw header, and its value header only when the value is non-empty. Nothing else changes. |
| RuleHeaders.WriteUrlHeaders | lib/plugins/index.js:250-262 | The real URL, request id and full URL are written when present. The SSL flag is written only for https:/wss: URLs. Nothing else changes. |
| RuleHeaders.WriteClientHeaders | lib/plugins/index.js:263-271 | The client IP, port and encoded global value are written under the configured names when present. Nothing else changes. |
| RuleHeaders.AddRuleHeaders | lib/plugins/index.js:220-273 | Starting from the given headers, or else the request's own, every rule header is written as described above, and every other header is left as it was. |
| RuleHeaders.SslFlagIffSecure | lib/plugins/index.js:257-262 | On headers that did not already carry the flag, the SSL flag is present if and only if the full URL is https: or wss:, and it is "true". |
| RuleHeaders.DecimalString | lib/plugins/index.js:577 | `String(statusCode)` is a non-empty string of decimal digits, without a leading zero, whose value is the status code. |
| RuleHeaders.StatusTextEncoded | lib/plugins/index.js:577 | Encoding the status text leaves it unchanged. |
| RuleHeaders.WriteOptionHeaders | lib/plugins/index.js:565-578 | The writes are: the method (GET by default); the next rule for request rules; and, for response rules, the request's host, the host IP (127.0.0.1 by default) and the status. Nothing else changes. |
| RuleHeaders.GetOptions | lib/plugins/index.js:555-585 | The options address 127.0.0.1 over http:. They carry the response's headers (for response rules) or the request's, without upgrade and connection, with the rule and option headers written. Every other header is kept. |
| RuleFetch.RulesToJson | lib/plugins/index.js:608-614 | A body is parsed if and only if it looks like a JSON object ("{", at least one character, "}"), and the result is then the parser's. |
| RuleFetch.TrimmedBody | lib/plugins/index.js:596 | The raw text is present exactly when a body is, and it is the trimmed body. |
| RuleFetch.Interpret | lib/plugins/index.js:593-604 | The reply keeps the response. Its error is "not modified" exactly for a 304, and "failed" exactly for any other failed attempt. Values come only from a successful body that parses as a JSON object. Rules are absent for a 304 and for a missing body. |
| RuleFetch.NotModifiedCarriesNothing | lib/plugins/index.js:593-595 | A 304 reply is "not modified" and carries no rules, values or raw text. |
| RuleFetch.RawIsTrimmedBody | lib/plugins/index.js:596-604 | For any other reply, the raw text is the trimmed body, already trimmed, and the error is the transport's. |
| RuleFetch.PlainTextBody | lib/plugins/index.js:596-604 | A failed request, or a body that is not a parsable JSON object, gives the trimmed body as rules and no values. |
| RuleFetch.JsonBody | lib/plugins/index.js:599-603 | A parsed JSON body gives its `rules` (or "" when that is not a string) and its `values`. |
| RuleFetch.PaddedJsonRecognised | lib/plugins/index.js:596-609 | White space around a JSON object body does not stop it from being recognised. |
| RuleFetch.AttemptsNeeded | lib/plugins/index.js:588-592 | Counting from attempt i, the attempts made stop one past the first success, or after MaxRetries + 1 attempts. All the earlier ones failed. |
| RuleFetch.RequestRules | lib/plugins/index.js:587-606 | At most six attempts are made. All but the last failed, and the last one succeeded unless all six were made. The reply interprets the last attempt. |
| RuleFetch.AttemptsUntilSuccess | lib/plugins/index.js:588-592 | The number of attempts is fixed by the first success: one past it, or six when every attempt fails. |
| RuleCache.CacheKey | lib/plugins/index.js:476 | The key is the module name, a newline, then the rule type, and both parts can be read back from it. |
| RuleCache.CacheKeyInjective | lib/plugins/index.js:476 | Module names without a newline never share a key with another plugin or rule type. |
| RuleCache.AfterLookup | lib/plugins/index.js:535-549 | A lookup changes only the entry's queue, and it keeps every stored entry valid. |
| RuleCache.Decide | lib/plugins/index.js:535-546 | A lookup serves the entry as "not modified" with its own content exactly when it is fresh. It waits exactly when the entry is stale, has a max-age and a request in flight. Otherwise it sends, with the entry's etag exactly when it has a non-empty one. |
| RuleCache.FreshnessWindow | lib/plugins/index.js:536 | An entry without a max-age is never fresh. An entry with max-age m stored at time t is fresh exactly up to t + m, and freshness only ends. |
| RuleCache.Refreshed | lib/plugins/index.js:478-489 | A 304 that carries a non-negative max-age installs exactly that max-age, timed from the current time. Otherwise the old max-age stays. An entry with a max-age keeps one. |
| RuleCache.Stored | lib/plugins/index.js:490-509 | A response stores an entry exactly when it has an etag or a non-negative max-age. The entry holds the reply's rules, values and raw text, and has no queue. |
| RuleCache.Cache.Lookup | lib/plugins/index.js:534-549 | The lookup decides to serve the cached entry when it is fresh, to wait when a revalidation is in flight, or else to send a request with the etag. It updates only this key's entry, and hands a fresh entry's waiters the cached result. |
| RuleCache.Cache.HandleReply | lib/plugins/index.js:484-517 | A 304 on a cached entry serves its text and refreshes its max-age. Any other response stores a new entry or deletes the key. The waiters are handed the same result and the queue is removed. Other keys are unchanged. |
| RuleCache.Cache.Revalidated | lib/plugins/index.js:485-489 | updateMaxAge on the entry found: its ttl becomes Refreshed, and its queue is kept. |
| RuleCache.Cache.TakeWaiters | lib/plugins/index.js:511-517 | The queued callers are handed over and the entry's queue is removed. |
| RuleCache.Cache.Replace | lib/plugins/index.js:490-509 | `rulesCache.set` with the stored entry, or `rulesCache.del` when nothing is stored. No other key changes. |
| RuleCache.FreshServedFromCache | lib/plugins/index.js:535-537 | A fresh entry is served without a request, with its own text and values. |
| RuleCache.StoredFreshFor | lib/plugins/index.js:490-537 | An entry stored with max-age m is fresh for m milliseconds after the response. After that, a lookup sends its etag. |
| RuleCache.EtagOnlyAlwaysRevalidates | lib/plugins/index.js:535-549 | An entry without a max-age is never fresh and never makes a caller wait. Every lookup sends its etag and leaves it unchanged. |
| RuleCache.StaleLookupsCoalesce | lib/plugins/index.js:542-546 | While a stale entry with a max-age has a request in flight, every later lookup waits, and the waiters queue up in arrival order. |
| RuleCache.FirstStaleLookupSends | lib/plugins/index.js:539-549 | The first stale lookup sends the request and every later one waits. |
| RuleCache.NotModifiedReusesEntry | lib/plugins/index.js:485-488 | A 304 hands the caller the cached text and values, whatever the reply carried. |
| RuleCache.RevalidationTimeline | lib/plugins/index.js:476-549 | A worked timeline: the entry is stored, served from the cache, revalidated with its etag, and fresh again after a 304 with a max-age. |
| RuleMerge.StaticResult | lib/plugins/index.js:457-465 | A plugin without a server contributes a result if and only if these are request rules and its hidden rules are non-empty. The result is its hidden rules, hidden values and path. |
| RuleMerge.FetchedTextParts | lib/plugins/index.js:518 | The fetched text is the body, followed (for request rules with hidden rules) by a newline and the hidden rules. It is empty exactly when both parts are. |
| RuleMerge.MergeValues | lib/plugins/index.js:520-525 | The values are the union of the hidden and fetched names, with the fetched value winning, and are absent only when both are. |
| RuleMerge.FetchedResult | lib/plugins/index.js:518-531 | A fetched plugin contributes exactly when its text is non-empty or it was served values. The result holds that text, the merged values and the plugin's path. |
| RuleMerge.HiddenRulesAlwaysContribute | lib/plugins/index.js:518-531 | For request rules, a plugin with hidden rules always contributes them, after a newline, even when its request failed. |
| RuleMerge.Survivors | lib/plugins/index.js:440 | The filter never lengthens the list. |
| RuleMerge.SurvivorsMembers | lib/plugins/index.js:440 | The filter keeps exactly the present results. |
| RuleMerge.SurvivorsKeepAll | lib/plugins/index.js:440 | Nothing is filtered out exactly when every slot has a result. |
| RuleMerge.SurvivorPosition | lib/plugins/index.js:440 | The filter keeps slot order. |
| RuleMerge.Reverse | lib/plugins/index.js:445 | Position i of the reversed list holds position n-1-i of the original. |
| RuleMerge.Extend | lib/plugins/index.js:446 | `extend` adds the item's names, overriding earlier values. |
| RuleMerge.MergedValues | lib/plugins/index.js:439-447 | A name is in the merged values exactly when some result in the list carries it. |
| RuleMerge.MergeReversed | lib/plugins/index.js:445-447 | Extending over the reversed list is the same as letting the first result carrying a name decide it. |
| RuleMerge.PrecedenceFirst | lib/plugins/index.js:445-447 | The first result carrying a name determines its value. |
| RuleMerge.FirstSelectedWins | lib/plugins/index.js:439-447 | Among the plugins, the first selected one carrying a name decides its value. |
| RuleMerge.ScriptFirstAndWeakest | lib/plugins/index.js:441-447 | The response script's rules come first in the list the parser receives, and their values are used only for names that no plugin carries. |
| RuleMerge.Collect | lib/plugins/index.js:440-444 | The filtered results, in slot order, followed by the response script's rules for response rules. |
| RuleMerge.ReverseList | lib/plugins/index.js:445 | The loop computes Reverse. |
| RuleMerge.Ordered | lib/plugins/index.js:440-445 | The parser's list holds every surviving result and, for response rules, the script's rules, which come first. The survivors appear in reverse slot order. |
| RuleMerge.ExtendAll | lib/plugins/index.js:445-447 | The loop computes MergedValues. |
| RuleMerge.Assemble | lib/plugins/index.js:439-447 | The parser receives Ordered (filtered, script appended, reversed), and the values are MergedValues of that list. |
| PluginRules.PluginRequestHeaders | lib/plugins/index.js:468-475 | The rule-value header is empty exactly when the plugin's value is. The etag header is present exactly when an etag is sent (lines 534-541), and holds it. Every other header is the shared options' header. |
| PluginRules.RuleValueSent | lib/plugins/index.js:471-472 | The rule-value header is the percent-encoded value. |
| PluginRules.HeadersFor | lib/plugins/index.js:466-475 | Every slot is sent PluginRequestHeaders on the shared options, with its own rule value and the etag sent. |
| PluginRules.FetchSlot | lib/plugins/index.js:466-550 | A fresh entry is served with no request. Otherwise a request is sent with the entry's etag, retried as requestRules does, and handled against the entry found. With nothing in flight, no caller waits and the cache ends idle. Only this plugin's key changes. |
| PluginRules.RequestSlot | lib/plugins/index.js:550 | requestRules followed by handleRules: the reply interprets the last attempt, and the caller is served ServedFor the entry found. |
| PluginRules.ServedIgnoresQueue | lib/plugins/index.js:484-488 | What a reply serves does not depend on the queue a lookup left on the entry. |
| PluginRules.PassServed | lib/plugins/index.js:455-466 | Exactly the slots whose plugin has a server for this rule type are served. |
| PluginRules.SlotServed | lib/plugins/index.js:466-550 | A fresh cache entry is served as it is, without a request. A "not modified" outcome on an existing entry always serves that entry's text and values. |
| PluginRules.SlotResult | lib/plugins/index.js:455-531 | A slot's result carries its plugin's path. A plugin without a server contributes exactly when these are request rules and it has hidden rules. A plugin with a server that was not served contributes nothing. For request rules, hidden rules always make a contribution. |
| PluginRules.SlotKeysDistinct | lib/plugins/index.js:476 | Distinct plugins use distinct cache keys. |
| PluginRules.ServeSlot | lib/plugins/index.js:455-550 | Slot i is served as the cache before the pass determines, and the entries of later slots stay untouched. |
| PluginRules.ServeAll | lib/plugins/index.js:455-551 | The pass serves every slot exactly as PassServed on the cache before the pass. |
| PluginRules.FillResults | lib/plugins/index.js:455-531 | `results[i]` is the static result or the fetched result of slot i. |
| PluginRules.GetRulesFromPlugins | lib/plugins/index.js:413-553 | No selected plugins means no rules. Otherwise the parser receives the ordered results of every slot and the values merged from them, and the cache ends valid and idle. |

## Left out

- Process supervision (`pfork`, `loadPlugin`, `loadPlugins`, the ports a worker reports) is not
  modelled. Ports are given as each slot's `port`, and stopping a worker is modelled as the set
  of paths to stop.
- The HTTP transport is not modelled. Each attempt's outcome is a parameter
  (`transport(port, headers)(i)`). `postStats` and `postStatus` are not modelled either.
- The polling timer, the discovery source (`getPlugin`) and file reads are not modelled. They are
  parameters of `Registry.PluginRegistry.Refresh` (`found`, `manifestAt`, `filesAt`).
- `showVerbose` logging is not modelled.
- The rule engine is not modelled: `rulesMgr.append` and `clearAppend`, `RulesMgr.parse` and
  `resolveRules`, `comUtil.mergeRules`, `getMatcherValue` and `resolveRule`. Its inputs and
  outputs are values: the appended rule list, the assembled rule list and values, the matcher
  values, and the next rule.
- `url.parse(fullUrl)` is not modelled. Of the options it builds, only the fields the core sets
  (protocol, host, hostname, headers) are kept.
- `JSON.parse` is a parameter. The internals of `encodeURIComponent` are modelled on Unicode
  scalar values, so lone surrogates and the URIError they raise are not modelled.
- The LRU capacity of 36 entries of `rulesCache` is not modelled. The cache never evicts on its
  own, so an entry may live longer in the model than in the source.
- PluginRules.GetRulesFromPlugins runs the selected plugins one after the other, at a single time
  `now`, instead of as concurrent callbacks joined by a counter. The model has further limits:
  - It requires a cache with no revalidation in flight and distinct module names without a
    newline. Selected plugins are distinct (Selection.SelectionDistinct). Names come from
    package names.
  - Waiters queued by concurrent requests are not modelled. RuleCache.Cache.Lookup and
    RuleCache.StaleLookupsCoalesce model that case on one entry.
- PluginRules.GetRulesFromPlugins does not clear `req.resScriptRules` after use, and it does not
  merge the resolved response rules into the request (lines 443 and 450-452).
- RuleHeaders.AddRuleHeaders, RuleHeaders.GetOptions: these assume that the three configured
  header names (client IP, client port, global value) are distinct from each other and from the
  names the module writes itself. If they were not, the source's later writes would silently
  overwrite earlier ones.
- RuleHeaders.AddRuleHeaders: without a `headers` argument the source writes into `req.headers`
  in place (line 221), so the request itself changes. The model returns the new header map and
  leaves the request value unchanged, so that aliasing is not captured.
- RuleHeaders.WriteOptionHeaders: for response rules, when the request has no `host` header, the
  model removes `host`. The source assigns `undefined`, which Node omits when sending.
- RuleHeaders.WriteOptionHeaders: the status header holds the digits without passing them
  through `encodeURIComponent`. Digits encode to themselves (RuleHeaders.StatusTextEncoded).
- RuleFetch.Response: `maxAge` is an integer. The source compares the raw header string with `>= 0`,
  so fractional max-ages and numeric strings such as "1e3" are not modelled.
- An entry with only an etag is never fresh (RuleCache.IsFresh), because comparing with an
  undefined max-age is false. This follows the code.
- Selected plugins are deduplicated by registry key, while the source compares plugin objects.
  Each key holds its own object, so the two agree.
- A truthy `disabledPlugins[name]` is modelled as membership of `name` in a set.
- The source's sort comparator never returns 0, so plugins with equal mtimes come out in an
  unspecified order. Registry.OrderByMtime promises only the ascending order, as the source does.
- Behaviour that may surprise a reader, modelled as the code does:
  - The rule parser receives the reversed list, so the response script's rules come first.
  - Only entries with a max-age coalesce concurrent revalidations.
  - An incoming `x-whistle-https` header passes through when the URL is not TLS.

## Findings

| source | as written | input that shows it | evidently intended | confidence | as-written member | corrected member |
|---|---|---|---|---|---|---|
| lib/plugins/index.js:85-89 | The 'update' listener calls `stopPlugin` on the entries of the update event, which are the NEW entries (line 193). `stopPlugin` kills the worker keyed by `plugin.path` (lines 336-341). | Plugin "foo:" moves from /a/whistle.foo to /b/whistle.foo. The worker for /b is asked to stop, and the worker started from /a keeps running. | The worker of the old entry is stopped, as for uninstall. | medium, not executed | Registry.MovedPluginWorkerNotStoppedAsWritten | Registry.RetiredPaths |
