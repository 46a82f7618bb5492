/**
 * getRulesFromPlugins as one sequential pass: every selected plugin in turn is served from the
 * cache or asked for its rules, its result goes into its own slot, and the slots are combined
 * once all are done. The per-plugin callbacks of the source run here one after the other.
 */
module PluginRules {
  import opened Common
  import opened UriEncoding
  import opened RuleHeaders
  import opened RuleFetch
  import opened RuleCache
  import opened RuleMerge

  const EtagHeader := "x-whistle-etag"

  /** One selected plugin: what the assembly reads of it, the port its worker serves this rule type
      on (None when the worker has no such server), and the value written after it in the rule. */
  datatype Slot = Slot(plugin: PluginFiles, port: Option<nat>, value: string)

  /** The rule list the parser receives and the values it resolves against. */
  datatype Assembled = Assembled(rules: seq<RuleResult>, values: Values)

  /** A plugin's request headers (lines 466-475 and 535-541): the shared options' headers with the
      plugin's own rule value, and the cached etag instead of any the client sent. */
  function PluginRequestHeaders(options: Headers, value: string, etag: Option<string>): (h: Headers)
    ensures RuleValueHeader in h && (h[RuleValueHeader] == [] <==> value == [])
    ensures EtagHeader in h <==> etag.Some?
    ensures etag.Some? ==> h[EtagHeader] == etag.value
    ensures forall n :: n != RuleValueHeader && n != EtagHeader ==>
              (n in h <==> n in options) && (n in h ==> h[n] == options[n])
  {
    var h := (options - {EtagHeader})[RuleValueHeader := if value != [] then Encode(value) else []];
    if etag.Some? then h[EtagHeader := etag.value] else h
  }

  /** The request headers of each slot, by the etag sent. */
  function HeadersFor(options: Headers): (f: Slot -> Option<string> -> Headers)
    ensures forall s: Slot, etag: Option<string> :: f(s)(etag) == PluginRequestHeaders(options, s.value, etag)
  {
    (s: Slot) => (etag: Option<string>) => PluginRequestHeaders(options, s.value, etag)
  }

  /** The rule value a plugin's server sees is the percent-encoded value from the rule. */
  lemma RuleValueSent(options: Headers, value: string, etag: Option<string>)
    ensures PluginRequestHeaders(options, value, etag)[RuleValueHeader] == Encode(value)
  {
  }

  /** The entry a lookup of `key` finds in a cache whose entries are `views`. */
  function Found(views: map<string, EntryView>, key: string): (r: Option<EntryView>)
    ensures r.Some? <==> key in views
    ensures r.Some? ==> r.value == views[key]
  {
    if key in views then Some(views[key]) else None
  }

  /**
   * The part of the loop body of getRulesFromPlugins for a plugin with a server (lines 466-549):
   * served from a fresh cache entry, or requested (with the entry's etag, if any) and handled
   * against the entry found. With no revalidation in flight, a caller never waits. `headersFor`
   * gives the request headers for the etag sent (PluginRequestHeaders for this plugin).
   */
  method FetchSlot(cache: Cache, slot: Slot, ruleType: string, headersFor: Option<string> -> Headers,
                   transport: (nat, Headers) -> nat -> Attempt, parse: string -> Option<JsonRules>,
                   now: int, w: Waiter)
    returns (served: Served, sent: Option<Headers>, reply: Option<Reply>, attempts: nat)
    requires cache.Valid() && cache.Idle() && slot.port.Some?
    modifies cache, cache.Objects()
    ensures cache.Valid() && cache.Idle()
    ensures forall o :: o in cache.Objects() ==> o in old(cache.Objects()) || fresh(o)
    ensures SameElsewhere(old(cache.Views()), cache.Views(), CacheKey(slot.plugin.moduleName, ruleType))
    ensures var e := Found(old(cache.Views()), CacheKey(slot.plugin.moduleName, ruleType));
            var d := Decide(e, now);
            (d.ServeCached? ==> sent.None? && reply.None? && served == d.served) &&
            (!d.ServeCached? ==>
               d.Send? && sent == Some(headersFor(d.etag)) &&
               reply.Some? && attempts == AttemptsNeeded(transport(slot.port.value, sent.value), 0) &&
               reply.value == Interpret(transport(slot.port.value, sent.value)(attempts - 1), parse) &&
               served == ServedFor(e, reply.value))
  {
    var key := CacheKey(slot.plugin.moduleName, ruleType);
    ghost var e := Found(cache.Views(), key);
    ghost var v0 := cache.Views();
    var decision, data, flushed := cache.Lookup(key, now, w);
    ghost var v1 := cache.Views();
    if decision.ServeCached? {
      served, sent, reply, attempts := decision.served, None, None, 0;
      return;
    }
    var headers := headersFor(decision.etag);
    var r, n;
    served, r, n := RequestSlot(cache, key, data, transport(slot.port.value, headers), parse, now);
    SameElsewhereTrans(v0, v1, cache.Views(), key);
    if data != null {
      ServedIgnoresQueue(e.value, now, w, r);
    }
    sent, reply, attempts := Some(headers), Some(r), n;
  }

  /** requestRules with its callback handleRules, for the entry `data` a lookup of `key` found. */
  method RequestSlot(cache: Cache, key: string, data: Entry?, attempt: nat -> Attempt,
                     parse: string -> Option<JsonRules>, now: int)
    returns (served: Served, reply: Reply, attempts: nat)
    requires cache.Valid() && cache.IdleExcept(key)
    requires data == (if key in cache.entries then cache.entries[key] else null)
    modifies cache, data
    ensures cache.Valid() && cache.Idle()
    ensures forall o :: o in cache.Objects() ==> o in old(cache.Objects()) || fresh(o)
    ensures SameElsewhere(old(cache.Views()), cache.Views(), key)
    ensures attempts == AttemptsNeeded(attempt, 0) && reply == Interpret(attempt(attempts - 1), parse)
    ensures served == ServedFor(if data == null then None else Some(old(data.View())), reply)
  {
    reply, attempts := RequestRules(attempt, parse);
    var delivered;
    served, delivered := cache.HandleReply(key, data, reply, now);
  }

  /** The queue a lookup leaves on an entry does not change what its reply serves. */
  lemma ServedIgnoresQueue(e: EntryView, now: int, w: Waiter, reply: Reply)
    ensures ServedFor(Some(AfterLookup(e, now, w)), reply) == ServedFor(Some(e), reply)
  {
  }

  /** What a plugin with a server is served, given the cache entries as they were before the pass. */
  function SlotServed(views: map<string, EntryView>, slot: Slot, ruleType: string,
                      headersFor: Option<string> -> Headers, transport: (nat, Headers) -> nat -> Attempt,
                      parse: string -> Option<JsonRules>, now: int): (s: Served)
    requires slot.port.Some?
    ensures var e := Found(views, CacheKey(slot.plugin.moduleName, ruleType));
            e.Some? && IsFresh(e.value.ttl, now) ==> s == Served(NotModified, e.value.body, e.value.values, e.value.raw)
    ensures var e := Found(views, CacheKey(slot.plugin.moduleName, ruleType));
            s.err == NotModified && e.Some? ==> s.body == e.value.body && s.values == e.value.values
  {
    var e := Found(views, CacheKey(slot.plugin.moduleName, ruleType));
    var d := Decide(e, now);
    if d.ServeCached? then d.served
    else
      var attempt := transport(slot.port.value, headersFor(if d.Send? then d.etag else None));
      ServedFor(e, Interpret(attempt(AttemptsNeeded(attempt, 0) - 1), parse))
  }

  /** What every slot is served in a pass that starts with the cache entries `views`: nothing for
      a plugin without a server, SlotServed for one with a server. */
  function PassServed(views: map<string, EntryView>, slots: seq<Slot>, ruleType: string,
                      headersFor: Slot -> Option<string> -> Headers, transport: (nat, Headers) -> nat -> Attempt,
                      parse: string -> Option<JsonRules>, now: int): (r: seq<Option<Served>>)
    ensures |r| == |slots|
    ensures forall i :: 0 <= i < |slots| ==> (r[i].Some? <==> slots[i].port.Some?)
  {
    seq(|slots|, i requires 0 <= i < |slots| =>
      if slots[i].port.Some? then Some(SlotServed(views, slots[i], ruleType, headersFor(slots[i]), transport, parse, now))
      else None)
  }

  /** What a slot puts into `results`: the hidden rules of a plugin without a server, the fetched
      result of one with a server. */
  function SlotResult(slot: Slot, served: Option<Served>, isResRules: bool): (r: Option<RuleResult>)
    ensures r.Some? ==> r.value.root == slot.plugin.path
    ensures slot.port.None? ==> (r.Some? <==> !isResRules && slot.plugin.hiddenRules != [])
    ensures slot.port.Some? && served.None? ==> r.None?
    ensures !isResRules && slot.plugin.hiddenRules != [] && (slot.port.None? || served.Some?) ==> r.Some?
  {
    if slot.port.None? then StaticResult(slot.plugin, isResRules)
    else if served.Some? then FetchedResult(served.value, slot.plugin, isResRules)
    else None
  }

  /** The `results` array once every slot is done. */
  function SlotResults(slots: seq<Slot>, served: seq<Option<Served>>, isResRules: bool): (r: seq<Option<RuleResult>>)
    requires |served| == |slots|
    ensures |r| == |slots|
  {
    seq(|slots|, i requires 0 <= i < |slots| => SlotResult(slots[i], served[i], isResRules))
  }

  /** Plugins without a newline in their module names have different cache keys. */
  lemma SlotKeysDistinct(slots: seq<Slot>, ruleType: string, i: nat, j: nat)
    requires i < |slots| && j < |slots| && i != j
    requires slots[i].plugin.moduleName != slots[j].plugin.moduleName
    requires '\n' !in slots[i].plugin.moduleName && '\n' !in slots[j].plugin.moduleName
    ensures CacheKey(slots[i].plugin.moduleName, ruleType) != CacheKey(slots[j].plugin.moduleName, ruleType)
  {
    if CacheKey(slots[i].plugin.moduleName, ruleType) == CacheKey(slots[j].plugin.moduleName, ruleType) {
      CacheKeyInjective(slots[i].plugin.moduleName, ruleType, slots[j].plugin.moduleName, ruleType);
    }
  }

  /** Slot i of the pass: a plugin without a server is not asked; one with a server is served as
      the cache entries before the pass determine, since no other slot shares its key. */
  method ServeSlot(cache: Cache, slots: seq<Slot>, i: nat, ruleType: string,
                   headersFor: Slot -> Option<string> -> Headers, transport: (nat, Headers) -> nat -> Attempt,
                   parse: string -> Option<JsonRules>, now: int, ghost v0: map<string, EntryView>)
    returns (s: Option<Served>)
    requires i < |slots| && cache.Valid() && cache.Idle()
    requires forall j :: 0 <= j < |slots| ==> '\n' !in slots[j].plugin.moduleName
    requires forall j, k :: 0 <= j < k < |slots| ==> slots[j].plugin.moduleName != slots[k].plugin.moduleName
    requires forall j :: i <= j < |slots| ==>
               Found(cache.Views(), CacheKey(slots[j].plugin.moduleName, ruleType)) ==
               Found(v0, CacheKey(slots[j].plugin.moduleName, ruleType))
    modifies cache, cache.Objects()
    ensures cache.Valid() && cache.Idle()
    ensures forall o :: o in cache.Objects() ==> o in old(cache.Objects()) || fresh(o)
    ensures s.Some? <==> slots[i].port.Some?
    ensures s.Some? ==> s.value == SlotServed(v0, slots[i], ruleType, headersFor(slots[i]), transport, parse, now)
    ensures forall j :: i < j < |slots| ==>
              Found(cache.Views(), CacheKey(slots[j].plugin.moduleName, ruleType)) ==
              Found(v0, CacheKey(slots[j].plugin.moduleName, ruleType))
  {
    var slot := slots[i];
    if slot.port.None? {
      return None;
    }
    var served, sent, reply, attempts := FetchSlot(cache, slot, ruleType, headersFor(slot), transport, parse, now, i);
    s := Some(served);
    forall j | i < j < |slots|
      ensures Found(cache.Views(), CacheKey(slots[j].plugin.moduleName, ruleType)) ==
              Found(v0, CacheKey(slots[j].plugin.moduleName, ruleType))
    {
      SlotKeysDistinct(slots, ruleType, i, j);
    }
  }

  /** The slots served one after the other, each with the waiter number of its index. */
  method ServeAll(cache: Cache, slots: seq<Slot>, ruleType: string,
                  headersFor: Slot -> Option<string> -> Headers, transport: (nat, Headers) -> nat -> Attempt,
                  parse: string -> Option<JsonRules>, now: int)
    returns (served: seq<Option<Served>>)
    requires cache.Valid() && cache.Idle()
    requires forall i :: 0 <= i < |slots| ==> '\n' !in slots[i].plugin.moduleName
    requires forall i, j :: 0 <= i < j < |slots| ==> slots[i].plugin.moduleName != slots[j].plugin.moduleName
    modifies cache, cache.Objects()
    ensures cache.Valid() && cache.Idle()
    ensures served == PassServed(old(cache.Views()), slots, ruleType, headersFor, transport, parse, now)
  {
    ghost var v0 := cache.Views();
    ghost var expected := PassServed(v0, slots, ruleType, headersFor, transport, parse, now);
    served := [];
    for i := 0 to |slots|
      invariant cache.Valid() && cache.Idle()
      invariant forall o :: o in cache.Objects() ==> o in old(cache.Objects()) || fresh(o)
      invariant served == expected[..i]
      invariant forall j :: i <= j < |slots| ==>
                  Found(cache.Views(), CacheKey(slots[j].plugin.moduleName, ruleType)) ==
                  Found(v0, CacheKey(slots[j].plugin.moduleName, ruleType))
    {
      var s := ServeSlot(cache, slots, i, ruleType, headersFor, transport, parse, now, v0);
      served := served + [s];
    }
  }

  /** `results[i] = ...` for every slot, in an array of the slots' length. */
  method FillResults(slots: seq<Slot>, served: seq<Option<Served>>, isResRules: bool)
    returns (results: array<Option<RuleResult>>)
    requires |served| == |slots|
    ensures fresh(results) && results[..] == SlotResults(slots, served, isResRules)
  {
    results := new Option<RuleResult>[|slots|](_ => None);
    for i := 0 to |slots|
      invariant forall j :: 0 <= j < i ==> results[j] == SlotResult(slots[j], served[j], isResRules)
    {
      results[i] := SlotResult(slots[i], served[i], isResRules);
    }
  }

  /**
   * getRulesFromPlugins (lines 415-550) for distinct selected plugins, one after the other: each
   * slot gets its plugin's result, and the rule list and values are assembled from the slots. No
   * slots, no rules (the callback gets nothing). Every plugin is sent the shared `options`
   * headers with its own rule value and the etag of its cache entry.
   */
  method GetRulesFromPlugins(cache: Cache, ruleType: string, slots: seq<Slot>,
                             options: Headers, script: Option<RuleResult>,
                             transport: (nat, Headers) -> nat -> Attempt, parse: string -> Option<JsonRules>,
                             now: int)
    returns (outcome: Option<Assembled>, served: seq<Option<Served>>)
    requires cache.Valid() && cache.Idle()
    requires forall i :: 0 <= i < |slots| ==> '\n' !in slots[i].plugin.moduleName
    requires forall i, j :: 0 <= i < j < |slots| ==> slots[i].plugin.moduleName != slots[j].plugin.moduleName
    modifies cache, cache.Objects()
    ensures cache.Valid() && cache.Idle()
    ensures served == PassServed(old(cache.Views()), slots, ruleType, HeadersFor(options), transport, parse, now)
    ensures slots == [] ==> outcome.None?
    ensures slots != [] ==>
              var ordered := Ordered(SlotResults(slots, served, ruleType == "resRules"), ruleType == "resRules", script);
              outcome == Some(Assembled(ordered, MergedValues(ordered)))
  {
    if |slots| == 0 {
      return None, [];
    }
    var isResRules := ruleType == "resRules";
    served := ServeAll(cache, slots, ruleType, HeadersFor(options), transport, parse, now);
    var results := FillResults(slots, served, isResRules);
    var ordered, values := Assemble(results[..], isResRules, script);
    outcome := Some(Assembled(ordered, values));
  }
}
