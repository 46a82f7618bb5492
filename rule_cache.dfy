/**
 * The per-key cache of the rules a plugin's server returned (the `rulesCache` of
 * getRulesFromPlugins). An entry is served without a request while it is fresh; a stale entry
 * sends its etag for revalidation; a 304 reuses the entry; any other response replaces or evicts
 * it; and while one revalidation of an entry with a max-age is in flight, later callers wait for it.
 * Times are milliseconds, passed in by the caller.
 */
module RuleCache {
  import opened Common
  import opened RuleFetch

  /** A cache key: the plugin's module name and the rule type, joined by a newline. */
  function CacheKey(moduleName: string, ruleType: string): (k: string)
    ensures |k| == |moduleName| + 1 + |ruleType| && k[|moduleName|] == '\n'
    ensures k[..|moduleName|] == moduleName && k[|moduleName| + 1..] == ruleType
  {
    moduleName + "\n" + ruleType
  }

  /** Different plugins or types never share an entry, as long as module names have no newline. */
  lemma CacheKeyInjective(m1: string, t1: string, m2: string, t2: string)
    requires '\n' !in m1 && '\n' !in m2
    requires CacheKey(m1, t1) == CacheKey(m2, t2)
    ensures m1 == m2 && t1 == t2
  {
    var k := CacheKey(m1, t1);
    assert k[|m2|] == '\n';
  }

  /** A request waiting for the in-flight one: its callback, identified by a number. */
  type Waiter = nat

  /** A max-age (ms) and the time it was received. */
  datatype Ttl = Ttl(maxAge: int, at: int)

  /** The state of one cache entry. `etag` is "" when it has none. */
  datatype EntryView = EntryView(body: Option<string>, values: Option<Values>, raw: Option<string>,
                                 etag: string, ttl: Option<Ttl>, pending: Option<seq<Waiter>>)

  /** What every stored entry satisfies: it has a max-age or an etag (otherwise it is not
      stored), a max-age is never negative, and only an entry with a max-age has waiters. */
  predicate EntryValid(e: EntryView) {
    (e.ttl.Some? || e.etag != []) && (e.ttl.Some? ==> e.ttl.value.maxAge >= 0) &&
    (e.pending.Some? ==> e.ttl.Some?)
  }

  /** `now - data.now <= data.maxAge`: false when the entry has no max-age (the comparison with
      undefined fails). */
  predicate IsFresh(ttl: Option<Ttl>, now: int) {
    ttl.Some? && now - ttl.value.at <= ttl.value.maxAge
  }

  /** What a caller gets: the error, rule text, values and raw text. */
  datatype Served = Served(err: ErrKind, body: Option<string>, values: Option<Values>, raw: Option<string>)

  /** The three outcomes of a lookup. */
  datatype Decision = ServeCached(served: Served) | Enqueue | Send(etag: Option<string>)

  /** What a lookup at `now` does with the entry found (if any): a fresh entry is served as it is,
      a stale one with a max-age and a request in flight makes the caller wait, and anything else
      sends a request, with the entry's etag when it has one. */
  function Decide(e: Option<EntryView>, now: int): (d: Decision)
    ensures d.ServeCached? <==> e.Some? && IsFresh(e.value.ttl, now)
    ensures d.ServeCached? ==> d.served == Served(NotModified, e.value.body, e.value.values, e.value.raw)
    ensures d.Enqueue? <==> e.Some? && !IsFresh(e.value.ttl, now) && e.value.ttl.Some? && e.value.pending.Some?
    ensures d.Send? ==> (d.etag.Some? <==> e.Some? && e.value.etag != []) &&
                        (d.etag.Some? ==> d.etag.value == e.value.etag)
  {
    if e.None? then Send(None)
    else if IsFresh(e.value.ttl, now) then ServeCached(Served(NotModified, e.value.body, e.value.values, e.value.raw))
    else if e.value.ttl.Some? && e.value.pending.Some? then Enqueue
    else Send(if e.value.etag != [] then Some(e.value.etag) else None)
  }

  /** The entry after a lookup by `w` at `now`: a fresh hit hands out any waiters; a stale entry
      with a max-age queues `w` behind the request in flight, or marks one as in flight. */
  function AfterLookup(e: EntryView, now: int, w: Waiter): (r: EntryView)
    ensures r.body == e.body && r.values == e.values && r.raw == e.raw && r.etag == e.etag && r.ttl == e.ttl
    ensures EntryValid(e) ==> EntryValid(r)
  {
    if IsFresh(e.ttl, now) then e.(pending := None)
    else if e.ttl.None? then e
    else if e.pending.Some? then e.(pending := Some(e.pending.value + [w]))
    else e.(pending := Some([]))
  }

  /** The waiters a lookup hands the cached result to. */
  function FlushedBy(e: EntryView, now: int): seq<Waiter> {
    if IsFresh(e.ttl, now) && e.pending.Some? then e.pending.value else []
  }

  /** The max-age a 304 refreshes the entry with: a new one when the response carries a
      non-negative max-age, the old one otherwise. */
  function Refreshed(ttl: Option<Ttl>, res: Option<Response>, now: int): (r: Option<Ttl>)
    ensures ttl.Some? ==> r.Some?
    ensures res.Some? && res.value.maxAge.Some? && res.value.maxAge.value >= 0 ==>
              r == Some(Ttl(res.value.maxAge.value, now))
    ensures r != ttl ==> res.Some? && res.value.maxAge.Some? && res.value.maxAge.value >= 0
  {
    if res.Some? && res.value.maxAge.Some? && res.value.maxAge.value >= 0 then Some(Ttl(res.value.maxAge.value, now))
    else ttl
  }

  /** The entry a response stores: one with its etag and non-negative max-age, or none (the key
      is deleted) when it has neither. */
  function Stored(reply: Reply, now: int): (r: Option<EntryView>)
    requires reply.res.Some?
    ensures r.Some? <==> reply.res.value.etag != [] || (reply.res.value.maxAge.Some? && reply.res.value.maxAge.value >= 0)
    ensures r.Some? ==> EntryValid(r.value) && r.value.pending.None? && r.value.body == reply.rules &&
                        r.value.values == reply.values && r.value.raw == reply.raw
  {
    var res := reply.res.value;
    var ttl := if res.maxAge.Some? && res.maxAge.value >= 0 then Some(Ttl(res.maxAge.value, now)) else None;
    if ttl.None? && res.etag == [] then None
    else Some(EntryView(reply.rules, reply.values, reply.raw, res.etag, ttl, None))
  }

  /** What the request's callback (and every waiter) receives: for a 304 with a cached entry, the
      entry's text and values; otherwise the reply's own. */
  function ServedFor(captured: Option<EntryView>, reply: Reply): Served {
    if reply.err == NotModified && captured.Some? then
      Served(NotModified, captured.value.body, captured.value.values, captured.value.raw)
    else Served(reply.err, reply.rules, reply.values, reply.raw)
  }

  /** The entries other than `key` are the same in both states. */
  ghost predicate SameElsewhere(a: map<string, EntryView>, b: map<string, EntryView>, key: string) {
    forall k :: k != key ==> (k in a <==> k in b) && (k in a ==> a[k] == b[k])
  }

  lemma SameElsewhereTrans(a: map<string, EntryView>, b: map<string, EntryView>, c: map<string, EntryView>, key: string)
    requires SameElsewhere(a, b, key) && SameElsewhere(b, c, key)
    ensures SameElsewhere(a, c, key)
  {
  }

  /** One cache entry, updated in place by lookups and replies. */
  class Entry {
    const body: Option<string>
    const values: Option<Values>
    const raw: Option<string>
    const etag: string
    var ttl: Option<Ttl>
    var pending: Option<seq<Waiter>>

    function View(): EntryView
      reads this
    {
      EntryView(body, values, raw, etag, ttl, pending)
    }

    constructor (v: EntryView)
      requires v.pending.None?
      ensures View() == v
    {
      body, values, raw, etag := v.body, v.values, v.raw, v.etag;
      ttl, pending := v.ttl, None;
    }
  }

  /** The cache: one entry object per key. */
  class Cache {
    var entries: map<string, Entry>

    ghost function Objects(): set<Entry>
      reads this
    {
      set k | k in entries :: entries[k]
    }

    /** The state of every entry, by key. */
    ghost function Views(): map<string, EntryView>
      reads this, Objects()
    {
      map k | k in entries :: entries[k].View()
    }

    /** Every key has its own entry object, and every entry is valid. */
    ghost predicate Valid()
      reads this, Objects()
    {
      (forall k1, k2 :: k1 in entries && k2 in entries && k1 != k2 ==> entries[k1] != entries[k2]) &&
      forall k :: k in entries ==> EntryValid(entries[k].View())
    }

    /** No revalidation is in flight: no entry has a queue of waiting callers. */
    ghost predicate Idle()
      reads this, Objects()
    {
      forall k :: k in entries ==> entries[k].pending.None?
    }

    /** No revalidation is in flight except perhaps the one for `key`. */
    ghost predicate IdleExcept(key: string)
      reads this, Objects()
    {
      forall k :: k in entries && k != key ==> entries[k].pending.None?
    }

    constructor ()
      ensures Valid() && entries == map[]
    {
      entries := map[];
    }

    /**
     * The lookup at the start of one plugin's rules request (lines 534-549): decides between the
     * cached result, waiting, and a request (with the entry's etag), updates the entry, and
     * returns the entry it found, which the reply is later handled against.
     */
    method Lookup(key: string, now: int, w: Waiter) returns (decision: Decision, data: Entry?, flushed: seq<Waiter>)
      requires Valid()
      modifies if key in entries then {entries[key]} else {}
      ensures Valid() && entries == old(entries)
      ensures data == (if key in entries then entries[key] else null)
      ensures decision == Decide(if key in old(Views()) then Some(old(Views())[key]) else None, now)
      ensures key in entries ==> entries[key].View() == AfterLookup(old(Views())[key], now, w)
      ensures flushed == (if key in old(Views()) then FlushedBy(old(Views())[key], now) else [])
      ensures SameElsewhere(old(Views()), Views(), key)
      ensures old(Idle()) ==> IdleExcept(key) && !decision.Enqueue? && (decision.ServeCached? ==> Idle())
    {
      flushed := [];
      if key !in entries {
        data := null;
        decision := Send(None);
        return;
      }
      data := entries[key];
      if IsFresh(data.ttl, now) {
        decision := ServeCached(Served(NotModified, data.body, data.values, data.raw));
        if data.pending.Some? {
          flushed := data.pending.value;
          data.pending := None;
        }
        return;
      }
      decision := Send(if data.etag != [] then Some(data.etag) else None);
      if data.ttl.Some? {
        if data.pending.Some? {
          data.pending := Some(data.pending.value + [w]);
          decision := Enqueue;
          return;
        }
        data.pending := Some([]);
      }
    }

    /**
     * handleRules (lines 484-517) for the reply to a request issued after looking up `key` and
     * finding `data`: a 304 reuses and refreshes the entry found; any other response stores a
     * new entry or deletes the key; the waiters are handed the same result and the queue goes.
     */
    method HandleReply(key: string, data: Entry?, reply: Reply, now: int) returns (served: Served, delivered: seq<Waiter>)
      requires Valid()
      requires data != null ==> EntryValid(data.View())
      requires data != null && data in Objects() ==> key in entries && entries[key] == data
      modifies this, data
      ensures Valid()
      ensures served == ServedFor(if data == null then None else Some(old(data.View())), reply)
      ensures delivered == (if data == null then [] else old(data.pending).GetOr([]))
      ensures data != null ==> data.pending.None?
      ensures reply.err == NotModified && data != null ==>
                entries == old(entries) && data.ttl == Refreshed(old(data.ttl), reply.res, now)
      ensures !(reply.err == NotModified && data != null) && reply.res.Some? ==>
                (var s := Stored(reply, now);
                 (s.Some? ==> key in entries && fresh(entries[key]) && entries[key].View() == s.value) &&
                 (s.None? ==> key !in entries) &&
                 forall k :: k != key ==> (k in entries <==> k in old(entries)) &&
                                          (k in entries ==> entries[k] == old(entries[k])))
      ensures !(reply.err == NotModified && data != null) && reply.res.None? ==> entries == old(entries)
      ensures forall o :: o in Objects() ==> o in old(Objects()) || fresh(o)
      ensures data != null && !(reply.err == NotModified) ==> data.ttl == old(data.ttl)
      ensures SameElsewhere(old(Views()), Views(), key)
      ensures old(IdleExcept(key)) && data == old(if key in entries then entries[key] else null) ==> Idle()
    {
      if reply.err == NotModified && data != null {
        served := Served(NotModified, data.body, data.values, data.raw);
        Revalidated(key, data, reply.res, now);
      } else {
        served := Served(reply.err, reply.rules, reply.values, reply.raw);
        if reply.res.Some? {
          Replace(key, reply, now);
        }
      }
      delivered := [];
      if data != null {
        delivered := TakeWaiters(key, data);
      }
    }

    /** updateMaxAge on the entry found, for a 304. */
    method Revalidated(key: string, data: Entry, res: Option<Response>, now: int)
      requires Valid() && EntryValid(data.View())
      requires data in Objects() ==> key in entries && entries[key] == data
      modifies data
      ensures Valid() && EntryValid(data.View())
      ensures data.ttl == Refreshed(old(data.ttl), res, now) && data.pending == old(data.pending)
      ensures SameElsewhere(old(Views()), Views(), key)
      ensures old(IdleExcept(key)) ==> IdleExcept(key)
    {
      data.ttl := Refreshed(data.ttl, res, now);
    }

    /** Hands the queued callers over: the queue is removed from the entry found. */
    method TakeWaiters(key: string, data: Entry) returns (delivered: seq<Waiter>)
      requires Valid() && EntryValid(data.View())
      requires data in Objects() ==> key in entries && entries[key] == data
      modifies data
      ensures Valid()
      ensures delivered == old(data.pending).GetOr([]) && data.pending.None? && data.ttl == old(data.ttl)
      ensures SameElsewhere(old(Views()), Views(), key)
      ensures old(IdleExcept(key)) && (key in entries ==> entries[key] == data || entries[key].pending.None?) ==> Idle()
    {
      delivered := data.pending.GetOr([]);
      data.pending := None;
    }

    /** rulesCache.set or rulesCache.del for a response that is not a 304 on a cached entry. */
    method Replace(key: string, reply: Reply, now: int)
      requires Valid() && reply.res.Some?
      modifies this
      ensures Valid()
      ensures var s := Stored(reply, now);
              (s.Some? ==> key in entries && fresh(entries[key]) && entries[key].View() == s.value) &&
              (s.None? ==> key !in entries)
      ensures forall k :: k != key ==> (k in entries <==> k in old(entries)) &&
                                       (k in entries ==> entries[k] == old(entries[k]))
      ensures forall o :: o in Objects() ==> o in old(Objects()) || fresh(o)
      ensures SameElsewhere(old(Views()), Views(), key)
      ensures old(IdleExcept(key)) ==> Idle()
    {
      var s := Stored(reply, now);
      if s.Some? {
        var e := new Entry(s.value);
        entries := entries[key := e];
      } else {
        entries := entries - {key};
      }
    }
  }

  // ---------------------------------------------------------------------------------------------
  // Properties of the entry state machine

  /** A fresh entry is served without a request, with its own text and values, and whatever
      waited on it is handed the same. */
  lemma FreshServedFromCache(e: EntryView, now: int)
    requires IsFresh(e.ttl, now)
    ensures Decide(Some(e), now) == ServeCached(Served(NotModified, e.body, e.values, e.raw))
    ensures Decide(Some(e), now).served == ServedFor(Some(e), Reply(NotModified, None, None, None, None))
  {
  }

  /** Freshness is a window: an entry fresh at some time was fresh at every earlier time since it
      was received, and an entry without a max-age is never fresh. */
  lemma FreshnessWindow(ttl: Option<Ttl>, t1: int, t2: int)
    ensures ttl.None? ==> !IsFresh(ttl, t1)
    ensures IsFresh(ttl, t2) && t1 <= t2 ==> IsFresh(ttl, t1)
    ensures ttl.Some? ==> (IsFresh(ttl, t1) <==> t1 <= ttl.value.at + ttl.value.maxAge)
  {
  }

  /** A stored entry with max-age m is fresh for m milliseconds after the response and stale
      afterwards, when its etag (if any) is sent. */
  lemma StoredFreshFor(reply: Reply, at: int, now: int)
    requires reply.res.Some? && reply.res.value.maxAge.Some? && reply.res.value.maxAge.value >= 0
    ensures Stored(reply, at).Some?
    ensures now - at <= reply.res.value.maxAge.value ==> Decide(Stored(reply, at), now).ServeCached?
    ensures now - at > reply.res.value.maxAge.value ==>
              Decide(Stored(reply, at), now) ==
              Send(if reply.res.value.etag != [] then Some(reply.res.value.etag) else None)
  {
  }

  /** An entry with only an etag is never fresh and never makes a caller wait: every lookup sends
      the etag, and the entry is left as it was. */
  lemma EtagOnlyAlwaysRevalidates(e: EntryView, now: int, w: Waiter)
    requires EntryValid(e) && e.ttl.None?
    ensures Decide(Some(e), now) == Send(Some(e.etag))
    ensures AfterLookup(e, now, w) == e
  {
  }

  /** Lookups in a row on one entry, with their times and waiters. */
  function LookupRun(e: EntryView, nows: seq<int>, ws: seq<Waiter>): (r: (EntryView, seq<Decision>))
    requires |nows| == |ws|
    ensures |r.1| == |nows|
    decreases |nows|
  {
    if nows == [] then (e, [])
    else
      var next := LookupRun(AfterLookup(e, nows[0], ws[0]), nows[1..], ws[1..]);
      (next.0, [Decide(Some(e), nows[0])] + next.1)
  }

  /**
   * Coalescing: while a stale entry with a max-age has a request in flight, every further lookup
   * waits, none sends a request, and the waiters queue up in arrival order.
   */
  lemma {:induction false} StaleLookupsCoalesce(e: EntryView, nows: seq<int>, ws: seq<Waiter>)
    requires |nows| == |ws|
    requires e.ttl.Some? && e.pending.Some?
    requires forall i :: 0 <= i < |nows| ==> !IsFresh(e.ttl, nows[i])
    ensures forall i :: 0 <= i < |nows| ==> LookupRun(e, nows, ws).1[i] == Enqueue
    ensures LookupRun(e, nows, ws).0 == e.(pending := Some(e.pending.value + ws))
    decreases |nows|
  {
    if nows == [] {
      assert e.pending.value + ws == e.pending.value;
    } else {
      var e1 := AfterLookup(e, nows[0], ws[0]);
      assert e1 == e.(pending := Some(e.pending.value + [ws[0]]));
      StaleLookupsCoalesce(e1, nows[1..], ws[1..]);
      assert e.pending.value + [ws[0]] + ws[1..] == e.pending.value + ws;
    }
  }

  /** The first stale lookup of an entry with a max-age sends the request; everyone after it
      waits, until the reply. */
  lemma FirstStaleLookupSends(e: EntryView, nows: seq<int>, ws: seq<Waiter>)
    requires |nows| == |ws| && |nows| >= 1
    requires e.ttl.Some? && e.pending.None?
    requires forall i :: 0 <= i < |nows| ==> !IsFresh(e.ttl, nows[i])
    ensures LookupRun(e, nows, ws).1[0] == Send(if e.etag != [] then Some(e.etag) else None)
    ensures forall i :: 1 <= i < |nows| ==> LookupRun(e, nows, ws).1[i] == Enqueue
    ensures LookupRun(e, nows, ws).0.pending == Some(ws[1..])
  {
    var e1 := AfterLookup(e, nows[0], ws[0]);
    assert e1 == e.(pending := Some([]));
    StaleLookupsCoalesce(e1, nows[1..], ws[1..]);
    assert [] + ws[1..] == ws[1..];
  }

  /** A 304 hands the caller the cached text and values, whatever the reply carried. */
  lemma NotModifiedReusesEntry(e: EntryView, reply: Reply)
    requires reply.err == NotModified
    ensures ServedFor(Some(e), reply) == Served(NotModified, e.body, e.values, e.raw)
  {
  }

  /**
   * A worked timeline: an entry stored at t=1000 with max-age 2000 and etag "e1" is served from
   * the cache at t=3000, revalidated with "e1" at t=3001, and after a 304 with max-age 2000 it is
   * fresh again until t=5001.
   */
  lemma RevalidationTimeline(rules: string)
    ensures var reply := Reply(NoError, Some(rules), None, Some(rules), Some(Response(200, "e1", Some(2000))));
            var e := Stored(reply, 1000).value;
            Decide(Some(e), 3000) == ServeCached(Served(NotModified, Some(rules), None, Some(rules))) &&
            Decide(Some(e), 3001) == Send(Some("e1")) &&
            var e2 := AfterLookup(e, 3001, 7);
            var refreshed := e2.(ttl := Refreshed(e2.ttl, Some(Response(304, "", Some(2000))), 3001), pending := None);
            Decide(Some(refreshed), 5001).ServeCached? && Decide(Some(refreshed), 5002) == Send(Some("e1"))
  {
  }
}
