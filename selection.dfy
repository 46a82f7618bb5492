/**
 * Which plugins apply to a request: the plugin named by the protocol of the matched rule's URL,
 * followed by the plugins named in the request's `plugin://` / `whistle.name(...)` rules, in
 * declaration order, each at most once, disabled ones left out.
 */
module Selection {
  import opened Common
  import opened Registry

  /** _getPlugin: the registered plugin for a protocol ("foo:"), unless it is disabled. */
  function GetPlugin(plugins: Snapshot, sw: Switches, protocol: string): (p: Option<Plugin>)
    ensures p.Some? <==> protocol in plugins && !IsDisabled(sw, DropLast(protocol))
    ensures p.Some? ==> p.value == plugins[protocol]
  {
    if IsDisabled(sw, DropLast(protocol)) || protocol !in plugins then None else Some(plugins[protocol])
  }

  /** The protocol of a rule URL: everything up to and including its first colon. */
  function Protocol(ruleUrl: Option<string>): (r: Option<string>)
    ensures r.Some? ==> ruleUrl.Some? && StartsWith(ruleUrl.value, r.value) && |r.value| >= 1 &&
                        r.value[|r.value| - 1] == ':' && ':' !in DropLast(r.value)
    ensures r.None? <==> ruleUrl.None? || ':' !in ruleUrl.value
  {
    if ruleUrl.None? || ruleUrl.value == "" then None
    else
      var index := IndexOf(ruleUrl.value, ':');
      if index == -1 then None
      else
        assert DropLast(ruleUrl.value[..index + 1]) == ruleUrl.value[..index];
        Some(ruleUrl.value[..index + 1])
  }

  /** getPluginByRuleUrl: the enabled plugin registered for the URL's protocol, if any. */
  function GetPluginByRuleUrl(plugins: Snapshot, sw: Switches, ruleUrl: Option<string>): (p: Option<Plugin>)
    ensures p.Some? <==> Protocol(ruleUrl).Some? && Protocol(ruleUrl).value in plugins &&
                         !IsDisabled(sw, DropLast(Protocol(ruleUrl).value))
    ensures p.Some? ==> p.value == plugins[Protocol(ruleUrl).value]
  {
    var protocol := Protocol(ruleUrl);
    if protocol.None? then None else GetPlugin(plugins, sw, protocol.value)
  }

  /** The primary plugin is the one registered for the rule URL's scheme: for "name:rest" with no
      colon in name, the plugin under "name:" when it is enabled, and nothing otherwise. */
  lemma RuleUrlSelectsScheme(plugins: Snapshot, sw: Switches, name: string, rest: string)
    requires ':' !in name
    ensures GetPluginByRuleUrl(plugins, sw, Some(name + ":" + rest)) ==
            if name + ":" in plugins && !IsDisabled(sw, name) then Some(plugins[name + ":"]) else None
  {
    var url := name + ":" + rest;
    assert url[|name|] == ':';
    assert url[..|name|] == name;
    var index := IndexOf(url, ':');
    assert index == |name|;
    assert url[..index + 1] == name + ":";
    assert DropLast(name + ":") == name;
  }

  /** A URL without a colon names no plugin. */
  lemma NoColonNoPlugin(plugins: Snapshot, sw: Switches, url: string)
    requires ':' !in url
    ensures GetPluginByRuleUrl(plugins, sw, Some(url)).None?
  {
  }

  // ---------------------------------------------------------------------------------------------
  // Plugin references: "name", "name(arg)", "name://arg"

  /** [a-z\d_\-] */
  predicate IsNameChar(c: char) {
    ('a' <= c <= 'z') || ('0' <= c <= '9') || c == '_' || c == '-'
  }

  predicate IsName(s: string) {
    s != [] && forall i :: 0 <= i < |s| ==> IsNameChar(s[i])
  }

  /** Length of the longest prefix of name characters. */
  function NameLength(s: string): (n: nat)
    ensures n <= |s|
    ensures forall i :: 0 <= i < n ==> IsNameChar(s[i])
    ensures n < |s| ==> !IsNameChar(s[n])
  {
    if s == [] || !IsNameChar(s[0]) then 0 else 1 + NameLength(s[1..])
  }

  /** A plugin reference: the scheme name and, when one was given, the argument. */
  datatype PluginRef = PluginRef(name: string, arg: Option<string>)

  /**
   * The two patterns at lines 753-754, tried in that order: a name, optionally followed by an
   * argument in parentheses (everything up to the final ')') or after "://".
   */
  function ParsePluginRef(value: string): (r: Option<PluginRef>)
    ensures r.Some? ==> IsName(r.value.name)
  {
    var n := NameLength(value);
    if n == 0 then None
    else
      var name, rest := value[..n], value[n..];
      if rest == [] then Some(PluginRef(name, None))
      else if |rest| >= 2 && rest[0] == '(' && rest[|rest| - 1] == ')' then
        Some(PluginRef(name, Some(rest[1..|rest| - 1])))
      else if |rest| >= 3 && rest[..3] == "://" then Some(PluginRef(name, Some(rest[3..])))
      else None
  }

  lemma {:induction false} NameLengthOfName(name: string, rest: string)
    requires IsName(name)
    requires rest == [] || !IsNameChar(rest[0])
    ensures NameLength(name + rest) == |name|
  {
    if |name| == 1 {
      assert (name + rest)[1..] == rest;
    } else {
      assert (name + rest)[1..] == name[1..] + rest;
      NameLengthOfName(name[1..], rest);
    }
  }

  /** The three written forms parse back to their name and argument. */
  lemma ParseRefForms(name: string, arg: string)
    requires IsName(name)
    ensures ParsePluginRef(name) == Some(PluginRef(name, None))
    ensures ParsePluginRef(name + "(" + arg + ")") == Some(PluginRef(name, Some(arg)))
    ensures ParsePluginRef(name + "://" + arg) == Some(PluginRef(name, Some(arg)))
  {
    NameLengthOfName(name, []);
    assert name + [] == name;
    var call := name + "(" + arg + ")";
    NameLengthOfName(name, "(" + arg + ")");
    assert call == name + ("(" + arg + ")");
    assert call[..|name|] == name && call[|name|..] == "(" + arg + ")";
    var link := name + "://" + arg;
    NameLengthOfName(name, "://" + arg);
    assert link == name + ("://" + arg);
    assert link[..|name|] == name && link[|name|..] == "://" + arg;
  }

  /** Whatever parses is one of the three forms. */
  lemma ParseRefSound(value: string)
    requires ParsePluginRef(value).Some?
    ensures var r := ParsePluginRef(value).value;
            match r.arg
            case None => value == r.name
            case Some(a) => value == r.name + "(" + a + ")" || value == r.name + "://" + a
  {
    var n := NameLength(value);
    var rest := value[n..];
    assert value == value[..n] + rest;
    if |rest| >= 2 && rest[0] == '(' && rest[|rest| - 1] == ')' {
      assert rest == "(" + rest[1..|rest| - 1] + ")";
    } else if |rest| >= 3 && rest[..3] == "://" {
      assert rest == "://" + rest[3..];
    }
  }

  /** A `plugin` rule as the rule engine matched it. */
  datatype PluginRule = PluginRule(matcher: string, matcherValue: string)

  /** The text a plugin rule names its plugin with (lines 762-767). */
  function RefText(rule: PluginRule): string {
    if StartsWith(rule.matcher, "plugin://") then rule.matcherValue
    else rule.matcher[IndexOf(rule.matcher, '.') + 1..]
  }

  /** A selected plugin: its registry key, its entry and its argument. */
  datatype Selected = Selected(key: string, plugin: Plugin, value: Option<string>)

  /** getPluginByPluginRule. */
  function GetPluginByPluginRule(plugins: Snapshot, sw: Switches, rule: PluginRule): (r: Option<Selected>)
    ensures r.Some? ==> r.value.key in plugins && r.value.plugin == plugins[r.value.key] &&
                        !IsDisabled(sw, DropLast(r.value.key))
  {
    var ref := ParsePluginRef(RefText(rule));
    if ref.None? then None
    else
      var key := ref.value.name + ":";
      var plugin := GetPlugin(plugins, sw, key);
      if plugin.None? then None else Some(Selected(key, plugin.value, ref.value.arg))
  }

  /** The selection a rule naming `name` with argument `arg` should make: the registered entry
      under "name:" when it is enabled, nothing otherwise. */
  function NamedSelection(plugins: Snapshot, sw: Switches, name: string, arg: Option<string>): Option<Selected> {
    if name + ":" in plugins && !IsDisabled(sw, name) then Some(Selected(name + ":", plugins[name + ":"], arg))
    else None
  }

  /** A rule whose text parses selects the plugin it names, with the argument it gives. */
  lemma ParsedRefSelects(plugins: Snapshot, sw: Switches, rule: PluginRule, ref: PluginRef)
    requires ParsePluginRef(RefText(rule)) == Some(ref)
    ensures GetPluginByPluginRule(plugins, sw, rule) == NamedSelection(plugins, sw, ref.name, ref.arg)
  {
    assert DropLast(ref.name + ":") == ref.name;
  }

  /** A rule matched as "plugin://..." names its plugin by its matcher value, in any of the three
      forms, and selects exactly that plugin with that argument. */
  lemma PluginUrlRuleSelects(plugins: Snapshot, sw: Switches, name: string, arg: string, t: string)
    requires IsName(name)
    ensures GetPluginByPluginRule(plugins, sw, PluginRule("plugin://" + t, name)) ==
            NamedSelection(plugins, sw, name, None)
    ensures GetPluginByPluginRule(plugins, sw, PluginRule("plugin://" + t, name + "(" + arg + ")")) ==
            NamedSelection(plugins, sw, name, Some(arg))
    ensures GetPluginByPluginRule(plugins, sw, PluginRule("plugin://" + t, name + "://" + arg)) ==
            NamedSelection(plugins, sw, name, Some(arg))
  {
    ParseRefForms(name, arg);
    assert ("plugin://" + t)[..9] == "plugin://";
    ParsedRefSelects(plugins, sw, PluginRule("plugin://" + t, name), PluginRef(name, None));
    ParsedRefSelects(plugins, sw, PluginRule("plugin://" + t, name + "(" + arg + ")"), PluginRef(name, Some(arg)));
    ParsedRefSelects(plugins, sw, PluginRule("plugin://" + t, name + "://" + arg), PluginRef(name, Some(arg)));
  }

  /** A matcher "whistle.rest" names its plugin by everything after the first dot. */
  lemma WhistleRefText(rest: string, mv: string)
    ensures RefText(PluginRule("whistle." + rest, mv)) == rest
  {
    var m := "whistle." + rest;
    assert m[0] == 'w' && m[7] == '.';
    assert IndexOf(m, '.') == 7;
    assert m[8..] == rest;
  }

  /** A rule matched as "whistle.name", "whistle.name(arg)" or "whistle.name://arg" selects exactly
      that plugin with that argument, whatever its matcher value. */
  lemma WhistleRuleSelects(plugins: Snapshot, sw: Switches, name: string, arg: string, mv: string)
    requires IsName(name)
    ensures GetPluginByPluginRule(plugins, sw, PluginRule("whistle." + name, mv)) ==
            NamedSelection(plugins, sw, name, None)
    ensures GetPluginByPluginRule(plugins, sw, PluginRule("whistle." + (name + "(" + arg + ")"), mv)) ==
            NamedSelection(plugins, sw, name, Some(arg))
    ensures GetPluginByPluginRule(plugins, sw, PluginRule("whistle." + (name + "://" + arg), mv)) ==
            NamedSelection(plugins, sw, name, Some(arg))
  {
    ParseRefForms(name, arg);
    WhistleRefSelects(plugins, sw, name, mv, PluginRef(name, None));
    WhistleRefSelects(plugins, sw, name + "(" + arg + ")", mv, PluginRef(name, Some(arg)));
    WhistleRefSelects(plugins, sw, name + "://" + arg, mv, PluginRef(name, Some(arg)));
  }

  /** A "whistle." matcher selects what the text after the dot names. */
  lemma WhistleRefSelects(plugins: Snapshot, sw: Switches, rest: string, mv: string, ref: PluginRef)
    requires ParsePluginRef(rest) == Some(ref)
    ensures GetPluginByPluginRule(plugins, sw, PluginRule("whistle." + rest, mv)) ==
            NamedSelection(plugins, sw, ref.name, ref.arg)
  {
    WhistleRefText(rest, mv);
    ParsedRefSelects(plugins, sw, PluginRule("whistle." + rest, mv), ref);
  }

  /** What each chained rule names, in declaration order. */
  function Candidates(plugins: Snapshot, sw: Switches, rules: seq<PluginRule>): (r: seq<Option<Selected>>)
    ensures |r| == |rules|
    ensures forall j :: 0 <= j < |r| ==> r[j] == GetPluginByPluginRule(plugins, sw, rules[j])
  {
    seq(|rules|, j requires 0 <= j < |rules| => GetPluginByPluginRule(plugins, sw, rules[j]))
  }

  /** The plugins the chained rules add, skipping those already selected (`seen`): every selected
      plugin is one a rule named, none twice, none already seen. */
  function ChainSelect(cands: seq<Option<Selected>>, seen: set<string>): (r: seq<Selected>)
    ensures forall i :: 0 <= i < |r| ==> r[i].key !in seen
    ensures forall i, j :: 0 <= i < j < |r| ==> r[i].key != r[j].key
    ensures forall i :: 0 <= i < |r| ==> Some(r[i]) in cands
  {
    if cands == [] then []
    else
      var s := cands[0];
      if s.Some? && s.value.key !in seen then [s.value] + ChainSelect(cands[1..], seen + {s.value.key})
      else ChainSelect(cands[1..], seen)
  }

  /** Every chained plugin is registered and enabled. */
  lemma ChainSelectEnabled(plugins: Snapshot, sw: Switches, rules: seq<PluginRule>, seen: set<string>)
    ensures var r := ChainSelect(Candidates(plugins, sw, rules), seen);
            forall i :: 0 <= i < |r| ==> r[i].key in plugins && r[i].plugin == plugins[r[i].key] &&
                                         !IsDisabled(sw, DropLast(r[i].key))
  {
    var cands := Candidates(plugins, sw, rules);
    var r := ChainSelect(cands, seen);
    forall i | 0 <= i < |r|
      ensures r[i].key in plugins && r[i].plugin == plugins[r[i].key] && !IsDisabled(sw, DropLast(r[i].key))
    {
      var j :| 0 <= j < |cands| && cands[j] == Some(r[i]);
      assert GetPluginByPluginRule(plugins, sw, rules[j]) == Some(r[i]);
    }
  }

  /** No plugin a chained rule names is lost: unless it was already selected, its key is in the
      chain's selection. */
  lemma {:induction false} ChainSelectComplete(cands: seq<Option<Selected>>, seen: set<string>, j: nat)
    requires j < |cands| && cands[j].Some? && cands[j].value.key !in seen
    ensures cands[j].value.key in KeysOf(ChainSelect(cands, seen))
  {
    var s := cands[0];
    var tail := cands[1..];
    if s.Some? && s.value.key !in seen {
      var rest := ChainSelect(tail, seen + {s.value.key});
      assert ChainSelect(cands, seen) == [s.value] + rest;
      if j == 0 || cands[j].value.key == s.value.key {
      } else {
        assert tail[j - 1] == cands[j];
        ChainSelectComplete(tail, seen + {s.value.key}, j - 1);
      }
    } else {
      assert j != 0;
      assert tail[j - 1] == cands[j];
      ChainSelectComplete(tail, seen, j - 1);
    }
  }

  /** The position of the first candidate selecting `key`, or the number of candidates when none
      does. */
  function FirstKeyIndex(cands: seq<Option<Selected>>, key: string): (i: nat)
    ensures i <= |cands|
    ensures i < |cands| ==> cands[i].Some? && cands[i].value.key == key
    ensures forall j :: 0 <= j < i ==> cands[j].None? || cands[j].value.key != key
  {
    if cands == [] then 0
    else if cands[0].Some? && cands[0].value.key == key then 0
    else 1 + FirstKeyIndex(cands[1..], key)
  }

  /** Past the first candidate, which selects another key, positions shift by one. */
  lemma FirstKeyIndexTail(cands: seq<Option<Selected>>, key: string)
    requires cands != [] && (cands[0].None? || cands[0].value.key != key)
    ensures FirstKeyIndex(cands, key) == 1 + FirstKeyIndex(cands[1..], key)
  {
  }

  /** A plugin named by several chained rules is taken from the first of them, with that rule's
      argument: each selected entry is the first candidate with its key. */
  lemma {:induction false} ChainSelectFirstOccurrence(cands: seq<Option<Selected>>, seen: set<string>, i: nat)
    requires i < |ChainSelect(cands, seen)|
    ensures FirstKeyIndex(cands, ChainSelect(cands, seen)[i].key) < |cands|
    ensures cands[FirstKeyIndex(cands, ChainSelect(cands, seen)[i].key)] == Some(ChainSelect(cands, seen)[i])
  {
    var s, tail := cands[0], cands[1..];
    var x := ChainSelect(cands, seen)[i];
    if s.Some? && s.value.key !in seen {
      var rest := ChainSelect(tail, seen + {s.value.key});
      assert ChainSelect(cands, seen) == [s.value] + rest;
      if i > 0 {
        ChainSelectFirstOccurrence(tail, seen + {s.value.key}, i - 1);
        assert x == rest[i - 1] && x.key != s.value.key;
        FirstKeyIndexTail(cands, x.key);
      }
    } else {
      ChainSelectFirstOccurrence(tail, seen, i);
      assert x == ChainSelect(tail, seen)[i] && x.key !in seen;
      FirstKeyIndexTail(cands, x.key);
    }
  }

  /** The chain keeps the rules' declaration order: the first positions of its entries increase. */
  lemma {:induction false} ChainSelectInOrder(cands: seq<Option<Selected>>, seen: set<string>, i: nat, j: nat)
    requires i < j < |ChainSelect(cands, seen)|
    ensures FirstKeyIndex(cands, ChainSelect(cands, seen)[i].key) < FirstKeyIndex(cands, ChainSelect(cands, seen)[j].key)
    decreases |cands|, 1
  {
    if cands[0].Some? && cands[0].value.key !in seen {
      InOrderTaken(cands, seen, i, j);
    } else {
      InOrderSkipped(cands, seen, i, j);
    }
  }

  /** ChainSelectInOrder when the first candidate joins the chain. */
  lemma {:induction false} InOrderTaken(cands: seq<Option<Selected>>, seen: set<string>, i: nat, j: nat)
    requires i < j < |ChainSelect(cands, seen)|
    requires cands[0].Some? && cands[0].value.key !in seen
    ensures FirstKeyIndex(cands, ChainSelect(cands, seen)[i].key) < FirstKeyIndex(cands, ChainSelect(cands, seen)[j].key)
    decreases |cands|, 0
  {
    var s, tail := cands[0].value, cands[1..];
    var rest := ChainSelect(tail, seen + {s.key});
    var r := ChainSelect(cands, seen);
    assert r == [s] + rest;
    var y := rest[j - 1];
    assert r[j] == y;
    assert y.key != s.key by { assert y.key !in seen + {s.key}; }
    FirstKeyIndexTail(cands, y.key);
    if i > 0 {
      var x := rest[i - 1];
      assert r[i] == x;
      ChainSelectInOrder(tail, seen + {s.key}, i - 1, j - 1);
      assert x.key != s.key by { assert x.key !in seen + {s.key}; }
      FirstKeyIndexTail(cands, x.key);
    } else {
      assert r[i] == s;
      assert FirstKeyIndex(cands, s.key) == 0;
    }
  }

  /** ChainSelectInOrder when the first candidate is left out of the chain. */
  lemma {:induction false} InOrderSkipped(cands: seq<Option<Selected>>, seen: set<string>, i: nat, j: nat)
    requires i < j < |ChainSelect(cands, seen)|
    requires !(cands[0].Some? && cands[0].value.key !in seen)
    ensures FirstKeyIndex(cands, ChainSelect(cands, seen)[i].key) < FirstKeyIndex(cands, ChainSelect(cands, seen)[j].key)
    decreases |cands|, 0
  {
    var rest := ChainSelect(cands[1..], seen);
    assert ChainSelect(cands, seen) == rest;
    ChainSelectInOrder(cands[1..], seen, i, j);
    assert rest[i].key !in seen && rest[j].key !in seen;
    FirstKeyIndexTail(cands, rest[i].key);
    FirstKeyIndexTail(cands, rest[j].key);
  }

  /** The registry keys of a selection. */
  function KeysOf(selected: seq<Selected>): (keys: set<string>)
    ensures forall i :: 0 <= i < |selected| ==> selected[i].key in keys
    ensures forall k :: k in keys ==> exists i :: 0 <= i < |selected| && selected[i].key == k
  {
    if selected == [] then {} else {selected[0].key} + KeysOf(selected[1..])
  }

  /**
   * The loop of resolveWhistlePlugins over the chained rules (lines 787-801): append each named,
   * enabled plugin not yet selected.
   */
  method SelectChain(plugins: Snapshot, sw: Switches, rules: seq<PluginRule>, seen0: set<string>)
    returns (chained: seq<Selected>)
    ensures chained == ChainSelect(Candidates(plugins, sw, rules), seen0)
  {
    ghost var cands := Candidates(plugins, sw, rules);
    chained := [];
    var seen := seen0;
    for i := 0 to |rules|
      invariant chained + ChainSelect(cands[i..], seen) == ChainSelect(cands, seen0)
    {
      assert cands[i..][1..] == cands[i + 1..];
      var s := GetPluginByPluginRule(plugins, sw, rules[i]);
      assert cands[i..][0] == s;
      if s.Some? && s.value.key !in seen {
        seen := seen + {s.value.key};
        chained := chained + [s.value];
      }
    }
    assert cands[|rules|..] == [];
  }

  /**
   * resolveWhistlePlugins: returns the primary plugin (the value stored as req.pluginMgr) and the
   * list stored as req.whistlePlugins, which is left unset when nothing was selected.
   */
  method ResolveWhistlePlugins(plugins: Snapshot, sw: Switches, ruleUrl: Option<string>,
                               ruleValue: Option<string>, chain: Option<seq<PluginRule>>)
    returns (primary: Option<Plugin>, whistlePlugins: Option<seq<Selected>>)
    ensures primary == GetPluginByRuleUrl(plugins, sw, ruleUrl)
    ensures whistlePlugins.Some? ==> |whistlePlugins.value| > 0
    ensures primary.Some? ==> whistlePlugins.Some? && whistlePlugins.value[0].plugin == primary.value &&
                              whistlePlugins.value[0].value == ruleValue
    ensures var first := if primary.Some? then [Selected(Protocol(ruleUrl).value, primary.value, ruleValue)] else [];
            var seen := if primary.Some? then {Protocol(ruleUrl).value} else {};
            var all := first + (if chain.Some? then ChainSelect(Candidates(plugins, sw, chain.value), seen) else []);
            whistlePlugins == if all == [] then None else Some(all)
  {
    var first: seq<Selected> := [];
    primary := GetPluginByRuleUrl(plugins, sw, ruleUrl);
    var seen: set<string> := {};
    if primary.Some? {
      first := [Selected(Protocol(ruleUrl).value, primary.value, ruleValue)];
      seen := {Protocol(ruleUrl).value};
    }
    var chained: seq<Selected> := [];
    if chain.Some? {
      chained := SelectChain(plugins, sw, chain.value, seen);
    }
    var selected := first + chained;
    whistlePlugins := if selected == [] then None else Some(selected);
  }

  /** The primary plugin is never repeated by a chained rule, so every key of the selection is
      distinct. */
  lemma SelectionDistinct(plugins: Snapshot, sw: Switches, ruleUrl: Option<string>, ruleValue: Option<string>,
                          rules: seq<PluginRule>)
    requires GetPluginByRuleUrl(plugins, sw, ruleUrl).Some?
    ensures var key := Protocol(ruleUrl).value;
            var all := [Selected(key, GetPluginByRuleUrl(plugins, sw, ruleUrl).value, ruleValue)] +
                       ChainSelect(Candidates(plugins, sw, rules), {key});
            forall i, j :: 0 <= i < j < |all| ==> all[i].key != all[j].key
  {
  }
}
