/**
 * How getRulesFromPlugins turns what each selected plugin produced into the rule list handed to
 * the rule parser and the values it resolves `{name}` references against: a plugin without a
 * server falls back to its hidden rules, a fetched body is extended with them, fetched values
 * override the hidden ones, and across plugins the first selected plugin wins a shared value name.
 */
module RuleMerge {
  import opened Common
  import opened RuleFetch
  import opened RuleCache

  /** What the assembly reads of a plugin: its module name, its hidden rules (`_rules`, "" when it
      has none), its hidden values (`_values`) and its directory. */
  datatype PluginFiles = PluginFiles(moduleName: string, hiddenRules: string, hiddenValues: Option<Values>,
                                     path: string)

  /** One entry of `results`: rule text, its values and the directory it is resolved against. */
  datatype RuleResult = RuleResult(text: string, values: Option<Values>, root: string)

  /** The result of a plugin whose worker has no server for this rule type (lines 455-465). */
  function StaticResult(p: PluginFiles, isResRules: bool): (r: Option<RuleResult>)
    ensures r.Some? <==> !isResRules && p.hiddenRules != []
    ensures r.Some? ==> r.value.text == p.hiddenRules && r.value.values == p.hiddenValues && r.value.root == p.path
  {
    if !isResRules && p.hiddenRules != [] then Some(RuleResult(p.hiddenRules, p.hiddenValues, p.path)) else None
  }

  /** `(body || '') + (!isResRules && plugin._rules ? '\n' + plugin._rules : '')`. */
  function FetchedText(body: Option<string>, p: PluginFiles, isResRules: bool): string {
    body.GetOr("") + (if !isResRules && p.hiddenRules != [] then "\n" + p.hiddenRules else "")
  }

  /** The fetched text starts with the body; for request rules it goes on with a newline and the
      hidden rules, for response rules it is the body alone. It is empty exactly when both are. */
  lemma FetchedTextParts(body: Option<string>, p: PluginFiles, isResRules: bool)
    ensures var t := FetchedText(body, p, isResRules);
            var b := body.GetOr("");
            |b| <= |t| && t[..|b|] == b &&
            (!isResRules && p.hiddenRules != [] ==>
               |t| == |b| + 1 + |p.hiddenRules| && t[|b|] == '\n' && t[|b| + 1..] == p.hiddenRules) &&
            (isResRules || p.hiddenRules == [] ==> t == b) &&
            (t == [] <==> b == [] && (isResRules || p.hiddenRules == []))
  {
    var t := FetchedText(body, p, isResRules);
    var b := body.GetOr("");
    if !isResRules && p.hiddenRules != [] {
      assert t == b + ("\n" + p.hiddenRules);
      assert t[|b|] == ("\n" + p.hiddenRules)[0];
    } else {
      assert t == b + "";
    }
  }

  /** A plugin's values: a copy of its hidden values overwritten by the fetched ones (lines 523-528). */
  function MergeValues(hidden: Option<Values>, fetched: Option<Values>): (r: Option<Values>)
    ensures r.Some? <==> hidden.Some? || fetched.Some?
    ensures r.Some? ==> r.value.Keys == hidden.GetOr(map[]).Keys + fetched.GetOr(map[]).Keys
    ensures fetched.Some? ==> forall k :: k in fetched.value ==> r.value[k] == fetched.value[k]
    ensures hidden.Some? ==>
              forall k :: k in hidden.value && (fetched.None? || k !in fetched.value) ==> r.value[k] == hidden.value[k]
  {
    if fetched.Some? && hidden.Some? then Some(hidden.value + fetched.value)
    else if fetched.Some? then fetched
    else hidden
  }

  /** The result a plugin's handleRules stores for what it was served (lines 518-531): present when
      the text or the values are. */
  function FetchedResult(served: Served, p: PluginFiles, isResRules: bool): (r: Option<RuleResult>)
    ensures r.Some? <==> FetchedText(served.body, p, isResRules) != [] || served.values.Some?
    ensures r.Some? ==> r.value.text == FetchedText(served.body, p, isResRules) &&
                        r.value.values == MergeValues(p.hiddenValues, served.values) && r.value.root == p.path
  {
    var text := FetchedText(served.body, p, isResRules);
    if text != [] || served.values.Some? then Some(RuleResult(text, MergeValues(p.hiddenValues, served.values), p.path))
    else None
  }

  /** For request rules, a plugin with hidden rules always contributes them, after whatever its
      server returned, even when the request failed and returned nothing. */
  lemma HiddenRulesAlwaysContribute(served: Served, p: PluginFiles)
    requires p.hiddenRules != []
    ensures FetchedResult(served, p, false).Some?
    ensures var t := FetchedResult(served, p, false).value.text;
            |t| > |p.hiddenRules| && t[|t| - |p.hiddenRules|..] == p.hiddenRules && t[|t| - |p.hiddenRules| - 1] == '\n'
  {
    FetchedTextParts(served.body, p, false);
  }

  // ---------------------------------------------------------------------------------------------
  // Combining the plugins' results (lines 439-447)

  /** `results.filter(emptyFilter)`: the results present, in slot order. */
  function Survivors(results: seq<Option<RuleResult>>): (r: seq<RuleResult>)
    ensures |r| <= |results|
  {
    if results == [] then []
    else (if results[0].Some? then [results[0].value] else []) + Survivors(results[1..])
  }

  /** Exactly the present results survive. */
  lemma {:induction false} SurvivorsMembers(results: seq<Option<RuleResult>>)
    ensures forall x :: x in Survivors(results) <==> Some(x) in results
  {
    if results != [] {
      SurvivorsMembers(results[1..]);
      assert results == [results[0]] + results[1..];
    }
  }

  /** Nothing is filtered out exactly when every slot has a result. */
  lemma {:induction false} SurvivorsKeepAll(results: seq<Option<RuleResult>>)
    ensures |Survivors(results)| == |results| <==> forall j :: 0 <= j < |results| ==> results[j].Some?
  {
    if results != [] {
      SurvivorsKeepAll(results[1..]);
      assert forall j :: 1 <= j < |results| ==> results[j] == results[1..][j - 1];
    }
  }

  lemma {:induction false} SurvivorsAppend(a: seq<Option<RuleResult>>, b: seq<Option<RuleResult>>)
    ensures Survivors(a + b) == Survivors(a) + Survivors(b)
  {
    if a == [] {
      assert a + b == b;
    } else {
      var head := if a[0].Some? then [a[0].value] else [];
      assert (a + b)[0] == a[0];
      assert (a + b)[1..] == a[1..] + b;
      SurvivorsAppend(a[1..], b);
      assert Survivors(a + b) == head + (Survivors(a[1..]) + Survivors(b));
      assert Survivors(a) == head + Survivors(a[1..]);
    }
  }

  /** The survivors around a present slot i: those of the slots before it, its result, those after. */
  lemma SurvivorsSplit(results: seq<Option<RuleResult>>, i: nat)
    requires i < |results| && results[i].Some?
    ensures Survivors(results) == Survivors(results[..i]) + [results[i].value] + Survivors(results[i + 1..])
  {
    var pre, rest := results[..i], results[i + 1..];
    assert results == pre + [results[i]] + rest;
    SurvivorsAppend(pre + [results[i]], rest);
    SurvivorsAppend(pre, [results[i]]);
    assert [results[i]][1..] == [];
  }

  /** Filtering keeps the slot order: the result of slot i comes after those of the slots before it. */
  lemma SurvivorPosition(results: seq<Option<RuleResult>>, i: nat)
    requires i < |results| && results[i].Some?
    ensures |Survivors(results[..i])| < |Survivors(results)|
    ensures Survivors(results)[|Survivors(results[..i])|] == results[i].value
  {
    SurvivorsSplit(results, i);
  }

  /** Array.prototype.reverse, as a value. */
  function Reverse(s: seq<RuleResult>): (r: seq<RuleResult>)
    ensures |r| == |s|
    ensures forall i :: 0 <= i < |s| ==> r[i] == s[|s| - 1 - i]
  {
    if s == [] then [] else Reverse(s[1..]) + [s[0]]
  }

  /** The list the rule parser receives: the surviving results, then the response script's rules
      when response rules are assembled, all reversed. */
  function Ordered(results: seq<Option<RuleResult>>, isResRules: bool, script: Option<RuleResult>): (r: seq<RuleResult>)
    ensures |r| == |Survivors(results)| + (if isResRules && script.Some? then 1 else 0)
    ensures isResRules && script.Some? ==> r[0] == script.value
    ensures forall i :: 0 <= i < |Survivors(results)| ==> r[|r| - 1 - i] == Survivors(results)[i]
  {
    Reverse(Survivors(results) + (if isResRules && script.Some? then [script.value] else []))
  }

  /** `extend(values, v)`: v's names overwrite. */
  function Extend(acc: Values, v: Option<Values>): (r: Values)
    ensures r.Keys == acc.Keys + v.GetOr(map[]).Keys
    ensures forall k :: k in r ==> r[k] == if v.Some? && k in v.value then v.value[k] else acc[k]
  {
    if v.Some? then acc + v.value else acc
  }

  /** The values object built by extending `{}` with each result's values in list order. */
  function MergedValues(list: seq<RuleResult>): (r: Values)
    ensures forall k :: k in r <==> exists i :: 0 <= i < |list| && list[i].values.Some? && k in list[i].values.value
  {
    if list == [] then map[]
    else
      var r := Extend(MergedValues(list[..|list| - 1]), list[|list| - 1].values);
      assert forall i :: 0 <= i < |list| - 1 ==> list[..|list| - 1][i] == list[i];
      r
  }

  /** Values by precedence: each result's names overwrite those of every result after it. */
  function Precedence(list: seq<RuleResult>): Values {
    if list == [] then map[] else Extend(Precedence(list[1..]), list[0].values)
  }

  /** Extending in the reversed order is precedence in the original order. */
  lemma {:induction false} MergeReversed(list: seq<RuleResult>)
    ensures MergedValues(Reverse(list)) == Precedence(list)
  {
    if list != [] {
      var rev := Reverse(list);
      assert rev[..|rev| - 1] == Reverse(list[1..]);
      MergeReversed(list[1..]);
    }
  }

  /** A name's value under precedence is the one of the first result that has the name. */
  lemma {:induction false} PrecedenceFirst(a: seq<RuleResult>, x: RuleResult, b: seq<RuleResult>, k: string)
    requires x.values.Some? && k in x.values.value
    requires forall y :: y in a ==> y.values.None? || k !in y.values.value
    ensures k in Precedence(a + [x] + b) && Precedence(a + [x] + b)[k] == x.values.value[k]
  {
    if a == [] {
      assert a + [x] + b == [x] + b;
      assert ([x] + b)[1..] == b;
    } else {
      assert (a + [x] + b)[1..] == a[1..] + [x] + b;
      PrecedenceFirst(a[1..], x, b, k);
    }
  }

  /** No surviving result has the name k when no slot's result has it. */
  lemma SurvivorsLack(results: seq<Option<RuleResult>>, k: string)
    requires forall j :: 0 <= j < |results| && results[j].Some? ==> results[j].value.values.None? || k !in results[j].value.values.value
    ensures forall y :: y in Survivors(results) ==> y.values.None? || k !in y.values.value
  {
    SurvivorsMembers(results);
    forall y | y in Survivors(results)
      ensures y.values.None? || k !in y.values.value
    {
      var j :| 0 <= j < |results| && results[j] == Some(y);
    }
  }

  /**
   * The first selected plugin wins: when slot i is the first slot whose result has the name k,
   * the merged values map k to slot i's value, whatever later plugins or the response script
   * define.
   */
  lemma FirstSelectedWins(results: seq<Option<RuleResult>>, isResRules: bool, script: Option<RuleResult>,
                          i: nat, k: string)
    requires i < |results| && results[i].Some? && results[i].value.values.Some? && k in results[i].value.values.value
    requires forall j :: 0 <= j < i && results[j].Some? ==> results[j].value.values.None? || k !in results[j].value.values.value
    ensures k in MergedValues(Ordered(results, isResRules, script))
    ensures MergedValues(Ordered(results, isResRules, script))[k] == results[i].value.values.value[k]
  {
    var tail := if isResRules && script.Some? then [script.value] else [];
    var a := Survivors(results[..i]);
    var b := Survivors(results[i + 1..]);
    SurvivorsSplit(results, i);
    assert Survivors(results) + tail == a + [results[i].value] + (b + tail);
    SurvivorsLack(results[..i], k);
    PrecedenceFirst(a, results[i].value, b + tail, k);
    MergeReversed(Survivors(results) + tail);
  }

  /** The response script's rules come first in the parser's list, and its values are used only
      for names no plugin's result defines. */
  lemma ScriptFirstAndWeakest(results: seq<Option<RuleResult>>, script: RuleResult, k: string)
    requires script.values.Some? && k in script.values.value
    requires forall j :: 0 <= j < |results| && results[j].Some? ==> results[j].value.values.None? || k !in results[j].value.values.value
    ensures Ordered(results, true, Some(script))[0] == script
    ensures k in MergedValues(Ordered(results, true, Some(script)))
    ensures MergedValues(Ordered(results, true, Some(script)))[k] == script.values.value[k]
  {
    var a := Survivors(results);
    SurvivorsLack(results, k);
    PrecedenceFirst(a, script, [], k);
    assert a + [script] + [] == a + [script];
    MergeReversed(a + [script]);
  }

  /** `results.filter(emptyFilter)`, with the response script's rules pushed when there are any. */
  method Collect(results: seq<Option<RuleResult>>, isResRules: bool, script: Option<RuleResult>)
    returns (kept: seq<RuleResult>)
    ensures kept == Survivors(results) + (if isResRules && script.Some? then [script.value] else [])
  {
    kept := [];
    for i := 0 to |results|
      invariant kept == Survivors(results[..i])
    {
      SurvivorsAppend(results[..i], [results[i]]);
      assert results[..i + 1] == results[..i] + [results[i]];
      if results[i].Some? {
        kept := kept + [results[i].value];
      }
    }
    assert results[..|results|] == results;
    if isResRules && script.Some? {
      kept := kept + [script.value];
    }
  }

  /** `list.reverse()`. */
  method ReverseList(list: seq<RuleResult>) returns (reversed: seq<RuleResult>)
    ensures reversed == Reverse(list)
  {
    reversed := [];
    for i := 0 to |list|
      invariant |reversed| == i
      invariant forall j :: 0 <= j < i ==> reversed[j] == list[i - 1 - j]
    {
      reversed := [list[i]] + reversed;
    }
  }

  /** `list.forEach(item => extend(values, item.values))` on an empty `values`. */
  method ExtendAll(list: seq<RuleResult>) returns (values: Values)
    ensures values == MergedValues(list)
  {
    values := map[];
    for i := 0 to |list|
      invariant values == MergedValues(list[..i])
    {
      assert list[..i + 1][..i] == list[..i];
      values := Extend(values, list[i].values);
    }
    assert list[..|list|] == list;
  }

  /**
   * execCallback once every slot is done: drops the empty results, appends the response script's
   * rules for response rules, reverses the list, and extends an empty values object with each
   * result's values in turn.
   */
  method Assemble(results: seq<Option<RuleResult>>, isResRules: bool, script: Option<RuleResult>)
    returns (ordered: seq<RuleResult>, values: Values)
    ensures ordered == Ordered(results, isResRules, script)
    ensures values == MergedValues(ordered)
  {
    var kept := Collect(results, isResRules, script);
    ordered := ReverseList(kept);
    values := ExtendAll(ordered);
  }
}
