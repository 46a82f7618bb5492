/**
 * The plugin registry: the name-to-plugin map `allPlugins`, one refresh step of the polling loop
 * (readPackages followed by the diff in `update`), the enable/disable switches, and the rebuild of
 * the always-on rules that follows a change.
 */
module Registry {
  import opened Common

  /** What the discovery source reports for one installed package. */
  datatype Discovered = Discovered(path: string, pkgPath: string, mtime: int)

  /** The package.json fields readPackages copies (homepage already derived from the package). */
  datatype Manifest = Manifest(name: string, version: string, homepage: string, description: string)

  /** The trimmed rules.txt and _rules.txt and the parsed _values.txt of a plugin directory. */
  datatype StaticFiles = StaticFiles(rules: string, hiddenRules: string, hiddenValues: Option<Values>)

  /** An installed plugin as the registry holds it. */
  datatype Plugin = Plugin(
    path: string, pkgPath: string, mtime: int,
    version: string, moduleName: string, homepage: string, description: string,
    rules: string, hiddenRules: string, hiddenValues: Option<Values>)

  /** Registry contents, keyed by scheme with its trailing colon ("foo:"). */
  type Snapshot = map<string, Plugin>

  /** The `disabledAllPlugins` and `disabledPlugins` properties. */
  datatype Switches = Switches(disabledAll: bool, disabledPlugins: set<string>)

  /** pluginIsDisabled: every plugin when all are disabled, otherwise the ones named. */
  predicate IsDisabled(sw: Switches, name: string) {
    sw.disabledAll || name in sw.disabledPlugins
  }

  // ---------------------------------------------------------------------------------------------
  // readPackages

  /** Path and modification time together identify one installed version. */
  predicate SameInstall(p: Plugin, d: Discovered) {
    p.path == d.path && p.mtime == d.mtime
  }

  /** A manifest counts when it could be read and names a version. */
  predicate Readable(m: Option<Manifest>) {
    m.Some? && m.value.version != ""
  }

  predicate Kept(current: Snapshot, found: map<string, Discovered>, name: string)
    requires name in found
  {
    name in current && SameInstall(current[name], found[name])
  }

  /** The entry readPackages builds for a package it (re)reads: the discovered install, the manifest's
      fields and the plugin's static files. */
  function Load(d: Discovered, m: Manifest, f: StaticFiles): (p: Plugin)
    ensures SameInstall(p, d) && p.pkgPath == d.pkgPath
    ensures p.version == m.version && p.moduleName == m.name && p.homepage == m.homepage &&
            p.description == m.description
    ensures p.rules == f.rules && p.hiddenRules == f.hiddenRules && p.hiddenValues == f.hiddenValues
  {
    Plugin(d.path, d.pkgPath, d.mtime, m.version, m.name, m.homepage, m.description,
           f.rules, f.hiddenRules, f.hiddenValues)
  }

  /**
   * readPackages: a plugin whose path and mtime did not change keeps its registered entry; a new or
   * changed one is read again from disk (manifestAt by package.json path, filesAt by directory) and
   * is dropped when its manifest is unreadable or has no version.
   */
  function ReadPackages(current: Snapshot, found: map<string, Discovered>,
                        manifestAt: string -> Option<Manifest>, filesAt: string -> StaticFiles): (next: Snapshot)
    ensures next.Keys <= found.Keys
    ensures forall n :: n in next ==> SameInstall(next[n], found[n])
    ensures forall n :: n in found && Kept(current, found, n) ==> n in next && next[n] == current[n]
    ensures forall n :: n in found && !Kept(current, found, n) ==>
              (n in next <==> Readable(manifestAt(found[n].pkgPath)))
    ensures forall n :: n in next && !Kept(current, found, n) ==>
              Readable(manifestAt(found[n].pkgPath)) &&
              next[n].version == manifestAt(found[n].pkgPath).value.version &&
              next[n].rules == filesAt(found[n].path).rules
  {
    map n | n in found && (Kept(current, found, n) || Readable(manifestAt(found[n].pkgPath))) ::
      if Kept(current, found, n) then current[n]
      else Load(found[n], manifestAt(found[n].pkgPath).value, filesAt(found[n].path))
  }

  /** Reading the same discovery result twice gives the registry the first read gave. */
  lemma ReadPackagesIdempotent(current: Snapshot, found: map<string, Discovered>,
                               manifestAt: string -> Option<Manifest>, filesAt: string -> StaticFiles)
    ensures var once := ReadPackages(current, found, manifestAt, filesAt);
            ReadPackages(once, found, manifestAt, filesAt) == once
  {
    var once := ReadPackages(current, found, manifestAt, filesAt);
    var twice := ReadPackages(once, found, manifestAt, filesAt);
    forall n | n in found
      ensures n in twice <==> n in once
      ensures n in once ==> twice[n] == once[n]
    {
      if n in once {
        assert Kept(once, found, n);
      } else {
        assert !Kept(current, found, n);
      }
    }
  }

  // ---------------------------------------------------------------------------------------------
  // The diff in `update`

  predicate Changed(before: Plugin, after: Plugin) {
    before.path != after.path || before.mtime != after.mtime
  }

  /** Registered plugins that disappeared, with their old entries. */
  function Uninstalled(before: Snapshot, after: Snapshot): (r: map<string, Plugin>)
    ensures forall n :: n in r <==> n in before && n !in after
    ensures forall n :: n in r ==> r[n] == before[n]
  {
    map n | n in before && n !in after :: before[n]
  }

  /** Plugins whose path or mtime changed, with their new entries. */
  function Updated(before: Snapshot, after: Snapshot): (r: map<string, Plugin>)
    ensures forall n :: n in r ==> n in before && n in after
    ensures forall n :: n in before && n in after ==> (n in r <==> Changed(before[n], after[n]))
    ensures forall n :: n in r ==> r[n] == after[n]
  {
    map n | n in before && n in after && Changed(before[n], after[n]) :: after[n]
  }

  datatype Event = Uninstall(plugins: map<string, Plugin>) | Update(plugins: map<string, Plugin>) | UpdateRules

  /** The condition at line 198: something was uninstalled or updated, or the plugin count changed. */
  predicate RefreshFires(before: Snapshot, after: Snapshot) {
    |Uninstalled(before, after)| > 0 || |Updated(before, after)| > 0 || |after| != |before|
  }

  /** The events one refresh emits, in emission order. */
  function RefreshEvents(before: Snapshot, after: Snapshot): seq<Event> {
    var gone := Uninstalled(before, after);
    var changed := Updated(before, after);
    if RefreshFires(before, after) then
      (if |gone| > 0 then [Uninstall(gone)] else []) +
      (if |changed| > 0 then [Update(changed)] else []) + [UpdateRules]
    else []
  }

  /** A refresh that fires emits at most an uninstall event and an update event, in that order, each
      naming at least one plugin, and always ends with updateRules. */
  lemma RefreshEventsShape(before: Snapshot, after: Snapshot)
    ensures var ev := RefreshEvents(before, after);
            (ev != [] <==> RefreshFires(before, after)) && |ev| <= 3 &&
            (ev != [] ==> ev[|ev| - 1] == UpdateRules) &&
            (forall i :: 0 <= i < |ev| - 1 ==> !ev[i].UpdateRules? && ev[i].plugins != map[]) &&
            (|ev| == 3 ==> ev[0].Uninstall? && ev[1].Update?)
  {
    var gone, changed := Uninstalled(before, after), Updated(before, after);
    if RefreshFires(before, after) {
      var a: seq<Event> := if |gone| > 0 then [Uninstall(gone)] else [];
      var b: seq<Event> := if |changed| > 0 then [Update(changed)] else [];
      assert RefreshEvents(before, after) == a + b + [UpdateRules];
      assert |gone| > 0 ==> gone != map[];
      assert |changed| > 0 ==> changed != map[];
    }
  }

  /** A proper superset of keys has more of them. */
  lemma MoreKeys(before: Snapshot, after: Snapshot)
    requires before.Keys < after.Keys
    ensures |after| != |before|
  {
    var extra := after.Keys - before.Keys;
    assert after.Keys == before.Keys + extra;
    assert before.Keys * extra == {};
    assert |after.Keys| == |before.Keys| + |extra|;
  }

  /** A refresh emits anything (and so rebuilds the always-on rules) exactly when a plugin was
      installed, uninstalled, or moved to another path or mtime. */
  lemma RefreshEventsIffChanged(before: Snapshot, after: Snapshot)
    ensures RefreshEvents(before, after) != [] <==>
            (before.Keys != after.Keys ||
             exists n :: n in before && n in after && Changed(before[n], after[n]))
  {
    var gone := Uninstalled(before, after);
    var changed := Updated(before, after);
    assert RefreshEvents(before, after) != [] <==> RefreshFires(before, after);
    if before.Keys != after.Keys {
      if before.Keys <= after.Keys {
        MoreKeys(before, after);
      } else {
        var n :| n in before.Keys && n !in after.Keys;
        assert n in gone;
      }
    } else {
      assert |after| == |before| by {
        assert |after.Keys| == |before.Keys|;
      }
    }
    if exists n :: n in before && n in after && Changed(before[n], after[n]) {
      var n :| n in before && n in after && Changed(before[n], after[n]);
      assert n in changed;
    }
    if |gone| > 0 {
      var n :| n in gone;
    }
    if |changed| > 0 {
      var n :| n in changed;
    }
  }

  /** How one registered plugin shows up in the events: uninstalled with its old entry when it is
      gone, updated with its new entry when its path or mtime changed, absent otherwise. */
  lemma RefreshClassifies(before: Snapshot, after: Snapshot, name: string)
    requires name in before
    ensures name !in after ==>
              Uninstall(Uninstalled(before, after)) in RefreshEvents(before, after) &&
              Uninstalled(before, after)[name] == before[name]
    ensures name in after && Changed(before[name], after[name]) ==>
              Update(Updated(before, after)) in RefreshEvents(before, after) &&
              Updated(before, after)[name] == after[name]
    ensures name in after && !Changed(before[name], after[name]) ==>
              forall e :: e in RefreshEvents(before, after) && !e.UpdateRules? ==> name !in e.plugins
  {
    var events := RefreshEvents(before, after);
    if name !in after {
      assert name in Uninstalled(before, after);
      assert events[0] == Uninstall(Uninstalled(before, after));
    } else if Changed(before[name], after[name]) {
      assert name in Updated(before, after);
      assert |Updated(before, after)| > 0;
    }
  }

  /** Refreshing twice against an unchanged installation: the second refresh leaves the registry as
      it is and emits no uninstall, update or updateRules event. */
  lemma RefreshIdempotent(current: Snapshot, found: map<string, Discovered>,
                          manifestAt: string -> Option<Manifest>, filesAt: string -> StaticFiles)
    ensures var once := ReadPackages(current, found, manifestAt, filesAt);
            var twice := ReadPackages(once, found, manifestAt, filesAt);
            twice == once && RefreshEvents(once, twice) == []
  {
    ReadPackagesIdempotent(current, found, manifestAt, filesAt);
    var once := ReadPackages(current, found, manifestAt, filesAt);
    assert Uninstalled(once, once) == map[];
    assert Updated(once, once) == map[];
  }

  // ---------------------------------------------------------------------------------------------
  // Stopping workers after a refresh (the 'update' and 'uninstall' listeners)

  function PathsOf(plugins: map<string, Plugin>): set<string> {
    set n | n in plugins :: plugins[n].path
  }

  /** The paths the listeners pass to stopPlugin, as written: every plugin in an uninstall or update
      event, and an update event holds the NEW entry. */
  function StoppedPathsAsWritten(events: seq<Event>): (r: set<string>)
    ensures forall p :: p in r <==> exists i :: 0 <= i < |events| && !events[i].UpdateRules? &&
                                               p in PathsOf(events[i].plugins)
  {
    if events == [] then {}
    else
      (match events[0]
       case Uninstall(m) => PathsOf(m)
       case Update(m) => PathsOf(m)
       case UpdateRules => {}) + StoppedPathsAsWritten(events[1..])
  }

  /** After a refresh the listeners stop the OLD path of every uninstalled plugin and the NEW path of
      every updated one. */
  lemma StoppedAfterRefresh(before: Snapshot, after: Snapshot)
    ensures StoppedPathsAsWritten(RefreshEvents(before, after)) ==
            PathsOf(Uninstalled(before, after)) + PathsOf(Updated(before, after))
  {
    var gone, changed := Uninstalled(before, after), Updated(before, after);
    var ev := RefreshEvents(before, after);
    RefreshEventsShape(before, after);
    assert |gone| == 0 ==> PathsOf(gone) == {};
    assert |changed| == 0 ==> PathsOf(changed) == {};
    if RefreshFires(before, after) {
      var a: seq<Event> := if |gone| > 0 then [Uninstall(gone)] else [];
      var b: seq<Event> := if |changed| > 0 then [Update(changed)] else [];
      assert ev == a + b + [UpdateRules];
    }
  }

  /** A plugin moved to another directory: the listeners stop the new path, where no worker runs,
      and the worker started from the old path is never stopped. */
  lemma MovedPluginWorkerNotStoppedAsWritten()
    ensures var old1 := Plugin("/a/whistle.foo", "/a/whistle.foo/package.json", 1, "1.0.0", "whistle.foo",
                               "", "", "", "", None);
            var new1 := old1.(path := "/b/whistle.foo", pkgPath := "/b/whistle.foo/package.json");
            "/a/whistle.foo" !in StoppedPathsAsWritten(RefreshEvents(map["foo:" := old1], map["foo:" := new1]))
  {
    var old1 := Plugin("/a/whistle.foo", "/a/whistle.foo/package.json", 1, "1.0.0", "whistle.foo",
                       "", "", "", "", None);
    var new1 := old1.(path := "/b/whistle.foo", pkgPath := "/b/whistle.foo/package.json");
    var before, after := map["foo:" := old1], map["foo:" := new1];
    assert Uninstalled(before, after) == map[];
    assert Updated(before, after) == map["foo:" := new1];
    var events := RefreshEvents(before, after);
    assert events == [Update(map["foo:" := new1]), UpdateRules];
    assert PathsOf(map["foo:" := new1]) == {"/b/whistle.foo"};
    assert StoppedPathsAsWritten(events[1..]) == {} by {
      assert events[1..][1..] == [];
    }
    assert StoppedPathsAsWritten(events) == {"/b/whistle.foo"};
  }

  /** The paths of the worker versions a refresh retires: the OLD entry of every plugin that was
      uninstalled or whose path or mtime changed. */
  function RetiredPaths(before: Snapshot, after: Snapshot): (r: set<string>)
    ensures forall n :: n in before && (n !in after || Changed(before[n], after[n])) ==> before[n].path in r
    ensures forall p :: p in r ==> exists n :: n in before && before[n].path == p &&
                                              (n !in after || Changed(before[n], after[n]))
  {
    set n | n in before && (n !in after || Changed(before[n], after[n])) :: before[n].path
  }

  /** Whatever is retired was running for a plugin that the refresh changed; a plugin left as it was
      keeps its worker unless it shares its directory with a retired one. */
  lemma RetiredPathsSpareUnchanged(before: Snapshot, after: Snapshot, name: string)
    requires name in before && name in after && !Changed(before[name], after[name])
    requires forall m :: m in before && m != name ==> before[m].path != before[name].path
    ensures before[name].path !in RetiredPaths(before, after)
  {
  }

  // ---------------------------------------------------------------------------------------------
  // Always-on rules (the 'updateRules' listener)

  datatype AlwaysOnRule = AlwaysOnRule(text: string, root: string)

  predicate SortedByMtime(plugins: Snapshot, names: seq<string>) {
    (forall i :: 0 <= i < |names| ==> names[i] in plugins) &&
    forall i, j :: 0 <= i < j < |names| ==> plugins[names[i]].mtime <= plugins[names[j]].mtime
  }

  predicate Distinct(names: seq<string>) {
    forall i, j :: 0 <= i < j < |names| ==> names[i] != names[j]
  }

  /** A plugin adds always-on rules when it is enabled and its rules.txt is not empty. */
  predicate Contributes(plugins: Snapshot, sw: Switches, name: string) {
    name in plugins && !IsDisabled(sw, DropLast(name)) && plugins[name].rules != ""
  }

  /** The plugins of `order` that add always-on rules, in that order. */
  function Contributors(plugins: Snapshot, sw: Switches, order: seq<string>): (r: seq<string>)
    ensures forall n :: n in r <==> n in order && Contributes(plugins, sw, n)
    ensures forall k :: 0 <= k < |r| ==> Contributes(plugins, sw, r[k])
    ensures |r| <= |order|
  {
    if order == [] then []
    else
      var init := Contributors(plugins, sw, order[..|order| - 1]);
      var last := order[|order| - 1];
      assert forall n :: n in order <==> n in order[..|order| - 1] || n == last;
      if Contributes(plugins, sw, last) then init + [last] else init
  }

  /** Keeping only the contributors keeps the mtime order. */
  lemma {:induction false} ContributorsSorted(plugins: Snapshot, sw: Switches, order: seq<string>)
    requires SortedByMtime(plugins, order)
    ensures SortedByMtime(plugins, Contributors(plugins, sw, order))
  {
    if order != [] {
      var prefix := order[..|order| - 1];
      var last := order[|order| - 1];
      ContributorsSorted(plugins, sw, prefix);
      var init := Contributors(plugins, sw, prefix);
      if Contributes(plugins, sw, last) {
        forall i | 0 <= i < |init|
          ensures plugins[init[i]].mtime <= plugins[last].mtime
        {
          assert init[i] in prefix;
          var j :| 0 <= j < |prefix| && prefix[j] == init[i];
        }
      }
    }
  }

  function RuleOf(p: Plugin): AlwaysOnRule {
    AlwaysOnRule(p.rules, p.path)
  }

  /** The rules appended for `order`: the k-th comes from the k-th contributor. */
  function AlwaysOnRules(plugins: Snapshot, sw: Switches, order: seq<string>): (r: seq<AlwaysOnRule>)
    ensures |r| == |Contributors(plugins, sw, order)|
    ensures forall k :: 0 <= k < |r| ==> r[k] == RuleOf(plugins[Contributors(plugins, sw, order)[k]])
  {
    if order == [] then []
    else
      var init := AlwaysOnRules(plugins, sw, order[..|order| - 1]);
      var last := order[|order| - 1];
      if Contributes(plugins, sw, last) then init + [RuleOf(plugins[last])] else init
  }

  lemma {:induction false} MinimumExists(plugins: Snapshot, names: set<string>)
    requires names != {} && names <= plugins.Keys
    ensures exists m :: m in names && forall n :: n in names ==> plugins[m].mtime <= plugins[n].mtime
  {
    var x :| x in names;
    if names != {x} {
      MinimumExists(plugins, names - {x});
      var m :| m in names - {x} && forall n :: n in names - {x} ==> plugins[m].mtime <= plugins[n].mtime;
      if plugins[x].mtime < plugins[m].mtime {
        assert forall n :: n in names ==> plugins[x].mtime <= plugins[n].mtime;
      } else {
        assert forall n :: n in names ==> plugins[m].mtime <= plugins[n].mtime;
      }
    } else {
      assert forall n :: n in names ==> plugins[x].mtime <= plugins[n].mtime;
    }
  }

  /** The key order of the rebuild: every registered name once, by ascending mtime (the sort at
      lines 67-71; plugins with equal mtimes may come in either order). */
  method OrderByMtime(plugins: Snapshot) returns (order: seq<string>)
    ensures forall n :: n in order <==> n in plugins
    ensures Distinct(order)
    ensures SortedByMtime(plugins, order)
  {
    order := [];
    var rest := plugins.Keys;
    while rest != {}
      invariant rest <= plugins.Keys
      invariant forall n :: n in order <==> n in plugins && n !in rest
      invariant Distinct(order)
      invariant SortedByMtime(plugins, order)
      invariant forall i, n :: 0 <= i < |order| && n in rest ==> plugins[order[i]].mtime <= plugins[n].mtime
      decreases rest
    {
      MinimumExists(plugins, rest);
      var next :| next in rest && forall n :: n in rest ==> plugins[next].mtime <= plugins[n].mtime;
      order := order + [next];
      rest := rest - {next};
    }
  }

  /** The loop over the registered names in `update` (lines 184-195): the plugins that disappeared,
      with their old entries, and those whose path or mtime changed, with their new entries. */
  method Classify(before: Snapshot, next: Snapshot) returns (uninstallPlugins: map<string, Plugin>,
                                                             updatePlugins: map<string, Plugin>)
    ensures uninstallPlugins == Uninstalled(before, next)
    ensures updatePlugins == Updated(before, next)
  {
    uninstallPlugins, updatePlugins := map[], map[];
    var rest := before.Keys;
    while rest != {}
      invariant rest <= before.Keys
      invariant forall n :: n in uninstallPlugins <==> n in before && n !in rest && n !in next
      invariant forall n :: n in uninstallPlugins ==> uninstallPlugins[n] == before[n]
      invariant forall n :: n in updatePlugins <==>
                  n in before && n !in rest && n in next && Changed(before[n], next[n])
      invariant forall n :: n in updatePlugins ==> updatePlugins[n] == next[n]
      decreases rest
    {
      var name :| name in rest;
      var plugin := before[name];
      if name !in next {
        uninstallPlugins := uninstallPlugins[name := plugin];
      } else if Changed(plugin, next[name]) {
        updatePlugins := updatePlugins[name := next[name]];
      }
      rest := rest - {name};
    }
  }

  /** The registry itself: `allPlugins`, replaced by every refresh. */
  class PluginRegistry {
    var allPlugins: Snapshot

    constructor (initial: Snapshot)
      ensures allPlugins == initial
    {
      allPlugins := initial;
    }

    /**
     * The `update` callback once readPackages has produced `next`: classify every registered plugin,
     * replace the registry, emit the events. `stopped` holds the worker paths to stop; see
     * StoppedPathsAsWritten for what the listeners stop instead.
     */
    method Update(next: Snapshot) returns (events: seq<Event>, stopped: set<string>)
      modifies this
      ensures allPlugins == next
      ensures events == RefreshEvents(old(allPlugins), next)
      ensures stopped == RetiredPaths(old(allPlugins), next)
    {
      var before := allPlugins;
      var uninstallPlugins, updatePlugins := Classify(before, next);
      allPlugins := next;
      events := [];
      if |uninstallPlugins| > 0 || |updatePlugins| > 0 || |next| != |before| {
        if |uninstallPlugins| > 0 {
          events := events + [Event.Uninstall(uninstallPlugins)];
        }
        if |updatePlugins| > 0 {
          events := events + [Event.Update(updatePlugins)];
        }
        events := events + [Event.UpdateRules];
      }
      stopped := RetiredPaths(before, next);
    }

    /** One step of the polling loop: readPackages, then `update`. */
    method Refresh(found: map<string, Discovered>, manifestAt: string -> Option<Manifest>,
                   filesAt: string -> StaticFiles) returns (events: seq<Event>, stopped: set<string>)
      modifies this
      ensures allPlugins == ReadPackages(old(allPlugins), found, manifestAt, filesAt)
      ensures events == RefreshEvents(old(allPlugins), allPlugins)
      ensures stopped == RetiredPaths(old(allPlugins), allPlugins)
    {
      var next := ReadPackages(allPlugins, found, manifestAt, filesAt);
      events, stopped := Update(next);
    }

    /** The 'updateRules' listener: clear the appended rules, then append each enabled plugin's
        rules.txt with its directory, oldest mtime first. */
    method RebuildAlwaysOn(sw: Switches) returns (order: seq<string>, appended: seq<AlwaysOnRule>)
      ensures forall n :: n in order <==> n in allPlugins
      ensures Distinct(order) && SortedByMtime(allPlugins, order)
      ensures appended == AlwaysOnRules(allPlugins, sw, order)
    {
      order := OrderByMtime(allPlugins);
      appended := [];
      for i := 0 to |order|
        invariant appended == AlwaysOnRules(allPlugins, sw, order[..i])
      {
        assert order[..i + 1][..i] == order[..i];
        var name := order[i];
        if !IsDisabled(sw, DropLast(name)) {
          var plugin := allPlugins[name];
          if plugin.rules != "" {
            appended := appended + [RuleOf(plugin)];
          }
        }
      }
      assert order[..|order|] == order;
    }
  }

  /** The always-on rules come only from enabled plugins with rules, each registered one once, and
      oldest first. */
  lemma AlwaysOnRulesFromEnabledOldestFirst(plugins: Snapshot, sw: Switches, order: seq<string>, k: nat)
    requires SortedByMtime(plugins, order)
    requires k < |AlwaysOnRules(plugins, sw, order)|
    ensures var c := Contributors(plugins, sw, order);
            c[k] in plugins && !IsDisabled(sw, DropLast(c[k])) &&
            AlwaysOnRules(plugins, sw, order)[k] == AlwaysOnRule(plugins[c[k]].rules, plugins[c[k]].path) &&
            forall j :: 0 <= j < k ==> plugins[c[j]].mtime <= plugins[c[k]].mtime
  {
    ContributorsSorted(plugins, sw, order);
  }

  /** With every plugin disabled nothing is appended. */
  lemma AllDisabledAppendsNothing(plugins: Snapshot, sw: Switches, order: seq<string>)
    requires sw.disabledAll
    ensures AlwaysOnRules(plugins, sw, order) == []
  {
  }
}
