/** The engine registry and resolver of bdl/engine.py. Discovery through
    setuptools entry points and `importlib` are parameters: the discovered
    engines are a sequence of `Discovered` values (with their `sites.json`
    already decoded, or the exception reading it raised) and importing a
    module is a function from module name to module or exception. `re.match`
    is a predicate `matches(regex, url)`. */
module Engines {
  import opened Wrappers
  import opened Errors
  import Items
  import Strings

  /** What an updater hands to the repository: the items it yields, in
      order, then the exception it raises, if any. */
  datatype Feed = Feed(items: seq<Option<Items.ItemData>>, failure: Option<Error>)

  /** An engine class, by its behaviour: the outcome of instantiating it,
      its two static queries and what its instance methods return for the
      repository's arguments. */
  datatype EngineClass = EngineClass(
    init: Outcome,
    repoName: Option<string> -> Result<Option<string>>,
    reachable: Option<string> -> Result<bool>,
    preConnect: Outcome,
    preUpdate: Outcome,
    countAll: Result<int>,
    countNew: (Option<Items.ItemData>, int) -> Result<int>,
    updateAll: Feed,
    updateNew: (Option<Items.ItemData>, int) -> Feed,
    updateSelection: seq<string> -> Feed)

  /** `self.name = self.__module__.split('.')[2]` in `Engine.__init__`:
      the third dotted component of the defining module, IndexError when
      there is none. */
  function InstanceName(moduleName: string): (r: Result<string>)
    ensures r.Ok? <==> |Strings.Split(moduleName, '.')| > 2
    ensures r.Ok? ==> '.' !in r.value
  {
    var parts := Strings.Split(moduleName, '.');
    if |parts| > 2 then Ok(parts[2]) else Err(Builtin("IndexError", "list index out of range"))
  }

  /** The outcome of `Engine.__init__` for a class defined in `moduleName`. */
  function InitOutcome(moduleName: string): Outcome
  {
    var n := InstanceName(moduleName);
    if n.Ok? then Pass else Fail(n.error)
  }

  /** The base `Engine` of bdl/engine.py:23-132. */
  const BaseEngine := EngineClass(
    InitOutcome("bdl.engine"),
    u => Ok(None),
    u => Ok(false),
    Pass, Pass,
    Ok(0),
    (item, position) => Ok(0),
    Feed([None], None),
    (item, position) => Feed([None], None),
    urls => Feed([None], None))

  /** The base class reports no repository name, an unreachable remote and
      no items, and each of its updaters yields one `None`. */
  lemma BaseEngineDefaults()
    ensures forall u :: BaseEngine.repoName(u) == Ok(None) && BaseEngine.reachable(u) == Ok(false)
    ensures BaseEngine.countAll == Ok(0) && BaseEngine.updateAll == Feed([None], None)
    ensures forall i, p :: BaseEngine.countNew(i, p) == Ok(0) && BaseEngine.updateNew(i, p) == Feed([None], None)
    ensures forall us :: BaseEngine.updateSelection(us) == Feed([None], None)
  {
  }

  /** Instantiating the base class directly fails: its module `bdl.engine`
      has no third dotted component. */
  lemma BaseEngineNotInstantiable()
    ensures BaseEngine.init.Fail?
  {
    assert Strings.Split("bdl", '.') == ["bdl"];
    assert "bdl.engine" == "bdl" + ['.'] + "engine";
    Items.SplitAtLast("bdl", "engine");
  }

  /** An engine class in a module `<package>.<subpackage>.<name>`, such as
      `bdl.engines.default`, is named `<name>`. */
  lemma EngineInstanceNamed(package: string, subpackage: string, name: string)
    requires '.' !in package && '.' !in subpackage && '.' !in name
    ensures InstanceName(package + ['.'] + subpackage + ['.'] + name) == Ok(name)
  {
    Items.SplitAtLast(package, subpackage);
    Items.SplitAtLast(package + ['.'] + subpackage, name);
  }

  /** The `Engine` attribute of a module: absent, something other than a
      class, or an engine class. */
  datatype EngineAttr = NoAttr | NotAClass | Class(cls: EngineClass)

  /** A loaded module: its `__name__`, whether it is a module object at all,
      and its `Engine` attribute. */
  datatype Module = Module(name: string, isModule: bool, engine: EngineAttr)

  /** `validate(engine)` (engine.py:241-262). */
  function Validate(m: Module): (r: Outcome)
    ensures r.Pass? <==> m.isModule && m.engine.Class?
    ensures r.Fail? ==> KindOf(r.error) == Some(EngineStructure)
    ensures !m.isModule ==> r == Fail(EngineStructureError(Some(m.name), "Engine is not a module"))
    ensures m.isModule && m.engine.NoAttr? ==>
              r == Fail(EngineStructureError(Some(m.name), "Engine module does not define an Engine class"))
    ensures m.isModule && m.engine.NotAClass? ==>
              r == Fail(EngineStructureError(Some(m.name), "Engine class is not a class"))
  {
    if !m.isModule then Fail(EngineStructureError(Some(m.name), "Engine is not a module"))
    else match m.engine
      case NoAttr => Fail(EngineStructureError(Some(m.name), "Engine module does not define an Engine class"))
      case NotAClass => Fail(EngineStructureError(Some(m.name), "Engine class is not a class"))
      case Class(_) => Pass
  }

  /** An engine found by discovery: its name, its module name and its
      decoded `sites.json` (netloc to URL regexes, in file order), or the
      exception opening or decoding it raised. */
  datatype Discovered = Discovered(name: string, moduleName: string, sites: Result<seq<(string, seq<string>)>>)

  /** `NetlocRegex(url_regex, engine_name)`. */
  datatype NetlocRegex = NetlocRegex(urlRegex: string, engineName: string)

  /** The rules one netloc entry of `name`'s sites contributes, in order. */
  function Rules(regexes: seq<string>, name: string): (r: seq<NetlocRegex>)
    ensures |r| == |regexes|
    ensures forall k :: 0 <= k < |r| ==> r[k] == NetlocRegex(regexes[k], name)
    decreases |regexes|
  {
    if regexes == [] then []
    else Rules(regexes[..|regexes| - 1], name) + [NetlocRegex(regexes[|regexes| - 1], name)]
  }

  /** `by_netloc[netloc]`, taking an absent netloc as no rules. */
  function Lookup(table: map<string, seq<NetlocRegex>>, netloc: string): seq<NetlocRegex>
  {
    if netloc in table then table[netloc] else []
  }

  /** One netloc entry registered: the key is created when absent and its
      rules appended after the ones already there. */
  function AddSite(table: map<string, seq<NetlocRegex>>, name: string, netloc: string,
                   regexes: seq<string>): map<string, seq<NetlocRegex>>
  {
    table[netloc := Lookup(table, netloc) + Rules(regexes, name)]
  }

  /** All the netloc entries of one engine registered, in file order. */
  function AddSites(table: map<string, seq<NetlocRegex>>, name: string,
                    sites: seq<(string, seq<string>)>): map<string, seq<NetlocRegex>>
    decreases |sites|
  {
    if sites == [] then table
    else
      var n := |sites|;
      AddSite(AddSites(table, name, sites[..n - 1]), name, sites[n - 1].0, sites[n - 1].1)
  }

  /** The rules one engine's sites give a netloc, in file order. */
  function SiteRules(sites: seq<(string, seq<string>)>, netloc: string, name: string): seq<NetlocRegex>
    decreases |sites|
  {
    if sites == [] then []
    else
      var n := |sites|;
      SiteRules(sites[..n - 1], netloc, name) + (if sites[n - 1].0 == netloc then Rules(sites[n - 1].1, name) else [])
  }

  /** `by_name` after the engines `ds` were registered in order. */
  function NamesOf(ds: seq<Discovered>): map<string, string>
    decreases |ds|
  {
    if ds == [] then map[]
    else
      var n := |ds|;
      NamesOf(ds[..n - 1])[ds[n - 1].name := ds[n - 1].moduleName]
  }

  /** `by_netloc` after the engines `ds` were registered in order. */
  function TableOf(ds: seq<Discovered>): map<string, seq<NetlocRegex>>
    decreases |ds|
  {
    if ds == [] then map[]
    else
      var n := |ds|;
      var last := ds[n - 1];
      if last.sites.Ok? then AddSites(TableOf(ds[..n - 1]), last.name, last.sites.value)
      else TableOf(ds[..n - 1])
  }

  /** One netloc entry appends its rules to that netloc's and leaves the
      others' alone. */
  lemma AddSiteLookup(table: map<string, seq<NetlocRegex>>, name: string, key: string,
                      regexes: seq<string>, netloc: string)
    ensures Lookup(AddSite(table, name, key, regexes), netloc)
            == Lookup(table, netloc) + (if key == netloc then Rules(regexes, name) else [])
  {
    if key != netloc {
      assert Lookup(table, netloc) + [] == Lookup(table, netloc);
    }
  }

  /** Registering an engine's sites appends, for every netloc, the rules
      its file lists for it after the rules already there. */
  lemma {:induction false} AddSitesAppends(table: map<string, seq<NetlocRegex>>, name: string,
                                           sites: seq<(string, seq<string>)>, netloc: string)
    ensures Lookup(AddSites(table, name, sites), netloc) == Lookup(table, netloc) + SiteRules(sites, netloc, name)
    decreases |sites|
  {
    if sites == [] {
      assert Lookup(table, netloc) + [] == Lookup(table, netloc);
    } else {
      var n := |sites|;
      var front := sites[..n - 1];
      var before := Lookup(table, netloc);
      var mid := SiteRules(front, netloc, name);
      var last := if sites[n - 1].0 == netloc then Rules(sites[n - 1].1, name) else [];
      assert SiteRules(sites, netloc, name) == mid + last;
      assert Lookup(AddSites(table, name, sites), netloc) == before + mid + last by {
        AddSitesAppends(table, name, front, netloc);
        AddSiteLookup(AddSites(table, name, front), name, sites[n - 1].0, sites[n - 1].1, netloc);
      }
      Strings.AppendAssociates(before, mid, last);
    }
  }

  /** A netloc is a key after registering an engine's sites exactly when
      it was one before or the engine's file names it. */
  lemma {:induction false} AddSitesKeys(table: map<string, seq<NetlocRegex>>, name: string,
                                        sites: seq<(string, seq<string>)>, netloc: string)
    ensures netloc in AddSites(table, name, sites) <==>
              netloc in table || exists k :: 0 <= k < |sites| && sites[k].0 == netloc
    decreases |sites|
  {
    if sites != [] {
      var n := |sites|;
      var front := sites[..n - 1];
      AddSitesKeys(table, name, front, netloc);
      if exists k :: 0 <= k < |sites| && sites[k].0 == netloc {
        var k :| 0 <= k < |sites| && sites[k].0 == netloc;
        if k < n - 1 {
          assert front[k].0 == netloc;
        }
      }
      if exists k :: 0 <= k < |front| && front[k].0 == netloc {
        var k :| 0 <= k < |front| && front[k].0 == netloc;
        assert sites[k].0 == netloc;
      }
    }
  }

  /** A later engine's rules for a netloc come after every earlier
      engine's: registration order is kept. */
  lemma RegistrationOrder(ds: seq<Discovered>, d: Discovered, netloc: string)
    requires d.sites.Ok?
    ensures Lookup(TableOf(ds + [d]), netloc) == Lookup(TableOf(ds), netloc) + SiteRules(d.sites.value, netloc, d.name)
  {
    assert (ds + [d])[..|ds|] == ds;
    AddSitesAppends(TableOf(ds), d.name, d.sites.value, netloc);
  }

  /** A name is registered exactly when some discovered engine has it. */
  lemma {:induction false} RegisteredNames(ds: seq<Discovered>, name: string)
    ensures name in NamesOf(ds) <==> exists i :: 0 <= i < |ds| && ds[i].name == name
    decreases |ds|
  {
    if ds != [] {
      var n := |ds|;
      var front := ds[..n - 1];
      RegisteredNames(front, name);
      if name in NamesOf(ds) && ds[n - 1].name != name {
        var i :| 0 <= i < |front| && front[i].name == name;
        assert ds[i].name == name;
      }
      if exists i :: 0 <= i < |ds| && ds[i].name == name {
        var i :| 0 <= i < |ds| && ds[i].name == name;
        if i < n - 1 {
          assert front[i].name == name;
        }
      }
    }
  }

  /** Every registered name maps to the module of its last registration. */
  lemma {:induction false} LastRegistrationWins(ds: seq<Discovered>, name: string, i: nat)
    requires i < |ds| && ds[i].name == name
    requires forall j :: i < j < |ds| ==> ds[j].name != name
    ensures name in NamesOf(ds) && NamesOf(ds)[name] == ds[i].moduleName
    decreases |ds|
  {
    var n := |ds|;
    if i < n - 1 {
      var front := ds[..n - 1];
      assert front[i] == ds[i];
      assert forall j :: i < j < |front| ==> front[j] == ds[j];
      LastRegistrationWins(front, name, i);
    }
  }

  /** The first rule, in list order, whose regex matches the URL. */
  function FirstMatch(rules: seq<NetlocRegex>, url: string, matches: (string, string) -> bool): (k: Option<nat>)
    ensures k.Some? ==> k.value < |rules| && matches(rules[k.value].urlRegex, url)
    ensures k.Some? ==> forall j :: 0 <= j < k.value ==> !matches(rules[j].urlRegex, url)
    ensures k.None? ==> forall j :: 0 <= j < |rules| ==> !matches(rules[j].urlRegex, url)
    decreases |rules|
  {
    if rules == [] then None
    else if matches(rules[0].urlRegex, url) then Some(0)
    else
      var k := FirstMatch(rules[1..], url, matches);
      if k.Some? then Some(k.value + 1) else None
  }

  /** The rules are tried in list order: a matching rule with no matching
      rule before it is the one chosen. */
  lemma {:induction false} FirstMatchIs(rules: seq<NetlocRegex>, url: string, matches: (string, string) -> bool, k: nat)
    requires k < |rules| && matches(rules[k].urlRegex, url)
    requires forall j :: 0 <= j < k ==> !matches(rules[j].urlRegex, url)
    ensures FirstMatch(rules, url, matches) == Some(k)
    decreases k
  {
    if k > 0 {
      FirstMatchIs(rules[1..], url, matches, k - 1);
    }
  }

  /** The module-level `by_name` and `by_netloc` dictionaries. */
  class Registry {
    var byName: map<string, string>
    var byNetloc: map<string, seq<NetlocRegex>>

    constructor ()
      ensures byName == map[] && byNetloc == map[]
    {
      byName := map[];
      byNetloc := map[];
    }

    /** `preload()` (engine.py:164-182): both tables are cleared, then each
        discovered engine is registered in turn, its name first; the first
        sites file that cannot be read stops the registration and its
        exception propagates, leaving that engine's name registered. */
    method Preload(ds: seq<Discovered>) returns (r: Outcome)
      modifies this
      ensures r.Pass? <==> forall i :: 0 <= i < |ds| ==> ds[i].sites.Ok?
      ensures r.Pass? ==> byName == NamesOf(ds) && byNetloc == TableOf(ds)
      ensures r.Fail? ==> exists k :: 0 <= k < |ds| && ds[k].sites.Err?
                            && (forall i :: 0 <= i < k ==> ds[i].sites.Ok?)
                            && r.error == ds[k].sites.error
                            && byName == NamesOf(ds[..k + 1]) && byNetloc == TableOf(ds[..k])
    {
      byName := map[];
      byNetloc := map[];
      var i := 0;
      while i < |ds|
        invariant 0 <= i <= |ds|
        invariant forall j :: 0 <= j < i ==> ds[j].sites.Ok?
        invariant byName == NamesOf(ds[..i]) && byNetloc == TableOf(ds[..i])
      {
        var d := ds[i];
        assert ds[..i + 1][..i] == ds[..i];
        byName := byName[d.name := d.moduleName];
        if d.sites.Err? {
          return Fail(d.sites.error);
        }
        RegisterSites(d.name, d.sites.value);
        i := i + 1;
      }
      assert ds[..i] == ds;
      r := Pass;
    }

    /** The netloc loop of `sub_preload` for one engine. */
    method RegisterSites(name: string, sites: seq<(string, seq<string>)>)
      modifies this`byNetloc
      ensures byNetloc == AddSites(old(byNetloc), name, sites)
    {
      var j := 0;
      while j < |sites|
        invariant 0 <= j <= |sites|
        invariant byNetloc == AddSites(old(byNetloc), name, sites[..j])
      {
        assert sites[..j + 1][..j] == sites[..j];
        var (netloc, regexes) := sites[j];
        if netloc !in byNetloc {
          byNetloc := byNetloc[netloc := []];
        }
        AppendRules(name, netloc, regexes);
        j := j + 1;
      }
      assert sites[..j] == sites;
    }

    /** The regex loop of `sub_preload` for one netloc already a key. */
    method AppendRules(name: string, netloc: string, regexes: seq<string>)
      requires netloc in byNetloc
      modifies this`byNetloc
      ensures byNetloc == old(byNetloc)[netloc := old(byNetloc)[netloc] + Rules(regexes, name)]
    {
      var k := 0;
      assert old(byNetloc)[netloc] + Rules(regexes[..0], name) == old(byNetloc)[netloc];
      while k < |regexes|
        invariant 0 <= k <= |regexes|
        invariant byNetloc == old(byNetloc)[netloc := old(byNetloc)[netloc] + Rules(regexes[..k], name)]
      {
        assert regexes[..k + 1][..k] == regexes[..k];
        assert Rules(regexes[..k + 1], name) == Rules(regexes[..k], name) + [NetlocRegex(regexes[k], name)];
        assert old(byNetloc)[netloc] + Rules(regexes[..k], name) + [NetlocRegex(regexes[k], name)]
               == old(byNetloc)[netloc] + Rules(regexes[..k + 1], name);
        byNetloc := byNetloc[netloc := byNetloc[netloc] + [NetlocRegex(regexes[k], name)]];
        k := k + 1;
      }
      assert regexes[..k] == regexes;
    }

    /** `load_by_name(name)` (engine.py:187-208): an unregistered name, or
        a module whose import raises, is an EngineLoadError. */
    function LoadByName(name: string, importer: string -> Result<Module>): (r: Result<Module>)
      reads this
      ensures r.Ok? <==> name in byName && importer(byName[name]).Ok?
      ensures r.Ok? ==> r.value == importer(byName[name]).value
      ensures r.Err? ==> KindOf(r.error) == Some(EngineLoad)
      ensures name !in byName ==> r == Err(EngineLoadError(Some(name), "Engine does not exists"))
      ensures name in byName && importer(byName[name]).Err? ==>
                r == Err(EngineLoadError(Some(name), Message(importer(byName[name]).error)))
    {
      if name !in byName then Err(EngineLoadError(Some(name), "Engine does not exists"))
      else
        var m := importer(byName[name]);
        if m.Err? then Err(EngineLoadError(Some(name), Message(m.error))) else m
    }

    /** What `load_by_url(url)` yields: the engine named by the first
        matching rule of the URL's netloc, or the error for an empty netloc,
        an unknown site or an unmatched URL. */
    function ResolveUrl(url: Items.Url, matches: (string, string) -> bool, importer: string -> Result<Module>)
      : (r: Result<Module>)
      reads this
      ensures r.Err? ==> KindOf(r.error) == Some(EngineLoad) || (url.netloc == "" && r == Err(InvalidURLError(url.text)))
    {
      if url.netloc == "" then Err(InvalidURLError(url.text))
      else if url.netloc !in byNetloc then Err(EngineLoadError(None, "Unsupported site: " + url.netloc))
      else
        var rules := byNetloc[url.netloc];
        var k := FirstMatch(rules, url.text, matches);
        if k.Some? then LoadByName(rules[k.value].engineName, importer)
        else Err(EngineLoadError(None, "Unsupported URL " + url.text + " for site " + url.netloc))
    }

    /** `load_by_url(url)` (engine.py:211-238): an empty netloc is an
        InvalidURLError, a netloc without rules an unsupported site; the
        rules are tried in list order and the first whose regex matches
        names the engine loaded; when none matches the URL is unsupported. */
    method LoadByUrl(url: Items.Url, matches: (string, string) -> bool, importer: string -> Result<Module>)
      returns (r: Result<Module>)
      ensures r == ResolveUrl(url, matches, importer)
    {
      var netloc := url.netloc;
      if |netloc| <= 0 {
        return Err(InvalidURLError(url.text));
      }
      if netloc !in byNetloc {
        return Err(EngineLoadError(None, "Unsupported site: " + netloc));
      }
      var rules := byNetloc[netloc];
      var i := 0;
      while i < |rules|
        invariant 0 <= i <= |rules|
        invariant forall j :: 0 <= j < i ==> !matches(rules[j].urlRegex, url.text)
      {
        if matches(rules[i].urlRegex, url.text) {
          FirstMatchIs(rules, url.text, matches, i);
          return LoadByName(rules[i].engineName, importer);
        }
        i := i + 1;
      }
      r := Err(EngineLoadError(None, "Unsupported URL " + url.text + " for site " + netloc));
    }
  }
}
