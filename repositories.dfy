/** The repository orchestrator of bdl/repository.py: a local directory
    holding a `.bdl` directory with the configuration file and the item
    index, kept in step with a remote through an engine. Module import, URL
    parsing and `re.match` are the resolver's parameters. The SIGINT
    handler, which sets the stop flag from outside, becomes the `stopAt`
    parameter of an update: the loop iteration at which the flag is found
    set. */
module Repositories {
  import opened Wrappers
  import opened Errors
  import opened JsonValues
  import Strings
  import Items
  import Schema
  import Storenames
  import ItemIndex
  import Engines
  import Progresses
  import Configs
  import Disk

  /** How engine modules are found: the importer, the URL regex match and
      urlparse. */
  datatype Resolver = Resolver(
    importer: string -> Result<Engines.Module>,
    matches: (string, string) -> bool,
    parse: string -> Items.Url)

  /** An exception of the `EngineError` family. */
  predicate IsEngineError(e: Error)
  {
    KindOf(e).Some? && IsA(KindOf(e).value, Engine)
  }

  // ---------------------------------------------------------------------
  // Engine module and paths
  // ---------------------------------------------------------------------

  /** The loader `__init_engine_module` picks (repository.py:67-72) and what
      it yields: by engine name first, else by URL, else nothing is loaded. */
  function Lookup(registry: Engines.Registry, engineName: Option<string>, url: Option<string>,
                  res: Resolver): Option<Result<Engines.Module>>
    reads registry
  {
    if engineName.Some? then Some(registry.LoadByName(engineName.value, res.importer))
    else if url.Some? then Some(registry.ResolveUrl(res.parse(url.value), res.matches, res.importer))
    else None
  }

  /** The outcome of `__init_engine_module` once the loader ran
      (repository.py:74-81): an engine error from loading or validation is
      wrapped in a RepoError, anything else propagates unchanged. */
  function ModuleOutcome(name: Option<string>, loaded: Option<Result<Engines.Module>>): (r: Outcome)
    ensures loaded.None? ==> r.Pass?
    ensures loaded.Some? ==> (r.Pass? <==> loaded.value.Ok? && Engines.Validate(loaded.value.value).Pass?)
    ensures r.Fail? ==>
              KindOf(r.error) == Some(Repo)
              || (loaded.Some? && loaded.value == Err(r.error) && !IsEngineError(r.error))
    ensures loaded.Some? && loaded.value.Err? && IsEngineError(loaded.value.error) ==>
              r == Fail(RepoError(name, "Cannot load engine module: " + Message(loaded.value.error)))
  {
    if loaded.None? then Pass
    else match loaded.value
      case Err(e) =>
        if IsEngineError(e) then Fail(RepoError(name, "Cannot load engine module: " + Message(e))) else Fail(e)
      case Ok(m) =>
        var v := Engines.Validate(m);
        if v.Fail? then Fail(RepoError(name, "Cannot load engine module: " + Message(v.error))) else Pass
  }

  /** Whatever the registry holds, a failed engine lookup surfaces as a
      RepoError, except an invalid URL (whose class is not an engine error),
      which only the lookup by URL can raise. */
  lemma LookupFailures(registry: Engines.Registry, engineName: Option<string>, url: Option<string>,
                       res: Resolver, name: Option<string>)
    ensures var r := ModuleOutcome(name, Lookup(registry, engineName, url, res));
            r.Fail? ==>
              KindOf(r.error) == Some(Repo)
              || (engineName.None? && url.Some? && r.error == InvalidURLError(res.parse(url.value).text))
  {
    assert IsA(EngineLoad, Engine);
  }

  /** The repository path `__init_paths` computes (repository.py:86-95): the
      given path under the root, else the name the engine class gives for
      the URL, with its slashes removed, under the root. An engine error or
      TypeError from the engine becomes a RepoError; a missing module or a
      `None` name fails on the attribute access. `os.path.abspath` is not
      applied. */
  function RepositoryPath(root: string, path: Option<string>, engineModule: Option<Engines.Module>,
                          url: Option<string>, name: Option<string>): (r: Result<string>)
    ensures path.Some? ==> r == Ok(Disk.PathJoin(root, path.value))
    ensures path.None? && r.Ok? ==> exists n :: '/' !in n && r.value == Disk.PathJoin(root, n)
    ensures path.None? && engineModule.None? ==> r.Err? && KindOf(r.error).None?
  {
    if path.Some? then Ok(Disk.PathJoin(root, path.value))
    else if engineModule.None? then Err(Builtin("AttributeError", "'NoneType' object has no attribute 'Engine'"))
    else match engineModule.value.engine
      case NoAttr => Err(Builtin("AttributeError", "module '" + engineModule.value.name + "' has no attribute 'Engine'"))
      case NotAClass => Err(Builtin("AttributeError", "object has no attribute 'get_repo_name'"))
      case Class(cls) =>
        match cls.repoName(url)
        case Err(e) =>
          if IsEngineError(e) || (e.Builtin? && e.name == "TypeError")
          then Err(RepoError(name, "Cannot retrieve repository name"))
          else Err(e)
        case Ok(None) => Err(Builtin("AttributeError", "'NoneType' object has no attribute 'replace'"))
        case Ok(Some(n)) => Ok(Disk.PathJoin(root, Strings.Remove(n, '/')))
  }

  /** A repository directory named after the remote is a direct child of
      the root: its basename is the name itself. */
  lemma NamedAfterRemote(root: string, n: string)
    requires n != "" && '/' !in n && n[0] != '/'
    ensures Items.Basename(Disk.PathJoin(root, n)) == n
  {
    var p := Disk.PathJoin(root, n);
    var k := |p| - |n|;
    assert p[k..] == n;
    if root == "" {
      assert p == n;
      assert '/' !in p;
    } else {
      assert p[k - 1] == '/';
      var i := Strings.LastIndexOf(p, '/');
    }
  }

  // ---------------------------------------------------------------------
  // Configuration file
  // ---------------------------------------------------------------------

  /** A JSON value as the `str` or `None` the repository keeps. */
  function AsText(v: Value): Option<string>
  {
    if v.Str? then Some(v.s) else None
  }

  function FromText(t: Option<string>): Value
  {
    if t.Some? then Str(t.value) else Null
  }

  /** What the configuration file sets: the URL, the storename template and
      the engine settings. */
  datatype Settings = Settings(url: Option<string>, template: Option<string>, engine: Value)

  /** `config["repo"]["url"]` and `config["repo"].get("template", None)`
      (repository.py:131-133). */
  function RepoSettings(config: Value): Result<(Option<string>, Option<string>)>
  {
    var repo := Configs.Index(config, "repo");
    if repo.Err? then Err(repo.error)
    else
      var url := Configs.Index(repo.value, "url");
      if url.Err? then Err(url.error)
      else
        var fields := repo.value.fields;
        Ok((AsText(url.value), if "template" in fields then AsText(fields["template"]) else None))
  }

  /** Everything `__load_config` reads (repository.py:131-134). */
  function ReadSettings(config: Value): Result<Settings>
  {
    var repo := RepoSettings(config);
    if repo.Err? then Err(repo.error)
    else
      var engine := Configs.Index(config, "engine");
      if engine.Err? then Err(engine.error) else Ok(Settings(repo.value.0, repo.value.1, engine.value))
  }

  /** The document `__save_config` writes (repository.py:117-122); reading
      it back gives the settings it was written from. */
  function ConfigDocument(url: Option<string>, template: Option<string>, engine: map<string, Value>): (v: Value)
    ensures ReadSettings(v) == Ok(Settings(url, template, Obj(engine)))
  {
    var repo := Obj(map["url" := FromText(url), "template" := FromText(template)]);
    assert AsText(FromText(url)) == url && AsText(FromText(template)) == template;
    Obj(map["repo" := repo, "engine" := Obj(engine)])
  }

  /** The `except` clauses of `__load_config` for a parsed document
      (repository.py:140-143): a missing key is a RepoConfigError naming
      it; any other error propagates. */
  function ConfigFailure(name: Option<string>, e: Error): (r: Error)
    ensures e.Builtin? && e.name == "KeyError" ==>
              r == RepoConfigError(name, "Missing configuration attribute: " + e.text)
    ensures !(e.Builtin? && e.name == "KeyError") ==> r == e
  {
    if e.Builtin? && e.name == "KeyError" then RepoConfigError(name, "Missing configuration attribute: " + Message(e))
    else e
  }

  /** `type(v).__name__`. */
  function ShortTypeName(v: Value): string
  {
    match v
    case Str(_) => "str"
    case Null => "NoneType"
    case Int(_) => "int"
    case Bool(_) => "bool"
    case Obj(_) => "dict"
    case Arr(_) => "list"
  }

  // ---------------------------------------------------------------------
  // Update modes
  // ---------------------------------------------------------------------

  datatype Mode = NewItems | MissingItems | AllItems

  /** The mode `_update` selects (repository.py:255-278): three `if`s in
      sequence, each overriding the previous one, so `up_existing` wins
      over `up_missing`, which wins over `up_new`. */
  function SelectMode(upNew: bool, upMissing: bool, upExisting: bool): (m: Option<Mode>)
    ensures upExisting ==> m == Some(AllItems)
    ensures !upExisting && upMissing ==> m == Some(MissingItems)
    ensures !upExisting && !upMissing && upNew ==> m == Some(NewItems)
    ensures m.None? <==> !upNew && !upMissing && !upExisting
  {
    var m: Option<Mode> := if upNew && !upExisting then Some(NewItems) else None;
    var m' := if upMissing && !upExisting then Some(MissingItems) else m;
    if upExisting then Some(AllItems) else m'
  }

  /** `index_update`: only the new-items mode leaves indexed URLs alone. */
  function IndexUpdate(m: Mode): bool
  {
    m != NewItems
  }

  /** What a mode asks of the engine: the count, the items, and whether
      indexed URLs are updated in place. Without a mode `counter_func` is
      unbound, which fails as soon as the count is asked for. */
  datatype Plan = Plan(count: Result<int>, feed: Engines.Feed, update: bool)

  /** The URLs of the missing items, as `update_selection` receives them. */
  function UrlsOf(missing: seq<(string, Items.Url)>): (urls: seq<string>)
    ensures |urls| == |missing|
    ensures forall i :: 0 <= i < |missing| ==> urls[i] == missing[i].1.text
  {
    seq(|missing|, i requires 0 <= i < |missing| => missing[i].1.text)
  }

  function PlanOf(mode: Option<Mode>, e: Engines.EngineClass, last: (Option<Items.ItemData>, int),
                  missing: seq<(string, Items.Url)>): Plan
  {
    match mode
    case None =>
      Plan(Err(Builtin("UnboundLocalError", "local variable 'counter_func' referenced before assignment")),
           Engines.Feed([], None), false)
    case Some(NewItems) => Plan(e.countNew(last.0, last.1), e.updateNew(last.0, last.1), false)
    case Some(MissingItems) => Plan(Ok(|missing|), e.updateSelection(UrlsOf(missing)), true)
    case Some(AllItems) => Plan(e.countAll, e.updateAll, true)
  }

  /** The plan `_update` executes: in the missing-items mode, a failure
      listing the missing items propagates before anything runs. */
  function PlanResult(mode: Option<Mode>, e: Engines.EngineClass, last: (Option<Items.ItemData>, int),
                      missing: Result<seq<(string, Items.Url)>>): (p: Result<Plan>)
    ensures p.Err? <==> mode == Some(MissingItems) && missing.Err?
    ensures p.Err? ==> p.error == missing.error
    ensures p.Ok? ==> p.value.update == (mode.Some? && IndexUpdate(mode.value))
  {
    if mode != Some(MissingItems) then Ok(PlanOf(mode, e, last, []))
    else if missing.Err? then Err(missing.error)
    else Ok(PlanOf(mode, e, last, missing.value))
  }

  /** The public operations (repository.py:337-355) and the plans their
      flags give: `update` asks for new items without touching indexed
      ones; `stash` and `checkout` both end in the all-items branch;
      `reset` asks for the missing items, updating them in place. */
  lemma PublicPlans(e: Engines.EngineClass, last: (Option<Items.ItemData>, int), missing: seq<(string, Items.Url)>)
    ensures PlanOf(SelectMode(true, false, false), e, last, missing)
            == Plan(e.countNew(last.0, last.1), e.updateNew(last.0, last.1), false)
    ensures PlanOf(SelectMode(false, true, true), e, last, missing) == Plan(e.countAll, e.updateAll, true)
    ensures PlanOf(SelectMode(true, true, true), e, last, missing) == Plan(e.countAll, e.updateAll, true)
    ensures PlanOf(SelectMode(false, true, false), e, last, missing)
            == Plan(Ok(|missing|), e.updateSelection(UrlsOf(missing)), true)
  {
  }

  /** The checks `_update` makes before its `try` (repository.py:249-251):
      an error from the reachability query or from `pre_update` propagates,
      an unreachable remote is a RepoUpdateError. */
  function Gate(name: Option<string>, reach: Result<bool>, pre: Outcome): (g: Option<Error>)
    ensures reach == Ok(false) ==> g == Some(RepoUpdateError(name, "Repository is not reachable"))
    ensures g.None? <==> reach == Ok(true) && pre.Pass?
  {
    if reach.Err? then Some(reach.error)
    else if !reach.value then Some(RepoUpdateError(name, "Repository is not reachable"))
    else if pre.Fail? then Some(pre.error)
    else None
  }

  // ---------------------------------------------------------------------
  // Missing files
  // ---------------------------------------------------------------------

  /** A queried pair `_missing` reports: an item whose file is absent under
      `dir`. */
  predicate IsMissing(q: (Option<Items.ItemData>, int), files: map<string, Items.Bytes>, dir: string)
  {
    q.0.Some? && q.0.value.storename.Some? && Disk.PathJoin(dir, q.0.value.storename.value) !in files
  }

  /** The pair `_missing` reports for an item. */
  function Reported(item: Items.ItemData): (string, Items.Url)
  {
    (item.storename.GetOr(""), item.url)
  }

  /** One iteration of `_missing` (repository.py:234-236): an item without
      storename makes `os.path.join` raise, an item whose file is absent is
      reported after the ones before it. */
  function MissingStep(front: Result<seq<(string, Items.Url)>>, q: (Option<Items.ItemData>, int),
                       files: map<string, Items.Bytes>, dir: string): Result<seq<(string, Items.Url)>>
  {
    if front.Err? || q.0.None? then front
    else if q.0.value.storename.None? then
      Err(Builtin("TypeError", "expected str, bytes or os.PathLike object, not NoneType"))
    else if Disk.PathJoin(dir, q.0.value.storename.value) in files then front
    else Ok(front.value + [Reported(q.0.value)])
  }

  /** What `_missing` returns for the queried pairs (repository.py:232-237),
      in order. */
  function MissingOf(queried: seq<(Option<Items.ItemData>, int)>, files: map<string, Items.Bytes>,
                     dir: string): Result<seq<(string, Items.Url)>>
    decreases |queried|
  {
    if queried == [] then Ok([])
    else
      var n := |queried|;
      MissingStep(MissingOf(queried[..n - 1], files, dir), queried[n - 1], files, dir)
  }

  /** The first `i + 1` pairs are the first `i` and one more step. */
  lemma MissingPrefixStep(queried: seq<(Option<Items.ItemData>, int)>, files: map<string, Items.Bytes>,
                          dir: string, i: nat)
    requires i < |queried|
    ensures MissingOf(queried[..i + 1], files, dir) == MissingStep(MissingOf(queried[..i], files, dir), queried[i], files, dir)
  {
    assert queried[..i + 1][..i] == queried[..i];
  }

  /** `_missing` fails exactly when some queried item has no storename. */
  lemma {:induction false} MissingFailsExactly(queried: seq<(Option<Items.ItemData>, int)>,
                                               files: map<string, Items.Bytes>, dir: string)
    ensures MissingOf(queried, files, dir).Ok? <==>
              forall i :: 0 <= i < |queried| && queried[i].0.Some? ==> queried[i].0.value.storename.Some?
    decreases |queried|
  {
    if queried != [] {
      var n := |queried|;
      var front := queried[..n - 1];
      MissingFailsExactly(front, files, dir);
      assert forall i :: 0 <= i < n - 1 ==> front[i] == queried[i];
      if MissingOf(front, files, dir).Err? {
        var i :| 0 <= i < n - 1 && front[i].0.Some? && front[i].0.value.storename.None?;
        assert queried[i] == front[i];
      }
    }
  }

  /** When it succeeds, `_missing` reports exactly the items whose file is
      absent. */
  lemma {:induction false} MissingReportsExactly(queried: seq<(Option<Items.ItemData>, int)>,
                                                 files: map<string, Items.Bytes>, dir: string)
    ensures MissingOf(queried, files, dir).Ok? ==>
              forall p :: p in MissingOf(queried, files, dir).value <==>
                exists i :: 0 <= i < |queried| && IsMissing(queried[i], files, dir) && p == Reported(queried[i].0.value)
    decreases |queried|
  {
    var r := MissingOf(queried, files, dir);
    if queried != [] && r.Ok? {
      var n := |queried|;
      var front := queried[..n - 1];
      MissingReportsExactly(front, files, dir);
      var q := queried[n - 1];
      var f := MissingOf(front, files, dir);
      assert f.Ok?;
      assert r.value == if IsMissing(q, files, dir) then f.value + [Reported(q.0.value)] else f.value;
      forall p
        ensures p in r.value <==>
                exists i :: 0 <= i < n && IsMissing(queried[i], files, dir) && p == Reported(queried[i].0.value)
      {
        if p in r.value {
          if p in f.value {
            var i :| 0 <= i < n - 1 && IsMissing(front[i], files, dir) && p == Reported(front[i].0.value);
            assert queried[i] == front[i];
          } else {
            assert IsMissing(q, files, dir) && p == Reported(q.0.value);
          }
        }
        if exists i :: 0 <= i < n && IsMissing(queried[i], files, dir) && p == Reported(queried[i].0.value) {
          var i :| 0 <= i < n && IsMissing(queried[i], files, dir) && p == Reported(queried[i].0.value);
          if i < n - 1 {
            assert front[i] == queried[i];
          }
        }
      }
    }
  }

  // ---------------------------------------------------------------------
  // The update loop
  // ---------------------------------------------------------------------

  /** The part of the state the update loop changes: the index rows, the
      index counter and the item files. */
  datatype Shelf = Shelf(rows: seq<Schema.Row>, counter: int, files: map<string, Items.Bytes>)

  function ShelfOf(idx: ItemIndex.Index, fs: Disk.FileSystem): Shelf
    reads idx, fs
  {
    Shelf(idx.Rows(), idx.position, fs.files)
  }

  /** One `index.store(item, root=..., update=...)` on the shelf, with the
      error it raises, if any (index.py:337-396). */
  function StoreStep(s: Shelf, parsed: Storenames.Parsed, item: Items.ItemData, dir: string, update: bool)
    : (Shelf, Option<Error>)
  {
    var st := ItemIndex.StoreRows(s.rows, s.counter, parsed, item, update);
    if st.Err? then (s, Some(st.error))
    else if st.value.storename.None? then (Shelf(st.value.rows, st.value.counter, s.files), None)
    else
      var w := ItemIndex.WritePayload(s.files, item, Disk.PathJoin(dir, st.value.storename.value));
      if w.Err? then (Shelf(st.value.rows, st.value.counter, s.files), Some(w.error))
      else (Shelf(st.value.rows, st.value.counter, w.value), None)
  }

  /** One iteration of the update loop on the shelf (repository.py:294-298):
      a `None` item is skipped, any other stored. */
  function Next(s: Shelf, item: Option<Items.ItemData>, parsed: Storenames.Parsed, dir: string, update: bool)
    : (Shelf, Option<Error>)
  {
    if item.None? then (s, None) else StoreStep(s, parsed, item.value, dir, update)
  }

  /** The update loop over a run of received items (repository.py:288-298):
      one iteration per item, in order; the first failing store ends the
      run. */
  function Consume(s: Shelf, items: seq<Option<Items.ItemData>>, parsed: Storenames.Parsed, dir: string,
                   update: bool): (Shelf, Option<Error>)
    decreases |items|
  {
    if items == [] then (s, None)
    else
      var n := Next(s, items[0], parsed, dir, update);
      if n.1.Some? then n else Consume(n.0, items[1..], parsed, dir, update)
  }

  /** Consuming from position `i` on: the item there, then the rest. */
  lemma ConsumeNext(s: Shelf, items: seq<Option<Items.ItemData>>, i: nat, parsed: Storenames.Parsed,
                    dir: string, update: bool)
    requires i < |items|
    ensures Consume(s, items[i..], parsed, dir, update)
            == var n := Next(s, items[i], parsed, dir, update);
               if n.1.Some? then n else Consume(n.0, items[i + 1..], parsed, dir, update)
  {
    assert items[i..][0] == items[i] && items[i..][1..] == items[i + 1..];
  }

  /** The items that are not `None`, in order. */
  function Present(items: seq<Option<Items.ItemData>>): (r: seq<Items.ItemData>)
    ensures |r| <= |items|
    decreases |items|
  {
    if items == [] then []
    else if items[0].None? then Present(items[1..])
    else [items[0].value] + Present(items[1..])
  }

  /** A run without failure leaves the table as storing the received items
      that are not `None`, in the order received, with the mode's update
      flag. */
  lemma {:induction false} ConsumeStoresPresent(s: Shelf, items: seq<Option<Items.ItemData>>,
                                                parsed: Storenames.Parsed, dir: string, update: bool)
    ensures var c := Consume(s, items, parsed, dir, update);
            c.1.None? ==>
              ItemIndex.StoreAll(s.rows, s.counter, parsed, Present(items), update)
              == Ok(ItemIndex.Stored(c.0.rows, c.0.counter, None))
    decreases |items|
  {
    if items != [] {
      if items[0].None? {
        ConsumeStoresPresent(s, items[1..], parsed, dir, update);
      } else {
        var step := StoreStep(s, parsed, items[0].value, dir, update);
        if step.1.None? {
          ConsumeStoresPresent(step.0, items[1..], parsed, dir, update);
          var p := Present(items);
          assert p[0] == items[0].value && p[1..] == Present(items[1..]);
        }
      }
    }
  }

  /** Received items with fresh, distinct URLs that are all stored get the
      positions counter+1, counter+2, ... in the order received. */
  lemma FreshFeedAppends(s: Shelf, items: seq<Option<Items.ItemData>>, parsed: Storenames.Parsed,
                         dir: string, update: bool)
    requires parsed.Ok?
    requires ItemIndex.DistinctUrls(Present(items)) && ItemIndex.Unindexed(s.rows, Present(items))
    ensures var c := Consume(s, items, parsed, dir, update);
            c.1.None? ==>
              && c.0.rows == s.rows + ItemIndex.InsertedRows(s.counter, parsed, Present(items))
              && c.0.counter == s.counter + |Present(items)|
  {
    ConsumeStoresPresent(s, items, parsed, dir, update);
    ItemIndex.StoreAllFresh(s.rows, s.counter, parsed, Present(items), update);
  }

  /** How many received items the loop may reach before it finds the stop
      flag: none when it was already set, the iterations before `stopAt`
      when it is set then, all of them otherwise. */
  function Limit(n: nat, stop: bool, stopAt: Option<nat>): (k: nat)
    ensures k <= n
    ensures stop ==> k == 0
    ensures !stop && stopAt.Some? && stopAt.value < n ==> k == stopAt.value
  {
    if stop then 0 else if stopAt.Some? && stopAt.value < n then stopAt.value else n
  }

  /** The outcome of the `try` block of `_update`: the shelf, the exception
      it ends with, and whether the loop broke on the stop flag. */
  datatype Synced = Synced(shelf: Shelf, failure: Option<Error>, stopped: bool)

  /** The `try` block of `_update` after the template is set
      (repository.py:284-298): a count of 0 skips the updater, any other
      count, negative ones included, consumes it up to the stop flag; the
      updater's own exception is raised once its items are exhausted. */
  function Drain(s: Shelf, plan: Plan, parsed: Storenames.Parsed, dir: string, stop: bool,
                 stopAt: Option<nat>): Synced
  {
    if plan.count.Err? then Synced(s, Some(plan.count.error), false)
    else if plan.count.value == 0 then Synced(s, None, false)
    else
      var items := plan.feed.items;
      var lim := Limit(|items|, stop, stopAt);
      var c := Consume(s, items[..lim], parsed, dir, plan.update);
      if c.1.Some? then Synced(c.0, c.1, false)
      else if lim < |items| then Synced(c.0, None, true)
      else Synced(c.0, plan.feed.failure, false)
  }

  /** A count of exactly 0 stores nothing and raises nothing, whatever the
      updater would have produced. */
  lemma ZeroCountStoresNothing(s: Shelf, plan: Plan, parsed: Storenames.Parsed, dir: string,
                               stop: bool, stopAt: Option<nat>)
    requires plan.count == Ok(0)
    ensures Drain(s, plan, parsed, dir, stop, stopAt) == Synced(s, None, false)
  {
  }

  /** With the stop flag already set, nothing is stored, and a non-empty
      updater ends stopped without raising its own exception. */
  lemma StopStoresNothing(s: Shelf, plan: Plan, parsed: Storenames.Parsed, dir: string, stopAt: Option<nat>)
    requires plan.count.Ok? && plan.count.value != 0 && plan.feed.items != []
    ensures Drain(s, plan, parsed, dir, true, stopAt) == Synced(s, None, true)
  {
    assert plan.feed.items[..0] == [];
  }

  /** When the flag is found set at iteration k, exactly the first k
      received items were offered to the index. */
  lemma StopAtKeepsPrefix(s: Shelf, plan: Plan, parsed: Storenames.Parsed, dir: string, k: nat)
    requires plan.count.Ok? && plan.count.value != 0 && k < |plan.feed.items|
    ensures var d := Drain(s, plan, parsed, dir, false, Some(k));
            var c := Consume(s, plan.feed.items[..k], parsed, dir, plan.update);
            d.shelf == c.0 && (d.stopped <==> c.1.None?)
  {
  }

  /** The `except` clauses of `_update` (repository.py:299-304): a
      RepoStopError is swallowed, any other exception becomes a
      RepoUpdateError carrying its text. */
  function Caught(name: Option<string>, failure: Option<Error>): (r: Outcome)
    ensures r.Pass? <==> failure.None? || KindOf(failure.value) == Some(RepoStop)
    ensures r.Fail? ==> r.error == RepoUpdateError(name, Message(failure.value))
  {
    if failure.None? || KindOf(failure.value) == Some(RepoStop) then Pass
    else Fail(RepoUpdateError(name, Message(failure.value)))
  }

  // ---------------------------------------------------------------------
  // Connection guards
  // ---------------------------------------------------------------------

  /** The checks of `_connect` as written (repository.py:196-208): the
      class they raise, RepoConnectError, is not defined in
      bdl/exceptions.py, so each one raises a NameError instead. */
  function ConnectChecksAsWritten(url: Option<string>, path: Option<string>,
                                  engineModule: Option<Engines.Module>, exists_: bool): (g: Option<Error>)
  {
    if url.None? || path.None? || engineModule.None? || exists_ then
      Some(Builtin("NameError", "name 'RepoConnectError' is not defined"))
    else None
  }

  /** The checks of `_connect` as intended: a RepoConnectError naming the
      first missing attribute, or an existing `.bdl` directory. */
  function ConnectChecks(name: Option<string>, url: Option<string>, path: Option<string>,
                         engineModule: Option<Engines.Module>, exists_: bool): (g: Option<Error>)
    ensures url.None? ==> g == Some(RepoConnectError(name, "Missing URL"))
    ensures url.Some? && path.None? ==> g == Some(RepoConnectError(name, "Missing path"))
    ensures url.Some? && path.Some? && engineModule.None? ==> g == Some(RepoConnectError(name, "Missing engine module"))
    ensures url.Some? && path.Some? && engineModule.Some? ==>
              (g.Some? <==> exists_) && (exists_ ==> g == Some(RepoConnectError(name, "Repository already exists")))
  {
    if url.None? then Some(RepoConnectError(name, "Missing URL"))
    else if path.None? then Some(RepoConnectError(name, "Missing path"))
    else if engineModule.None? then Some(RepoConnectError(name, "Missing engine module"))
    else if exists_ then Some(RepoConnectError(name, "Repository already exists"))
    else None
  }

  /** Both versions refuse the same connections, but only the intended one
      raises a repository error a caller catching RepoError would see. */
  lemma ConnectGuardFinding(name: Option<string>, url: Option<string>, path: Option<string>,
                            engineModule: Option<Engines.Module>, exists_: bool)
    ensures ConnectChecksAsWritten(url, path, engineModule, exists_).Some?
            <==> ConnectChecks(name, url, path, engineModule, exists_).Some?
    ensures ConnectChecksAsWritten(url, path, engineModule, exists_).Some? ==>
              KindOf(ConnectChecksAsWritten(url, path, engineModule, exists_).value).None?
    ensures ConnectChecks(name, url, path, engineModule, exists_).Some? ==>
              var k := KindOf(ConnectChecks(name, url, path, engineModule, exists_).value);
              k == Some(RepoConnect) && IsA(k.value, Repo)
  {
  }

  /** What `status()` reports (repository.py:14-17). */
  datatype RepoStatus = RepoStatus(reachable: bool, indexed: nat, newItems: int, missing: nat)

  // ---------------------------------------------------------------------
  // The repository
  // ---------------------------------------------------------------------

  class Repository {
    var url: Option<string>
    var path: Option<string>
    const root: string
    var name: Option<string>
    var engine: Option<Engines.EngineClass>
    const engineName: Option<string>
    var engineModule: Option<Engines.Module>
    var engineConfig: Value
    var index: Option<ItemIndex.Index>
    var template: Option<string>
    const progress: Progresses.Progress
    var stop: bool
    var bdlpath: string
    var configpath: string
    var indexpath: string

    function Indexes(): set<object>
      reads this
    {
      if index.Some? then {index.value} else {}
    }

    /** A loaded index is a ready one. */
    predicate Valid()
      reads this, Indexes()
    {
      index.Some? && index.value.loaded ==> index.value.Ready()
    }

    /** The index database file, when present, lists its rows in order. */
    predicate IndexFileWellFormed(fs: Disk.FileSystem)
      reads this, fs
    {
      indexpath in fs.databases ==> ItemIndex.WellFormed(fs.databases[indexpath])
    }

    /** The attribute assignments of `Repository(...)` (repository.py:34-47)
        and `__init_state` (103-106); the loading of the engine module and
        the paths that follow them is `Initialize`. */
    constructor (url: Option<string>, path: Option<string>, root: Option<string>,
                 engineName: Option<string>, template: Option<string>)
      ensures this.url == url && this.path == path && this.engineName == engineName && this.template == template
      ensures this.root == (if root.Some? && root.value != "" then root.value else ".")
      ensures name == (if path.Some? && Items.Basename(path.value) != "" then Some(Items.Basename(path.value)) else None)
      ensures engine.None? && engineModule.None? && index.None? && engineConfig == Obj(map[]) && !stop
      ensures fresh(progress) && progress.entries == [] && progress.count == 0 && progress.name.None?
      ensures Valid()
    {
      this.url := url;
      this.path := path;
      this.root := if root.Some? && root.value != "" then root.value else ".";
      name := if path.Some? && Items.Basename(path.value) != "" then Some(Items.Basename(path.value)) else None;
      engine := None;
      this.engineName := engineName;
      engineModule := None;
      engineConfig := Obj(map[]);
      index := None;
      this.template := template;
      progress := new Progresses.Progress(0, None);
      stop := false;
      bdlpath := "";
      configpath := "";
      indexpath := "";
    }

    /** `__init_engine_module(self.url)` (repository.py:64-81): the module
        is kept as soon as it is loaded, before it is validated. */
    method InitEngineModule(registry: Engines.Registry, res: Resolver) returns (r: Outcome)
      modifies this`engineModule
      ensures var l := Lookup(registry, engineName, url, res);
              && r == ModuleOutcome(name, l)
              && engineModule == (if l.Some? && l.value.Ok? then Some(l.value.value) else old(engineModule))
    {
      var loaded: Result<Engines.Module>;
      if engineName.Some? {
        loaded := registry.LoadByName(engineName.value, res.importer);
      } else if url.Some? {
        loaded := registry.LoadByUrl(res.parse(url.value), res.matches, res.importer);
      } else {
        return Pass;
      }
      if loaded.Err? {
        return ModuleOutcome(name, Some(loaded));
      }
      engineModule := Some(loaded.value);
      r := ModuleOutcome(name, Some(loaded));
    }

    /** `__init_paths` (repository.py:83-101): the repository path, its
        name and the `.bdl` paths. */
    method InitPaths() returns (r: Outcome)
      modifies this`path, this`name, this`bdlpath, this`configpath, this`indexpath
      ensures var p := RepositoryPath(root, old(path), engineModule, url, old(name));
              && (p.Err? ==> r == Fail(p.error) && path == old(path) && name == old(name))
              && (p.Ok? ==> r.Pass? && path == Some(p.value) && name == Some(Items.Basename(p.value))
                            && bdlpath == Disk.PathJoin(p.value, ".bdl")
                            && configpath == Disk.PathJoin(bdlpath, "config.json")
                            && indexpath == Disk.PathJoin(bdlpath, "index.sqlite"))
    {
      var p := RepositoryPath(root, path, engineModule, url, name);
      if p.Err? {
        return Fail(p.error);
      }
      path := Some(p.value);
      name := Some(Items.Basename(p.value));
      bdlpath := Disk.PathJoin(p.value, ".bdl");
      configpath := Disk.PathJoin(bdlpath, "config.json");
      indexpath := Disk.PathJoin(bdlpath, "index.sqlite");
      r := Pass;
    }

    /** The rest of `Repository(...)` (repository.py:49-50): load the engine
        module, then initialise the paths. */
    method Initialize(registry: Engines.Registry, res: Resolver) returns (r: Outcome)
      modifies this`engineModule, this`path, this`name, this`bdlpath, this`configpath, this`indexpath
      ensures var m := ModuleOutcome(old(name), Lookup(registry, engineName, url, res));
              m.Fail? ==> r == m && path == old(path) && name == old(name)
      ensures r.Pass? ==>
                && path.Some? && name == Some(Items.Basename(path.value))
                && bdlpath == Disk.PathJoin(path.value, ".bdl")
                && configpath == Disk.PathJoin(bdlpath, "config.json")
                && indexpath == Disk.PathJoin(bdlpath, "index.sqlite")
      ensures r.Pass? && old(path).Some? ==> path == Some(Disk.PathJoin(root, old(path).value))
    {
      r := InitEngineModule(registry, res);
      if r.Fail? {
        return;
      }
      r := InitPaths();
    }

    /** `__save_config` (repository.py:112-122) on the documents: opening
        the file fails when its directory is absent; a non-dictionary
        `engine_config` makes `{**...}` raise once the file is opened, which
        leaves it empty. A saved file reads back as the repository's
        settings. */
    function Saving(docs: map<string, Document>, dirs: set<string>): (r: (map<string, Document>, Outcome))
      reads this
      ensures r.1.Pass? <==> bdlpath in dirs && engineConfig.Obj?
      ensures r.1.Pass? ==>
                configpath in r.0 && r.0[configpath].Parsed?
                && ReadSettings(r.0[configpath].value) == Ok(Settings(url, template, engineConfig))
      ensures bdlpath !in dirs ==> r.0 == docs
      ensures forall p :: p != configpath ==> (p in r.0 <==> p in docs)
    {
      if bdlpath !in dirs then
        (docs, Fail(NotFound(configpath)))
      else match engineConfig
        case Obj(fields) => (docs[configpath := Parsed(ConfigDocument(url, template, fields))], Pass)
        case _ =>
          (docs[configpath := Unparsable("Expecting value: line 1 column 1 (char 0)")],
           Fail(Builtin("TypeError", "'" + ShortTypeName(engineConfig) + "' object is not a mapping")))
    }

    method SaveConfig(fs: Disk.FileSystem) returns (r: Outcome)
      modifies fs`documents
      ensures (fs.documents, r) == Saving(old(fs.documents), fs.dirs)
    {
      var saved := Saving(fs.documents, fs.dirs);
      fs.documents := saved.0;
      r := saved.1;
    }

    /** The URL held is the one the configuration file gives. */
    predicate UrlFromConfig(fs: Disk.FileSystem)
      reads this, fs
    {
      && configpath in fs.documents && fs.documents[configpath].Parsed?
      && ReadSettings(fs.documents[configpath].value).Ok?
      && url == ReadSettings(fs.documents[configpath].value).value.url
    }

    /** `__load_config` (repository.py:124-147): the URL and the template
        are assigned before the engine settings are read, so a document
        without "engine" still changes them. */
    method LoadConfig(fs: Disk.FileSystem) returns (r: Outcome)
      modifies this`url, this`template, this`engineConfig
      ensures configpath !in fs.documents ==>
                r == Fail(RepoConfigError(name, "Configuration file does not exists: " + configpath))
                && url == old(url) && template == old(template) && engineConfig == old(engineConfig)
      ensures configpath in fs.documents && fs.documents[configpath].Unparsable? ==>
                r == Fail(RepoConfigError(name, "Configuration format error: " + fs.documents[configpath].reason))
                && url == old(url) && template == old(template) && engineConfig == old(engineConfig)
      ensures configpath in fs.documents && fs.documents[configpath].Parsed? ==>
                var v := fs.documents[configpath].value;
                && (ReadSettings(v).Ok? ==>
                      r.Pass? && Settings(url, template, engineConfig) == ReadSettings(v).value)
                && (ReadSettings(v).Err? ==> r == Fail(ConfigFailure(name, ReadSettings(v).error)))
                && (RepoSettings(v).Err? ==>
                      url == old(url) && template == old(template) && engineConfig == old(engineConfig))
                && (RepoSettings(v).Ok? ==> (url, template) == RepoSettings(v).value)
    {
      if configpath !in fs.documents {
        return Fail(RepoConfigError(name, "Configuration file does not exists: " + configpath));
      }
      match fs.documents[configpath]
      case Unparsable(reason) =>
        r := Fail(RepoConfigError(name, "Configuration format error: " + reason));
      case Parsed(v) =>
        var repo := RepoSettings(v);
        if repo.Err? {
          return Fail(ConfigFailure(name, repo.error));
        }
        url := repo.value.0;
        template := repo.value.1;
        var engineSection := Configs.Index(v, "engine");
        if engineSection.Err? {
          return Fail(ConfigFailure(name, engineSection.error));
        }
        engineConfig := engineSection.value;
        r := Pass;
    }

    /** `__load_index(force)` (repository.py:149-155): a new index is kept
        before it is loaded, so a failed load leaves it in place. */
    method LoadIndex(fs: Disk.FileSystem, force: bool) returns (r: Outcome)
      requires Valid()
      requires (index.None? || force) ==> IndexFileWellFormed(fs)
      modifies this`index, fs`databases
      ensures Valid()
      ensures old(index).None? || force ==>
                index.Some? && fresh(index.value) && index.value.path == indexpath
                && (r.Pass? <==> index.value.Ready())
      ensures !(old(index).None? || force) ==>
                r.Pass? && index == old(index) && fs.databases == old(fs.databases)
    {
      if index.None? || force {
        var idx := new ItemIndex.Index(indexpath);
        index := Some(idx);
        r := idx.Load(fs);
      } else {
        r := Pass;
      }
    }

    /** `__load_engine(force)` (repository.py:157-168): reload the module
        when there is none (or when forced), then instantiate its engine
        class when there is no engine (or when forced). */
    method LoadEngine(registry: Engines.Registry, res: Resolver, force: bool) returns (r: Outcome)
      modifies this`engineModule, this`engine
      ensures r.Pass? ==> engine.Some?
      ensures !force && old(engineModule).Some? && old(engine).Some? ==>
                r.Pass? && engine == old(engine) && engineModule == old(engineModule)
      ensures r.Pass? && (old(engine).None? || force) ==>
                engineModule.Some? && engineModule.value.engine == Engines.Class(engine.value)
                && engine.value.init.Pass?
    {
      if engineModule.None? || force {
        r := InitEngineModule(registry, res);
        if r.Fail? {
          return;
        }
      }
      if engine.None? || force {
        if engineModule.None? {
          return Fail(Builtin("AttributeError", "'NoneType' object has no attribute '__name__'"));
        }
        match engineModule.value.engine
        case NoAttr =>
          return Fail(Builtin("AttributeError",
                              "module '" + engineModule.value.name + "' has no attribute 'Engine'"));
        case NotAClass =>
          return Fail(Builtin("TypeError", "'Engine' object is not callable"));
        case Class(cls) =>
          if cls.init.Fail? {
            return cls.init;
          }
          engine := Some(cls);
      }
      r := Pass;
    }

    /** `_load_components(force)` (repository.py:180-190): the path checks
        come before anything is loaded. */
    method LoadComponents(fs: Disk.FileSystem, registry: Engines.Registry, res: Resolver, force: bool)
      returns (r: Outcome)
      requires Valid()
      requires (index.None? || force) ==> IndexFileWellFormed(fs)
      modifies this`url, this`template, this`engineConfig, this`index, this`engineModule, this`engine,
               fs`databases
      ensures Valid()
      ensures path.None? || path.value == "" ==>
                r == Fail(RepoLoadError(None, "Missing path"))
                && url == old(url) && template == old(template) && index == old(index) && engine == old(engine)
                && fs.databases == old(fs.databases)
      ensures path.Some? && path.value != "" && path.value !in fs.dirs ==>
                r == Fail(RepoLoadError(path, "Repository does not exists"))
                && url == old(url) && template == old(template) && index == old(index) && engine == old(engine)
                && fs.databases == old(fs.databases)
      ensures r.Pass? ==> path.Some? && path.value != "" && path.value in fs.dirs && index.Some? && engine.Some?
      ensures r.Pass? && (old(index).None? || force) ==> index.value.Ready() && fresh(index.value)
      ensures !force && old(index).Some? ==> index == old(index)
      ensures r.Pass? ==> UrlFromConfig(fs)
      ensures !force && old(engineModule).Some? && old(engine).Some? ==>
                engineModule == old(engineModule) && engine == old(engine)
    {
      if path.None? || |path.value| < 1 {
        return Fail(RepoLoadError(None, "Missing path"));
      }
      if path.value !in fs.dirs {
        return Fail(RepoLoadError(path, "Repository does not exists"));
      }
      r := LoadAll(fs, registry, res, force);
    }

    /** The three loads of `_load_components` (repository.py:188-190), each
        run only when the one before it passed. */
    method LoadAll(fs: Disk.FileSystem, registry: Engines.Registry, res: Resolver, force: bool)
      returns (r: Outcome)
      requires Valid()
      requires (index.None? || force) ==> IndexFileWellFormed(fs)
      modifies this`url, this`template, this`engineConfig, this`index, this`engineModule, this`engine,
               fs`databases
      ensures Valid()
      ensures r.Pass? ==> index.Some? && engine.Some?
      ensures r.Pass? && (old(index).None? || force) ==> index.value.Ready() && fresh(index.value)
      ensures !force && old(index).Some? ==> index == old(index)
      ensures r.Pass? ==> UrlFromConfig(fs)
      ensures !force && old(engineModule).Some? && old(engine).Some? ==>
                engineModule == old(engineModule) && engine == old(engine)
    {
      r := LoadConfig(fs);
      if r.Fail? {
        return;
      }
      r := LoadIndex(fs, force);
      if r.Fail? {
        return;
      }
      ghost var loaded := index;
      r := LoadEngine(registry, res, force);
      assert index == loaded;
    }

    /** `_stop` (repository.py:174-178): raise the flag, then
        RepoStopError. */
    method Stop() returns (r: Outcome)
      modifies this`stop
      ensures stop && r == Fail(RepoStopError(name, "Stopped"))
    {
      stop := true;
      r := Fail(RepoStopError(name, "Stopped"));
    }

    /** `_connect` (repository.py:192-215) with the guards raising the
        intended RepoConnectError: create `.bdl` (and the repository
        directory), load the engine, run `pre_connect`, save the
        configuration and create the index file. */
    method Connect(fs: Disk.FileSystem, registry: Engines.Registry, res: Resolver) returns (r: Outcome)
      requires Valid() && IndexFileWellFormed(fs)
      modifies this`engineModule, this`engine, this`index, fs`dirs, fs`documents, fs`databases
      ensures Valid() && IndexFileWellFormed(fs)
      ensures var g := ConnectChecks(name, url, path, old(engineModule), bdlpath in old(fs.dirs));
              g.Some? ==> r == Fail(g.value) && fs.dirs == old(fs.dirs) && fs.documents == old(fs.documents)
                          && fs.databases == old(fs.databases) && index == old(index)
      ensures ConnectChecks(name, url, path, old(engineModule), bdlpath in old(fs.dirs)).None? ==>
                fs.dirs == old(fs.dirs) + {path.value, bdlpath}
      ensures r.Pass? ==> Connected(fs)
    {
      var g := ConnectChecks(name, url, path, engineModule, bdlpath in fs.dirs);
      if g.Some? {
        return Fail(g.value);
      }
      fs.dirs := fs.dirs + {path.value, bdlpath};
      r := Provision(fs, registry, res);
    }

    /** A connected repository: an unloaded index over the index file, and
        a configuration file that reads back as the repository's settings. */
    predicate Connected(fs: Disk.FileSystem)
      reads this, Indexes(), fs
    {
      && index.Some? && index.value.path == indexpath && !index.value.loaded
      && indexpath in fs.databases
      && configpath in fs.documents && fs.documents[configpath].Parsed?
      && ReadSettings(fs.documents[configpath].value) == Ok(Settings(url, template, engineConfig))
    }

    /** The second half of `_connect` (repository.py:210-215), once `.bdl`
        exists: load the engine, run `pre_connect`, save the configuration,
        create the index file. */
    method Provision(fs: Disk.FileSystem, registry: Engines.Registry, res: Resolver) returns (r: Outcome)
      requires Valid() && IndexFileWellFormed(fs)
      modifies this`engineModule, this`engine, this`index, fs`documents, fs`databases
      ensures Valid() && IndexFileWellFormed(fs)
      ensures r.Pass? ==> Connected(fs) && fresh(index.value)
      ensures r.Fail? ==> index == old(index) && fs.databases == old(fs.databases)
    {
      r := LoadEngine(registry, res, false);
      if r.Fail? {
        return;
      }
      r := engine.value.preConnect;
      if r.Fail? {
        return;
      }
      r := SaveConfig(fs);
      if r.Fail? {
        return;
      }
      var idx := new ItemIndex.Index(indexpath);
      index := Some(idx);
      idx.Create(fs);
    }

    /** The loop of `_missing` (repository.py:232-237) over `get_all()`. */
    method MissingLoaded(fs: Disk.FileSystem) returns (r: Result<seq<(string, Items.Url)>>)
      requires index.Some? && path.Some?
      ensures r == MissingOf(index.value.GetAll(), fs.files, path.value)
    {
      var queried := index.value.GetAll();
      var files, dir := fs.files, path.value;
      var missing: seq<(string, Items.Url)> := [];
      var i := 0;
      while i < |queried|
        invariant 0 <= i <= |queried|
        invariant MissingOf(queried[..i], files, dir) == Ok(missing)
      {
        var q := queried[i];
        MissingPrefixStep(queried, files, dir, i);
        if q.0.Some? {
          var item := q.0.value;
          if item.storename.None? {
            r := Err(Builtin("TypeError", "expected str, bytes or os.PathLike object, not NoneType"));
            MissingFailurePersists(queried, files, dir, i + 1);
            return;
          }
          if Disk.PathJoin(dir, item.storename.value) !in files {
            missing := missing + [(item.storename.value, item.url)];
          }
        }
        i := i + 1;
      }
      assert queried[..i] == queried;
      r := Ok(missing);
    }

    /** `_missing` (repository.py:228-237). */
    method Missing(fs: Disk.FileSystem, registry: Engines.Registry, res: Resolver)
      returns (r: Result<seq<(string, Items.Url)>>)
      requires Valid()
      requires index.None? ==> IndexFileWellFormed(fs)
      modifies this`url, this`template, this`engineConfig, this`index, this`engineModule, this`engine,
               fs`databases
      ensures Valid()
      ensures path.None? || path.value == "" ==> r == Err(RepoLoadError(None, "Missing path"))
      ensures old(index).Some? ==> index == old(index)
      ensures r.Ok? ==> index.Some? && path.Some? && r == MissingOf(index.value.GetAll(), fs.files, path.value)
      ensures r.Ok? ==> UrlFromConfig(fs)
      ensures old(engineModule).Some? && old(engine).Some? ==>
                engineModule == old(engineModule) && engine == old(engine)
    {
      var loaded := LoadComponents(fs, registry, res, false);
      if loaded.Fail? {
        return Err(loaded.error);
      }
      r := MissingLoaded(fs);
    }

    /** `_status` (repository.py:217-226): the reachability query goes to
        the module's engine class; the missing count runs `_missing`, which
        loads the components again. */
    method Status(fs: Disk.FileSystem, registry: Engines.Registry, res: Resolver) returns (r: Result<RepoStatus>)
      requires Valid()
      requires index.None? ==> IndexFileWellFormed(fs)
      modifies this`url, this`template, this`engineConfig, this`index, this`engineModule, this`engine,
               fs`databases
      ensures Valid()
      ensures path.None? || path.value == "" ==> r == Err(RepoLoadError(None, "Missing path"))
      ensures r.Ok? ==>
                && index.Some? && path.Some? && r.value.indexed == index.value.Count()
                && var m := MissingOf(index.value.GetAll(), fs.files, path.value);
                   m.Ok? && r.value.missing == |m.value|
      ensures r.Ok? ==>
                && engineModule.Some? && engineModule.value.engine.Class?
                && engineModule.value.engine.cls.reachable(url) == Ok(r.value.reachable)
      ensures r.Ok? ==>
                && index.Some? && engine.Some?
                && engine.value.countNew(index.value.GetLast().0, index.value.GetLast().1) == Ok(r.value.newItems)
    {
      var loaded := LoadComponents(fs, registry, res, false);
      if loaded.Fail? {
        return Err(loaded.error);
      }
      var idx := index.value;
      var last := idx.GetLast();
      if engineModule.None? {
        return Err(Builtin("AttributeError", "'NoneType' object has no attribute 'Engine'"));
      }
      if !engineModule.value.engine.Class? {
        return Err(Builtin("AttributeError", "object has no attribute 'is_reachable'"));
      }
      var reachable := engineModule.value.engine.cls.reachable(url);
      if reachable.Err? {
        return Err(reachable.error);
      }
      var indexed := idx.Count();
      var newCount := engine.value.countNew(last.0, last.1);
      if newCount.Err? {
        return Err(newCount.error);
      }
      var missing := Missing(fs, registry, res);
      if missing.Err? {
        return Err(missing.error);
      }
      r := Ok(RepoStatus(reachable.value, indexed, newCount.value, |missing.value|));
    }

    /** One iteration of the update loop (repository.py:294-298): a `None`
        item is skipped; any other goes to `self.index.store(item,
        root=self.path, update=index_update)`. */
    method StoreNext(fs: Disk.FileSystem, item: Option<Items.ItemData>, update: bool) returns (err: Option<Error>)
      requires index.Some? && index.value.Ready()
      modifies index.value`tables, index.value`position, fs`files
      ensures index.value.Ready()
      ensures (ShelfOf(index.value, fs), err)
              == Next(old(ShelfOf(index.value, fs)), item, Storenames.Parse(index.value.template),
                      ItemIndex.RootDir(path), update)
    {
      if item.None? {
        return None;
      }
      var stored := index.value.Store(fs, item, path, update);
      err := if stored.Err? then Some(stored.error) else None;
    }

    /** The update loop over the items it reaches (repository.py:288-298):
        store them in order, ending at the first failing store. */
    method StoreItems(fs: Disk.FileSystem, items: seq<Option<Items.ItemData>>, update: bool)
      returns (failure: Option<Error>)
      requires index.Some? && index.value.Ready()
      modifies index.value`tables, index.value`position, fs`files
      ensures index.value.Ready()
      ensures (ShelfOf(index.value, fs), failure)
              == Consume(old(ShelfOf(index.value, fs)), items, Storenames.Parse(index.value.template),
                         ItemIndex.RootDir(path), update)
    {
      var idx := index.value;
      ghost var parsed := Storenames.Parse(idx.template);
      ghost var dir := ItemIndex.RootDir(path);
      ghost var shelf := ShelfOf(idx, fs);
      ghost var whole := Consume(shelf, items, parsed, dir, update);
      var i := 0;
      while i < |items|
        invariant 0 <= i <= |items|
        invariant idx.Ready() && ShelfOf(idx, fs) == shelf
        invariant whole == Consume(shelf, items[i..], parsed, dir, update)
      {
        ghost var n := Next(shelf, items[i], parsed, dir, update);
        ConsumeNext(shelf, items, i, parsed, dir, update);
        var err := StoreNext(fs, items[i], update);
        assert (ShelfOf(idx, fs), err) == n;
        if err.Some? {
          return err;
        }
        shelf := n.0;
        i := i + 1;
      }
      assert items[i..] == [];
      failure := None;
    }

    /** The update loop (repository.py:288-298): the items before the one
        at which the stop flag is first found set are stored; finding the
        flag set breaks the loop. */
    method Pump(fs: Disk.FileSystem, items: seq<Option<Items.ItemData>>, update: bool, stopAt: Option<nat>)
      returns (failure: Option<Error>, stopped: bool)
      requires index.Some? && index.value.Ready()
      modifies this`stop, index.value`tables, index.value`position, fs`files
      ensures index.value.Ready()
      ensures var lim := Limit(|items|, old(stop), stopAt);
              var c := Consume(Shelf(old(index.value.Rows()), old(index.value.position), old(fs.files)),
                               items[..lim], Storenames.Parse(index.value.template), ItemIndex.RootDir(path), update);
              && ShelfOf(index.value, fs) == c.0
              && failure == c.1
              && stopped == (c.1.None? && lim < |items|)
              && stop == (old(stop) || stopped)
    {
      // The flag is first found set at iteration `lim`: before the loop when
      // it was already raised, at `stopAt` when the handler raises it then.
      var lim := Limit(|items|, stop, stopAt);
      failure := StoreItems(fs, items[..lim], update);
      stopped := false;
      if failure.None? && lim < |items| {
        stop := true;
        stopped := true;
      }
    }

    /** The state an update attempt leaves, given the state before it:
        the shelf, the stop flag, the committed index and the saved
        configuration, and the outcome. */
    predicate Attempted(before: Shelf, docsBefore: map<string, Document>,
                        databasesBefore: map<string, Schema.Database>, stopBefore: bool,
                        plan: Plan, stopAt: Option<nat>, fs: Disk.FileSystem, r: Outcome)
      requires index.Some?
      reads this, Indexes(), fs
    {
      var run := Drain(before, plan, Storenames.Parse(index.value.template), ItemIndex.RootDir(path),
                       stopBefore, stopAt);
      var saved := Saving(docsBefore, fs.dirs);
      && ShelfOf(index.value, fs) == run.shelf
      && stop == (stopBefore || run.stopped)
      && fs.databases == databasesBefore[index.value.path := Schema.Database(index.value.tables)]
      && fs.documents == saved.0
      && r == (if saved.1.Fail? then saved.1 else Caught(name, run.failure))
    }

    /** The `try` block of `_update` (repository.py:280-298): set the index
        template, set the progress count, and run the loop unless the count
        is 0; the updater's own exception follows its last item. */
    method RunPlan(fs: Disk.FileSystem, plan: Plan, stopAt: Option<nat>) returns (failure: Option<Error>)
      requires index.Some? && index.value.Ready()
      modifies this`stop, index.value`tables, index.value`position, index.value`template, fs`files,
               progress`count
      ensures index.value.Ready()
      ensures index.value.template == (if template.Some? then template.value else old(index.value.template))
      ensures var run := Drain(Shelf(old(index.value.Rows()), old(index.value.position), old(fs.files)), plan,
                               Storenames.Parse(index.value.template), ItemIndex.RootDir(path), old(stop), stopAt);
              && ShelfOf(index.value, fs) == run.shelf
              && stop == (old(stop) || run.stopped)
              && failure == run.failure
      ensures plan.count.Ok? ==> progress.Count() == plan.count.value
      ensures plan.count.Err? ==> progress.count == old(progress.count)
    {
      index.value.SetTemplate(template);
      if plan.count.Err? {
        return Some(plan.count.error);
      }
      progress.SetCount(plan.count.value);
      failure := None;
      if plan.count.value != 0 {
        var stopped;
        failure, stopped := Pump(fs, plan.feed.items, plan.update, stopAt);
        if failure.None? && !stopped {
          failure := plan.feed.failure;
        }
      }
    }

    /** The `try` block and the `finally` clause of `_update`
        (repository.py:280-307): the index is committed and the
        configuration saved however the block ended; an exception from the
        save replaces the block's outcome. */
    method Attempt(fs: Disk.FileSystem, plan: Plan, stopAt: Option<nat>) returns (r: Outcome)
      requires index.Some? && index.value.Ready()
      modifies this`stop, index.value`tables, index.value`position, index.value`template,
               fs`files, fs`databases, fs`documents, progress`count
      ensures index.value.Ready()
      ensures Attempted(Shelf(old(index.value.Rows()), old(index.value.position), old(fs.files)),
                        old(fs.documents), old(fs.databases), old(stop), plan, stopAt, fs, r)
      ensures plan.count.Ok? ==> progress.Count() == plan.count.value
    {
      var failure := RunPlan(fs, plan, stopAt);
      index.value.Commit(fs);
      var saved := SaveConfig(fs);
      if saved.Fail? {
        return saved;
      }
      r := Caught(name, failure);
    }

    /** `_update` once the components are loaded (repository.py:249-307):
        the gate, the plan of the mode (the missing items are computed
        before the `try`, so a failure there propagates), then the
        attempt. */
    method Sync(fs: Disk.FileSystem, mode: Option<Mode>, stopAt: Option<nat>) returns (r: Outcome)
      requires index.Some? && index.value.Ready() && engine.Some? && path.Some?
      modifies this`stop, index.value`tables, index.value`position, index.value`template,
               fs`files, fs`databases, fs`documents, progress`count
      ensures index.value.Ready()
      ensures var g := Gate(name, engine.value.reachable(url), engine.value.preUpdate);
              g.Some? ==>
                r == Fail(g.value) && index.value.Rows() == old(index.value.Rows())
                && fs.files == old(fs.files) && fs.databases == old(fs.databases)
                && fs.documents == old(fs.documents) && stop == old(stop)
      ensures var g := Gate(name, engine.value.reachable(url), engine.value.preUpdate);
              var plan := PlanResult(mode, engine.value, old(index.value.GetLast()),
                                     MissingOf(old(index.value.GetAll()), old(fs.files), path.value));
              g.None? && plan.Err? ==>
                r == Fail(plan.error) && index.value.Rows() == old(index.value.Rows())
                && fs.files == old(fs.files) && fs.databases == old(fs.databases)
                && fs.documents == old(fs.documents) && stop == old(stop)
      ensures var g := Gate(name, engine.value.reachable(url), engine.value.preUpdate);
              var plan := PlanResult(mode, engine.value, old(index.value.GetLast()),
                                     MissingOf(old(index.value.GetAll()), old(fs.files), path.value));
              g.None? && plan.Ok? ==>
                Attempted(Shelf(old(index.value.Rows()), old(index.value.position), old(fs.files)),
                          old(fs.documents), old(fs.databases), old(stop), plan.value, stopAt, fs, r)
    {
      var e := engine.value;
      var g := Gate(name, e.reachable(url), e.preUpdate);
      if g.Some? {
        return Fail(g.value);
      }
      r := SyncPlanned(fs, mode, stopAt);
    }

    /** `_update` past the reachability check and `pre_update`
        (repository.py:252-307): the plan of the mode, then the attempt. */
    method SyncPlanned(fs: Disk.FileSystem, mode: Option<Mode>, stopAt: Option<nat>) returns (r: Outcome)
      requires index.Some? && index.value.Ready() && engine.Some? && path.Some?
      modifies this`stop, index.value`tables, index.value`position, index.value`template,
               fs`files, fs`databases, fs`documents, progress`count
      ensures index.value.Ready()
      ensures var plan := PlanResult(mode, engine.value, old(index.value.GetLast()),
                                     MissingOf(old(index.value.GetAll()), old(fs.files), path.value));
              && (plan.Err? ==>
                    r == Fail(plan.error) && index.value.Rows() == old(index.value.Rows())
                    && fs.files == old(fs.files) && fs.databases == old(fs.databases)
                    && fs.documents == old(fs.documents) && stop == old(stop))
              && (plan.Ok? ==>
                    Attempted(Shelf(old(index.value.Rows()), old(index.value.position), old(fs.files)),
                              old(fs.documents), old(fs.databases), old(stop), plan.value, stopAt, fs, r))
    {
      ghost var before := Shelf(index.value.Rows(), index.value.position, fs.files);
      var plan := Prepare(fs, mode);
      if plan.Err? {
        return Fail(plan.error);
      }
      r := Attempt(fs, plan.value, stopAt);
      assert Attempted(before, old(fs.documents), old(fs.databases), old(stop), plan.value, stopAt, fs, r);
    }

    /** The mode selection of `_update` (repository.py:252-278): the plan of
        the mode, with the missing items listed only in the missing-items
        mode. */
    method Prepare(fs: Disk.FileSystem, mode: Option<Mode>) returns (plan: Result<Plan>)
      requires index.Some? && engine.Some? && path.Some?
      ensures plan == PlanResult(mode, engine.value, index.value.GetLast(),
                                 MissingOf(index.value.GetAll(), fs.files, path.value))
    {
      var last := index.value.GetLast();
      var missing: seq<(string, Items.Url)> := [];
      if mode == Some(MissingItems) {
        var found := MissingLoaded(fs);
        if found.Err? {
          return Err(found.error);
        }
        missing := found.value;
      }
      plan := Ok(PlanOf(mode, engine.value, last, missing));
    }

    /** `_update(up_new, up_missing, up_existing)` (repository.py:239-307).
        A loaded index is required by the loop; one whose earlier load
        failed is not reloaded by the source, and the model refuses it. */
    method UpdateWith(fs: Disk.FileSystem, registry: Engines.Registry, res: Resolver,
                      upNew: bool, upMissing: bool, upExisting: bool, stopAt: Option<nat>)
      returns (r: Outcome)
      requires Valid()
      requires index.None? ==> IndexFileWellFormed(fs)
      modifies this, Indexes(), fs, progress
      ensures Valid()
      ensures path.None? || path.value == "" ==> r == Fail(RepoLoadError(None, "Missing path"))
    {
      r := LoadComponents(fs, registry, res, false);
      if r.Fail? {
        return;
      }
      if !index.value.Ready() {
        return Fail(Builtin("OperationalError", "index database not loaded"));
      }
      r := Sync(fs, SelectMode(upNew, upMissing, upExisting), stopAt);
    }

    /** `update()`: new items only. */
    method Update(fs: Disk.FileSystem, registry: Engines.Registry, res: Resolver, stopAt: Option<nat>)
      returns (r: Outcome)
      requires Valid()
      requires index.None? ==> IndexFileWellFormed(fs)
      modifies this, Indexes(), fs, progress
      ensures Valid()
      ensures path.None? || path.value == "" ==> r == Fail(RepoLoadError(None, "Missing path"))
    {
      r := UpdateWith(fs, registry, res, true, false, false, stopAt);
    }

    /** `stash()`: missing and existing, which is the all-items mode. */
    method Stash(fs: Disk.FileSystem, registry: Engines.Registry, res: Resolver, stopAt: Option<nat>)
      returns (r: Outcome)
      requires Valid()
      requires index.None? ==> IndexFileWellFormed(fs)
      modifies this, Indexes(), fs, progress
      ensures Valid()
      ensures path.None? || path.value == "" ==> r == Fail(RepoLoadError(None, "Missing path"))
    {
      r := UpdateWith(fs, registry, res, false, true, true, stopAt);
    }

    /** `reset()`: the missing items. */
    method Reset(fs: Disk.FileSystem, registry: Engines.Registry, res: Resolver, stopAt: Option<nat>)
      returns (r: Outcome)
      requires Valid()
      requires index.None? ==> IndexFileWellFormed(fs)
      modifies this, Indexes(), fs, progress
      ensures Valid()
      ensures path.None? || path.value == "" ==> r == Fail(RepoLoadError(None, "Missing path"))
    {
      r := UpdateWith(fs, registry, res, false, true, false, stopAt);
    }

    /** `checkout()`: every flag, which is the all-items mode. */
    method Checkout(fs: Disk.FileSystem, registry: Engines.Registry, res: Resolver, stopAt: Option<nat>)
      returns (r: Outcome)
      requires Valid()
      requires index.None? ==> IndexFileWellFormed(fs)
      modifies this, Indexes(), fs, progress
      ensures Valid()
      ensures path.None? || path.value == "" ==> r == Fail(RepoLoadError(None, "Missing path"))
    {
      r := UpdateWith(fs, registry, res, true, true, true, stopAt);
    }

    /** `clone()` (repository.py:330-335): connect, reload everything, then
        download the new items. */
    method Clone(fs: Disk.FileSystem, registry: Engines.Registry, res: Resolver, stopAt: Option<nat>)
      returns (r: Outcome)
      requires Valid() && IndexFileWellFormed(fs)
      modifies this, Indexes(), fs, progress
      ensures Valid()
    {
      r := Connect(fs, registry, res);
      if r.Fail? {
        return;
      }
      r := LoadComponents(fs, registry, res, true);
      if r.Fail? {
        return;
      }
      r := UpdateWith(fs, registry, res, true, false, false, stopAt);
    }

    /** `_rename(template)` (repository.py:309-319): the template is kept,
        every indexed item renamed; the commit and the save follow only a
        successful rename. */
    method Rename(fs: Disk.FileSystem, registry: Engines.Registry, res: Resolver, given: Option<string>)
      returns (r: Outcome)
      requires Valid()
      requires index.None? ==> IndexFileWellFormed(fs)
      modifies this, Indexes(), fs
      ensures Valid()
      ensures path.None? || path.value == "" ==> r == Fail(RepoLoadError(None, "Missing path"))
      ensures r.Pass? ==>
                template == given && configpath in fs.documents && fs.documents[configpath].Parsed?
                && ReadSettings(fs.documents[configpath].value) == Ok(Settings(url, given, engineConfig))
    {
      r := LoadComponents(fs, registry, res, false);
      if r.Fail? {
        return;
      }
      r := RenameLoaded(fs, given);
    }

    /** `_rename` once the components are loaded (repository.py:316-319):
        the new template is kept, the index renames every row, and only a
        rename that went through is committed and saved. */
    method RenameLoaded(fs: Disk.FileSystem, given: Option<string>) returns (r: Outcome)
      requires index.Some? && Valid()
      modifies this`template, index.value`tables, fs`files, fs`databases, fs`documents
      ensures Valid() && template == given
      ensures r.Pass? ==>
                configpath in fs.documents && fs.documents[configpath].Parsed?
                && ReadSettings(fs.documents[configpath].value) == Ok(Settings(url, given, engineConfig))
      ensures !old(index.value.Ready()) || old(index.value.Rows()) == [] ==>
                r.Fail? && index.value.Rows() == old(index.value.Rows())
                && fs.files == old(fs.files) && fs.databases == old(fs.databases)
      ensures old(index.value.Ready()) && old(index.value.Rows()) != [] ==>
                var run := ItemIndex.RenameRun(old(index.value.Rows()), old(fs.files), old(index.value.Rows()),
                                               Storenames.Parse(ItemIndex.RenameTemplate(given, old(index.value.template))),
                                               ItemIndex.RootDir(path));
                && index.value.Rows() == run.rows && fs.files == run.files
                && (run.failure.Some? ==> r == Fail(run.failure.value) && fs.databases == old(fs.databases))
                && (run.failure.None? ==>
                      fs.databases == old(fs.databases)[index.value.path := Schema.Database(index.value.tables)])
    {
      template := given;
      if !index.value.Ready() {
        return Fail(Builtin("OperationalError", "index database not loaded"));
      }
      r := RenameCommitted(fs, given);
      if r.Fail? {
        return;
      }
      r := SaveConfig(fs);
    }

    /** `index.rename(...)` followed by `index.commit()` (repository.py:317-318),
        the commit reached only when the rename went through. */
    method RenameCommitted(fs: Disk.FileSystem, given: Option<string>) returns (r: Outcome)
      requires index.Some? && index.value.Ready()
      modifies index.value`tables, fs`files, fs`databases
      ensures index.value.Ready()
      ensures old(index.value.Rows()) == [] ==>
                r.Fail? && index.value.Rows() == old(index.value.Rows())
                && fs.files == old(fs.files) && fs.databases == old(fs.databases)
      ensures old(index.value.Rows()) != [] ==>
                var run := ItemIndex.RenameRun(old(index.value.Rows()), old(fs.files), old(index.value.Rows()),
                                               Storenames.Parse(ItemIndex.RenameTemplate(given, index.value.template)),
                                               ItemIndex.RootDir(path));
                && index.value.Rows() == run.rows && fs.files == run.files
                && (r.Pass? <==> run.failure.None?)
                && (run.failure.Some? ==> r == Fail(run.failure.value) && fs.databases == old(fs.databases))
                && (run.failure.None? ==>
                      fs.databases == old(fs.databases)[index.value.path := Schema.Database(index.value.tables)])
    {
      var idx := index.value;
      r := idx.Rename(fs, path, given);
      if r.Pass? {
        idx.Commit(fs);
      }
    }
  }

  /** Once the scan of `_missing` fails, it stays failed as the queried
      pairs grow. */
  lemma {:induction false} MissingFailurePersists(queried: seq<(Option<Items.ItemData>, int)>,
                                                  files: map<string, Items.Bytes>, dir: string, k: nat)
    requires k <= |queried|
    requires MissingOf(queried[..k], files, dir).Err?
    ensures MissingOf(queried, files, dir) == MissingOf(queried[..k], files, dir)
    decreases |queried| - k
  {
    if k < |queried| {
      assert queried[..k + 1][..k] == queried[..k];
      MissingFailurePersists(queried, files, dir, k + 1);
    } else {
      assert queried[..k] == queried;
    }
  }
}
