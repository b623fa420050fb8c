/** The configuration file of bdl/config.py: a JSON document checked
    against a template of rules and nested templates. Python types are the
    JSON value kinds; the `test` lambdas of the rules are never called by the
    code and are not modelled. */
module Configs {
  import opened Wrappers
  import opened Errors
  import opened JsonValues
  import Strings
  import Disk

  /** The Python types a JSON value can have. */
  datatype PyType = StrType | NoneType | IntType | BoolType | DictType | ListType

  /** `type(value)`. */
  function TypeOf(v: Value): PyType
  {
    match v
    case Str(_) => StrType
    case Null => NoneType
    case Int(_) => IntType
    case Bool(_) => BoolType
    case Obj(_) => DictType
    case Arr(_) => ListType
  }

  /** `str(t)` for a type. */
  function TypeName(t: PyType): string
  {
    match t
    case StrType => "<class 'str'>"
    case NoneType => "<class 'NoneType'>"
    case IntType => "<class 'int'>"
    case BoolType => "<class 'bool'>"
    case DictType => "<class 'dict'>"
    case ListType => "<class 'list'>"
  }

  /** `t()`: the value a type gives when called without arguments. */
  function EmptyOf(t: PyType): (v: Value)
    ensures TypeOf(v) == t
  {
    match t
    case StrType => Str("")
    case NoneType => Null
    case IntType => Int(0)
    case BoolType => Bool(false)
    case DictType => Obj(map[])
    case ListType => Arr([])
  }

  /** A template: a rule (`Configrule(types, default, test)`) or a nested
      template, whose entries are in dictionary order. */
  datatype Template = Rule(types: seq<PyType>, default: Option<Value>) | Nested(entries: seq<(string, Template)>)

  /** `configtemplate` (config.py:13-24). */
  const ConfigTemplate: Template :=
    Nested([("repo", Nested([("name", Rule([StrType], None)),
                             ("url", Rule([StrType], None)),
                             ("template", Rule([StrType, NoneType], Some(Str("{position}.{extension}"))))])),
            ("engine", Nested([]))])

  /** What `copy_from_template` needs of a template: every rule has a first
      type, its default (when there is one) already has that type, so that
      converting it keeps it, and no nested template repeats a key, as a
      dictionary cannot. */
  predicate WellFormed(t: Template)
  {
    match t
    case Rule(types, default) => |types| > 0 && (default.Some? ==> TypeOf(default.value) == types[0])
    case Nested(es) =>
      && (forall i, j :: 0 <= i < j < |es| ==> es[i].0 != es[j].0)
      && (forall i :: 0 <= i < |es| ==> WellFormed(es[i].1))
  }

  lemma ConfigTemplateWellFormed()
    ensures WellFormed(ConfigTemplate)
  {
  }

  /** The configuration `create` writes: empty name and URL, the default
      storename template and an empty engine section. */
  const DefaultConfig: Value :=
    Obj(map["repo" := Obj(map["name" := Str(""), "url" := Str(""), "template" := Str("{position}.{extension}")]),
            "engine" := Obj(map[])])

  /** `copy_from_template(template)` (config.py:46-56): each rule gives its
      default, or its first type's empty value, each nested template a
      dictionary of its own. */
  function Copy(t: Template): (v: Value)
    requires WellFormed(t)
    ensures t.Rule? ==> TypeOf(v) == t.types[0]
    ensures t.Nested? ==> v.Obj?
    decreases t, 1
  {
    match t
    case Rule(types, default) => if default.Some? then default.value else EmptyOf(types[0])
    case Nested(es) => Obj(CopyEntries(t, |es|))
  }

  /** The dictionary `copy_from_template` builds from the first `n`
      entries. */
  function CopyEntries(t: Template, n: nat): (m: map<string, Value>)
    requires t.Nested? && WellFormed(t) && n <= |t.entries|
    decreases t, 0, n
  {
    if n == 0 then map[]
    else
      var e := t.entries[n - 1];
      assert e in t.entries;
      CopyEntries(t, n - 1)[e.0 := Copy(e.1)]
  }

  /** Entry `i` of a nested template is copied under its key. */
  lemma {:induction false} CopyEntriesAt(t: Template, n: nat, i: nat)
    requires t.Nested? && WellFormed(t) && i < n <= |t.entries|
    ensures t.entries[i].0 in CopyEntries(t, n) && CopyEntries(t, n)[t.entries[i].0] == Copy(t.entries[i].1)
    decreases n
  {
    if i < n - 1 {
      CopyEntriesAt(t, n - 1, i);
    }
  }

  /** `refkey in current` for each kind of value: a key of a dictionary, a
      substring of a string, an element of a list; other values are not
      iterable and raise TypeError. */
  function Contains(current: Value, key: string): Result<bool>
  {
    match current
    case Obj(fields) => Ok(key in fields)
    case Str(s) => Ok(IsSubstring(key, s))
    case Arr(items) => Ok(Str(key) in items)
    case Int(_) => Err(Builtin("TypeError", "argument of type 'int' is not iterable"))
    case Bool(_) => Err(Builtin("TypeError", "argument of type 'bool' is not iterable"))
    case Null => Err(Builtin("TypeError", "argument of type 'NoneType' is not iterable"))
  }

  /** `key in s` for strings: `key` starts at some position of `s`. */
  predicate IsSubstring(key: string, s: string)
    decreases |s|
  {
    key <= s || (s != [] && IsSubstring(key, s[1..]))
  }

  /** `current[key]`: only a dictionary can be indexed by a string; a
      missing key raises KeyError, whose text is the quoted key. */
  function Index(current: Value, key: string): Result<Value>
  {
    match current
    case Obj(fields) => if key in fields then Ok(fields[key]) else Err(Builtin("KeyError", "'" + key + "'"))
    case Str(_) => Err(Builtin("TypeError", "string indices must be integers"))
    case Arr(_) => Err(Builtin("TypeError", "list indices must be integers or slices, not str"))
    case _ => Err(Builtin("TypeError", "object is not subscriptable"))
  }

  /** The error for a missing key: the message is passed as the path, so
      the "path" is "Missing key <keypath>" and the message is empty. */
  function MissingKey(keypath: string): Error
  {
    ConfigContentError(Some("Missing key " + keypath), "")
  }

  /** The error for a value of the wrong type. */
  function InvalidType(path: string, keypath: string, types: seq<PyType>, got: PyType): Error
  {
    ConfigContentError(Some(path), "Invalid type for key " + keypath + ": expecting "
                                   + Strings.Join(TypeNames(types), " or ") + ", got " + TypeName(got))
  }

  function TypeNames(types: seq<PyType>): (r: seq<string>)
    ensures |r| == |types|
  {
    if types == [] then [] else [TypeName(types[0])] + TypeNames(types[1..])
  }

  /** `validate_from_template(template, current, _keypath)` (config.py:84-101)
      from entry `i` on: the entries are checked in order and the first
      failure is raised; nested templates are checked where they stand. */
  function ValidateFrom(path: string, t: Template, i: nat, current: Value, keypath: string): Outcome
    requires t.Nested? && i <= |t.entries|
    decreases t, |t.entries| - i
  {
    if i == |t.entries| then Pass
    else
      var (key, ref) := t.entries[i];
      assert t.entries[i] in t.entries;
      var kp := keypath + "." + key;
      var found := Contains(current, key);
      if found.Err? then Fail(found.error)
      else if !found.value then Fail(MissingKey(kp))
      else
        var cur := Index(current, key);
        if cur.Err? then Fail(cur.error)
        else
          var here :=
            match ref
            case Rule(types, _) =>
              if TypeOf(cur.value) !in types then Fail(InvalidType(path, kp, types, TypeOf(cur.value))) else Pass
            case Nested(_) => ValidateFrom(path, ref, 0, cur.value, kp);
          if here.Fail? then here else ValidateFrom(path, t, i + 1, current, keypath)
  }

  /** The reference reading of a valid configuration: every template key
      is present in a dictionary, every rule's value has one of its types
      exactly, and nested values conform to their templates. A template
      without entries accepts any value. */
  predicate Conforms(t: Template, v: Value)
    decreases t
  {
    match t
    case Rule(types, _) => TypeOf(v) in types
    case Nested(es) =>
      forall i :: 0 <= i < |es| ==>
        v.Obj? && es[i].0 in v.fields && (es[i] in es && Conforms(es[i].1, v.fields[es[i].0]))
  }

  /** Validation passes exactly on the conforming configurations. */
  lemma {:induction false} ValidateIff(path: string, t: Template, i: nat, current: Value, keypath: string)
    requires t.Nested? && i <= |t.entries|
    ensures ValidateFrom(path, t, i, current, keypath).Pass? <==>
              forall j :: i <= j < |t.entries| ==>
                current.Obj? && t.entries[j].0 in current.fields
                && Conforms(t.entries[j].1, current.fields[t.entries[j].0])
    decreases t, |t.entries| - i
  {
    if i < |t.entries| {
      var (key, ref) := t.entries[i];
      assert t.entries[i] in t.entries;
      var kp := keypath + "." + key;
      ValidateIff(path, t, i + 1, current, keypath);
      if current.Obj? && key in current.fields && ref.Nested? {
        ValidateIff(path, ref, 0, current.fields[key], kp);
      }
      if !current.Obj? {
        var found := Contains(current, key);
        if found.Ok? && found.value {
          assert Index(current, key).Err?;
        }
      }
    }
  }

  /** The configuration a template's own copy gives passes validation. */
  lemma CopyConforms(t: Template)
    requires WellFormed(t)
    ensures Conforms(t, Copy(t))
    decreases t
  {
    match t
    case Rule(types, default) =>
    case Nested(es) =>
      forall i | 0 <= i < |es|
        ensures Copy(t).Obj? && es[i].0 in Copy(t).fields && Conforms(es[i].1, Copy(t).fields[es[i].0])
      {
        assert es[i] in es;
        CopyEntriesAt(t, |es|, i);
        var j := i;
        assert CopyEntries(t, |es|)[es[i].0] == Copy(es[i].1);
        CopyConforms(es[i].1);
      }
  }

  /** Copying `configtemplate` gives the default configuration. */
  lemma DefaultConfigIsCopy()
    ensures WellFormed(ConfigTemplate) && Copy(ConfigTemplate) == DefaultConfig
  {
    var repo := ConfigTemplate.entries[0].1;
    assert Copy(repo) == DefaultConfig.fields["repo"] by {
      assert CopyEntries(repo, 3) == map["name" := Str(""), "url" := Str(""), "template" := Str("{position}.{extension}")];
    }
  }

  /** `validate()` of a fresh copy of the template passes (config.py:60
      commits the copy, and `commit` validates first). */
  lemma CopyValidates(path: string, t: Template)
    requires t.Nested? && WellFormed(t)
    ensures ValidateFrom(path, t, 0, Copy(t), "").Pass?
  {
    CopyConforms(t);
    ValidateIff(path, t, 0, Copy(t), "");
  }

  /** Keys of the configuration that the template does not name are never
      looked at. */
  lemma ExtraKeysIgnored(t: Template, fields: map<string, Value>, extra: map<string, Value>)
    requires t.Nested?
    requires forall i :: 0 <= i < |t.entries| ==> t.entries[i].0 !in extra
    ensures Conforms(t, Obj(fields)) <==> Conforms(t, Obj(fields + extra))
  {
    var es := t.entries;
    forall i | 0 <= i < |es|
      ensures es[i].0 in fields <==> es[i].0 in fields + extra
      ensures es[i].0 in fields ==> (fields + extra)[es[i].0] == fields[es[i].0]
    {
    }
  }

  /** Whenever the configuration is a dictionary wherever the template is
      nested, a failed validation is a ConfigContentError: a missing key or
      a value of the wrong type. */
  predicate DictShaped(t: Template, v: Value)
    decreases t
  {
    match t
    case Rule(_, _) => true
    case Nested(es) =>
      (es != [] ==> v.Obj?) &&
      forall i :: 0 <= i < |es| && v.Obj? && es[i].0 in v.fields ==>
        es[i] in es && DictShaped(es[i].1, v.fields[es[i].0])
  }

  lemma {:induction false} ContentErrorsOnly(path: string, t: Template, i: nat, current: Value, keypath: string)
    requires t.Nested? && i <= |t.entries| && DictShaped(t, current)
    ensures var r := ValidateFrom(path, t, i, current, keypath);
            r.Fail? ==> KindOf(r.error) == Some(ConfigContent)
    decreases t, |t.entries| - i
  {
    if i < |t.entries| {
      var (key, ref) := t.entries[i];
      assert t.entries[i] in t.entries;
      var kp := keypath + "." + key;
      ContentErrorsOnly(path, t, i + 1, current, keypath);
      if key in current.fields && ref.Nested? {
        ContentErrorsOnly(path, ref, 0, current.fields[key], kp);
      }
    }
  }

  /** `os.path.dirname(path)`: the text before the last '/', keeping a
      leading root. */
  function Dirname(path: string): string
  {
    var i := Strings.LastIndexOf(path, '/');
    if i < 0 then "" else if i == 0 then "/" else path[..i]
  }

  /** `Config(path)`: `__config` is unset until `create` or `load`. */
  class Config {
    const path: string
    var config: Option<Value>

    constructor (path: string)
      ensures this.path == path && config == None
    {
      this.path := path;
      config := None;
    }

    /** `validate()` (config.py:78-104) on the held configuration. */
    function Validate(): (r: Outcome)
      reads this
      ensures config.None? ==> r.Fail?
      ensures config.Some? ==> (r.Pass? <==> Conforms(ConfigTemplate, config.value))
    {
      if config.None? then Fail(Builtin("AttributeError", "'Config' object has no attribute '_Config__config'"))
      else
        ValidateIff(path, ConfigTemplate, 0, config.value, "");
        ValidateFrom(path, ConfigTemplate, 0, config.value, "")
    }

    /** `commit()` (config.py:111-120): validate, then write, when the
        parent directory exists. Otherwise the ConfigError gets its message
        as its only argument, which is the path, so it reads
        "Repository doesn't exists: ". */
    method Commit(fs: Disk.FileSystem) returns (r: Outcome)
      modifies fs`documents
      ensures Dirname(path) !in fs.dirs ==>
                r == Fail(ConfigError(Some("Repository doesn't exists"), "")) && fs.documents == old(fs.documents)
      ensures Dirname(path) in fs.dirs && Validate().Fail? ==> r == Validate() && fs.documents == old(fs.documents)
      ensures Dirname(path) in fs.dirs && Validate().Pass? ==>
                r.Pass? && fs.documents == old(fs.documents)[path := Parsed(config.value)]
    {
      if Dirname(path) !in fs.dirs {
        return Fail(ConfigError(Some("Repository doesn't exists"), ""));
      }
      r := Validate();
      if r.Pass? {
        fs.documents := fs.documents[path := Parsed(config.value)];
      }
    }

    /** `create()` (config.py:40-60): when no file exists, the copy of the
        template is held and committed. */
    method Create(fs: Disk.FileSystem) returns (r: Outcome)
      modifies this`config, fs`documents
      ensures path in old(fs.documents) ==> r.Pass? && config == old(config) && fs.documents == old(fs.documents)
      ensures path !in old(fs.documents) ==> config == Some(DefaultConfig)
      ensures path !in old(fs.documents) && Dirname(path) in fs.dirs ==>
                r.Pass? && fs.documents == old(fs.documents)[path := Parsed(DefaultConfig)]
      ensures path !in old(fs.documents) && Dirname(path) !in fs.dirs ==>
                r == Fail(ConfigError(Some("Repository doesn't exists"), ""))
    {
      if path in fs.documents {
        return Pass;
      }
      DefaultConfigIsCopy();
      config := Some(Copy(ConfigTemplate));
      CopyValidates(path, ConfigTemplate);
      r := Commit(fs);
    }

    /** `load()` (config.py:62-76): read, then validate; a missing file
        raises `open`'s FileNotFoundError as it is, a text that does not decode is a
        ConfigContentError. A configuration that fails validation stays
        held. */
    method Load(fs: Disk.FileSystem) returns (r: Outcome)
      modifies this`config
      ensures path !in fs.documents ==> r == Fail(NotFound(path)) && config == old(config)
      ensures path in fs.documents && fs.documents[path].Unparsable? ==>
                r == Fail(ConfigContentError(Some(path), "Configuration format error: " + fs.documents[path].reason))
                && config == old(config)
      ensures path in fs.documents && fs.documents[path].Parsed? ==>
                config == Some(fs.documents[path].value)
                && (r.Pass? <==> Conforms(ConfigTemplate, fs.documents[path].value))
    {
      if path !in fs.documents {
        return Fail(NotFound(path));
      }
      match fs.documents[path]
      case Unparsable(reason) =>
        r := Fail(ConfigContentError(Some(path), "Configuration format error: " + reason));
      case Parsed(v) =>
        config := Some(v);
        r := Validate();
    }

    /** `config["repo"][key] = value`. */
    method SetRepoKey(key: string, value: Value) returns (r: Outcome)
      modifies this`config
      ensures r.Pass? <==> config.Some? && old(RepoSection()).Ok?
      ensures r.Pass? ==> config == Some(Obj(old(config).value.fields["repo" := Obj(old(RepoSection()).value[key := value])]))
      ensures r.Fail? ==> config == old(config)
    {
      var section := RepoSection();
      if section.Err? {
        return Fail(section.error);
      }
      config := Some(Obj(config.value.fields["repo" := Obj(section.value[key := value])]));
      r := Pass;
    }

    /** The `repo` section when the configuration is a dictionary holding
        a dictionary under "repo". */
    function RepoSection(): (r: Result<map<string, Value>>)
      reads this
      ensures r.Ok? ==> config.Some? && config.value.Obj? && "repo" in config.value.fields
                        && config.value.fields["repo"] == Obj(r.value)
    {
      if config.None? then Err(Builtin("AttributeError", "'Config' object has no attribute '_Config__config'"))
      else match config.value
        case Obj(fields) =>
          if "repo" !in fields then Err(Builtin("KeyError", "'repo'"))
          else if fields["repo"].Obj? then Ok(fields["repo"].fields)
          else Err(Builtin("TypeError", "item assignment is not supported"))
        case _ => Err(Builtin("TypeError", "item assignment is not supported"))
    }

    /** The `name` and `url` setters overwrite (config.py:138-148). */
    method SetName(value: Value) returns (r: Outcome)
      modifies this`config
      ensures r.Pass? ==> old(RepoSection()).Ok? && RepoSection().Ok?
                          && RepoSection().value == old(RepoSection()).value["name" := value]
      ensures r.Pass? <==> old(RepoSection()).Ok?
      ensures r.Pass? ==> config == Some(Obj(old(config).value.fields["repo" := Obj(old(RepoSection()).value["name" := value])]))
      ensures r.Fail? ==> config == old(config)
    {
      r := SetRepoKey("name", value);
    }

    method SetUrl(value: Value) returns (r: Outcome)
      modifies this`config
      ensures r.Pass? ==> old(RepoSection()).Ok? && RepoSection().Ok?
                          && RepoSection().value == old(RepoSection()).value["url" := value]
      ensures r.Pass? <==> old(RepoSection()).Ok?
      ensures r.Pass? ==> config == Some(Obj(old(config).value.fields["repo" := Obj(old(RepoSection()).value["url" := value])]))
      ensures r.Fail? ==> config == old(config)
    {
      r := SetRepoKey("url", value);
    }

    /** The `template` setter ignores `None` (config.py:154-157). */
    method SetTemplate(value: Value) returns (r: Outcome)
      modifies this`config
      ensures value == Null ==> r.Pass? && config == old(config)
      ensures value != Null && r.Pass? ==>
                old(RepoSection()).Ok? && RepoSection().Ok?
                && RepoSection().value == old(RepoSection()).value["template" := value]
      ensures value != Null ==> (r.Pass? <==> old(RepoSection()).Ok?)
      ensures value != Null && r.Pass? ==>
                config == Some(Obj(old(config).value.fields["repo" := Obj(old(RepoSection()).value["template" := value])]))
      ensures r.Fail? ==> config == old(config)
    {
      if value == Null {
        return Pass;
      }
      r := SetRepoKey("template", value);
    }
  }
}
