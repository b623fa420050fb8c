/** The exception taxonomy of bdl/exceptions.py: every exception class
    becomes a `Kind`, every raised exception an `Error` value carrying the
    message its constructor computes and the attribute it keeps. Python's
    own exceptions (AttributeError, TypeError, ...) that escape the core are
    `Builtin` errors. */
module Errors {
  import opened Wrappers
  import Strings

  /** The exception classes. `RepoConnect` is the class repository.py raises
      at lines 202 and 207; exceptions.py does not define it (see
      `ConnectChecksAsWritten` in the repository module). */
  datatype Kind =
    | BDL | InvalidURL | Connect
    | Repo | RepoConfig | RepoLoad | RepoUpdate | RepoStop | RepoConnect
    | Config | ConfigContent
    | IndexDB | IndexDBSchema
    | Engine | EngineLoad | EngineStructure | EngineNetwork | EngineContent | EngineAuth
    | Download | DownloadTimeout

  /** The base class of each exception class. */
  function Parent(k: Kind): Option<Kind>
  {
    match k
    case BDL => None
    case InvalidURL | Connect | Repo | Config | IndexDB | Engine | Download => Some(BDL)
    case RepoConfig | RepoLoad | RepoUpdate | RepoStop | RepoConnect => Some(Repo)
    case ConfigContent => Some(Config)
    case IndexDBSchema => Some(IndexDB)
    case EngineLoad | EngineStructure | EngineNetwork | EngineContent | EngineAuth => Some(Engine)
    case DownloadTimeout => Some(Engine)
  }

  function Depth(k: Kind): nat
  {
    match Parent(k)
    case None => 0
    case Some(p) => if p == BDL then 1 else 2
  }

  /** `issubclass(k, a)`. */
  predicate IsA(k: Kind, a: Kind)
    decreases Depth(k)
  {
    k == a || (Parent(k).Some? && IsA(Parent(k).value, a))
  }

  /** Every class is a `BDLError`, and the chain of bases is finite. */
  lemma {:induction false} EveryKindIsBdl(k: Kind)
    ensures IsA(k, BDL)
    decreases Depth(k)
  {
    if k != BDL {
      EveryKindIsBdl(Parent(k).value);
    }
  }

  /** The four repository errors of exceptions.py:34-51 derive from
      `RepoError`. */
  lemma RepoErrorsAreRepo()
    ensures IsA(RepoConfig, Repo) && IsA(RepoLoad, Repo) && IsA(RepoUpdate, Repo) && IsA(RepoStop, Repo)
  {
  }

  /** The download timeout, the schema error and the configuration content
      error sit where exceptions.py:145, :83 and :65 put them, and an
      invalid URL is not an engine error. */
  lemma Hierarchy()
    ensures IsA(DownloadTimeout, Engine) && !IsA(DownloadTimeout, Download)
    ensures IsA(IndexDBSchema, IndexDB) && IsA(ConfigContent, Config)
    ensures !IsA(InvalidURL, Engine)
  {
    assert !IsA(BDL, Download) && !IsA(BDL, Engine);
    assert !IsA(Engine, Download);
  }

  /** A raised exception. `subject` is the attribute the class keeps (url,
      repo_name, path or engine_name, already normalised). */
  datatype Error =
    | Domain(kind: Kind, message: string, subject: string)
    | Schema(path: string, message: string, missing: seq<string>, invalid: seq<string>)
    | Builtin(name: string, text: string)

  /** The class of an error, `None` for Python's own exceptions. */
  function KindOf(e: Error): Option<Kind>
  {
    match e
    case Domain(k, _, _) => Some(k)
    case Schema(_, _, _, _) => Some(IndexDBSchema)
    case Builtin(_, _) => None
  }

  /** `str(error)`. */
  function Message(e: Error): string
  {
    match e
    case Domain(_, m, _) => m
    case Schema(_, m, _, _) => m
    case Builtin(_, t) => t
  }

  /** The operation outcomes: a value or the exception raised. */
  datatype Result<+T> = Ok(value: T) | Err(error: Error)
  datatype Outcome = Pass | Fail(error: Error)

  const Unknown: string := "<unknow>"

  /** `name is not None and name or "<unknow>"` (exceptions.py:29, 60, 78):
      `None` and the empty string, which Python treats as false, both become
      "<unknow>"; any other name is kept. */
  function NormalizeName(name: Option<string>): (r: string)
    ensures r != ""
    ensures r == Unknown <==> name.None? || name.value == "" || name.value == Unknown
  {
    if name.Some? && name.value != "" then name.value else Unknown
  }

  /** `name.split('.')[-1]`. */
  function LastComponent(name: string): (r: string)
    ensures '.' !in r
    ensures |r| <= |name| && r == name[|name| - |r|..]
    ensures '.' !in name ==> r == name
    ensures r == name[Strings.LastIndexOf(name, '.') + 1..]
  {
    var parts := Strings.Split(name, '.');
    LastPartIsSuffix(name);
    parts[|parts| - 1]
  }

  /** The last part of a split is the text after the last separator. */
  lemma LastPartIsSuffix(s: string)
    ensures var p := Strings.Split(s, '.');
            p[|p| - 1] == s[Strings.LastIndexOf(s, '.') + 1..]
  {
    LastPartAfter(s, Strings.LastIndexOf(s, '.') + 1);
  }

  /** The last part of a split starts after a separator (or at the start)
      and holds none. */
  lemma {:induction false} LastPartAfter(s: string, k: nat)
    requires k <= |s| && '.' !in s[k..] && (k == 0 || s[k - 1] == '.')
    ensures var p := Strings.Split(s, '.');
            p[|p| - 1] == s[k..]
    decreases |s|
  {
    if k == 0 {
      assert s[k..] == s;
    } else {
      var p := Strings.Split(s, '.');
      var rest := Strings.Split(s[1..], '.');
      assert s[1..][k - 1..] == s[k..];
      if s[0] == '.' {
        assert p == [""] + rest;
        LastPartAfter(s[1..], k - 1);
      } else {
        assert k >= 2;
        assert s[1..][k - 2] == '.';
        assert |rest| >= 2;
        assert p == [[s[0]] + rest[0]] + rest[1..];
        LastPartAfter(s[1..], k - 1);
      }
    }
  }

  /** EngineError's name normalisation (exceptions.py:100-103): "<unknow>"
      for `None` or the empty name, else the last dotted component. */
  function EngineName(name: Option<string>): (r: string)
    ensures name.None? || name.value == "" ==> r == Unknown
    ensures name.Some? && name.value != "" ==>
              '.' !in r && |r| <= |name.value| && r == name.value[|name.value| - |r|..]
    ensures name.Some? && |r| < |name.value| ==> name.value[|name.value| - |r| - 1] == '.'
  {
    if name.None? || |name.value| < 1 then Unknown else LastComponent(name.value)
  }

  /** `InvalidURLError(url)`: the message is the URL itself. */
  function InvalidURLError(url: string): Error
  {
    Domain(InvalidURL, url, url)
  }

  /** `ConnectError(url, message)`. */
  function ConnectError(url: string, message: string): Error
  {
    Domain(Connect, message, url)
  }

  /** "name: message" with the normalised name, shared by the repository,
      config and index families. */
  function Named(kind: Kind, name: Option<string>, message: string): (e: Error)
    ensures e.Domain? && e.kind == kind && e.subject != ""
    ensures Message(e) == e.subject + ": " + message
  {
    var n := NormalizeName(name);
    Domain(kind, n + ": " + message, n)
  }

  function RepoError(name: Option<string>, message: string): Error { Named(Repo, name, message) }
  function RepoConfigError(name: Option<string>, message: string): Error { Named(RepoConfig, name, message) }
  function RepoLoadError(name: Option<string>, message: string): Error { Named(RepoLoad, name, message) }
  function RepoUpdateError(name: Option<string>, message: string): Error { Named(RepoUpdate, name, message) }
  function RepoStopError(name: Option<string>, message: string): Error { Named(RepoStop, name, message) }
  function RepoConnectError(name: Option<string>, message: string): Error { Named(RepoConnect, name, message) }

  function ConfigError(path: Option<string>, message: string): Error { Named(Config, path, message) }

  /** `ConfigContentError(path, message)` prefixes the message. */
  function ConfigContentError(path: Option<string>, message: string): (e: Error)
    ensures Message(e) == NormalizeName(path) + ": " + ("Configuration content error: " + message)
  {
    Named(ConfigContent, path, "Configuration content error: " + message)
  }

  function IndexDBError(path: Option<string>, message: string): Error { Named(IndexDB, path, message) }

  /** `IndexDBSchemaError(path, missing, invalid)`: keeps both lists and
      formats them comma-separated. */
  function IndexDBSchemaError(path: Option<string>, missing: seq<string>, invalid: seq<string>): (e: Error)
    ensures e.Schema? && e.missing == missing && e.invalid == invalid
    ensures Message(e) == NormalizeName(path) + ": " + "Missing columns: " + Strings.Join(missing, ",")
                          + "; Invalid columns: " + Strings.Join(invalid, ",")
  {
    var n := NormalizeName(path);
    Schema(n, n + ": " + "Missing columns: " + Strings.Join(missing, ",")
              + "; Invalid columns: " + Strings.Join(invalid, ","), missing, invalid)
  }

  /** The engine family: "engine: message" with the last dotted component. */
  function EngineFamily(kind: Kind, name: Option<string>, message: string): (e: Error)
    ensures e.Domain? && e.kind == kind && '.' !in e.subject
    ensures Message(e) == e.subject + ": " + message
  {
    var n := EngineName(name);
    Domain(kind, n + ": " + message, n)
  }

  function EngineError(name: Option<string>, message: string): Error { EngineFamily(Engine, name, message) }
  function EngineLoadError(name: Option<string>, message: string): Error { EngineFamily(EngineLoad, name, message) }
  function EngineStructureError(name: Option<string>, message: string): Error { EngineFamily(EngineStructure, name, message) }

  /** `DownloadError(url, message)`: the URL is kept as given. */
  function DownloadError(url: string, message: string): Error
  {
    Domain(Download, url + ": " + message, url)
  }

  /** `DownloadTimeoutError(url, message)` is built by EngineError's
      constructor, so the URL goes through the engine-name normalisation. */
  function DownloadTimeoutError(url: string, message: string): Error
  {
    EngineFamily(DownloadTimeout, Some(url), message)
  }

  /** Every repository error reads "<name>: <message>", with "<unknow>" for
      a missing or empty name. */
  lemma RepoMessageFormat(name: Option<string>, message: string)
    ensures Message(RepoError(name, message)) == NormalizeName(name) + ": " + message
    ensures name.None? || name.value == "" ==> Message(RepoError(name, message)) == Unknown + ": " + message
    ensures name.Some? && name.value != "" ==> Message(RepoError(name, message)) == name.value + ": " + message
  {
  }

  /** The FileNotFoundError `open` or `shutil.move` raises for a missing path. */
  function NotFound(path: string): Error
  {
    Builtin("FileNotFoundError", "[Errno 2] No such file or directory: '" + path + "'")
  }
}
