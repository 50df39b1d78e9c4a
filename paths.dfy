/** Directory resolution following the XDG base-directory convention: a
    system-wide location for root, else the XDG variable when it is set and
    non-empty, else a directory under the home directory.

    Paths are POSIX `pathlib` paths: an absolute flag and a list of
    components. The effective user id (absent where the platform has none),
    the environment and the home directory are parameters. */
module Paths {
  import opened Common

  datatype PosixPath = PosixPath(absolute: bool, parts: seq<string>)

  datatype Host = Host(euid: Option<int>, env: map<string, string>, home: string)

  const App := "seclyzer"

  /** A single path component: not empty, no '/' (the first '/' is past the
      end), not ".". */
  predicate Component(s: string)
  {
    s != [] && FirstOf(s, '/') == |s| && s != "."
  }

  predicate WellFormed(p: PosixPath)
  {
    forall i :: 0 <= i < |p.parts| ==> Component(p.parts[i])
  }

  /** The components of a path string: the pieces between slashes, without
      the empty ones and ".". */
  function Segments(s: string): (r: seq<string>)
    ensures forall i :: 0 <= i < |r| ==> Component(r[i])
    decreases |s|
  {
    var d := FirstOf(s, '/');
    var piece := s[..d];
    var rest := if d == |s| then [] else Segments(s[d + 1..]);
    assert forall c :: c in piece ==> c != '/';
    if piece == [] || piece == "." then rest else [piece] + rest
  }

  /** `Path(s)`. */
  function FromString(s: string): (p: PosixPath)
    ensures WellFormed(p)
  {
    PosixPath(|s| > 0 && s[0] == '/', Segments(s))
  }

  /** `p / s`: an absolute right-hand side replaces the left. */
  function Slash(p: PosixPath, s: string): (r: PosixPath)
    requires WellFormed(p)
    ensures WellFormed(r)
  {
    var q := FromString(s);
    if q.absolute then q else PosixPath(p.absolute, p.parts + q.parts)
  }

  /** Joining a single component appends it. */
  lemma SlashComponent(p: PosixPath, c: string)
    requires WellFormed(p) && Component(c)
    ensures Slash(p, c) == PosixPath(p.absolute, p.parts + [c])
  {
    SegmentsComponent(c);
  }

  lemma SegmentsComponent(c: string)
    requires Component(c)
    ensures Segments(c) == [c]
  {
    assert c[..|c|] == c;
    assert Segments(c) == [c] + [];
  }

  /** `str(path)`. */
  function Render(p: PosixPath): string
  {
    if p.parts == [] then (if p.absolute then "/" else ".")
    else (if p.absolute then "/" else "") + JoinParts(p.parts)
  }

  function JoinParts(parts: seq<string>): string
    requires parts != []
  {
    if |parts| == 1 then parts[0] else parts[0] + "/" + JoinParts(parts[1..])
  }

  /** `p` lies at or below `q`. */
  predicate Under(p: PosixPath, q: PosixPath)
  {
    p.absolute == q.absolute && |q.parts| <= |p.parts| && p.parts[..|q.parts|] == q.parts
  }

  // -----------------------------------------------------------------------
  // The host

  /** `os.geteuid() == 0 if hasattr(os, 'geteuid') else False`. */
  predicate SystemInstall(h: Host)
  {
    h.euid == Some(0)
  }

  /** `os.getenv(name)` is set and non-empty. */
  predicate EnvSet(h: Host, name: string)
  {
    name in h.env && h.env[name] != ""
  }

  function Home(h: Host): (p: PosixPath)
    ensures WellFormed(p)
  {
    FromString(h.home)
  }

  /** The three-way rule shared by the data, configuration and cache
      directories. */
  function XdgDir(h: Host, system: string, variable: string, fallback: seq<string>, app: string): (p: PosixPath)
    requires forall i :: 0 <= i < |fallback| ==> Component(fallback[i])
    ensures WellFormed(p)
  {
    if SystemInstall(h) then Slash(FromString(system), app)
    else if EnvSet(h, variable) then Slash(FromString(h.env[variable]), app)
    else Slash(PosixPath(Home(h).absolute, Home(h).parts + fallback), app)
  }

  /** `get_data_dir(app_name)`. */
  function DataDir(h: Host, app: string): (p: PosixPath)
    ensures WellFormed(p)
  {
    LocalShareComponents();
    XdgDir(h, "/var/lib", "XDG_DATA_HOME", [".local", "share"], app)
  }

  /** `get_config_dir(app_name)`. */
  function ConfigDir(h: Host, app: string): (p: PosixPath)
    ensures WellFormed(p)
  {
    DotConfigComponent();
    XdgDir(h, "/etc", "XDG_CONFIG_HOME", [".config"], app)
  }

  /** `get_cache_dir(app_name)`. */
  function CacheDir(h: Host, app: string): (p: PosixPath)
    ensures WellFormed(p)
  {
    DotCacheComponent();
    XdgDir(h, "/var/cache", "XDG_CACHE_HOME", [".cache"], app)
  }

  /** `get_log_dir(app_name)`. */
  function LogDir(h: Host, app: string): (p: PosixPath)
    ensures WellFormed(p)
  {
    if SystemInstall(h) then Slash(FromString("/var/log"), app)
    else Slash(CacheDir(h, app), "logs")
  }

  /** `get_database_path(db_name)`. */
  function DatabasePath(h: Host, dbName: string): (p: PosixPath)
    ensures WellFormed(p)
  {
    Slash(Slash(DataDir(h, App), "databases"), dbName)
  }

  /** `get_models_dir()`. */
  function ModelsDir(h: Host): (p: PosixPath)
    ensures WellFormed(p)
  {
    Slash(DataDir(h, App), "models")
  }

  /** `get_backups_dir()`. */
  function BackupsDir(h: Host): (p: PosixPath)
    ensures WellFormed(p)
  {
    Slash(DataDir(h, App), "backups")
  }

  // -----------------------------------------------------------------------
  // Properties

  lemma SegmentsOf(a: string, b: string)
    requires Component(a) && Component(b)
    ensures Segments("/" + a + "/" + b) == [a, b]
  {
    SegmentsAfterSlash(a + "/" + b);
    assert "/" + a + "/" + b == "/" + (a + "/" + b);
    SegmentsPair(a, b);
    SegmentsComponent(b);
  }

  /** A leading slash adds no component. */
  lemma SegmentsAfterSlash(s: string)
    ensures Segments("/" + s) == Segments(s)
  {
    var t := "/" + s;
    assert FirstOf(t, '/') == 0;
    assert t[1..] == s;
  }

  lemma SegmentsPair(a: string, b: string)
    requires Component(a)
    ensures Segments(a + "/" + b) == [a] + Segments(b)
  {
    var s := a + "/" + b;
    assert '/' !in a;
    FirstOfAfter(a, '/', b);
    assert s[..|a|] == a;
    assert s[|a| + 1..] == b;
  }

  lemma SystemRoot(system: string, first: string, second: string)
    requires system == "/" + first + "/" + second && Component(first) && Component(second)
    ensures FromString(system) == PosixPath(true, [first, second])
  {
    SegmentsOf(first, second);
  }

  lemma SystemRootOne(system: string, first: string)
    requires system == "/" + first && Component(first)
    ensures FromString(system) == PosixPath(true, [first])
  {
    assert FirstOf(system, '/') == 0;
    assert system[1..] == first;
    SegmentsComponent(first);
    assert system[..0] == [];
    assert Segments(system) == Segments(first);
  }

  /** The fixed names used below the data directory are single components. */
  lemma AppComponent() ensures Component(App) { FirstOfNone(App, '/'); }
  lemma DatabasesComponent() ensures Component("databases") { FirstOfNone("databases", '/'); }
  lemma ModelsComponent() ensures Component("models") { FirstOfNone("models", '/'); }
  lemma BackupsComponent() ensures Component("backups") { FirstOfNone("backups", '/'); }
  lemma DatabaseFileComponent() ensures Component("seclyzer.db") { FirstOfNone("seclyzer.db", '/'); }
  lemma DotConfigComponent() ensures Component(".config") { FirstOfNone(".config", '/'); }

  lemma DotCacheComponent() ensures Component(".cache") { FirstOfNone(".cache", '/'); }

  lemma LocalShareComponents() ensures Component(".local") && Component("share")
  {
    FirstOfNone(".local", '/');
    FirstOfNone("share", '/');
  }

  /** The four system roots, each as its components. */
  lemma VarLibParts()
    ensures FromString("/var/lib") == PosixPath(true, ["var", "lib"])
  {
    SystemRoot("/var/lib", "var", "lib");
  }

  lemma VarCacheParts()
    ensures FromString("/var/cache") == PosixPath(true, ["var", "cache"])
  {
    SystemRoot("/var/cache", "var", "cache");
  }

  lemma VarLogParts()
    ensures FromString("/var/log") == PosixPath(true, ["var", "log"])
  {
    SystemRoot("/var/log", "var", "log");
  }

  lemma EtcParts()
    ensures FromString("/etc") == PosixPath(true, ["etc"])
  {
    SystemRootOne("/etc", "etc");
  }

  /** The three branches of the shared rule, for a single-component name. */
  lemma XdgFromEnv(h: Host, system: string, variable: string, fallback: seq<string>, app: string)
    requires forall i :: 0 <= i < |fallback| ==> Component(fallback[i])
    requires !SystemInstall(h) && EnvSet(h, variable) && Component(app)
    ensures var base := FromString(h.env[variable]);
            XdgDir(h, system, variable, fallback, app) == PosixPath(base.absolute, base.parts + [app])
  {
    SlashComponent(FromString(h.env[variable]), app);
  }

  lemma XdgFallback(h: Host, system: string, variable: string, fallback: seq<string>, app: string)
    requires forall i :: 0 <= i < |fallback| ==> Component(fallback[i])
    requires !SystemInstall(h) && !EnvSet(h, variable) && Component(app)
    ensures XdgDir(h, system, variable, fallback, app) == PosixPath(Home(h).absolute, Home(h).parts + fallback + [app])
  {
    SlashComponent(PosixPath(Home(h).absolute, Home(h).parts + fallback), app);
  }

  /** For root the data directory is /var/lib/<app>, whatever the
      environment says. */
  lemma DataDirForRoot(h: Host, app: string)
    requires SystemInstall(h) && Component(app)
    ensures DataDir(h, app) == PosixPath(true, ["var", "lib", app])
    ensures Render(DataDir(h, app)) == "/var/lib/" + app
  {
    RenderVarLib(app);
    var lib := FromString("/var/lib");
    VarLibParts();
    assert DataDir(h, app) == Slash(lib, app);
    SlashComponent(lib, app);
    assert ["var", "lib"] + [app] == ["var", "lib", app];
  }

  lemma RenderVarLib(app: string)
    ensures Render(PosixPath(true, ["var", "lib", app])) == "/var/lib/" + app
  {
    RenderUnder("var", "lib", app);
    assert "/" + "var" + "/" + "lib" + "/" == "/var/lib/";
  }

  lemma RenderUnder(a: string, b: string, c: string)
    ensures Render(PosixPath(true, [a, b, c])) == "/" + a + "/" + b + "/" + c
  {
    assert [a, b, c][1..] == [b, c];
    assert [b, c][1..] == [c];
    assert JoinParts([b, c]) == b + "/" + c;
  }

  /** For other users the data directory is XDG_DATA_HOME/<app> when that is
      set and non-empty, else ~/.local/share/<app>. */
  lemma DataDirForUser(h: Host, app: string)
    requires !SystemInstall(h) && Component(app)
    ensures EnvSet(h, "XDG_DATA_HOME") ==>
              var base := FromString(h.env["XDG_DATA_HOME"]);
              DataDir(h, app) == PosixPath(base.absolute, base.parts + [app])
    ensures !EnvSet(h, "XDG_DATA_HOME") ==>
              DataDir(h, app) == PosixPath(Home(h).absolute, Home(h).parts + [".local", "share", app])
  {
    LocalShareComponents();
    var fallback := [".local", "share"];
    assert DataDir(h, app) == XdgDir(h, "/var/lib", "XDG_DATA_HOME", fallback, app);
    if EnvSet(h, "XDG_DATA_HOME") {
      XdgFromEnv(h, "/var/lib", "XDG_DATA_HOME", fallback, app);
    } else {
      XdgFallback(h, "/var/lib", "XDG_DATA_HOME", fallback, app);
      AppendAfterTwo(Home(h).parts, ".local", "share", app);
    }
  }

  lemma ConfigDirRule(h: Host, app: string)
    requires Component(app)
    ensures SystemInstall(h) ==> ConfigDir(h, app) == PosixPath(true, ["etc", app])
    ensures !SystemInstall(h) && EnvSet(h, "XDG_CONFIG_HOME") ==>
              var base := FromString(h.env["XDG_CONFIG_HOME"]);
              ConfigDir(h, app) == PosixPath(base.absolute, base.parts + [app])
    ensures !SystemInstall(h) && !EnvSet(h, "XDG_CONFIG_HOME") ==>
              ConfigDir(h, app) == PosixPath(Home(h).absolute, Home(h).parts + [".config", app])
  {
    DotConfigComponent();
    assert ConfigDir(h, app) == XdgDir(h, "/etc", "XDG_CONFIG_HOME", [".config"], app);
    if SystemInstall(h) {
      EtcParts();
      SlashComponent(PosixPath(true, ["etc"]), app);
    } else if EnvSet(h, "XDG_CONFIG_HOME") {
      XdgFromEnv(h, "/etc", "XDG_CONFIG_HOME", [".config"], app);
    } else {
      XdgFallback(h, "/etc", "XDG_CONFIG_HOME", [".config"], app);
      AppendAfterOne(Home(h).parts, ".config", app);
    }
  }

  lemma CacheDirRule(h: Host, app: string)
    requires Component(app)
    ensures SystemInstall(h) ==> CacheDir(h, app) == PosixPath(true, ["var", "cache", app])
    ensures !SystemInstall(h) && EnvSet(h, "XDG_CACHE_HOME") ==>
              var base := FromString(h.env["XDG_CACHE_HOME"]);
              CacheDir(h, app) == PosixPath(base.absolute, base.parts + [app])
    ensures !SystemInstall(h) && !EnvSet(h, "XDG_CACHE_HOME") ==>
              CacheDir(h, app) == PosixPath(Home(h).absolute, Home(h).parts + [".cache", app])
  {
    DotCacheComponent();
    assert CacheDir(h, app) == XdgDir(h, "/var/cache", "XDG_CACHE_HOME", [".cache"], app);
    if SystemInstall(h) {
      VarCacheParts();
      SlashComponent(PosixPath(true, ["var", "cache"]), app);
    } else if EnvSet(h, "XDG_CACHE_HOME") {
      XdgFromEnv(h, "/var/cache", "XDG_CACHE_HOME", [".cache"], app);
    } else {
      XdgFallback(h, "/var/cache", "XDG_CACHE_HOME", [".cache"], app);
      AppendAfterOne(Home(h).parts, ".cache", app);
    }
  }

  /** Logs go to /var/log/<app> for root, else to the logs directory inside
      the cache directory. */
  lemma LogDirRule(h: Host, app: string)
    requires Component(app)
    ensures SystemInstall(h) ==> LogDir(h, app) == PosixPath(true, ["var", "log", app])
    ensures !SystemInstall(h) ==>
              LogDir(h, app) == PosixPath(CacheDir(h, app).absolute, CacheDir(h, app).parts + ["logs"])
              && Under(LogDir(h, app), CacheDir(h, app))
  {
    if SystemInstall(h) {
      VarLogParts();
      SlashComponent(PosixPath(true, ["var", "log"]), app);
    } else {
      SlashComponent(CacheDir(h, app), "logs");
    }
  }

  /** Two components below a directory. */
  lemma SlashTwo(p: PosixPath, a: string, b: string)
    requires WellFormed(p) && Component(a) && Component(b)
    ensures Slash(Slash(p, a), b) == PosixPath(p.absolute, p.parts + [a, b])
  {
    SlashComponent(p, a);
    SlashComponent(PosixPath(p.absolute, p.parts + [a]), b);
    assert p.parts + [a] + [b] == p.parts + [a, b];
  }

  /** The database, models and backups locations are the named
      sub-directories of the data directory. */
  lemma DataSubdirectories(h: Host, dbName: string)
    requires Component(dbName)
    ensures var data := DataDir(h, App);
            DatabasePath(h, dbName) == PosixPath(data.absolute, data.parts + ["databases", dbName])
            && ModelsDir(h) == PosixPath(data.absolute, data.parts + ["models"])
            && BackupsDir(h) == PosixPath(data.absolute, data.parts + ["backups"])
  {
    var data := DataDir(h, App);
    DatabasesComponent();
    ModelsComponent();
    BackupsComponent();
    assert DatabasePath(h, dbName) == Slash(Slash(data, "databases"), dbName);
    assert ModelsDir(h) == Slash(data, "models");
    assert BackupsDir(h) == Slash(data, "backups");
    SlashTwo(data, "databases", dbName);
    SlashComponent(data, "models");
    SlashComponent(data, "backups");
  }

  lemma SubdirectoriesUnder(data: PosixPath, extra: seq<string>)
    ensures Under(PosixPath(data.absolute, data.parts + extra), data)
  {
    assert (data.parts + extra)[..|data.parts|] == data.parts;
  }

  /** The default database of a root install is
      /var/lib/seclyzer/databases/seclyzer.db. */
  lemma RootDatabasePath(h: Host)
    requires SystemInstall(h)
    ensures DatabasePath(h, "seclyzer.db") == PosixPath(true, ["var", "lib", "seclyzer", "databases", "seclyzer.db"])
  {
    AppComponent();
    DatabaseFileComponent();
    DataDirForRoot(h, App);
    DataSubdirectories(h, "seclyzer.db");
    ConcatFive("var", "lib", App, "databases", "seclyzer.db");
  }

  lemma AppendAfterOne<T>(s: seq<T>, a: T, b: T)
    ensures s + [a] + [b] == s + [a, b]
  {
  }

  lemma AppendAfterTwo<T>(s: seq<T>, a: T, b: T, c: T)
    ensures s + [a, b] + [c] == s + [a, b, c]
  {
  }

  lemma ConcatFive<T>(a: T, b: T, c: T, d: T, e: T)
    ensures [a, b, c] + [d, e] == [a, b, c, d, e]
  {
  }

  // -----------------------------------------------------------------------
  // Finding: relative XDG variables

  /** As written, a relative XDG_DATA_HOME gives a relative data directory,
      which the base-directory convention says to ignore. */
  lemma RelativeXdgAccepted()
    ensures var h := Host(Some(1000), map["XDG_DATA_HOME" := "data"], "/home/u");
            !DataDir(h, App).absolute
  {
    var h := Host(Some(1000), map["XDG_DATA_HOME" := "data"], "/home/u");
    assert EnvSet(h, "XDG_DATA_HOME");
    assert "data"[0] != '/';
  }

  /** The variable is used only when it holds an absolute path. */
  predicate EnvAbsolute(h: Host, name: string)
  {
    EnvSet(h, name) && h.env[name][0] == '/'
  }

  function XdgDirChecked(h: Host, system: string, variable: string, fallback: seq<string>, app: string): (p: PosixPath)
    requires forall i :: 0 <= i < |fallback| ==> Component(fallback[i])
    ensures WellFormed(p)
  {
    if SystemInstall(h) then Slash(FromString(system), app)
    else if EnvAbsolute(h, variable) then Slash(FromString(h.env[variable]), app)
    else Slash(PosixPath(Home(h).absolute, Home(h).parts + fallback), app)
  }

  function DataDirChecked(h: Host, app: string): (p: PosixPath)
    ensures WellFormed(p)
  {
    LocalShareComponents();
    XdgDirChecked(h, "/var/lib", "XDG_DATA_HOME", [".local", "share"], app)
  }

  function ConfigDirChecked(h: Host, app: string): (p: PosixPath)
    ensures WellFormed(p)
  {
    DotConfigComponent();
    XdgDirChecked(h, "/etc", "XDG_CONFIG_HOME", [".config"], app)
  }

  function CacheDirChecked(h: Host, app: string): (p: PosixPath)
    ensures WellFormed(p)
  {
    DotCacheComponent();
    XdgDirChecked(h, "/var/cache", "XDG_CACHE_HOME", [".cache"], app)
  }

  /** With an absolute system directory and an absolute home directory, the
      checked rule always resolves to an absolute directory, whatever the
      variable, and it agrees with the rule as written whenever the variable
      is absolute or unset. */
  lemma CheckedXdgDirAbsolute(h: Host, system: string, variable: string, fallback: seq<string>, app: string)
    requires forall i :: 0 <= i < |fallback| ==> Component(fallback[i])
    requires Component(app) && system != [] && system[0] == '/' && h.home != [] && h.home[0] == '/'
    ensures XdgDirChecked(h, system, variable, fallback, app).absolute
    ensures (EnvAbsolute(h, variable) || !EnvSet(h, variable))
            ==> XdgDirChecked(h, system, variable, fallback, app) == XdgDir(h, system, variable, fallback, app)
  {
    var sys := FromString(system);
    var home := PosixPath(Home(h).absolute, Home(h).parts + fallback);
    assert WellFormed(home);
    assert sys.absolute && home.absolute;
    if SystemInstall(h) {
      SlashComponent(sys, app);
    } else if EnvAbsolute(h, variable) {
      var base := FromString(h.env[variable]);
      SlashComponent(base, app);
    } else {
      SlashComponent(home, app);
    }
  }

  /** The checked data, configuration and cache directories are absolute,
      and each agrees with the rule as written whenever its variable is
      absolute or unset. */
  lemma CheckedDataDirAbsolute(h: Host, app: string)
    requires Component(app) && h.home != [] && h.home[0] == '/'
    ensures DataDirChecked(h, app).absolute
    ensures (EnvAbsolute(h, "XDG_DATA_HOME") || !EnvSet(h, "XDG_DATA_HOME"))
            ==> DataDirChecked(h, app) == DataDir(h, app)
    ensures ConfigDirChecked(h, app).absolute && CacheDirChecked(h, app).absolute
    ensures (EnvAbsolute(h, "XDG_CONFIG_HOME") || !EnvSet(h, "XDG_CONFIG_HOME"))
            ==> ConfigDirChecked(h, app) == ConfigDir(h, app)
    ensures (EnvAbsolute(h, "XDG_CACHE_HOME") || !EnvSet(h, "XDG_CACHE_HOME"))
            ==> CacheDirChecked(h, app) == CacheDir(h, app)
  {
    LocalShareComponents();
    DotConfigComponent();
    DotCacheComponent();
    CheckedXdgDirAbsolute(h, "/var/lib", "XDG_DATA_HOME", [".local", "share"], app);
    CheckedXdgDirAbsolute(h, "/etc", "XDG_CONFIG_HOME", [".config"], app);
    CheckedXdgDirAbsolute(h, "/var/cache", "XDG_CACHE_HOME", [".cache"], app);
  }
}
