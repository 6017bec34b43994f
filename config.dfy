/** Configuration loading and the storage-location cascade of server/config.js.
    The file-system probes (directory creation, a test write and unlink) and
    the contents of config.json are inputs: what getDatabasePath decides from
    them is modelled exactly. */
module Config {
  import opened Js

  /** What the process finds at server/config.json. `Unreadable` stands for a
      read or JSON.parse failure, which loadConfig catches. */
  datatype ConfigFile = Missing | Unreadable | Parsed(content: Value)

  /** Everything getDatabasePath depends on: os.homedir(), os.tmpdir(), the
      config file, and whether the directory of the configured path, resp. the
      temp directory, could be created and written to. */
  datatype Environment = Environment(
    home: string,
    tmp: string,
    configFile: ConfigFile,
    configuredDirWritable: bool,
    tempDirWritable: bool)

  datatype Location = Configured | Temp | Memory

  /** The `{ path, location }` record getDatabasePath returns. */
  datatype DbInfo = DbInfo(path: string, location: Location)

  /** SQLite's name for a database that lives only in memory. */
  const MemoryPath: string := ":memory:"

  /** path.join of two segments (without path normalisation). */
  function PathJoin(dir: string, name: string): string {
    dir + "/" + name
  }

  /** DEFAULT_CONFIG.database_path: ~/.prompt-refiner/prompt_refiner.db */
  function DefaultDatabasePath(home: string): string {
    PathJoin(PathJoin(home, ".prompt-refiner"), "prompt_refiner.db")
  }

  /** The temp tier's file: <tmpdir>/.prompt-refiner/prompt_refiner.db */
  function TempDatabasePath(tmp: string): string {
    PathJoin(PathJoin(tmp, ".prompt-refiner"), "prompt_refiner.db")
  }

  /** The tilde expansion as written: `path.replace('~', home)`, which reads
      `$` patterns in the home directory as substitution commands. */
  function ExpandTildeAsWritten(path: string, home: string): (r: string)
    ensures '~' !in path ==> r == path
    ensures '~' in path && '$' !in home ==>
      r == path[..IndexOf(path, '~')] + home + path[IndexOf(path, '~') + 1..]
  {
    ReplaceFirst(path, '~', home)
  }

  /** The tilde expansion as intended: the leading `~` becomes the home directory. */
  function ExpandTilde(path: string, home: string): (r: string)
    requires StartsWith(path, "~")
    ensures |r| == |home| + |path| - 1
    ensures r[..|home|] == home && r[|home|..] == path[1..]
  {
    home + path[1..]
  }

  /** Without a `$` in the home directory, the written expansion is the intended one. */
  lemma ExpandTildeAgrees(path: string, home: string)
    requires StartsWith(path, "~") && '$' !in home
    ensures ExpandTildeAsWritten(path, home) == ExpandTilde(path, home)
  {
    assert IndexOf(path, '~') == 0;
    SubstituteLiteral(home, "~", "", path[1..]);
  }

  /** With a home directory ending in `$'`, the written expansion drops the
      `$'` and pastes the rest of the path in twice, where the intended one
      keeps the home directory as it is. */
  lemma ExpandTildeDollarQuote(prefix: string, rest: string)
    requires '$' !in prefix
    ensures ExpandTildeAsWritten("~" + rest, prefix + "$'") == prefix + rest + rest
    ensures ExpandTilde("~" + rest, prefix + "$'") == prefix + "$'" + rest
  {
    var path := "~" + rest;
    assert path[0] == '~';
    assert IndexOf(path, '~') == 0;
    assert path[..0] == "" && path[1..] == rest;
    SubstituteLiteralPrefix(prefix, "$'", "~", "", rest);
    assert Substitute("$'", "~", "", rest) == rest + Substitute("", "~", "", rest);
  }

  /** loadConfig().database_path: the configured value, its leading `~`
      replaced by the home directory as `replace` does it, or the default path
      when the file is missing or loading it throws. Reading the property of a
      null configuration throws, and so does calling startsWith on a truthy
      value that is not a string. */
  function LoadConfig(file: ConfigFile, home: string): (dbPath: Value)
    ensures !file.Parsed? ==> dbPath == Str(DefaultDatabasePath(home))
    ensures file.Parsed? && Nullish(file.content) ==> dbPath == Str(DefaultDatabasePath(home))
    ensures file.Parsed? && !Nullish(file.content) ==>
      var configured := Get(file.content, "database_path");
      && (!Truthy(configured) ==> dbPath == configured)
      && (configured.Str? && StartsWith(configured.s, "~") ==>
            dbPath == Str(ExpandTildeAsWritten(configured.s, home)))
      && (configured.Str? && StartsWith(configured.s, "~") && '$' !in home ==>
            dbPath == Str(home + configured.s[1..]))
      && (configured.Str? && configured.s != "" && !StartsWith(configured.s, "~") ==>
            dbPath == configured)
      && (Truthy(configured) && !configured.Str? ==> dbPath == Str(DefaultDatabasePath(home)))
  {
    match file
    case Missing => Str(DefaultDatabasePath(home))
    case Unreadable => Str(DefaultDatabasePath(home))
    case Parsed(config) =>
      if Nullish(config) then Str(DefaultDatabasePath(home))
      else
        var configured := Get(config, "database_path");
        if !Truthy(configured) then configured
        else if !configured.Str? then Str(DefaultDatabasePath(home))
        else if StartsWith(configured.s, "~") then
          assert '$' !in home ==> ExpandTildeAsWritten(configured.s, home) == home + configured.s[1..] by {
            if '$' !in home {
              ExpandTildeAgrees(configured.s, home);
            }
          }
          Str(ExpandTildeAsWritten(configured.s, home))
        else configured
  }

  /** Whether the configured tier is taken: the configured value is a string
      other than the sentinel (path.dirname throws on anything else) and its
      directory passed the write probe. */
  predicate ConfiguredUsable(dbPath: Value, env: Environment) {
    dbPath.Str? && dbPath.s != MemoryPath && env.configuredDirWritable
  }

  /** getDatabasePath: the sentinel, then the configured path, then the temp
      directory, then memory. It never throws. */
  function GetDatabasePath(env: Environment): (info: DbInfo)
    ensures var dbPath := LoadConfig(env.configFile, env.home);
      && (dbPath == Str(MemoryPath) ==> info == DbInfo(MemoryPath, Memory))
      && (info.location == Configured <==> ConfiguredUsable(dbPath, env))
      && (info.location == Configured ==> info.path == dbPath.s)
      && (info.location == Temp <==>
            dbPath != Str(MemoryPath) && !ConfiguredUsable(dbPath, env) && env.tempDirWritable)
      && (info.location == Temp ==> info.path == TempDatabasePath(env.tmp))
    ensures info.location == Memory <==> info.path == MemoryPath
  {
    var dbPath := LoadConfig(env.configFile, env.home);
    if dbPath == Str(MemoryPath) then DbInfo(MemoryPath, Memory)
    else if ConfiguredUsable(dbPath, env) then DbInfo(dbPath.s, Configured)
    else if env.tempDirWritable then DbInfo(TempDatabasePath(env.tmp), Temp)
    else DbInfo(MemoryPath, Memory)
  }

  /** A configured location that cannot be written falls back to the temp
      directory when that can be, never straight to memory. */
  lemma FallbackPrefersTemp(env: Environment)
    requires LoadConfig(env.configFile, env.home).Str?
    requires LoadConfig(env.configFile, env.home).s != MemoryPath
    requires !env.configuredDirWritable && env.tempDirWritable
    ensures GetDatabasePath(env) == DbInfo(TempDatabasePath(env.tmp), Temp)
  {
  }

  /** A configuration without `database_path` skips the configured tier. */
  lemma MissingPathSkipsConfigured(env: Environment)
    requires env.configFile.Parsed? && env.configFile.content == Obj(map[])
    ensures GetDatabasePath(env).location != Configured
  {
  }
}
