/** The launch-command resolver of the Workman language-server extension: which
    interpreter runs the server, which config file and entry script it gets,
    and the argument vector and environment of the spawned process.

    The host's queries are inputs: a `Worktree` value carries what the project
    answers (its settings, the `deno` found on PATH, its root, whether the
    conventional entry script can be read, its shell environment) and a `Host`
    value carries the process environment variable and the platform. */
module Workman {
  import opened Wrappers
  import opened Json
  import opened Paths
  import Precedence

  const DenoConfigName: string := "deno.json"
  /** The entry script the convention branch probes, relative to the project root. */
  const ServerScriptRelative: string := "lsp/server/src/server.ts"

  const ServerPathKey: string := "serverPath"
  const DenoConfigKey: string := "denoConfig"
  const ServerRootKey: string := "serverRoot"

  const NotOnPathMessage: string := ": could not find deno on PATH"
  const NotFoundPrefix: string := "Workman LSP not found at "

  datatype Os = Mac | Linux | Windows

  /** Environment variables for the spawned process, in order. */
  type EnvVars = seq<(string, string)>

  /** The `binary` section of the settings. */
  datatype CommandSettings = CommandSettings(path: Option<string>, arguments: Option<seq<string>>)

  /** The settings of the "workman-lsp" namespace. */
  datatype LspSettings = LspSettings(
    binary: Option<CommandSettings>,
    initializationOptions: Option<Value>,
    settings: Option<Value>)

  /** What the host reports about the project.
      `lspSettings` is None when the settings fail to load; `denoOnPath` is the
      answer to a PATH search for "deno"; `serverScriptReadable` says whether
      reading `ServerScriptRelative` in the project succeeds. */
  datatype Worktree = Worktree(
    lspSettings: Option<LspSettings>,
    denoOnPath: Option<string>,
    rootPath: string,
    serverScriptReadable: bool,
    shellEnv: EnvVars)

  /** The process-level inputs: the WORKMAN_ROOT variable and the platform. */
  datatype Host = Host(workmanRoot: Option<string>, platform: Os)

  datatype ServerPaths = ServerPaths(denoConfig: string, serverPath: string)

  datatype Command = Command(command: string, args: seq<string>, env: EnvVars)

  // ---------------------------------------------------------------------------
  // Reading the settings
  // ---------------------------------------------------------------------------

  /** `binary.path`, when the settings load and carry it. */
  function BinaryPathSetting(wt: Worktree): (r: Option<string>)
    ensures r.Some? <==> wt.lspSettings.Some? && wt.lspSettings.value.binary.Some? && wt.lspSettings.value.binary.value.path.Some?
    ensures r.Some? ==> r.value == wt.lspSettings.value.binary.value.path.value
  {
    if wt.lspSettings.Some? && wt.lspSettings.value.binary.Some? then wt.lspSettings.value.binary.value.path
    else None
  }

  /** `binary.arguments`, when the settings load and carry it. */
  function ArgumentsSetting(wt: Worktree): (r: Option<seq<string>>)
    ensures r.Some? <==> wt.lspSettings.Some? && wt.lspSettings.value.binary.Some? && wt.lspSettings.value.binary.value.arguments.Some?
    ensures r.Some? ==> r.value == wt.lspSettings.value.binary.value.arguments.value
  {
    if wt.lspSettings.Some? && wt.lspSettings.value.binary.Some? then wt.lspSettings.value.binary.value.arguments
    else None
  }

  /** A member of the `settings` document read as a string; absent when the
      settings do not load, have no document, or the member is not a string. */
  function StringSetting(wt: Worktree, key: string): (r: Option<string>)
    ensures r.Some? <==>
      wt.lspSettings.Some? && wt.lspSettings.value.settings.Some? && wt.lspSettings.value.settings.value.Object?
      && key in wt.lspSettings.value.settings.value.fields && wt.lspSettings.value.settings.value.fields[key].String?
    ensures r.Some? ==> wt.lspSettings.value.settings.value.fields[key] == String(r.value)
  {
    if wt.lspSettings.Some? && wt.lspSettings.value.settings.Some? then GetStr(wt.lspSettings.value.settings.value, key)
    else None
  }

  // ---------------------------------------------------------------------------
  // Interpreter
  // ---------------------------------------------------------------------------

  function DenoNotFound(languageServerId: string): string {
    languageServerId + NotOnPathMessage
  }

  /** `resolve_deno_binary`: a `binary.path` override verbatim, else the `deno`
      found on PATH, else an error naming the language server. */
  function ResolveDenoBinary(languageServerId: string, wt: Worktree): (r: Result<string, string>)
    ensures BinaryPathSetting(wt).Some? ==> r == Ok(BinaryPathSetting(wt).value)
    ensures BinaryPathSetting(wt).None? && wt.denoOnPath.Some? ==> r == Ok(wt.denoOnPath.value)
    ensures r.Err? <==> BinaryPathSetting(wt).None? && wt.denoOnPath.None?
    ensures r.Err? ==> |r.error| >= |languageServerId| && r.error[..|languageServerId|] == languageServerId
                       && r.error[|languageServerId|..] == NotOnPathMessage
  {
    var overridden :=
      match wt.lspSettings
      case Some(lspSettings) =>
        (match lspSettings.binary
         case Some(binary) => binary.path
         case None => None)
      case None => None;
    match overridden
    case Some(path) => Ok(path)
    case None =>
      match wt.denoOnPath
      case Some(deno) => Ok(deno)
      case None => Err(DenoNotFound(languageServerId))
  }

  // ---------------------------------------------------------------------------
  // Server location
  // ---------------------------------------------------------------------------

  /** The config file next to the conventional layout of a script: the script's
      grandparent joined with "deno.json", or plain "deno.json" when the script
      path has no grandparent. */
  function DefaultConfigFor(serverPath: string): (r: string)
    ensures Grandparent(Components(serverPath)).Some? ==>
      Components(r) == Grandparent(Components(serverPath)).value + [Normal(DenoConfigName)]
    ensures Grandparent(Components(serverPath)).None? ==> r == DenoConfigName
  {
    var p := Components(serverPath);
    match Grandparent(p)
    case Some(dir) =>
      ComponentsWellFormed(serverPath);
      PrefixWellFormed(p, |dir|);
      assert dir == p[..|dir|];
      PushComponents(Render(dir), DenoConfigName);
      ComponentsRender(dir);
      Push(Render(dir), DenoConfigName)
    case None => DenoConfigName
  }

  /** A script two names below `dir` gets the config `dir/deno.json`. */
  lemma DefaultConfigBelow(serverPath: string, dir: Path, a: string, b: string)
    requires Components(serverPath) == dir + [Normal(a), Normal(b)]
    ensures DefaultConfigFor(serverPath) == Push(Render(dir), DenoConfigName)
    ensures Components(DefaultConfigFor(serverPath)) == dir + [Normal(DenoConfigName)]
  {
    var p := Components(serverPath);
    assert p[..|p| - 2] == dir;
  }

  /** The config path of the `serverPath` branch: `denoConfig` when it is a
      string, else the one derived from the script path. */
  function ConfigForServerPath(wt: Worktree, serverPath: string): (r: string)
    ensures StringSetting(wt, DenoConfigKey).Some? ==> r == StringSetting(wt, DenoConfigKey).value
    ensures StringSetting(wt, DenoConfigKey).None? ==> r == DefaultConfigFor(serverPath)
  {
    match StringSetting(wt, DenoConfigKey)
    case Some(config) => config
    case None => DefaultConfigFor(serverPath)
  }

  /** The names joined onto a server root for its config file and its script. */
  const ConfigLayout: seq<string> := ["lsp", "server", "deno.json"]
  const ScriptLayout: seq<string> := ["lsp", "server", "src", "server.ts"]

  /** `paths_from_root`: the fixed layout under a server root. */
  function PathsFromRoot(root: string): (r: ServerPaths)
    ensures r.denoConfig == DirPrefix(root) + "lsp/server/deno.json"
    ensures r.serverPath == DirPrefix(root) + "lsp/server/src/server.ts"
    ensures Components(r.denoConfig) == Components(root) + [Normal("lsp"), Normal("server"), Normal("deno.json")]
    ensures Components(r.serverPath) ==
      Components(root) + [Normal("lsp"), Normal("server"), Normal("src"), Normal("server.ts")]
  {
    LayoutFacts();
    JoinAllText(root, ConfigLayout);
    JoinAllText(root, ScriptLayout);
    JoinAllComponents(root, ConfigLayout);
    JoinAllComponents(root, ScriptLayout);
    ServerPaths(JoinAll(root, ConfigLayout), JoinAll(root, ScriptLayout))
  }

  lemma LayoutFacts()
    ensures ValidNames(ConfigLayout) && ValidNames(ScriptLayout)
    ensures JoinSlash(ConfigLayout) == "lsp/server/deno.json"
    ensures JoinSlash(ScriptLayout) == "lsp/server/src/server.ts"
    ensures Normals(ConfigLayout) == [Normal("lsp"), Normal("server"), Normal("deno.json")]
    ensures Normals(ScriptLayout) == [Normal("lsp"), Normal("server"), Normal("src"), Normal("server.ts")]
  {
    LayoutNamesValid();
    ConfigLayoutText();
    ScriptLayoutText();
  }

  // The three layout facts below are separate lemmas so that each is proved in
  // a small context; the solver manages them unaided there.
  lemma LayoutNamesValid()
    ensures ValidNames(ConfigLayout) && ValidNames(ScriptLayout)
  {
  }

  lemma ConfigLayoutText()
    ensures JoinSlash(ConfigLayout) == "lsp/server/deno.json"
  {
  }

  lemma ScriptLayoutText()
    ensures JoinSlash(ScriptLayout) == "lsp/server/src/server.ts"
  {
  }

  function ServerNotFound(serverPath: string): string {
    NotFoundPrefix + serverPath
  }

  /** `paths_from_worktree`: the fixed layout under the project root, provided
      the conventional entry script can be read there. */
  function PathsFromWorktree(wt: Worktree): (r: Result<ServerPaths, string>)
    ensures r.Err? <==> !wt.serverScriptReadable
    ensures r.Ok? ==> r.value == PathsFromRoot(wt.rootPath)
    ensures r.Ok? ==> r.value.serverPath == DirPrefix(wt.rootPath) + ServerScriptRelative
    ensures r.Err? ==> |r.error| >= |NotFoundPrefix| && r.error[..|NotFoundPrefix|] == NotFoundPrefix
                       && r.error[|NotFoundPrefix|..] == PathsFromRoot(wt.rootPath).serverPath
  {
    var paths := PathsFromRoot(wt.rootPath);
    if !wt.serverScriptReadable then Err(ServerNotFound(paths.serverPath))
    else Ok(paths)
  }

  /** `resolve_server_paths`: the first of `serverPath`, `serverRoot`,
      WORKMAN_ROOT and the project layout that is present decides. */
  function ResolveServerPaths(wt: Worktree, host: Host): (r: Result<ServerPaths, string>)
    ensures StringSetting(wt, ServerPathKey).Some? ==>
      var serverPath := StringSetting(wt, ServerPathKey).value;
      r == Ok(ServerPaths(ConfigForServerPath(wt, serverPath), serverPath))
    ensures StringSetting(wt, ServerPathKey).None? && StringSetting(wt, ServerRootKey).Some? ==>
      r == Ok(PathsFromRoot(StringSetting(wt, ServerRootKey).value))
    ensures StringSetting(wt, ServerPathKey).None? && StringSetting(wt, ServerRootKey).None? && host.workmanRoot.Some? ==>
      r == Ok(PathsFromRoot(host.workmanRoot.value))
    ensures StringSetting(wt, ServerPathKey).None? && StringSetting(wt, ServerRootKey).None? && host.workmanRoot.None? ==>
      r == PathsFromWorktree(wt)
    ensures r.Err? <==>
      StringSetting(wt, ServerPathKey).None? && StringSetting(wt, ServerRootKey).None? && host.workmanRoot.None?
      && !wt.serverScriptReadable
  {
    var fromSettings :=
      match wt.lspSettings
      case Some(lspSettings) =>
        (match lspSettings.settings
         case Some(settings) =>
           (match GetStr(settings, ServerPathKey)
            case Some(serverPath) => Some(ServerPaths(ConfigForServerPath(wt, serverPath), serverPath))
            case None =>
              match GetStr(settings, ServerRootKey)
              case Some(serverRoot) => Some(PathsFromRoot(serverRoot))
              case None => None)
         case None => None)
      case None => None;
    assert fromSettings == if ServerPathRule(wt).Some? then ServerPathRule(wt) else ServerRootRule(wt);
    match fromSettings
    case Some(paths) => Ok(paths)
    case None =>
      match host.workmanRoot
      case Some(serverRoot) => Ok(PathsFromRoot(serverRoot))
      case None => PathsFromWorktree(wt)
  }

  // ---------------------------------------------------------------------------
  // The command
  // ---------------------------------------------------------------------------

  /** The argument vector used when `binary.arguments` is not given. */
  function DefaultArguments(paths: ServerPaths): (r: seq<string>)
    ensures |r| == 5 && r[..3] == ["run", "--allow-all", "--config"]
    ensures r[3] == paths.denoConfig && r[4] == paths.serverPath
  {
    ["run", "--allow-all", "--config", paths.denoConfig, paths.serverPath]
  }

  /** The arguments of `language_server_command`: `binary.arguments` verbatim,
      else the default vector, in all three ways of lacking it. */
  function ArgumentsFor(wt: Worktree, paths: ServerPaths): (r: seq<string>)
    ensures ArgumentsSetting(wt).Some? ==> r == ArgumentsSetting(wt).value
    ensures ArgumentsSetting(wt).None? ==>
      |r| == 5 && r[..3] == ["run", "--allow-all", "--config"] && r[3] == paths.denoConfig && r[4] == paths.serverPath
  {
    match wt.lspSettings
    case Some(lspSettings) =>
      (match lspSettings.binary
       case Some(binary) =>
         (match binary.arguments
          case Some(arguments) => arguments
          case None => DefaultArguments(paths))
       case None => DefaultArguments(paths))
    case None => DefaultArguments(paths)
  }

  /** The environment of `language_server_command`: the project's shell
      environment on Mac and Linux, none on Windows. */
  function EnvironmentFor(platform: Os, shellEnv: EnvVars): (r: EnvVars)
    ensures platform == Windows ==> r == []
    ensures platform != Windows ==> r == shellEnv
  {
    match platform
    case Mac => shellEnv
    case Linux => shellEnv
    case Windows => []
  }

  /** `language_server_command`: interpreter first, then the server location;
      the first failure is the result. */
  function LanguageServerCommand(languageServerId: string, wt: Worktree, host: Host): (r: Result<Command, string>)
    ensures ResolveDenoBinary(languageServerId, wt).Err? ==> r == Err(ResolveDenoBinary(languageServerId, wt).error)
    ensures ResolveDenoBinary(languageServerId, wt).Ok? && ResolveServerPaths(wt, host).Err? ==>
      r == Err(ResolveServerPaths(wt, host).error)
    ensures r.Ok? <==> ResolveDenoBinary(languageServerId, wt).Ok? && ResolveServerPaths(wt, host).Ok?
    ensures r.Ok? ==>
      r.value.command == ResolveDenoBinary(languageServerId, wt).value
      && r.value.args == ArgumentsFor(wt, ResolveServerPaths(wt, host).value)
      && r.value.env == EnvironmentFor(host.platform, wt.shellEnv)
  {
    match ResolveDenoBinary(languageServerId, wt)
    case Err(e) => Err(e)
    case Ok(deno) =>
      match ResolveServerPaths(wt, host)
      case Err(e) => Err(e)
      case Ok(paths) => Ok(Command(deno, ArgumentsFor(wt, paths), EnvironmentFor(host.platform, wt.shellEnv)))
  }

  // ---------------------------------------------------------------------------
  // Pass-through accessors
  // ---------------------------------------------------------------------------

  /** `language_server_initialization_options`: never fails; the settings'
      `initialization_options` when they load. */
  function InitializationOptions(wt: Worktree): (r: Result<Option<Value>, string>)
    ensures r.Ok?
    ensures wt.lspSettings.Some? ==> r.value == wt.lspSettings.value.initializationOptions
    ensures wt.lspSettings.None? ==> r.value.None?
  {
    Ok(if wt.lspSettings.Some? then wt.lspSettings.value.initializationOptions else None)
  }

  /** `language_server_workspace_configuration`: never fails; the settings'
      `settings` document when they load. */
  function WorkspaceConfiguration(wt: Worktree): (r: Result<Option<Value>, string>)
    ensures r.Ok?
    ensures wt.lspSettings.Some? ==> r.value == wt.lspSettings.value.settings
    ensures wt.lspSettings.None? ==> r.value.None?
  {
    Ok(if wt.lspSettings.Some? then wt.lspSettings.value.settings else None)
  }

  // ---------------------------------------------------------------------------
  // The precedence chain as a first-match list
  // ---------------------------------------------------------------------------

  function ServerPathRule(wt: Worktree): Option<ServerPaths> {
    match StringSetting(wt, ServerPathKey)
    case Some(serverPath) => Some(ServerPaths(ConfigForServerPath(wt, serverPath), serverPath))
    case None => None
  }

  function ServerRootRule(wt: Worktree): Option<ServerPaths> {
    match StringSetting(wt, ServerRootKey)
    case Some(root) => Some(PathsFromRoot(root))
    case None => None
  }

  function EnvironmentRule(host: Host): Option<ServerPaths> {
    match host.workmanRoot
    case Some(root) => Some(PathsFromRoot(root))
    case None => None
  }

  /** The three override rules, most specific first. */
  function LocationRules(wt: Worktree, host: Host): seq<Option<ServerPaths>> {
    [ServerPathRule(wt), ServerRootRule(wt), EnvironmentRule(host)]
  }
}
