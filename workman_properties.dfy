/** Properties of the Workman resolver that relate several calls: precedence,
    independence from inputs a branch does not consult, and agreement between
    the branches that derive paths from a root. */
module WorkmanProperties {
  import opened Wrappers
  import opened Json
  import opened Paths
  import opened Workman
  import Precedence

  // ---------------------------------------------------------------------------
  // Interpreter
  // ---------------------------------------------------------------------------

  /** A `binary.path` override is used verbatim whatever the PATH search would find. */
  lemma BinaryOverrideIgnoresPath(languageServerId: string, wt: Worktree, found: Option<string>)
    requires BinaryPathSetting(wt).Some?
    ensures ResolveDenoBinary(languageServerId, wt.(denoOnPath := found)) == Ok(BinaryPathSetting(wt).value)
  {
    assert BinaryPathSetting(wt.(denoOnPath := found)) == BinaryPathSetting(wt);
  }

  // ---------------------------------------------------------------------------
  // Server location
  // ---------------------------------------------------------------------------

  /** The nested resolution is the first-match chain of the three override
      rules (most specific first) with the project layout as the fallback. */
  lemma ResolveServerPathsIsFirstMatch(wt: Worktree, host: Host)
    ensures ResolveServerPaths(wt, host) == Precedence.FirstMatch(LocationRules(wt, host), PathsFromWorktree(wt))
  {
    Precedence.FirstOfThree(ServerPathRule(wt), ServerRootRule(wt), EnvironmentRule(host), PathsFromWorktree(wt));
  }

  /** The worktree with one member taken out of its settings document. */
  function WithoutSetting(wt: Worktree, key: string): Worktree
    requires wt.lspSettings.Some? && wt.lspSettings.value.settings.Some? && wt.lspSettings.value.settings.value.Object?
  {
    var lsp := wt.lspSettings.value;
    wt.(lspSettings := Some(lsp.(settings := Some(Object(lsp.settings.value.fields - {key})))))
  }

  /** A `serverPath` that is present but not a string is the same as no
      `serverPath` at all. */
  lemma NonStringServerPathIsAbsent(wt: Worktree, host: Host)
    requires wt.lspSettings.Some? && wt.lspSettings.value.settings.Some? && wt.lspSettings.value.settings.value.Object?
    requires var fields := wt.lspSettings.value.settings.value.fields;
      ServerPathKey in fields && !fields[ServerPathKey].String?
    ensures ResolveServerPaths(wt, host) == ResolveServerPaths(WithoutSetting(wt, ServerPathKey), host)
  {
    var fields := wt.lspSettings.value.settings.value.fields;
    var wt' := WithoutSetting(wt, ServerPathKey);
    GetStrWithout(fields, ServerPathKey, ServerPathKey);
    GetStrWithout(fields, ServerPathKey, ServerRootKey);
    GetStrWithout(fields, ServerPathKey, DenoConfigKey);
    assert StringSetting(wt', ServerRootKey) == StringSetting(wt, ServerRootKey);
    assert StringSetting(wt', ServerPathKey).None? && StringSetting(wt, ServerPathKey).None?;
  }

  /** A `serverRoot` that is present but not a string is the same as no
      `serverRoot` at all. */
  lemma NonStringServerRootIsAbsent(wt: Worktree, host: Host)
    requires wt.lspSettings.Some? && wt.lspSettings.value.settings.Some? && wt.lspSettings.value.settings.value.Object?
    requires var fields := wt.lspSettings.value.settings.value.fields;
      ServerRootKey in fields && !fields[ServerRootKey].String?
    ensures ResolveServerPaths(wt, host) == ResolveServerPaths(WithoutSetting(wt, ServerRootKey), host)
  {
    var fields := wt.lspSettings.value.settings.value.fields;
    var wt' := WithoutSetting(wt, ServerRootKey);
    GetStrWithout(fields, ServerRootKey, ServerPathKey);
    GetStrWithout(fields, ServerRootKey, ServerRootKey);
    GetStrWithout(fields, ServerRootKey, DenoConfigKey);
    assert StringSetting(wt', ServerPathKey) == StringSetting(wt, ServerPathKey);
    assert StringSetting(wt', DenoConfigKey) == StringSetting(wt, DenoConfigKey);
    if StringSetting(wt, ServerPathKey).Some? {
      var serverPath := StringSetting(wt, ServerPathKey).value;
      assert ConfigForServerPath(wt', serverPath) == ConfigForServerPath(wt, serverPath);
    }
  }

  /** `serverRoot = R` in the settings and WORKMAN_ROOT = R with no settings
      resolve to the same pair, the layout under R. */
  lemma ServerRootSameAsEnvironment(wt: Worktree, host: Host, root: string)
    requires StringSetting(wt, ServerPathKey).None? && StringSetting(wt, ServerRootKey) == Some(root)
    ensures ResolveServerPaths(wt, host) == Ok(PathsFromRoot(root))
    ensures ResolveServerPaths(wt.(lspSettings := None), host.(workmanRoot := Some(root))) == Ok(PathsFromRoot(root))
  {
  }

  /** The script of the layout under R has the directory R/lsp/server as its
      grandparent, so the derived config is R/lsp/server/deno.json. */
  lemma LayoutScriptConfig(root: string)
    ensures Components(DefaultConfigFor(PathsFromRoot(root).serverPath)) == Components(PathsFromRoot(root).denoConfig)
    ensures Render(Components(root)) == root ==> DefaultConfigFor(PathsFromRoot(root).serverPath) == PathsFromRoot(root).denoConfig
  {
    var paths := PathsFromRoot(root);
    var c := Components(root);
    ConfigBesideScript(paths.serverPath, paths.denoConfig, c);
    if Render(c) == root {
      LayoutDirRender(root);
      ConfigText(DirPrefix(root));
    }
  }

  lemma ConfigBesideScript(script: string, config: string, c: Path)
    requires Components(script) == c + [Normal("lsp"), Normal("server"), Normal("src"), Normal("server.ts")]
    requires Components(config) == c + [Normal("lsp"), Normal("server"), Normal("deno.json")]
    ensures DefaultConfigFor(script) == Push(Render(c + [Normal("lsp"), Normal("server")]), DenoConfigName)
    ensures Components(DefaultConfigFor(script)) == Components(config)
  {
    ScriptBelowServerDir(c);
    ConfigInServerDir(c);
    DefaultConfigBelow(script, c + [Normal("lsp"), Normal("server")], "src", "server.ts");
  }

  // Regrouping facts kept as separate lemmas: stated inline the same equalities
  // cost the solver several times more.
  lemma ScriptBelowServerDir(c: Path)
    ensures c + [Normal("lsp"), Normal("server"), Normal("src"), Normal("server.ts")]
         == (c + [Normal("lsp"), Normal("server")]) + [Normal("src"), Normal("server.ts")]
  {
  }

  lemma ConfigInServerDir(c: Path)
    ensures (c + [Normal("lsp"), Normal("server")]) + [Normal(DenoConfigName)]
         == c + [Normal("lsp"), Normal("server"), Normal("deno.json")]
  {
  }

  lemma ConfigText(d: string)
    ensures Push(d + "lsp/server", DenoConfigName) == d + "lsp/server/deno.json"
  {
    PushAfterPiece(d, "lsp/server", DenoConfigName);
  }

  /** Rendering R/lsp/server from components gives the joined text, when R's
      own text is its rendering. */
  lemma LayoutDirRender(root: string)
    requires Render(Components(root)) == root
    ensures Render(Components(root) + [Normal("lsp"), Normal("server")]) == DirPrefix(root) + "lsp/server"
  {
    ComponentsWellFormed(root);
    RenderTwoNames(Components(root), "lsp", "server");
    assert "lsp" + [Separator] + "server" == "lsp/server";
  }

  /** Rendering a well-formed sequence extended by two names. */
  lemma RenderTwoNames(c: Path, a: string, b: string)
    requires WellFormed(c) && ValidName(a) && ValidName(b)
    ensures Render(c + [Normal(a), Normal(b)]) == DirPrefix(Render(c)) + (a + [Separator] + b)
  {
    TwoNames(a, b);
    RenderJoinAll(c, [a, b]);
    JoinAllText(Render(c), [a, b]);
  }

  /** Two proper names: their components and their joined text. */
  lemma TwoNames(a: string, b: string)
    requires ValidName(a) && ValidName(b)
    ensures ValidNames([a, b])
    ensures Normals([a, b]) == [Normal(a), Normal(b)]
    ensures JoinSlash([a, b]) == a + [Separator] + b
  {
    assert [a, b][1..] == [b];
  }

  /** Three proper names: their components and their joined text. */
  lemma ThreeNames(x: string, y: string, s: string)
    requires ValidName(x) && ValidName(y) && ValidName(s)
    ensures ValidNames([x, y, s])
    ensures Normals([x, y, s]) == [Normal(x), Normal(y), Normal(s)]
    ensures JoinSlash([x, y, s]) == x + [Separator] + y + [Separator] + s
  {
    TwoNames(y, s);
    assert [x, y, s][1..] == [y, s];
    assert x + [Separator] + (y + [Separator] + s) == x + [Separator] + y + [Separator] + s;
  }

  /** The derived config of an explicit `serverPath` agrees with the layout
      convention: pointing `serverPath` at `R/lsp/server/src/server.ts` without a
      `denoConfig` yields `R/lsp/server/deno.json`, component for component,
      and as text when R is written without redundant separators. */
  lemma ServerPathMatchesLayout(wt: Worktree, host: Host, root: string)
    requires StringSetting(wt, ServerPathKey) == Some(PathsFromRoot(root).serverPath)
    requires StringSetting(wt, DenoConfigKey).None?
    ensures ResolveServerPaths(wt, host).Ok?
    ensures ResolveServerPaths(wt, host).value.serverPath == PathsFromRoot(root).serverPath
    ensures Components(ResolveServerPaths(wt, host).value.denoConfig) == Components(PathsFromRoot(root).denoConfig)
    ensures Render(Components(root)) == root ==> ResolveServerPaths(wt, host) == Ok(PathsFromRoot(root))
  {
    LayoutScriptConfig(root);
  }

  // ---------------------------------------------------------------------------
  // The command
  // ---------------------------------------------------------------------------

  /** `binary.arguments` replaces the vector entirely: the resolved paths do not
      enter it. */
  lemma ArgumentsOverrideIgnoresPaths(wt: Worktree, a: ServerPaths, b: ServerPaths)
    requires ArgumentsSetting(wt).Some?
    ensures ArgumentsFor(wt, a) == ArgumentsFor(wt, b) == ArgumentsSetting(wt).value
  {
  }

  /** Without `binary.arguments` the vector is run, --allow-all, --config, the
      config path and the script path, in that order. */
  lemma DefaultArgumentOrder(languageServerId: string, wt: Worktree, host: Host)
    requires ArgumentsSetting(wt).None?
    requires LanguageServerCommand(languageServerId, wt, host).Ok?
    ensures var paths := ResolveServerPaths(wt, host).value;
      LanguageServerCommand(languageServerId, wt, host).value.args ==
        ["run", "--allow-all", "--config", paths.denoConfig, paths.serverPath]
  {
    var paths := ResolveServerPaths(wt, host).value;
    FiveArguments(ArgumentsFor(wt, paths), paths.denoConfig, paths.serverPath);
  }

  lemma FiveArguments(args: seq<string>, config: string, script: string)
    requires |args| == 5 && args[..3] == ["run", "--allow-all", "--config"] && args[3] == config && args[4] == script
    ensures args == ["run", "--allow-all", "--config", config, script]
  {
    assert args == args[..3] + [args[3], args[4]];
  }

  /** The spawned environment is the shell environment on Mac and Linux and
      empty on Windows, whatever the settings say. */
  lemma EnvironmentPolicy(languageServerId: string, wt: Worktree, host: Host)
    requires LanguageServerCommand(languageServerId, wt, host).Ok?
    ensures host.platform == Windows ==> LanguageServerCommand(languageServerId, wt, host).value.env == []
    ensures host.platform in {Mac, Linux} ==> LanguageServerCommand(languageServerId, wt, host).value.env == wt.shellEnv
  {
  }

  /** A failed interpreter lookup ends the resolution before the server paths
      matter: neither the script probe nor WORKMAN_ROOT changes the error. */
  lemma BinaryErrorShortCircuits(languageServerId: string, wt: Worktree, host: Host, readable: bool, workmanRoot: Option<string>)
    requires ResolveDenoBinary(languageServerId, wt).Err?
    ensures LanguageServerCommand(languageServerId, wt.(serverScriptReadable := readable), host.(workmanRoot := workmanRoot))
      == Err(DenoNotFound(languageServerId))
  {
    var wt' := wt.(serverScriptReadable := readable);
    assert BinaryPathSetting(wt') == BinaryPathSetting(wt);
  }

  /** With no settings and no WORKMAN_ROOT, a project that has the conventional
      layout and a `deno` on PATH launches `deno run --allow-all --config
      <root>/lsp/server/deno.json <root>/lsp/server/src/server.ts`. */
  lemma ConventionLaunch(languageServerId: string, wt: Worktree, host: Host, deno: string)
    requires wt.lspSettings.None? && host.workmanRoot.None?
    requires wt.denoOnPath == Some(deno) && wt.serverScriptReadable
    ensures LanguageServerCommand(languageServerId, wt, host) == Ok(Command(
      deno,
      ["run", "--allow-all", "--config",
       DirPrefix(wt.rootPath) + "lsp/server/deno.json", DirPrefix(wt.rootPath) + "lsp/server/src/server.ts"],
      EnvironmentFor(host.platform, wt.shellEnv)))
  {
  }

  // ---------------------------------------------------------------------------
  // Worked examples of the `denoConfig` fallback
  // ---------------------------------------------------------------------------

  lemma RootComponents()
    ensures Components([Separator]) == [RootDir]
  {
    assert Segments([Separator]) == ["", ""] by {
      assert [Separator][1..] == "";
    }
    assert ["", ""][1..] == [""];
    assert SegmentComponents([""], false) == [] by { assert [""][1..] == []; }
    assert IsRooted([Separator]);
  }

  /** A script "a/b" (two proper names) has the empty grandparent, so its
      config is "deno.json" (the case "a/b.ts"). */
  lemma RelativeScriptConfig(a: string, b: string)
    requires ValidName(a) && ValidName(b)
    ensures DefaultConfigFor(a + [Separator] + b) == DenoConfigName
  {
    RelativeScriptComponents(a, b);
    var p := [Normal(a), Normal(b)];
    assert Grandparent(p) == Some([]) by {
      assert p[..0] == [];
    }
    assert Render([]) == "";
    assert Push("", DenoConfigName) == DenoConfigName;
  }

  lemma RelativeScriptComponents(a: string, b: string)
    requires ValidName(a) && ValidName(b)
    ensures Components(a + [Separator] + b) == [Normal(a), Normal(b)]
  {
    TwoNames(a, b);
    JoinAllText("", [a, b]);
    assert DirPrefix("") + (a + [Separator] + b) == a + [Separator] + b;
    JoinAllComponents("", [a, b]);
    assert Components("") == [];
  }

  lemma AbsoluteScriptComponents(x: string, y: string, s: string)
    requires ValidName(x) && ValidName(y) && ValidName(s)
    ensures Components([Separator] + x + [Separator] + y + [Separator] + s) == [RootDir, Normal(x), Normal(y), Normal(s)]
  {
    ThreeNames(x, y, s);
    JoinAllText([Separator], [x, y, s]);
    assert DirPrefix([Separator]) == [Separator];
    RootedThree(x, y, s);
    JoinAllComponents([Separator], [x, y, s]);
    RootComponents();
  }

  lemma RootedThree(x: string, y: string, s: string)
    ensures [Separator] + (x + [Separator] + y + [Separator] + s) == [Separator] + x + [Separator] + y + [Separator] + s
  {
  }

  /** A script "/x/y/s" has the grandparent "/x", so its config is
      "/x/deno.json" (the case "/x/y/s.ts"). */
  lemma AbsoluteScriptConfig(x: string, y: string, s: string)
    requires ValidName(x) && ValidName(y) && ValidName(s)
    ensures DefaultConfigFor([Separator] + x + [Separator] + y + [Separator] + s) == [Separator] + x + [Separator] + DenoConfigName
  {
    AbsoluteScriptComponents(x, y, s);
    var p := [RootDir, Normal(x), Normal(y), Normal(s)];
    var dir := [RootDir, Normal(x)];
    assert Grandparent(p) == Some(dir) by {
      assert p[..2] == dir;
    }
    assert Render(dir) == [Separator] + x by {
      assert dir[1..] == [Normal(x)];
      assert Texts([Normal(x)]) == [x];
    }
    PushAfterPiece([Separator], x, DenoConfigName);
  }

  /** A bare script name has no grandparent, so its config is the literal
      "deno.json". */
  lemma BareScriptConfig(s: string)
    requires ValidName(s)
    ensures DefaultConfigFor(s) == DenoConfigName
  {
    assert Push("", s) == s;
    PushComponents("", s);
    assert Components("") == [];
    assert Components(s) == [Normal(s)];
  }
}
