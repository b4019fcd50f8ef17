# Workman language-server launch resolver, modelled in Dafny

The Workman extension for the Zed editor tells the editor how to start the
Workman language server: which `deno` interpreter to run, which Deno config
file and server script to hand it, and which environment to give it. This
project models that decision logic from `src/workman.rs`:

- the interpreter: a `binary.path` override, else `deno` found on PATH, else
  the error `"<id>: could not find deno on PATH"`;
- the server location, first match wins:
  1. a string `serverPath` setting, with `denoConfig` or the script's
     grandparent joined with `deno.json`, or plain `deno.json`;
  2. a string `serverRoot` setting;
  3. the `WORKMAN_ROOT` environment variable;
  4. the project's own `lsp/server/src/server.ts`, which must be readable or
     the result is the error `"Workman LSP not found at <path>"`;
- the argument vector: `binary.arguments` verbatim, else
  `run --allow-all --config <config> <script>`;
- the environment: the shell environment on Mac and Linux, empty on Windows;
- the two pass-through accessors for `initialization_options` and `settings`.

Everything the editor host supplies is an input. The `Worktree` record holds
the loaded settings (or their absence), the PATH lookup, the root path, whether
the script can be read, and the shell environment. The `Host` record holds
`WORKMAN_ROOT` and the platform.

Paths follow Rust's `std::path` on Unix (module `Paths`):

- `Components` splits text at `/`. It records a leading root. It drops empty
  pieces, and drops `.` everywhere except at the start of a relative path.
- `Parent` drops the last component. It gives nothing for an empty path or for
  the root.
- `Push` is `PathBuf::push`. An absolute name replaces the buffer. Otherwise
  one `/` is added unless the buffer is empty or already ends in one.
- `Render` writes components back as text.

The contracts prove that pushing a proper name adds exactly one `Normal`
component. They also prove that rendering well-formed components and splitting
the text again gives the same components back.

Files:

- `wrappers.dfy`: `Option` and `Result`.
- `json.dfy`: the JSON values of the settings document, with `get` and `as_str`.
- `paths.dfy`: the path model.
- `precedence.dfy`: a generic first-match rule chain, used as the reference
  definition of the location precedence.
- `workman.dfy`: the resolver.
- `workman_properties.dfy`: lemmas relating several calls.

## Model

| member | source | states |
|---|---|---|
| Workman.BinaryPathSetting | src/workman.rs:16-18 | `binary.path` is present exactly when the settings load, carry `binary`, and that carries `path`; it is that path |
| Workman.StringSetting | src/workman.rs:30-34 | a settings member read as a string is present exactly when the settings load, have a `settings` object, and the member is a JSON string; it is that string |
| Workman.ResolveDenoBinary | src/workman.rs:11-27 | a `binary.path` override is returned verbatim; otherwise the PATH hit; it fails exactly when both are missing, and the message is the server id followed by ": could not find deno on PATH" |
| WorkmanProperties.BinaryOverrideIgnoresPath | src/workman.rs:16-22 | with a `binary.path` override the PATH lookup result makes no difference |
| Workman.DefaultConfigFor | src/workman.rs:41-46 | when the script path has a grandparent, the config's components are that grandparent plus `deno.json`; when it has none (fewer than two components above the root), the config is the literal `deno.json` |
| Workman.DefaultConfigBelow | src/workman.rs:41-46 | a script two names below a directory gets that directory joined with `deno.json`, as text and as components |
| Workman.ConfigForServerPath | src/workman.rs:37-47 | a string `denoConfig` wins; otherwise the config derived from the script's grandparent |
| Workman.PathsFromRoot | src/workman.rs:70-81 | the config is `<root>/lsp/server/deno.json`, the script `<root>/lsp/server/src/server.ts`, with one `/` after the root unless the root is empty or already ends in one; their components are the root's plus exactly the layout names |
| Workman.PathsFromWorktree | src/workman.rs:83-95 | fails exactly when the script cannot be read; success is the layout under the worktree root; the failure message is "Workman LSP not found at " followed by the computed script path |
| Workman.ResolveServerPaths | src/workman.rs:29-68 | a string `serverPath` decides; else a string `serverRoot`; else `WORKMAN_ROOT`; else the worktree layout; it fails exactly when none of the three overrides is present and the script is unreadable |
| Precedence.FirstMatch | src/workman.rs:29-68 | the first rule that applies, with no earlier rule applying, gives the result; when no rule applies, the fallback |
| Precedence.FirstOfThree | src/workman.rs:29-68 | a three-rule chain is the nested choice "first, else second, else third, else fallback" |
| WorkmanProperties.ResolveServerPathsIsFirstMatch | src/workman.rs:29-68 | the nested `if let` resolution equals the first-match chain of the `serverPath`, `serverRoot` and `WORKMAN_ROOT` rules with the worktree layout as fallback |
| WorkmanProperties.NonStringServerPathIsAbsent | src/workman.rs:32-35 | a `serverPath` member that is not a string resolves exactly as if it were missing |
| WorkmanProperties.NonStringServerRootIsAbsent | src/workman.rs:54-57 | a `serverRoot` member that is not a string resolves exactly as if it were missing |
| WorkmanProperties.ServerRootSameAsEnvironment | src/workman.rs:54-65 | `serverRoot = R` in the settings and `WORKMAN_ROOT = R` without settings both give the layout under R |
| WorkmanProperties.LayoutScriptConfig | src/workman.rs:41-46 | the grandparent rule applied to the layout's script gives the layout's config, component for component, and as text when the root is written normally |
| WorkmanProperties.ServerPathMatchesLayout | src/workman.rs:32-51 | setting `serverPath` to the layout's script without `denoConfig` resolves to the same pair as `serverRoot` with that root (same components; the same text when the root is written normally) |
| WorkmanProperties.RelativeScriptConfig | src/workman.rs:41-46 | a script `a/b` has the empty grandparent, so its config is `deno.json` |
| WorkmanProperties.AbsoluteScriptConfig | src/workman.rs:41-46 | a script `/x/y/s` has the grandparent `/x`, so its config is `/x/deno.json` |
| WorkmanProperties.BareScriptConfig | src/workman.rs:41-46 | a bare file name has no grandparent, so its config is `deno.json` |
| Workman.ArgumentsSetting | src/workman.rs:111-113 | `binary.arguments` is present exactly when the settings load, carry `binary`, and that carries `arguments`; it is that vector |
| Workman.DefaultArguments | src/workman.rs:116-122 | five arguments: `run`, `--allow-all`, `--config`, then the config path, then the script path |
| Workman.ArgumentsFor | src/workman.rs:111-141 | `binary.arguments` verbatim; otherwise, whichever of the three ways it is missing, five arguments: `run`, `--allow-all`, `--config`, the config, the script |
| WorkmanProperties.ArgumentsOverrideIgnoresPaths | src/workman.rs:111-114 | with an arguments override, the resolved paths do not enter the vector |
| WorkmanProperties.DefaultArgumentOrder | src/workman.rs:116-140 | without an override, the launched vector is exactly `run --allow-all --config <config> <script>` |
| Workman.EnvironmentFor | src/workman.rs:143-146 | the shell environment on Mac and Linux, empty on Windows |
| WorkmanProperties.EnvironmentPolicy | src/workman.rs:143-146 | the launched command's environment depends only on the platform and the shell environment |
| Workman.LanguageServerCommand | src/workman.rs:103-153 | an interpreter error is returned first; then a server-location error; it succeeds exactly when both succeed; then the command is the interpreter, the arguments and the environment |
| WorkmanProperties.BinaryErrorShortCircuits | src/workman.rs:108-109 | an interpreter error does not depend on the script probe or on `WORKMAN_ROOT` |
| WorkmanProperties.ConventionLaunch | src/workman.rs:103-153 | with no settings and no `WORKMAN_ROOT`, a readable layout and a `deno` on PATH launch `deno run --allow-all --config <root>/lsp/server/deno.json <root>/lsp/server/src/server.ts` |
| Workman.InitializationOptions | src/workman.rs:155-163 | never fails; the settings' `initialization_options` when the settings load, nothing otherwise |
| Workman.WorkspaceConfiguration | src/workman.rs:165-173 | never fails; the settings' `settings` document when the settings load, nothing otherwise |
| Json.Get | src/workman.rs:32-33 | a member is found exactly when the value is an object that has the key, and it is that member |
| Json.AsStr | src/workman.rs:34 | a string is read exactly from a string value |
| Json.GetStr | src/workman.rs:32-34 | `get(key).and_then(as_str)` is present exactly when the member exists and is a string |
| Json.GetStrWithout | src/workman.rs:32-34 | removing a member changes the string lookup of that key only |
| Paths.Components | src/workman.rs:36 | `Path::components` on Unix: the root comes first exactly when the text starts with `/`, and never anywhere else (with Paths.ComponentsWellFormed) |
| Paths.ComponentsWellFormed | src/workman.rs:42-43 | every text splits into components with the root and `.` only first and every name a proper name |
| Paths.Parent | src/workman.rs:42 | `parent` exists exactly when the path is non-empty and does not end at the root, and the path is the parent plus its last component |
| Paths.Grandparent | src/workman.rs:42-43 | `parent().and_then(parent)` exists exactly when the last two components are not the root, and the path is it plus those two |
| Paths.Push | src/workman.rs:44 | an absolute name replaces the buffer; otherwise the name comes after the buffer and one separator, unless the buffer is empty or already ends in one |
| Paths.PushComponents | src/workman.rs:44 | pushing a proper name adds exactly one `Normal` component |
| Paths.ParentOfPush | src/workman.rs:42-44 | the parent of a pushed proper name is the original path |
| Paths.Render | src/workman.rs:42-45 | the text of the `parent()` path that `join("deno.json")` extends: the pieces joined by `/`, so a sequence that starts at the root gives an absolute text (with Paths.ComponentsRender, its components are the sequence) |
| Paths.ComponentsRender | src/workman.rs:42-48 | rendering well-formed components and splitting the text again gives the same components |
| Paths.RenderAppend | src/workman.rs:44 | rendering components plus a name is pushing that name onto the rendered text |
| Paths.SegmentsJoin | src/workman.rs:36 | joining separator-free pieces and splitting again gives the pieces back |
| Paths.JoinAll | src/workman.rs:71-76 | chained `join`s: no names leave the base unchanged; an absolute last name replaces everything before it |
| Paths.JoinAllText | src/workman.rs:71-76 | joining proper names writes them after the base, plus one `/` unless the base is empty or already ends in one, separated by single separators |
| Paths.JoinAllComponents | src/workman.rs:71-76 | joining proper names adds exactly their `Normal` components |
| Paths.RenderJoinAll | src/workman.rs:71-76 | rendering components extended by names is joining those names onto the rendered text |

## Left out

- Extension plumbing: `register_extension!` and the `new` constructor carry no logic.
- Host calls are inputs, not modelled behaviour. These are `LspSettings::for_worktree`, `Worktree::which`, `root_path`, `read_text_file` (only whether it succeeds), `shell_env`, `env::var("WORKMAN_ROOT")` and `current_platform`.
- `LspSettings::for_worktree` is called three times while building the command (src/workman.rs:16, 30, 111) and once in each accessor (160, 170). The model reads it once. It assumes the host returns the same result each time.
- A failed settings load and absent settings are the same in the model: the source ignores the error in every call.
- `env::var` fails both for a missing `WORKMAN_ROOT` and for one that is not valid Unicode. The model has only "absent", which is what the source does with both.
- JSON numbers are integers. Floating-point values play no part in the resolution, because only `as_str` is applied.
- `to_string_lossy` is the identity. Strings are `seq<char>` and no non-UTF-8 paths are modelled.
- Windows path syntax (drive prefixes, `\` separators) is not modelled; paths use Unix rules on every platform.
- Workman.DefaultConfigFor: Rust's `parent` returns a slice of the original text. The model re-renders the parent's components with single separators. The text therefore differs when the script path contains doubled separators or an interior `.`. The components are the same. The text equalities in WorkmanProperties.LayoutScriptConfig and WorkmanProperties.ServerPathMatchesLayout are stated only for roots that are written normally.
- WorkmanProperties.LayoutScriptConfig: the text equality is proved only for roots with `Render(Components(root)) == root`; the components agree for every root.
- WorkmanProperties.ServerPathMatchesLayout: the text equality with `PathsFromRoot(root)` is proved only for roots with `Render(Components(root)) == root`; the script text and the config's components agree for every root.
- Workman.ResolveDenoBinary: an empty `binary.path` is passed through as the executable. Neither the source nor the model checks that the executable is non-empty.
