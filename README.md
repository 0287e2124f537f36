# coc-deno bridge, modelled in Dafny

coc-deno connects the coc.nvim editor to the Deno language server. This
project models the decision logic of that bridge and proves properties about it:

- the settings payload that is sent to the server (`getSettings`);
- the normaliser for `deno:` virtual-document URIs, which depends on the
  server version;
- the `provideDefinition` middleware, with its in-flight document set and
  its restoring of asset URIs;
- the server-version gate and the status bar;
- the import-registry trust handler;
- configuration changes and activation;
- the editor commands (initialize, task, test, restart, TypeScript-server
  check);
- the coc extension that feeds the TypeScript server plugin: its user-set-only
  configuration and its `deno cache` code action.

Modules:

| module | file | models |
|---|---|---|
| `Text` | text.dfy | JavaScript string operations the code relies on: first-occurrence `replace`, `split`, `join`, `trim`, `includes` |
| `SemVer` | semver.dfy | `semver.valid` and `semver.satisfies(v, ">=X.Y.Z")` for plain `MAJOR.MINOR.PATCH` triples |
| `Configuration` | configuration.dfy | configuration layers, `get`/`has`/`inspect`, `??` precedence, truthiness, the `getSettings` loop |
| `Dedup` | dedup.dfy | the `docSet` guard of the definition middleware, as a class |
| `Extension` | extension.dfy | src/extension.ts |
| `ClientExtension` | client.dfy | client/src/extension.ts |
| `Commands` | commands.dfy | src/commands.ts |
| `TsPlugin` | ts_plugin.dfy | src/index.ts |

Answers from the editor and from the server are inputs to the model:

- the picker choice and the prompt answer;
- the `initializeResult` version string;
- how `next` settles;
- `process.cwd()`, `workspace.root` and `Uri.fsPath`;
- whether coc-tsserver is installed and what its exports are.

The module-level state the code reassigns is modelled as classes whose
methods change their fields:

- `docSet`, as `Dedup.DefinitionMiddleware`;
- `serverVersion`, as `Extension.ServerState`;
- the `deno.suggest.imports.hosts` setting, as `Extension.HostsSetting`;
- the command terminal, as `Commands.TerminalSlot`;
- the plugin's `outConfig` object, as `TsPlugin.SynchronizedConfiguration`.

The definition array that the middleware rewrites in place is an `array`.

JavaScript's `String.replace` with a string pattern changes only the first
occurrence, and the model's `Text.ReplaceFirst` does the same. `undefined`
is `Option.None`, and `null` is the separate value `Json.JNull`.

## Points where the code is easy to misread

The model follows these lines as written.

- client/src/extension.ts:93-95 and src/extension.ts:125-127 delete the URI
  from `docSet` only after `next` resolves. There is no `finally`, so a
  rejected `next` leaves the URI in the set. See Findings.
- src/extension.ts:57-58 and client/src/extension.ts:50-51 read three
  layers: workspace, then global, then default. No other layer takes part.
- src/extension.ts:56 and client/src/extension.ts:49 assert only that
  `inspect` returned something. A key whose three layers are all unset
  resolves to `undefined` without failing.
- src/extension.ts:131-132 rewrites a `deno:asset` link target to
  `deno:/asset`. That is the inverse of the content provider's rewrite at
  src/extension.ts:81.
- src/extension.ts:74-78 strips the first `file://<cwd>/` and decodes the first `%3A` in every
  `file:` URI, whatever the server version.
- src/commands.ts:183-185 restarts only after checking that the public state
  is `Running`. Nothing else guards against overlapping restarts.

## Model

| member | source | states |
|---|---|---|
| Text.ReplaceFirst | src/extension.ts:77 | with no occurrence the string is unchanged; otherwise only the first occurrence is replaced: the text before it is kept, then the replacement, then the rest |
| Text.Split | src/extension.ts:190 | `split` yields at least one piece and no piece contains the separator |
| Text.SplitJoin | src/extension.ts:190 | splitting a joined list gives the list back when no part contains the separator |
| Text.FirstPiece | src/extension.ts:190 | the first piece of a split is a prefix, followed by the separator or the end |
| Text.Trim | src/commands.ts:142-143 | `trim` returns a slice of the input with no whitespace at either end |
| Text.TrimOfTrimmed | src/commands.ts:142-143 | a string with no whitespace at either end is its own trim, so trimming twice is trimming once |
| Text.TrimAllWhitespace | src/commands.ts:142 | a string that is all whitespace trims to empty, so `importMap?.trim()` is falsy |
| SemVer.ParseNumeric | src/extension.ts:196 | a numeric identifier is a digit string without leading zeros and no larger than `MAX_SAFE_INTEGER` |
| SemVer.ParseFormat | src/extension.ts:196-197 | parsing the formatted triple gives the version back |
| SemVer.Satisfies16ImpliesSatisfies | src/extension.ts:36-37 | a version in `>=1.16.0` is also in `>=1.9.0` |
| SemVer.BelowTotal | src/extension.ts:36-37 | version precedence is a strict total order |
| Configuration.Get | src/commands.ts:149 | `get(key, fallback)` falls back only when the key is undefined |
| Configuration.Resolve | src/extension.ts:57-58 | workspace value if not nullish, else global if not nullish, else default |
| Configuration.FalseDoesNotFallThrough | src/extension.ts:57-58 | a workspace `false` wins over the other layers |
| Configuration.GetSettings | src/extension.ts:51-61 | fails iff some listed key has no inspection; otherwise exactly the listed keys, each resolved by precedence |
| Dedup.DefinitionMiddleware.constructor | client/src/extension.ts:75 | the in-flight set starts empty |
| Dedup.DefinitionMiddleware.Enter | client/src/extension.ts:91-93 | forwards iff the URI was not in flight; afterwards it is in flight |
| Dedup.DefinitionMiddleware.Leave | client/src/extension.ts:95 | removes exactly the URI |
| Dedup.DefinitionMiddleware.ProvideDefinition | client/src/extension.ts:90-97 | a duplicate answers undefined without calling `next`; a resolved `next` is passed on unchanged and the set restored; a rejection keeps the URI in the set |
| Dedup.DefinitionMiddleware.ProvideDefinitionReleasing | src/extension.ts:122-127 | same answers, with the set restored on every path |
| Dedup.OverlappingRequests | client/src/extension.ts:91-96 | of two overlapping requests for one document only the first is forwarded, the second answers undefined, and the document is free afterwards |
| Dedup.LockoutAfterRejection | client/src/extension.ts:93-95 | after a rejected `next`, a later request for the document is never forwarded |
| Dedup.NoLockoutWhenReleasing | src/extension.ts:122-127 | with the releasing guard, the later request is forwarded and answered |
| Extension.GetExtensionSettings | src/extension.ts:39-61 | exactly the nine keys, without `cacheOnSave`, `inlayHints` or `path`, each resolved by precedence; fails iff a key has no inspection |
| Extension.SettingsKeySet | src/extension.ts:39-49 | the key list as a set, and the three `Settings` members it leaves out |
| Extension.ContentRequestUri | src/extension.ts:73-85 | the URI is stripped and decoded iff it starts with `file:`; no asset rewrite for an invalid or empty version; flattened from 1.16.0; trailing separator below 1.16.0 for file origins only |
| Extension.NonFileUriUntouched | src/extension.ts:75-85 | a URI not starting with `file:` is sent unchanged for an invalid version and for a version below 1.16.0 |
| Extension.LocalFileFormDecodes | src/extension.ts:75-78 | vim's file URI for `deno:<rest>` below the cwd decodes back to `deno:<rest>` |
| Extension.StripCwdPrefix | src/extension.ts:77 | removing the first `file://<cwd>/` from vim's file URI leaves `deno%3A<rest>` |
| Extension.DecodeColon | src/extension.ts:77 | decoding the first `%3A` of `deno%3A<rest>` gives `deno:<rest>` |
| Extension.AssetRewritesOfDenoUri | src/extension.ts:81-83 | the two asset rewrites of a `deno:/asset…` URI |
| Extension.LocalAssetRequest | src/extension.ts:75-85 | the whole normaliser on a local asset file URI, for both version brackets |
| Extension.KnownVersions | src/extension.ts:36-37 | `1.16.0` satisfies `>=1.16.0`; `1.9.0` is valid, below 1.16.0 and satisfies `>=1.9.0` |
| Extension.AssetRequestExamples | src/extension.ts:79-85 | against 1.16.0 `deno:/asset/lib.d.ts` is requested as `deno:asset/lib.d.ts`; against 1.9.0 it is unchanged |
| Extension.LibAssetUri | src/extension.ts:75-81 | `deno:/asset/lib.d.ts` is an asset URI, is not a file URI, and flattens to `deno:asset/lib.d.ts` |
| Extension.ModernExample | src/extension.ts:80-81 | the 1.16.0 case |
| Extension.LegacyExample | src/extension.ts:82-85 | the 1.9.0 case |
| Extension.RestoreAfterFlatten | src/extension.ts:131-132 | restoring a flattened `deno:/asset…` URI gives it back |
| Extension.FlattenAfterRestore | src/extension.ts:81 | flattening a restored `deno:asset…` URI gives it back |
| Extension.AssetRoundTrip | src/extension.ts:79-81 | from 1.16.0, the definition rewrite undoes the content-request rewrite |
| Extension.RestoreItem | src/extension.ts:130-133 | a `Location` is untouched; a link keeps its ranges and has its target restored |
| Extension.RestoreAssetTargets | src/extension.ts:129-135 | every array entry is replaced by its restored form, in place |
| Extension.ProvideDefinition | src/extension.ts:122-138 | a duplicate answers undefined without calling `next`; after a resolved `next` the set is restored; from 1.16.0 an array result is restored entry by entry, and any other result is passed on unchanged; a rejection is passed on and the URI stays in the set |
| Extension.RestoreItemIdempotent | src/extension.ts:130-134 | restoring an entry twice is restoring it once |
| Extension.RestoreItemUndoesFlatten | src/extension.ts:131-132 | a link to a flattened asset comes back under the editor's URI |
| Extension.ServerVersionToken | src/extension.ts:189-190 | `""` when no version is reported; otherwise the leading prefix up to the first space, with no space in it |
| Extension.ServerState.constructor | src/extension.ts:64 | the version starts empty |
| Extension.ServerState.OnReady | src/extension.ts:189-203 | records the token; status text iff the token is non-empty; a warning iff the token is valid and below 1.9.0 |
| Extension.WarningIffBelowRequired | src/extension.ts:195-198 | for a reported `X.Y.Z` with optional details, the token is the version and the warning is due iff it is below 1.9.0 |
| Extension.NoVersionNoWarning | src/extension.ts:189-198 | an absent version gives an empty token, which is not valid |
| Extension.MergeTrust | src/extension.ts:260-263 | the origin is set to whether the answer was `Enable`; every other host is preserved |
| Extension.MergeTrustCommutes | src/extension.ts:263 | answers for distinct origins commute |
| Extension.MergeTrustLastWins | src/extension.ts:263 | a later answer for the same origin overrides an earlier one |
| Extension.HostsSetting.constructor | src/extension.ts:262 | the setting starts as given |
| Extension.HostsSetting.HandleRegistryState | src/extension.ts:253-265 | prompts iff `suggestions`; without it nothing is written; otherwise the whole merged map (from `{}` when unset) is written |
| Extension.OnDidChangeConfiguration | src/extension.ts:152-163 | a `deno` change sends the value-less signal and then `deno.restart`; other changes do nothing |
| Extension.Activate | src/extension.ts:206-222 | `deno.enable` defaults to false; the client starts iff the value is truthy |
| ClientExtension.ClientSettingsKeySet | client/src/extension.ts:30-37 | the six keys as a set, without `cache`, `internalDebug` or `suggest` |
| ClientExtension.GetClientSettings | client/src/extension.ts:44-54 | exactly the six keys, each resolved by precedence; fails iff a key has no inspection |
| ClientExtension.SynchronizeConfiguration | client/src/extension.ts:40-42 | skipped iff the API is nullish; otherwise throws iff the payload fails, else pushes the six-key payload |
| ClientExtension.OnDidChangeConfiguration | client/src/extension.ts:112-124 | notifies iff the change affects `deno`; re-synchronises only when coc-tsserver was found; never restarts |
| ClientExtension.ServerExecutable | client/src/extension.ts:67-73 | `deno.path` (default `deno`) with the single argument `lsp` and `NO_COLOR` |
| ClientExtension.StatusText | client/src/extension.ts:147-152 | the status is shown iff the token is non-empty, with no warning |
| Commands.InitializeItems | src/commands.ts:36-42 | linting and unstable first; the prettier option iff coc-prettier is installed |
| Commands.InitializeUpdates | src/commands.ts:43-54 | nothing when dismissed; otherwise enable true and lint/unstable as chosen; prettier only when chosen |
| Commands.NoPrettierWriteWithoutPrettier | src/commands.ts:39-54 | without coc-prettier no answer writes prettier's configuration |
| Commands.BuildTestArgs | src/commands.ts:136-145 | the code-lens arguments unchanged; `--unstable` iff `unstable` is defined; the trimmed import map iff absent before and non-empty |
| Commands.BuildTestArgsByValue | src/commands.ts:137-139 | as above, with `--unstable` iff `unstable` is true |
| Commands.UnstableFalseStillPassed | src/commands.ts:137-139 | with `unstable: false` the code passes `--unstable` where nothing was intended |
| Commands.EscapeRegex | src/commands.ts:151 | the escaped name consists of literal atoms only (each metacharacter has a backslash in front, and no other character does); it never shortens a name and leaves a name without metacharacters unchanged |
| Commands.EscapeRegexUnescape | src/commands.ts:150-152 | every pattern of literal atoms is the escape of its unescaping, so the escaped names are exactly the literal patterns |
| Commands.UnescapeEscapeRegex | src/commands.ts:151 | removing the inserted backslashes gives the name back |
| Commands.EscapeRegexInjective | src/commands.ts:150-152 | distinct test names give distinct filters |
| Commands.TestArgv | src/commands.ts:153-159 | `test`, the arguments, `--filter`, the quoted filter, the path, in order |
| Commands.TestEnv | src/commands.ts:146-148 | `DENO_DIR` iff `cache` is defined; otherwise no environment |
| Commands.JoinTestArgv | src/commands.ts:153-159 | the joined arguments are `test`, the test arguments if any, `--filter`, the filter and the path, single-spaced |
| Commands.TestCommandLineShape | src/commands.ts:149-166 | the terminal text is the binary (default `deno`), then `test`, the arguments, `--filter`, the filter and the path, single-spaced |
| Commands.TerminalSlot.constructor | src/commands.ts:25 | no terminal initially |
| Commands.TerminalSlot.Replace | src/commands.ts:161-166 | the previous terminal is disposed first; the new one receives one text |
| Commands.TerminalSlot.Task | src/commands.ts:105-131 | runs iff tasks exist and the picker was not dismissed; the terminal is named after the task and receives its `detail`; otherwise nothing changes |
| Commands.TerminalSlot.Test | src/commands.ts:134-167 | the arguments are those of lines 136-145 (`--unstable` whenever `unstable` is defined); the previous terminal is disposed; the new one is named after the test, gets the env and receives the command line |
| Commands.RestartCalls | src/commands.ts:178-187 | restarts iff the state is `Running` |
| Commands.CheckTsServer | src/commands.ts:190-196 | writes `tsserver.enable = false` iff the value is truthy |
| TsPlugin.SynchronizedConfiguration.constructor | src/index.ts:57 | the object starts empty |
| TsPlugin.UserValue | src/index.ts:38-53 | a value iff inspected, set at the global or workspace layer, and defined; it is the effective value |
| TsPlugin.WithConfigValue | src/index.ts:38-53 | writes exactly the key's user value, or nothing |
| TsPlugin.GetConfiguration | src/index.ts:55-67 | a fresh object equal to the six visits starting from empty |
| TsPlugin.SynchronizeSix | src/index.ts:59-64 | the visit order of the six keys |
| TsPlugin.SynchronizeEntries | src/index.ts:55-67 | a key is present iff visited and user-set, and it holds that value |
| TsPlugin.GetConfigurationKeys | src/index.ts:55-67 | the keys are a subset of the six, each present iff user-set |
| TsPlugin.DefaultsNotSynchronized | src/index.ts:44-46 | a key with only a default is never pushed |
| TsPlugin.ProvideCodeActions | src/index.ts:11-26 | one action per diagnostic mentioning `https://deno.land`; each runs `deno.cache` on the document |
| TsPlugin.DenoLandCountBound | src/index.ts:13-24 | never more actions than diagnostics |
| TsPlugin.DenoLandCountZero | src/index.ts:13-24 | no action iff no diagnostic mentions deno.land |
| TsPlugin.DenoLandCountAll | src/index.ts:13-24 | one action per diagnostic iff all mention deno.land |
| TsPlugin.DenoLandCountAppend | src/index.ts:12-25 | the count over joined diagnostic lists is the sum |
| TsPlugin.SynchronizeConfiguration | src/index.ts:69-72 | pushes iff `api` is truthy, and then pushes the user-set configuration |
| TsPlugin.Activate | src/index.ts:74-105 | stops when `deno.enable` (default true) is falsy, when the item `getExtension` returns has a falsy `extension`, or when its exports are falsy; otherwise synchronises once |
| TsPlugin.OnDidChangeConfiguration | src/index.ts:95-103 | pushes again iff the change affects `deno` |

## Left out

- Starting the server process, and the construction, `start`, `onReady`
  and `stop` of `LanguageClient`. These are library calls; their results
  (the version string, the `next` result, the task list) are inputs.
  `deactivate` is only `client?.stop()`.
- `sendRequest`, `sendNotification` and `executeCommand` are represented by
  the values or effects they carry, not performed.
- The `semver` library beyond plain triples: prereleases, build metadata, a
  leading `v`, loose parsing and general ranges. Only `valid` and `>=`
  against the two fixed ranges are modelled.
- SemVer.Parse: node-semver trims the version before matching, so a token
  such as `1.8.0` followed by a newline is valid there and draws the
  warning. `SemVer.Parse` does not trim and rejects it.
- Text: a string is a sequence of Unicode scalar values, not of UTF-16 code
  units. Lone surrogates cannot be represented, and a character outside the
  Basic Multilingual Plane is one element, not two.
- Editor UI: dialogs, pickers, output channels, the status bar item and the
  nvim buffer commands of the `status` command (src/commands.ts:81-103).
  User answers are inputs.
- `showReferences` (src/commands.ts:65-77) and `welcome`: forwarding with no
  decision beyond a missing URI.
- Asynchronous interleaving: the middleware's halves before and after
  `await next(...)` are separate steps (`Enter`, `Leave`), not concurrent
  tasks. Cancellation is not modelled.
- `process.cwd()`, `process.env`, `workspace.root` and `Uri.parse(uri).fsPath`
  are parameters.
- src/content_provider.ts, client/src/commands.ts, src/lsp_extensions.ts and
  the declaration files are not part of this model, beyond the shapes lifted
  as datatypes.
- Extension.RestoreAssetTargets: the array's entries are values. When one
  link object is shared by two entries, the source rewrites it once, while
  the model restores each entry. The result is the same, because restoring
  is idempotent (`Extension.RestoreItemIdempotent`).
- Commands.TestConfig: the configuration is read through a typed view
  (`codeLens.testArgs` as a string list, `importMap`, `cache` and `path` as
  strings). Values of other JSON types there are not modelled.
- Commands.SourceText: the `/…/` text of a `RegExp` is modelled as the
  engine's escaping of `/` and of line terminators. Other engine
  normalisations are not modelled.
- ClientExtension.SynchronizeConfiguration: a non-nullish `exports` is taken
  to provide `configurePlugin`. Calling a missing method, which throws a
  `TypeError`, is not modelled.
- TsPlugin.Activate: `extensions.getExtension(id)` is taken to return an
  object. When coc-tsserver is not installed, src/index.ts:80 throws a
  `TypeError` on `undefined`; that is not modelled, and `NoTsServer` is
  only the case of a falsy `extension` field. The output channel,
  the command registrations and `denoInfo` are not modelled.

## Findings

| source | as written | input that shows it | evidently intended | confidence | as-written member | corrected member |
|---|---|---|---|---|---|---|
| client/src/extension.ts:93-95 | the URI is deleted from `docSet` only after `await next(...)` resolves; there is no `finally` (src/extension.ts:125-127 is the same) | a definition request whose `next` rejects, followed by any later definition request for the same document | release the URI on every exit path, so a failed request does not lock the document out | medium; not executed | Dedup.LockoutAfterRejection | Dedup.NoLockoutWhenReleasing |
| src/commands.ts:137-139 | `--unstable` is appended when `config.has("unstable")` | `deno.unstable` set to `false`: the test runs with `--unstable` | append `--unstable` only when `unstable` is true | medium; not executed | Commands.UnstableFalseStillPassed | Commands.BuildTestArgsByValue |
