/** The second-generation client of client/src/extension.ts: its settings
    payload over six keys, pushing that payload to the TypeScript server
    plugin, configuration changes, the server executable and the status bar.
    Its definition middleware is `Dedup.DefinitionMiddleware.ProvideDefinition`
    unchanged: this client does not rewrite definition results. */
module ClientExtension {
  import opened Text
  import opened Configuration
  import Extension

  /** `settingsKeys` of this client. */
  const ClientSettingsKeys: seq<string> := ["codeLens", "config", "enable", "importMap", "lint", "unstable"]

  lemma ClientSettingsKeySet()
    ensures (set k | k in ClientSettingsKeys) == {"codeLens", "config", "enable", "importMap", "lint", "unstable"}
    ensures "cache" !in ClientSettingsKeys && "internalDebug" !in ClientSettingsKeys && "suggest" !in ClientSettingsKeys
  {
    var s := set k | k in ClientSettingsKeys;
    assert forall k :: k in s <==> k in ClientSettingsKeys;
  }

  /** `getSettings()` of this client: exactly its six keys, each resolved
      workspace over global over default, or a failed assertion. */
  method GetClientSettings(config: WorkspaceConfiguration) returns (r: SettingsResult)
    ensures r.Projected? <==> forall k :: k in ClientSettingsKeys ==> k in config.inspections
    ensures r.Projected? ==> r.settings.Keys == {"codeLens", "config", "enable", "importMap", "lint", "unstable"}
    ensures r.Projected? ==> "cache" !in r.settings && "internalDebug" !in r.settings && "suggest" !in r.settings
    ensures r.Projected? ==> forall k :: k in r.settings ==> r.settings[k] == Resolve(config.inspections[k])
  {
    r := GetSettings(ClientSettingsKeys, config);
    ClientSettingsKeySet();
  }

  /** The outcome of `synchronizeConfiguration(api)`. */
  datatype Sync =
    | Skipped                        // `api` is null or undefined
    | Configured(settings: Settings) // `configurePlugin` called with the payload
    | Threw                          // `getSettings()` failed its assertion

  /** `api?.configurePlugin(EXTENSION_TS_PLUGIN, getSettings())`: optional
      chaining skips the call, and the evaluation of its arguments, when the
      plugin API is nullish (`apiPresent` false); otherwise the payload is
      built and pushed. */
  ghost predicate SyncOf(apiPresent: bool, config: WorkspaceConfiguration, s: Sync) {
    && (!apiPresent <==> s.Skipped?)
    && (apiPresent ==> (s.Threw? <==> exists k :: k in ClientSettingsKeys && k !in config.inspections))
    && (s.Configured? ==>
          s.settings.Keys == {"codeLens", "config", "enable", "importMap", "lint", "unstable"}
          && forall k :: k in s.settings ==> s.settings[k] == Resolve(config.inspections[k]))
  }

  method SynchronizeConfiguration(apiPresent: bool, config: WorkspaceConfiguration) returns (s: Sync)
    ensures SyncOf(apiPresent, config, s)
  {
    if !apiPresent {
      return Skipped;
    }
    var r := GetClientSettings(config);
    s := if r.Projected? then Configured(r.settings) else Threw;
  }

  /** `onDidChangeConfiguration`: a change under `deno` sends
      `workspace/didChangeConfiguration` with `{settings: null}` and, when the
      TypeScript extension was found at activation, re-synchronises the
      plugin; it never restarts the server. Other changes do nothing. */
  method OnDidChangeConfiguration(affectsDeno: bool, tsserverFound: bool, apiPresent: bool, config: WorkspaceConfiguration)
    returns (notified: bool, sync: Sync)
    ensures notified == affectsDeno
    ensures !(affectsDeno && tsserverFound) ==> sync == Skipped
    ensures affectsDeno && tsserverFound ==> SyncOf(apiPresent, config, sync)
  {
    notified := false;
    sync := Skipped;
    if affectsDeno {
      notified := true;
      if tsserverFound {
        sync := SynchronizeConfiguration(apiPresent, config);
      }
    }
  }

  /** The language server's executable: `deno.path` (default `deno`) run
      with the single argument `lsp` and `NO_COLOR` set. */
  datatype Executable = Executable(command: Option<Json>, args: seq<string>, noColor: bool)

  function ServerExecutable(config: WorkspaceConfiguration): (e: Executable)
    ensures e.args == ["lsp"] && e.noColor
    ensures "path" !in config.values ==> e.command == Some(JStr("deno"))
    ensures "path" in config.values ==> e.command == Some(config.values["path"])
  {
    Executable(Get(config, "path", Some(JStr("deno"))), ["lsp"], true)
  }

  /** After `client.onReady()`: the status bar shows `Deno <token>` iff the
      version token is non-empty. This client has no version gate, so there
      is no warning whatever the version. */
  function StatusText(reported: Option<string>): (text: Option<string>)
    ensures text.Some? <==> Extension.ServerVersionToken(reported) != ""
    ensures text.Some? ==> text.value == "Deno " + Extension.ServerVersionToken(reported)
    ensures text.Some? ==> ' ' !in text.value[5..]
  {
    var v := Extension.ServerVersionToken(reported);
    if v != "" then Some("Deno " + v) else None
  }
}
