/** The coc extension of src/index.ts that feeds the TypeScript server
    plugin: the user-set-only configuration it synchronises, the `deno cache`
    code action, and the guards of `activate`. */
module TsPlugin {
  import opened Text
  import opened Configuration

  /** The configuration keys pushed to the plugin, in the order
      `getConfiguration` visits them. */
  const PluginKeys: seq<string> := ["enable", "alwaysShowStatus", "autoFmtOnSave", "importmap", "tsconfig", "unstable"]

  /** The object `outConfig` that `withConfigValue` writes into. */
  class SynchronizedConfiguration {
    var entries: map<string, Json>

    constructor ()
      ensures entries == map[]
    {
      entries := map[];
    }
  }

  /** What `withConfigValue` copies for `key`, if anything: nothing when
      `inspect` yields nothing, nothing when neither the global nor the
      workspace layer is set (a default alone is not copied), and otherwise
      `config.get(key)` when it is defined. `null` is defined. */
  function UserValue(config: WorkspaceConfiguration, key: string): (v: Option<Json>)
    ensures v.Some? <==>
              (key in config.inspections
               && (config.inspections[key].globalValue.Some? || config.inspections[key].workspaceValue.Some?)
               && key in config.values)
    ensures v.Some? ==> v.value == config.values[key]
  {
    if key !in config.inspections then None
    else
      var setting := config.inspections[key];
      if setting.globalValue.None? && setting.workspaceValue.None? then None
      else Get(config, key, None)
  }

  /** `withConfigValue(config, outConfig, key)`: writes `key` when it has a
      user value and touches no other key. */
  method WithConfigValue(config: WorkspaceConfiguration, out: SynchronizedConfiguration, key: string)
    modifies out
    ensures UserValue(config, key).None? ==> out.entries == old(out.entries)
    ensures UserValue(config, key).Some? ==> out.entries == old(out.entries)[key := UserValue(config, key).value]
  {
    if key !in config.inspections {
      return;
    }
    var configSetting := config.inspections[key];
    if configSetting.globalValue.None? && configSetting.workspaceValue.None? {
      return;
    }
    var value := Get(config, key, None);
    if value.Some? {
      out.entries := out.entries[key := value.value];
    }
  }

  /** One `withConfigValue` step on a value. */
  function WithValue(acc: map<string, Json>, config: WorkspaceConfiguration, key: string): map<string, Json> {
    match UserValue(config, key)
    case None => acc
    case Some(v) => acc[key := v]
  }

  /** The object after visiting `keys` in order, starting from empty. */
  function Synchronize(config: WorkspaceConfiguration, keys: seq<string>): map<string, Json>
  {
    if keys == [] then map[]
    else WithValue(Synchronize(config, keys[..|keys| - 1]), config, keys[|keys| - 1])
  }

  /** `getConfiguration()`: a fresh object filled by six `withConfigValue`
      calls. */
  method GetConfiguration(config: WorkspaceConfiguration) returns (out: SynchronizedConfiguration)
    ensures fresh(out)
    ensures out.entries == Synchronize(config, PluginKeys)
  {
    out := new SynchronizedConfiguration();
    WithConfigValue(config, out, "enable");
    WithConfigValue(config, out, "alwaysShowStatus");
    WithConfigValue(config, out, "autoFmtOnSave");
    WithConfigValue(config, out, "importmap");
    WithConfigValue(config, out, "tsconfig");
    WithConfigValue(config, out, "unstable");
    SynchronizeSix(config);
  }

  lemma SynchronizeSix(config: WorkspaceConfiguration)
    ensures Synchronize(config, PluginKeys)
            == WithValue(WithValue(WithValue(WithValue(WithValue(WithValue(map[],
                 config, "enable"), config, "alwaysShowStatus"), config, "autoFmtOnSave"),
                 config, "importmap"), config, "tsconfig"), config, "unstable")
  {
    var k := PluginKeys;
    var m0: map<string, Json> := map[];
    var m1 := WithValue(m0, config, "enable");
    var m2 := WithValue(m1, config, "alwaysShowStatus");
    var m3 := WithValue(m2, config, "autoFmtOnSave");
    var m4 := WithValue(m3, config, "importmap");
    var m5 := WithValue(m4, config, "tsconfig");
    assert k[..1][..0] == [];
    assert Synchronize(config, k[..1]) == m1;
    assert k[..2][..1] == k[..1];
    assert Synchronize(config, k[..2]) == m2;
    assert k[..3][..2] == k[..2];
    assert Synchronize(config, k[..3]) == m3;
    assert k[..4][..3] == k[..3];
    assert Synchronize(config, k[..4]) == m4;
    assert k[..5][..4] == k[..4];
    assert Synchronize(config, k[..5]) == m5;
    assert k[..|k| - 1] == k[..5];
  }

  /** A key is in the synchronised object iff it was visited and has a user
      value, and then it holds that value. */
  lemma {:induction false} SynchronizeEntries(config: WorkspaceConfiguration, keys: seq<string>)
    ensures forall k :: k in Synchronize(config, keys) <==> k in keys && UserValue(config, k).Some?
    ensures forall k :: k in Synchronize(config, keys) ==> Synchronize(config, keys)[k] == UserValue(config, k).value
  {
    if keys != [] {
      var init := keys[..|keys| - 1];
      SynchronizeEntries(config, init);
      assert keys == init + [keys[|keys| - 1]];
    }
  }

  /** `getConfiguration`'s keys are among the six plugin keys, and each is
      present exactly when the user set it. */
  lemma GetConfigurationKeys(config: WorkspaceConfiguration)
    ensures Synchronize(config, PluginKeys).Keys
              <= {"enable", "alwaysShowStatus", "autoFmtOnSave", "importmap", "tsconfig", "unstable"}
    ensures forall k :: k in PluginKeys ==> (k in Synchronize(config, PluginKeys) <==> UserValue(config, k).Some?)
  {
    SynchronizeEntries(config, PluginKeys);
  }

  /** A key known only by its default is never pushed. */
  lemma DefaultsNotSynchronized(config: WorkspaceConfiguration, key: string)
    requires key in config.inspections
    requires config.inspections[key].globalValue.None? && config.inspections[key].workspaceValue.None?
    ensures key !in Synchronize(config, PluginKeys)
  {
    SynchronizeEntries(config, PluginKeys);
  }

  // ---------------------------------------------------------------------
  // The `deno cache` code action

  datatype Diagnostic = Diagnostic(message: string)
  datatype Command = Command(title: string, command: string, arguments: seq<string>)
  datatype CodeAction = CodeAction(title: string, command: Command)

  /** The action that runs `deno.cache` on the document. */
  function CacheAction(uri: string): CodeAction {
    CodeAction("Run 'deno cache' to fix importing error", Command("deno cache", "deno.cache", [uri]))
  }

  /** A diagnostic about a module from deno.land. */
  predicate AboutDenoLand(d: Diagnostic) {
    Contains(d.message, "https://deno.land")
  }

  /** The number of diagnostics about deno.land modules. */
  function DenoLandCount(diagnostics: seq<Diagnostic>): nat
  {
    if diagnostics == [] then 0
    else DenoLandCount(diagnostics[..|diagnostics| - 1])
         + if AboutDenoLand(diagnostics[|diagnostics| - 1]) then 1 else 0
  }

  /** `provideCodeActions`: one `deno.cache` action on the document per
      diagnostic that mentions `https://deno.land`. */
  method ProvideCodeActions(uri: string, diagnostics: seq<Diagnostic>) returns (actions: seq<CodeAction>)
    ensures |actions| == DenoLandCount(diagnostics)
    ensures forall a :: a in actions ==> a == CacheAction(uri)
  {
    actions := [];
    var i := 0;
    while i < |diagnostics|
      invariant 0 <= i <= |diagnostics|
      invariant |actions| == DenoLandCount(diagnostics[..i])
      invariant forall a :: a in actions ==> a == CacheAction(uri)
    {
      assert diagnostics[..i + 1][..i] == diagnostics[..i];
      if Contains(diagnostics[i].message, "https://deno.land") {
        actions := actions + [CacheAction(uri)];
      }
      i := i + 1;
    }
    assert diagnostics[..|diagnostics|] == diagnostics;
  }

  lemma {:induction false} DenoLandCountBound(diagnostics: seq<Diagnostic>)
    ensures DenoLandCount(diagnostics) <= |diagnostics|
  {
    if diagnostics != [] {
      DenoLandCountBound(diagnostics[..|diagnostics| - 1]);
    }
  }

  /** No action iff no diagnostic is about deno.land. */
  lemma {:induction false} DenoLandCountZero(diagnostics: seq<Diagnostic>)
    ensures DenoLandCount(diagnostics) == 0 <==> forall d :: d in diagnostics ==> !AboutDenoLand(d)
  {
    if diagnostics != [] {
      var init := diagnostics[..|diagnostics| - 1];
      var last := diagnostics[|diagnostics| - 1];
      DenoLandCountZero(init);
      assert diagnostics == init + [last];
      assert forall d :: d in diagnostics <==> d in init || d == last;
    }
  }

  /** One action per diagnostic iff every diagnostic is about deno.land. */
  lemma {:induction false} DenoLandCountAll(diagnostics: seq<Diagnostic>)
    ensures DenoLandCount(diagnostics) == |diagnostics| <==> forall d :: d in diagnostics ==> AboutDenoLand(d)
  {
    if diagnostics != [] {
      var init := diagnostics[..|diagnostics| - 1];
      var last := diagnostics[|diagnostics| - 1];
      DenoLandCountAll(init);
      DenoLandCountBound(init);
      assert diagnostics == init + [last];
      assert forall d :: d in diagnostics <==> d in init || d == last;
    }
  }

  /** The count over joined lists is the sum, so the actions for a batch are
      the actions for its parts. */
  lemma {:induction false} DenoLandCountAppend(a: seq<Diagnostic>, b: seq<Diagnostic>)
    ensures DenoLandCount(a + b) == DenoLandCount(a) + DenoLandCount(b)
    decreases |b|
  {
    if b != [] {
      var init := b[..|b| - 1];
      assert (a + b)[..|a + b| - 1] == a + init;
      DenoLandCountAppend(a, init);
    } else {
      assert a + b == a;
    }
  }

  // ---------------------------------------------------------------------
  // Synchronisation and activation

  /** `synchronizeConfiguration(api)`: nothing for a falsy `api`; otherwise
      the user-set configuration is pushed. */
  method SynchronizeConfiguration(api: Option<Json>, config: WorkspaceConfiguration) returns (pushed: Option<map<string, Json>>)
    ensures pushed.Some? <==> Truthy(api)
    ensures pushed.Some? ==> pushed.value == Synchronize(config, PluginKeys)
  {
    if !Truthy(api) {
      return None;
    }
    var out := GetConfiguration(config);
    pushed := Some(out.entries);
  }

  /** Where `activate` stops. */
  datatype Activation =
    | Disabled                                // `deno.enable` falsy
    | NoTsServer                              // the returned item's `extension` is falsy
    | NoApi                                   // its exports are falsy
    | Registered(pushed: map<string, Json>)   // listener, commands and code actions registered

  /** `activate`: `deno.enable` is read with default `true`; it returns
      before any registration when that is falsy, when coc-tsserver is
      missing or when its exports are falsy; otherwise it synchronises once. */
  method Activate(config: WorkspaceConfiguration, tsserverFound: bool, exports: Option<Json>) returns (r: Activation)
    ensures r == Disabled <==> ("enable" in config.values && !Truthy(Some(config.values["enable"])))
    ensures r == NoTsServer <==> !r.Disabled? && !tsserverFound
    ensures r == NoApi <==> !r.Disabled? && tsserverFound && !Truthy(exports)
    ensures r.Registered? ==> r.pushed == Synchronize(config, PluginKeys)
  {
    var enabled := Get(config, "enable", Some(JBool(true)));
    if !Truthy(enabled) {
      return Disabled;
    }
    if !tsserverFound {
      return NoTsServer;
    }
    if !Truthy(exports) {
      return NoApi;
    }
    var pushed := SynchronizeConfiguration(exports, config);
    r := Registered(pushed.value);
  }

  /** The registered listener: a change under `deno` pushes the user-set
      configuration again through the truthy `api` held since activation. */
  method OnDidChangeConfiguration(affectsDeno: bool, api: Json, config: WorkspaceConfiguration) returns (pushed: Option<map<string, Json>>)
    requires Truthy(Some(api))
    ensures pushed.Some? <==> affectsDeno
    ensures pushed.Some? ==> pushed.value == Synchronize(config, PluginKeys)
  {
    pushed := None;
    if affectsDeno {
      pushed := SynchronizeConfiguration(Some(api), config);
    }
  }
}
