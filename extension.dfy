/** The session bridge of src/extension.ts: the settings payload, the
    `deno:` virtual-document URI normaliser, the `provideDefinition`
    middleware with its asset-URI restoring, the server-version gate, the
    registry-trust handler, configuration changes and activation. */
module Extension {
  import opened Text
  import opened SemVer
  import opened Configuration
  import opened Dedup

  // ---------------------------------------------------------------------
  // Settings

  /** `settingsKeys`: the keys sent as initialization options. */
  const SettingsKeys: seq<string> :=
    ["cache", "codeLens", "config", "enable", "importMap", "internalDebug", "lint", "suggest", "unstable"]

  /** `getSettings()` over the extension's nine keys: exactly those keys and
      none of the other `Settings` members (`cacheOnSave`, `inlayHints`,
      `path`), or a failed assertion when `inspect` yields nothing. */
  method GetExtensionSettings(config: WorkspaceConfiguration) returns (r: SettingsResult)
    ensures r.Projected? <==> forall k :: k in SettingsKeys ==> k in config.inspections
    ensures r.Projected? ==> r.settings.Keys == {"cache", "codeLens", "config", "enable", "importMap", "internalDebug", "lint", "suggest", "unstable"}
    ensures r.Projected? ==> "cacheOnSave" !in r.settings && "inlayHints" !in r.settings && "path" !in r.settings
    ensures r.Projected? ==> forall k :: k in r.settings ==> r.settings[k] == Resolve(config.inspections[k])
  {
    r := GetSettings(SettingsKeys, config);
    SettingsKeySet();
  }

  lemma SettingsKeySet()
    ensures (set k | k in SettingsKeys) == {"cache", "codeLens", "config", "enable", "importMap", "internalDebug", "lint", "suggest", "unstable"}
    ensures "cacheOnSave" !in SettingsKeys && "inlayHints" !in SettingsKeys && "path" !in SettingsKeys
  {
    var s := set k | k in SettingsKeys;
    assert forall k :: k in s <==> k in SettingsKeys;
  }

  // ---------------------------------------------------------------------
  // Virtual documents

  const FileScheme := "file:"
  const LegacyAsset := "deno:/asset"
  const FlatAsset := "deno:asset"

  /** The file-URI undoing for vim's patch 8.2.3468: the first
      `file://<cwd>/` is removed, then the first `%3A` is decoded. */
  function LocalFileForm(uri: string, cwd: string): string {
    ReplaceFirst(ReplaceFirst(uri, "file://" + cwd + "/", ""), "%3A", ":")
  }

  /** Asset rewrite for servers from 1.16.0 on: the first `deno:/asset`
      becomes `deno:asset`. */
  function Flatten(uri: string): string {
    ReplaceFirst(uri, LegacyAsset, FlatAsset)
  }

  /** Asset rewrite for older servers, on file-URI origins only. */
  function LegacyDirectory(uri: string): string {
    ReplaceFirst(uri, LegacyAsset, LegacyAsset + "/")
  }

  /** `provideTextDocumentContent`: the URI sent in the `virtualTextDocument`
      request for the URI the editor hands over. The asset rewrite is chosen
      by the negotiated version: none at all while the version is invalid or
      empty, the flattened form from 1.16.0 on, and below that the trailing
      separator only for file-URI origins. */
  function ContentRequestUri(uri: string, cwd: string, serverVersion: string): (res: string)
    ensures var base := if StartsWith(uri, FileScheme) then LocalFileForm(uri, cwd) else uri;
            && (!Valid(serverVersion) ==> res == base)
            && (Satisfies(serverVersion, ServerSemver16) ==> res == Flatten(base))
            && (Valid(serverVersion) && !Satisfies(serverVersion, ServerSemver16) ==>
                  res == if StartsWith(uri, FileScheme) then LegacyDirectory(base) else uri)
  {
    var patched := StartsWith(uri, FileScheme);
    var res := if patched then LocalFileForm(uri, cwd) else uri;
    if Valid(serverVersion) then
      if Satisfies(serverVersion, ServerSemver16) then Flatten(res)
      else if patched then LegacyDirectory(res)
      else res
    else res
  }

  /** The inverse rewrite the definition middleware applies to a link target. */
  function RestoreAssetUri(targetUri: string): string {
    if StartsWith(targetUri, FlatAsset) then ReplaceFirst(targetUri, FlatAsset, LegacyAsset) else targetUri
  }

  /** Restoring undoes flattening: every `deno:/asset…` URI comes back. */
  lemma RestoreAfterFlatten(u: string)
    requires StartsWith(u, LegacyAsset)
    ensures StartsWith(Flatten(u), FlatAsset)
    ensures RestoreAssetUri(Flatten(u)) == u
  {
    ReplaceFirstOfPrefix(u, LegacyAsset, FlatAsset);
    var f := Flatten(u);
    assert f == FlatAsset + u[|LegacyAsset|..];
    assert f[..|FlatAsset|] == FlatAsset;
    ReplaceFirstOfPrefix(f, FlatAsset, LegacyAsset);
    assert f[|FlatAsset|..] == u[|LegacyAsset|..];
    assert u == LegacyAsset + u[|LegacyAsset|..];
  }

  /** Flattening undoes restoring: every `deno:asset…` URI comes back. */
  lemma FlattenAfterRestore(t: string)
    requires StartsWith(t, FlatAsset)
    ensures StartsWith(RestoreAssetUri(t), LegacyAsset)
    ensures Flatten(RestoreAssetUri(t)) == t
  {
    ReplaceFirstOfPrefix(t, FlatAsset, LegacyAsset);
    var u := RestoreAssetUri(t);
    assert u == LegacyAsset + t[|FlatAsset|..];
    assert u[..|LegacyAsset|] == LegacyAsset;
    ReplaceFirstOfPrefix(u, LegacyAsset, FlatAsset);
    assert u[|LegacyAsset|..] == t[|FlatAsset|..];
    assert t == FlatAsset + t[|FlatAsset|..];
  }

  /** A `deno:` URI the editor passes as is: with a server from 1.16.0 on the
      request names the flattened asset, and restoring the definition target
      the server returns for it gives the editor's URI back. */
  lemma AssetRoundTrip(u: string, cwd: string, serverVersion: string)
    requires StartsWith(u, LegacyAsset)
    requires Satisfies(serverVersion, ServerSemver16)
    ensures ContentRequestUri(u, cwd, serverVersion) == Flatten(u)
    ensures RestoreAssetUri(ContentRequestUri(u, cwd, serverVersion)) == u
  {
    assert u[0] == 'd';
    assert !StartsWith(u, FileScheme);
    RestoreAfterFlatten(u);
  }

  /** The two concrete cases: against 1.16.0 `deno:/asset/lib.d.ts` is
      requested as `deno:asset/lib.d.ts`, against 1.9.0 it is sent unchanged. */
  lemma AssetRequestExamples(cwd: string)
    ensures ContentRequestUri("deno:/asset/lib.d.ts", cwd, "1.16.0") == "deno:asset/lib.d.ts"
    ensures ContentRequestUri("deno:/asset/lib.d.ts", cwd, "1.9.0") == "deno:/asset/lib.d.ts"
  {
    ModernExample(cwd);
    LegacyExample(cwd);
  }

  lemma ModernExample(cwd: string)
    ensures ContentRequestUri("deno:/asset/lib.d.ts", cwd, "1.16.0") == "deno:asset/lib.d.ts"
  {
    LibAssetUri();
    KnownVersions();
    AssetRoundTrip("deno:/asset/lib.d.ts", cwd, "1.16.0");
  }

  lemma LegacyExample(cwd: string)
    ensures ContentRequestUri("deno:/asset/lib.d.ts", cwd, "1.9.0") == "deno:/asset/lib.d.ts"
  {
    LibAssetUri();
    KnownVersions();
    NonFileUriUntouched("deno:/asset/lib.d.ts", cwd, "1.9.0");
  }

  /** The shape of the example URI `deno:/asset/lib.d.ts`. */
  lemma LibAssetUri()
    ensures StartsWith("deno:/asset/lib.d.ts", LegacyAsset)
    ensures !StartsWith("deno:/asset/lib.d.ts", FileScheme)
    ensures Flatten("deno:/asset/lib.d.ts") == "deno:asset/lib.d.ts"
  {
    var u := "deno:/asset/lib.d.ts";
    assert u[..|LegacyAsset|] == LegacyAsset;
    assert u[0] != FileScheme[0];
    ReplaceFirstOfPrefix(u, LegacyAsset, FlatAsset);
    assert u[|LegacyAsset|..] == "/lib.d.ts";
  }

  lemma KnownVersions()
    ensures Satisfies("1.16.0", ServerSemver16)
    ensures Valid("1.9.0") && !Satisfies("1.9.0", ServerSemver16) && Satisfies("1.9.0", ServerSemver)
  {
    assert NatToDigits(16) == "16";
    assert Format(Version(1, 16, 0)) == "1.16.0";
    assert Format(Version(1, 9, 0)) == "1.9.0";
    ParseFormat(Version(1, 16, 0));
    ParseFormat(Version(1, 9, 0));
  }

  /** A URI that does not start with `file:` reaches the asset step untouched,
      and with an invalid or empty version it is sent exactly as given. */
  lemma NonFileUriUntouched(uri: string, cwd: string, serverVersion: string)
    requires !StartsWith(uri, FileScheme)
    ensures !Valid(serverVersion) ==> ContentRequestUri(uri, cwd, serverVersion) == uri
    ensures Valid(serverVersion) && !Satisfies(serverVersion, ServerSemver16) ==>
              ContentRequestUri(uri, cwd, serverVersion) == uri
  {
  }

  /** The file URI vim hands over for the document `deno:<rest>` opened
      below the working directory `cwd` (the colon percent-encoded). */
  function VimFileUri(cwd: string, rest: string): string {
    "file://" + cwd + "/" + "deno%3A" + rest
  }

  /** Stripping the prefix and decoding the first `%3A` gives the `deno:`
      URI back. */
  lemma LocalFileFormDecodes(cwd: string, rest: string)
    ensures StartsWith(VimFileUri(cwd, rest), FileScheme)
    ensures LocalFileForm(VimFileUri(cwd, rest), cwd) == "deno:" + rest
  {
    StripCwdPrefix(cwd, rest);
    DecodeColon(rest);
  }

  lemma StripCwdPrefix(cwd: string, rest: string)
    ensures StartsWith(VimFileUri(cwd, rest), FileScheme)
    ensures ReplaceFirst(VimFileUri(cwd, rest), "file://" + cwd + "/", "") == "deno%3A" + rest
  {
    var prefix := "file://" + cwd + "/";
    var u := VimFileUri(cwd, rest);
    assert u == prefix + ("deno%3A" + rest);
    assert u[..5] == prefix[..5] == FileScheme;
    assert u[..|prefix|] == prefix;
    ReplaceFirstOfPrefix(u, prefix, "");
    assert u[|prefix|..] == "deno%3A" + rest;
  }

  lemma DecodeColon(rest: string)
    ensures ReplaceFirst("deno%3A" + rest, "%3A", ":") == "deno:" + rest
  {
    assert "deno%3A" + rest == "deno" + ("%3A" + rest);
    ReplaceFirstAfterFree("deno", "%3A" + rest, "%3A", ":");
    assert ("%3A" + rest)[3..] == rest;
  }

  lemma AssetRewritesOfDenoUri(rest: string)
    requires StartsWith(rest, "/asset")
    ensures Flatten("deno:" + rest) == FlatAsset + rest[6..]
    ensures LegacyDirectory("deno:" + rest) == LegacyAsset + "/" + rest[6..]
  {
    var b := "deno:" + rest;
    assert b[..|LegacyAsset|] == LegacyAsset;
    assert b[|LegacyAsset|..] == rest[6..];
    ReplaceFirstOfPrefix(b, LegacyAsset, FlatAsset);
    ReplaceFirstOfPrefix(b, LegacyAsset, LegacyAsset + "/");
  }

  /** The same document through the whole normaliser: a server from 1.16.0 on
      is asked for the flattened asset, an older valid server for the asset
      with a separator added after the marker. */
  lemma LocalAssetRequest(cwd: string, rest: string, serverVersion: string)
    requires StartsWith(rest, "/asset")
    ensures Satisfies(serverVersion, ServerSemver16) ==>
              ContentRequestUri(VimFileUri(cwd, rest), cwd, serverVersion) == FlatAsset + rest[6..]
    ensures Valid(serverVersion) && !Satisfies(serverVersion, ServerSemver16) ==>
              ContentRequestUri(VimFileUri(cwd, rest), cwd, serverVersion) == LegacyAsset + "/" + rest[6..]
  {
    LocalFileFormDecodes(cwd, rest);
    AssetRewritesOfDenoUri(rest);
  }

  // ---------------------------------------------------------------------
  // Definition results

  datatype Position = Position(line: nat, character: nat)
  datatype Range = Range(start: Position, end: Position)

  /** An entry of a definition result: a `Location` or a `LocationLink`. */
  datatype DefinitionItem =
    | Location(uri: string, range: Range)
    | LocationLink(targetUri: string, targetRange: Range, targetSelectionRange: Range)

  /** What `next` resolves to: nothing, a single location, or an array. */
  datatype Definition = NoDefinition | Single(item: DefinitionItem) | Items(items: seq<DefinitionItem>)

  /** One entry after the middleware's rewrite: a link to a flattened asset
      gets the `deno:/asset` form back; everything else is left alone. */
  function RestoreItem(d: DefinitionItem): (r: DefinitionItem)
    ensures d.Location? ==> r == d
    ensures d.LocationLink? ==>
              (r.LocationLink? && r.targetRange == d.targetRange
               && r.targetSelectionRange == d.targetSelectionRange
               && r.targetUri == RestoreAssetUri(d.targetUri))
  {
    if d.LocationLink? && StartsWith(d.targetUri, FlatAsset) then
      d.(targetUri := ReplaceFirst(d.targetUri, FlatAsset, LegacyAsset))
    else d
  }

  /** `def.map((d) => { … d.targetUri = … })`: rewrites the array's links in
      place, entry by entry. */
  method RestoreAssetTargets(defs: array<DefinitionItem>)
    modifies defs
    ensures forall i :: 0 <= i < defs.Length ==> defs[i] == RestoreItem(old(defs[i]))
  {
    var i := 0;
    while i < defs.Length
      invariant 0 <= i <= defs.Length
      invariant forall k :: 0 <= k < i ==> defs[k] == RestoreItem(old(defs[k]))
      invariant forall k :: i <= k < defs.Length ==> defs[k] == old(defs[k])
    {
      var d := defs[i];
      if d.LocationLink? && StartsWith(d.targetUri, FlatAsset) {
        defs[i] := d.(targetUri := ReplaceFirst(d.targetUri, FlatAsset, LegacyAsset));
      }
      i := i + 1;
    }
  }

  /** `after` is `before` with every entry restored. */
  ghost predicate RestoredFrom(before: seq<DefinitionItem>, after: seq<DefinitionItem>) {
    |after| == |before| && forall i :: 0 <= i < |before| ==> after[i] == RestoreItem(before[i])
  }

  /** The middleware of src/extension.ts: the in-flight guard around `next`,
      then, when the negotiated version satisfies `>=1.16.0` and the result is
      an array, the restoring of flattened asset targets. As in the source,
      there is no `finally`: a rejected `next` leaves the URI in the set. */
  method ProvideDefinition(mw: DefinitionMiddleware, serverVersion: string, uri: string, next: Settled<Definition>)
    returns (forwarded: bool, reply: Reply<Definition>)
    modifies mw
    ensures forwarded == (uri !in old(mw.docSet))
    ensures !forwarded ==> reply == Returned(None) && mw.docSet == old(mw.docSet)
    ensures forwarded && next.Rejects? ==> reply == Rejected && mw.docSet == old(mw.docSet) + {uri}
    ensures forwarded && next.Resolves? ==> mw.docSet == old(mw.docSet) && reply.Returned? && reply.result.Some?
    ensures forwarded && next.Resolves? && next.value.Items? && Satisfies(serverVersion, ServerSemver16) ==>
              reply.result.value.Items? && RestoredFrom(next.value.items, reply.result.value.items)
    ensures forwarded && next.Resolves? && !(next.value.Items? && Satisfies(serverVersion, ServerSemver16)) ==>
              reply.result.value == next.value
  {
    forwarded, reply := mw.ProvideDefinition(uri, next);
    if reply.Returned? && reply.result.Some? && Satisfies(serverVersion, ServerSemver16) {
      var def := reply.result.value;
      if def.Items? {
        var s := def.items;
        var a := new DefinitionItem[|s|](i requires 0 <= i < |s| => s[i]);
        RestoreAssetTargets(a);
        reply := Returned(Some(Items(a[..])));
      }
    }
  }

  /** Restoring twice is restoring once: a restored target no longer starts
      with `deno:asset`, so an entry shared by two array slots is rewritten
      the same whether it is visited once or twice. */
  lemma RestoreItemIdempotent(d: DefinitionItem)
    ensures RestoreItem(RestoreItem(d)) == RestoreItem(d)
  {
    if d.LocationLink? && StartsWith(d.targetUri, FlatAsset) {
      ReplaceFirstOfPrefix(d.targetUri, FlatAsset, LegacyAsset);
      var t := RestoreItem(d).targetUri;
      assert t[5] == '/';
    }
  }

  /** A link the server returns for a document it was asked for in flattened
      form comes back to the editor under the URI the editor used. */
  lemma RestoreItemUndoesFlatten(u: string, targetRange: Range, selection: Range)
    requires StartsWith(u, LegacyAsset)
    ensures RestoreItem(LocationLink(Flatten(u), targetRange, selection)) == LocationLink(u, targetRange, selection)
  {
    RestoreAfterFlatten(u);
  }

  // ---------------------------------------------------------------------
  // Server version

  /** `(serverInfo?.version ?? "").split(" ")[0]`: the leading token of the
      reported version, or `""`. */
  function ServerVersionToken(reported: Option<string>): (v: string)
    ensures ' ' !in v
    ensures reported.None? ==> v == ""
    ensures reported.Some? ==>
              (StartsWith(reported.value, v) && (|v| == |reported.value| || reported.value[|v|] == ' '))
  {
    var s := match reported case None => "" case Some(r) => r;
    FirstPiece(s, ' ');
    Split(s, ' ')[0]
  }

  function UpgradeWarning(serverVersion: string): string {
    "The version of Deno (\"" + serverVersion
    + "\") does not meet the requirements of version (\">=1.9.0\"), please upgrade Deno."
  }

  /** The module-level `serverVersion` that the content provider and the
      definition middleware read; it is `""` until the server is ready. */
  class ServerState {
    var serverVersion: string

    constructor ()
      ensures serverVersion == ""
    {
      serverVersion := "";
    }

    /** After `client.onReady()`: records the version token, shows the status
        bar iff the token is non-empty, and warns iff the token is a valid
        version below 1.9.0. */
    method OnReady(reported: Option<string>) returns (statusText: Option<string>, warning: Option<string>)
      modifies this
      ensures serverVersion == ServerVersionToken(reported)
      ensures statusText == if serverVersion != "" then Some("Deno " + serverVersion) else None
      ensures warning.Some? <==> Valid(serverVersion) && !Satisfies(serverVersion, ServerSemver)
      ensures warning.Some? ==> warning.value == UpgradeWarning(serverVersion)
    {
      serverVersion := ServerVersionToken(reported);
      statusText := if serverVersion != "" then Some("Deno " + serverVersion) else None;
      warning := None;
      if Valid(serverVersion) && !Satisfies(serverVersion, ServerSemver) {
        warning := Some(UpgradeWarning(serverVersion));
      }
    }
  }

  /** A server reporting `MAJOR.MINOR.PATCH`, possibly followed by a space and
      build details: the token is the version itself, and the warning is due
      exactly when it is below 1.9.0. */
  lemma {:induction false} WarningIffBelowRequired(v: Version, details: string)
    requires v.major <= MaxSafeInteger && v.minor <= MaxSafeInteger && v.patch <= MaxSafeInteger
    requires details == "" || details[0] == ' '
    ensures ServerVersionToken(Some(Format(v) + details)) == Format(v)
    ensures Valid(Format(v))
    ensures !Satisfies(Format(v), ServerSemver) <==> Below(v, ServerSemver)
  {
    var f := Format(v);
    var parts := [NatToDigits(v.major), NatToDigits(v.minor), NatToDigits(v.patch)];
    JoinAvoids(parts, ".", ' ');
    if details == "" {
      assert f + details == f;
    } else {
      assert f + details == f + [' '] + details[1..];
      SplitFirstPiece(f, details[1..], ' ');
    }
    ParseFormat(v);
  }

  /** An empty or absent version draws neither status bar nor warning. */
  lemma NoVersionNoWarning()
    ensures ServerVersionToken(None) == ""
    ensures !Valid("")
  {
    assert Split("", '.') == [""];
  }

  // ---------------------------------------------------------------------
  // Registry trust

  /** `RegistryStateParams`. */
  datatype RegistryStateParams = RegistryStateParams(origin: string, suggestions: bool)

  /** `selection === "Enable"`: every other answer, and a dismissed prompt,
      is a refusal. */
  predicate Trusted(selection: Option<string>) {
    selection == Some("Enable")
  }

  /** `hosts[p.origin] = enable`: only the origin's entry changes. */
  function MergeTrust(hosts: map<string, bool>, origin: string, selection: Option<string>): (r: map<string, bool>)
    ensures r.Keys == hosts.Keys + {origin}
    ensures r[origin] == (selection == Some("Enable"))
    ensures forall o :: o in hosts && o != origin ==> r[o] == hosts[o]
  {
    hosts[origin := Trusted(selection)]
  }

  /** Answers for distinct origins do not interfere: applied in either order
      they give the same mapping. */
  lemma MergeTrustCommutes(hosts: map<string, bool>, o1: string, s1: Option<string>, o2: string, s2: Option<string>)
    requires o1 != o2
    ensures MergeTrust(MergeTrust(hosts, o1, s1), o2, s2) == MergeTrust(MergeTrust(hosts, o2, s2), o1, s1)
  {
  }

  /** A second answer for the same origin replaces the first. */
  lemma MergeTrustLastWins(hosts: map<string, bool>, o: string, s1: Option<string>, s2: Option<string>)
    ensures MergeTrust(MergeTrust(hosts, o, s1), o, s2) == MergeTrust(hosts, o, s2)
  {
  }

  /** The `deno.suggest.imports.hosts` setting; `None` when it was never set. */
  class HostsSetting {
    var stored: Option<map<string, bool>>

    constructor (initial: Option<map<string, bool>>)
      ensures stored == initial
    {
      stored := initial;
    }

    /** The `deno/registryState` notification handler: with `suggestions`
        false nothing is prompted or written; otherwise the answer to the
        prompt is merged into the current hosts (`{}` when unset) and the
        whole mapping is written back. */
    method HandleRegistryState(p: RegistryStateParams, selection: Option<string>) returns (prompted: bool)
      modifies this
      ensures prompted == p.suggestions
      ensures !p.suggestions ==> stored == old(stored)
      ensures p.suggestions ==>
                (stored.Some?
                 && stored.value == MergeTrust(if old(stored).Some? then old(stored).value else map[], p.origin, selection))
    {
      prompted := p.suggestions;
      if p.suggestions {
        var hosts := if stored.Some? then stored.value else map[];
        hosts := hosts[p.origin := Trusted(selection)];
        stored := Some(hosts);
      }
    }
  }

  // ---------------------------------------------------------------------
  // Configuration changes and activation

  /** What the bridge sends or runs in answer to an event. */
  datatype Effect =
    | DidChangeConfigurationNull          // `workspace/didChangeConfiguration` with `{settings: null}`
    | ExecuteCommand(command: string)
    | ConfigurePlugin(pluginId: string)

  /** `onDidChangeConfiguration`: a change under `deno` sends the value-less
      signal and then runs `deno.restart`; any other change does nothing. */
  function OnDidChangeConfiguration(affectsDeno: bool): (effects: seq<Effect>)
    ensures !affectsDeno <==> effects == []
    ensures affectsDeno ==> effects[0] == DidChangeConfigurationNull && effects[1..] == [ExecuteCommand("deno.restart")]
  {
    if affectsDeno then [DidChangeConfigurationNull, ExecuteCommand("deno.restart")] else []
  }

  datatype ActivationPath =
    | InitializeOnly    // registers `deno.initializeWorkspace` and returns
    | TryActivate       // starts the language client

  /** `activate`: `deno.enable` read with default `false`; a falsy value
      only registers the initialize command. */
  function Activate(enable: Option<Json>): (path: ActivationPath)
    ensures enable.None? ==> path == InitializeOnly
    ensures enable == Some(JBool(true)) ==> path == TryActivate
    ensures path == TryActivate <==> Truthy(enable)
  {
    if Truthy(Get(WorkspaceConfiguration(map[], if enable.Some? then map["enable" := enable.value] else map[]), "enable", Some(JBool(false))))
    then TryActivate
    else InitializeOnly
  }
}
