/** The editor's configuration store as the bridge sees it, and the settings
    projection `getSettings` that src/extension.ts and client/src/extension.ts
    both perform over their own key lists. */
module Configuration {
  import opened Text

  /** A JSON value read from configuration. JavaScript's `undefined` is the
      absence of a value (`Option.None`), distinct from `null`. */
  datatype Json =
    | JNull
    | JBool(b: bool)
    | JNum(n: int)
    | JStr(s: string)
    | JArr(items: seq<Json>)
    | JObj(fields: map<string, Json>)

  /** The answer of `config.inspect(key)`: the value at each layer. */
  datatype Inspection = Inspection(
    defaultValue: Option<Json>,
    globalValue: Option<Json>,
    workspaceValue: Option<Json>)

  /** One configuration section: `inspect` answers per key (a missing key
      yields nothing) and the effective values `get`/`has` read. */
  datatype WorkspaceConfiguration = WorkspaceConfiguration(
    inspections: map<string, Inspection>,
    values: map<string, Json>)

  /** `config.get(key, fallback)`: the fallback stands in for `undefined` only. */
  function Get(config: WorkspaceConfiguration, key: string, fallback: Option<Json>): (r: Option<Json>)
    ensures key in config.values ==> r == Some(config.values[key])
    ensures key !in config.values ==> r == fallback
  {
    if key in config.values then Some(config.values[key]) else fallback
  }

  /** `config.has(key)`. */
  predicate Has(config: WorkspaceConfiguration, key: string) {
    key in config.values
  }

  /** `null` or `undefined`: the values `??` passes over. */
  predicate Nullish(v: Option<Json>) {
    v.None? || v.value.JNull?
  }

  /** JavaScript truthiness of a value. */
  predicate Truthy(v: Option<Json>) {
    match v
    case None => false
    case Some(j) =>
      match j
      case JNull => false
      case JBool(b) => b
      case JNum(n) => n != 0
      case JStr(s) => s != ""
      case JArr(_) => true
      case JObj(_) => true
  }

  /** `a ?? b`. */
  function Coalesce(a: Option<Json>, b: Option<Json>): Option<Json> {
    if Nullish(a) then b else a
  }

  /** `value.workspaceValue ?? value.globalValue ?? value.defaultValue`:
      the first layer holding neither `null` nor `undefined` wins, with the
      default as the last resort whatever it holds. */
  function Resolve(i: Inspection): (r: Option<Json>)
    ensures !Nullish(i.workspaceValue) ==> r == i.workspaceValue
    ensures Nullish(i.workspaceValue) && !Nullish(i.globalValue) ==> r == i.globalValue
    ensures Nullish(i.workspaceValue) && Nullish(i.globalValue) ==> r == i.defaultValue
  {
    Coalesce(Coalesce(i.workspaceValue, i.globalValue), i.defaultValue)
  }

  /** `false` (and every other non-nullish value) does not fall through. */
  lemma FalseDoesNotFallThrough(i: Inspection)
    requires i.workspaceValue == Some(JBool(false))
    ensures Resolve(i) == Some(JBool(false))
  {
  }

  /** The settings payload: one entry per listed key. */
  type Settings = map<string, Option<Json>>

  datatype SettingsResult = Projected(settings: Settings) | AssertionFailed

  /** `getSettings()`: fills `result` key by key; the `assert(value)` throws
      as soon as `inspect` yields nothing for a listed key. */
  method GetSettings(keys: seq<string>, config: WorkspaceConfiguration) returns (r: SettingsResult)
    ensures r.Projected? <==> forall k :: k in keys ==> k in config.inspections
    ensures r.Projected? ==> r.settings.Keys == set k | k in keys
    ensures r.Projected? ==> forall k :: k in r.settings ==> r.settings[k] == Resolve(config.inspections[k])
  {
    var result: Settings := map[];
    var n := 0;
    while n < |keys|
      invariant 0 <= n <= |keys|
      invariant forall j :: 0 <= j < n ==> keys[j] in config.inspections
      invariant result.Keys == set j | 0 <= j < n :: keys[j]
      invariant forall k :: k in result ==> k in config.inspections && result[k] == Resolve(config.inspections[k])
    {
      var key := keys[n];
      if key !in config.inspections {
        return AssertionFailed;
      }
      var value := config.inspections[key];
      result := result[key := Resolve(value)];
      n := n + 1;
    }
    assert forall k :: k in keys ==> exists j :: 0 <= j < |keys| && keys[j] == k;
    return Projected(result);
  }
}
