/** The part of node-semver the bridge uses: `valid(v)` and
    `satisfies(v, ">=X.Y.Z")` for the two fixed ranges of src/extension.ts.
    Versions are plain `MAJOR.MINOR.PATCH` triples (section 2 of Semantic
    Versioning 2.0.0); each component is a numeric identifier without leading
    zeros and at most `Number.MAX_SAFE_INTEGER`. */
module SemVer {
  import opened Text

  datatype Version = Version(major: nat, minor: nat, patch: nat)

  const MaxSafeInteger: nat := 9007199254740991

  /** The required server range `>=1.9.0`. */
  const ServerSemver := Version(1, 9, 0)
  /** The range `>=1.16.0` from which on the server names assets `deno:asset…`. */
  const ServerSemver16 := Version(1, 16, 0)

  /** Precedence of triples (section 11 of Semantic Versioning 2.0.0). */
  predicate Below(a: Version, b: Version) {
    a.major < b.major
    || (a.major == b.major && a.minor < b.minor)
    || (a.major == b.major && a.minor == b.minor && a.patch < b.patch)
  }

  /** A numeric identifier: `0` or a digit string that does not start with `0`. */
  function ParseNumeric(s: string): (r: Option<nat>)
    ensures r.Some? ==> |s| > 0 && AllDigits(s) && r.value == DigitsValue(s) && r.value <= MaxSafeInteger
    ensures r.Some? ==> s[0] != '0' || s == "0"
  {
    if |s| > 0 && AllDigits(s) && (s[0] != '0' || |s| == 1) && DigitsValue(s) <= MaxSafeInteger
    then Some(DigitsValue(s))
    else None
  }

  /** `semver.parse(s)` restricted to plain triples. */
  function Parse(s: string): Option<Version>
  {
    var parts := Split(s, '.');
    if |parts| != 3 then None
    else match (ParseNumeric(parts[0]), ParseNumeric(parts[1]), ParseNumeric(parts[2]))
      case (Some(a), Some(b), Some(c)) => Some(Version(a, b, c))
      case _ => None
  }

  /** `semver.valid(s)` is truthy. */
  predicate Valid(s: string) {
    Parse(s).Some?
  }

  /** `semver.satisfies(s, ">=" + min)`: false for an invalid version. */
  predicate Satisfies(s: string, min: Version) {
    Parse(s).Some? && !Below(Parse(s).value, min)
  }

  /** The canonical text of a version, `MAJOR.MINOR.PATCH`. */
  function Format(v: Version): string {
    Join([NatToDigits(v.major), NatToDigits(v.minor), NatToDigits(v.patch)], ".")
  }

  lemma {:induction false} ParseNumericOfDigits(n: nat)
    requires n <= MaxSafeInteger
    ensures ParseNumeric(NatToDigits(n)) == Some(n)
  {
    NatToDigitsValue(n);
  }

  /** Formatting then parsing gives the version back, for every version whose
      components fit in a safe JavaScript integer. */
  lemma {:induction false} ParseFormat(v: Version)
    requires v.major <= MaxSafeInteger && v.minor <= MaxSafeInteger && v.patch <= MaxSafeInteger
    ensures Parse(Format(v)) == Some(v)
  {
    var parts := [NatToDigits(v.major), NatToDigits(v.minor), NatToDigits(v.patch)];
    SplitJoin(parts, '.');
    ParseNumericOfDigits(v.major);
    ParseNumericOfDigits(v.minor);
    ParseNumericOfDigits(v.patch);
  }

  /** A version that accepts the flattened asset naming is also new enough
      for the required range, so it never draws the upgrade warning. */
  lemma Satisfies16ImpliesSatisfies(s: string)
    requires Satisfies(s, ServerSemver16)
    ensures Satisfies(s, ServerSemver)
  {
  }

  /** Precedence is a strict total order on triples. */
  lemma BelowTotal(a: Version, b: Version)
    ensures a == b || Below(a, b) || Below(b, a)
    ensures !(Below(a, b) && Below(b, a))
  {
  }
}
