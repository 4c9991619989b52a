/**
 * The lockfile guard run in CI: it fails when any `react-server-dom-*`
 * package is locked, when the react or react-dom version is missing, or when
 * either has major version 19. Reading and parsing `package-lock.json` is
 * done by the caller: the guard receives whether the file exists and its
 * parsed value, none when the file cannot be read or is not JSON.
 */
module ReactSecurity {
  import opened Wrappers
  import opened JsString
  import opened JsValue

  const RscMarker: string := "node_modules/react-server-dom-"
  const ReactKey: string := "node_modules/react"
  const ReactDomKey: string := "node_modules/react-dom"
  const ForbiddenMajor: nat := 19

  /** The longest prefix made of decimal digits, the part `\d+` consumes. */
  function LeadingDigits(s: string): (r: string)
    ensures StartsWith(s, r) && forall i :: 0 <= i < |r| ==> IsDigit(r[i])
    ensures |r| < |s| ==> !IsDigit(s[|r|])
  {
    if s == [] || !IsDigit(s[0]) then [] else [s[0]] + LeadingDigits(s[1..])
  }

  /** `major`: the leading digits of `String(version)` when a '.' follows them, as a number. */
  function Major(s: string): Option<nat> {
    var ds := LeadingDigits(s);
    if ds != [] && |ds| < |s| && s[|ds|] == '.' then Some(DigitsValue(ds)) else None
  }

  lemma {:induction false} LeadingDigitsStop(ds: string, rest: string)
    requires forall i :: 0 <= i < |ds| ==> IsDigit(ds[i])
    requires rest == [] || !IsDigit(rest[0])
    ensures LeadingDigits(ds + rest) == ds
    decreases |ds|
  {
    if ds != [] {
      assert (ds + rest)[1..] == ds[1..] + rest;
      LeadingDigitsStop(ds[1..], rest);
      assert [ds[0]] + ds[1..] == ds;
    } else {
      assert ds + rest == rest;
    }
  }

  /**
   * A version `n.rest` has major `n`; a bare number without a '.' has none,
   * and neither has a version that does not start with a digit.
   */
  lemma {:induction false} MajorOfVersion(n: nat, rest: string)
    ensures Major(NatToString(n) + "." + rest) == Some(n)
    ensures Major(NatToString(n)).None?
    ensures rest == [] || !IsDigit(rest[0]) ==> Major(rest).None?
  {
    var ds := NatToString(n);
    LeadingDigitsStop(ds, "." + rest);
    assert ds + "." + rest == ds + ("." + rest);
    assert (ds + "." + rest)[|ds|] == '.';
    DigitsValueOfNatToString(n);
    LeadingDigitsStop(ds, []);
    assert ds + [] == ds;
  }

  /** `/(^|\/)node_modules\/react-server-dom-/.test(k)`. */
  predicate IsRscKey(k: string) {
    exists i :: 0 <= i <= |k| && (i == 0 || k[i - 1] == '/') && StartsWith(k[i..], RscMarker)
  }

  /** Top-level and nested server-dom packages are detected; react and react-dom themselves are not. */
  lemma {:induction false} RscKeys(flavour: string, parent: string)
    ensures IsRscKey(RscMarker + flavour)
    ensures IsRscKey(parent + "/" + RscMarker + flavour)
    ensures !IsRscKey(ReactKey) && !IsRscKey(ReactDomKey)
  {
    var k := RscMarker + flavour;
    assert k[0..] == k;
    assert StartsWith(k, RscMarker);
    var nested := parent + "/" + RscMarker + flavour;
    var i := |parent| + 1;
    assert nested[i - 1] == '/';
    assert nested[i..] == RscMarker + flavour;
    assert |ReactKey| < |RscMarker| && |ReactDomKey| < |RscMarker|;
  }

  /** `lock && lock.packages ? lock.packages : {}`. */
  function Packages(lock: Value): Value {
    if Truthy(lock) && Truthy(Get(lock, "packages")) then Get(lock, "packages") else Obj(map[])
  }

  /**
   * The keys of the package table that name a server-dom package. Only an
   * object can hold such a key: the keys of an array or a string are indices.
   */
  function RscPackageKeys(packages: Value): (r: set<string>)
    ensures forall k :: k in r <==> HasKey(packages, k) && IsRscKey(k)
  {
    if packages.Obj? then set k | k in packages.fields && IsRscKey(k) else {}
  }

  /** `packages[key]?.version`. */
  function VersionOf(packages: Value, key: string): Value {
    var pkg := Get(packages, key);
    if pkg.Undefined? || pkg.Null? then Undefined else Get(pkg, "version")
  }

  datatype Verdict =
    | MissingLockfile
    | Unreadable
    | RscPackagesFound(keys: set<string>)
    | VersionsMissing
    | React19
    | Passed(react: string, reactDom: string)

  /**
   * The guard's exit: the checks run in order and the first that fires
   * decides. `Unreadable` is the exception `readJson` throws, which ends the
   * script with a non-zero status.
   */
  function Guard(lockExists: bool, lock: Option<Value>): Verdict {
    if !lockExists then MissingLockfile
    else if lock.None? then Unreadable
    else
      var packages := Packages(lock.value);
      var rsc := RscPackageKeys(packages);
      if |rsc| > 0 then RscPackagesFound(rsc)
      else
        var reactV := VersionOf(packages, ReactKey);
        var reactDomV := VersionOf(packages, ReactDomKey);
        if !Truthy(reactV) || !Truthy(reactDomV) then VersionsMissing
        else if Major(ToJsString(reactV)) == Some(ForbiddenMajor) || Major(ToJsString(reactDomV)) == Some(ForbiddenMajor) then React19
        else Passed(ToJsString(reactV), ToJsString(reactDomV))
  }

  ghost predicate HasRsc(lock: Value) {
    exists k :: HasKey(Packages(lock), k) && IsRscKey(k)
  }

  predicate VersionsPresent(lock: Value) {
    Truthy(VersionOf(Packages(lock), ReactKey)) && Truthy(VersionOf(Packages(lock), ReactDomKey))
  }

  predicate AnyMajor19(lock: Value) {
    Major(ToJsString(VersionOf(Packages(lock), ReactKey))) == Some(ForbiddenMajor)
    || Major(ToJsString(VersionOf(Packages(lock), ReactDomKey))) == Some(ForbiddenMajor)
  }

  /**
   * The guard passes exactly when the lockfile exists and parses, locks no
   * server-dom package, has both versions and neither has major 19; each
   * failure is reported only when every earlier check passed.
   */
  lemma {:induction false} GuardOrder(lockExists: bool, lock: Option<Value>)
    ensures Guard(lockExists, lock) == MissingLockfile <==> !lockExists
    ensures Guard(lockExists, lock) == Unreadable <==> lockExists && lock.None?
    ensures Guard(lockExists, lock).RscPackagesFound? <==> lockExists && lock.Some? && HasRsc(lock.value)
    ensures Guard(lockExists, lock) == VersionsMissing <==>
      lockExists && lock.Some? && !HasRsc(lock.value) && !VersionsPresent(lock.value)
    ensures Guard(lockExists, lock) == React19 <==>
      lockExists && lock.Some? && !HasRsc(lock.value) && VersionsPresent(lock.value) && AnyMajor19(lock.value)
    ensures Guard(lockExists, lock).Passed? <==>
      lockExists && lock.Some? && !HasRsc(lock.value) && VersionsPresent(lock.value) && !AnyMajor19(lock.value)
  {
    if lock.Some? {
      var rsc := RscPackageKeys(Packages(lock.value));
      if HasRsc(lock.value) {
        var k :| HasKey(Packages(lock.value), k) && IsRscKey(k);
        assert k in rsc;
      } else {
        assert rsc == {};
      }
    }
  }

  /** A version that is not a string of the form `digits.rest` never counts as 19, `"19"` included. */
  lemma {:induction false} Unparseable19Passes(lock: Value)
    requires !HasRsc(lock) && VersionsPresent(lock)
    requires VersionOf(Packages(lock), ReactKey) == Str("19") && VersionOf(Packages(lock), ReactDomKey) == Str("19")
    ensures Guard(true, Some(lock)) == Passed("19", "19")
  {
    MajorOfVersion(19, "");
    assert NatToString(19) == "19";
    GuardOrder(true, Some(lock));
  }
}
