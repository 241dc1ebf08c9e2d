/** The client-side routes of the Svelte front end and the guard that recognises them. */
module PathTypes {
  import opened Json

  /** `validPaths`. */
  const ValidPaths: seq<string> :=
    ["/dashboard", "/products/catalog", "/import", "/suppliers", "/stock/list", "/stock/movement"]

  /** `typeof path === 'string' && validPaths.includes(path)`; `null` and `undefined` are `JNull`. */
  predicate IsValidPath(path: Json) {
    path.JString? && path.s in ValidPaths
  }

  /** The six routes are accepted. */
  lemma ListedPathsAreValid()
    ensures forall i :: 0 <= i < |ValidPaths| ==> IsValidPath(JString(ValidPaths[i]))
  {
  }

  /** A value that is not a string is never a valid path, whatever it holds. */
  lemma NonStringsAreInvalid(path: Json)
    requires !path.JString?
    ensures !IsValidPath(path)
  {
  }

  /**
   * The guard is exact: every accepted path starts with a slash, has no trailing slash and no
   * upper-case letter, so `"/dashboard/"`, `"/Dashboard"` and `""` are all rejected.
   */
  lemma VariantsAreInvalid(p: string)
    requires IsValidPath(JString(p))
    ensures |p| >= 2 && p[0] == '/' && p[|p| - 1] != '/'
    ensures forall k :: 0 <= k < |p| ==> !('A' <= p[k] <= 'Z')
  {
  }

  /** In particular, appending a slash to a string never gives a valid path. */
  lemma TrailingSlashIsInvalid(p: string)
    ensures !IsValidPath(JString(p + "/"))
  {
    if IsValidPath(JString(p + "/")) {
      VariantsAreInvalid(p + "/");
    }
  }

  /** The six entries are distinct. */
  lemma ValidPathsDistinct()
    ensures |ValidPaths| == 6
    ensures forall i, j :: 0 <= i < j < |ValidPaths| ==> ValidPaths[i] != ValidPaths[j]
  {
  }
}
