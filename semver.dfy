/** CSI versions as release triples, and the `>=x.y.z` range test the constructor applies to them. */
module Semver {

  datatype Version = Version(major: nat, minor: nat, patch: nat)

  /** `semver.satisfies(v, ">=" + w)` for release versions: lexicographic order on the triples. */
  predicate AtLeast(v: Version, w: Version) {
    || v.major > w.major
    || (v.major == w.major && v.minor > w.minor)
    || (v.major == w.major && v.minor == w.minor && v.patch >= w.patch)
  }

  const V1_3_0: Version := Version(1, 3, 0)
  const V1_5_0: Version := Version(1, 5, 0)
}
