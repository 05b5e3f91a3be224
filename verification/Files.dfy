/** The parts of the world every component of the model shares: a file system seen as a
    map from path to bytes, and SHA-256 seen as an injective function of those bytes. */
module Files {
  type Path = string
  type Bytes = string
  type FileMap = map<Path, Bytes>

  /** `NoDigest` is the empty hash string; equal digests mean equal contents. */
  datatype Digest = NoDigest | Sha256(of: Bytes)

  /** Every content that `before` stores is still stored, at some path, in `after`. */
  ghost predicate ContentKept(before: FileMap, after: FileMap) {
    forall p <- before :: exists q <- after :: after[q] == before[p]
  }

  predicate SameAt(a: FileMap, b: FileMap, p: Path) {
    (p in a <==> p in b) && (p in a ==> a[p] == b[p])
  }

  lemma SameEverywhere(a: FileMap, b: FileMap)
    requires forall p :: SameAt(a, b, p)
    ensures a == b
  {
    assert forall p :: p in a <==> p in b by {
      forall p ensures p in a <==> p in b { assert SameAt(a, b, p); }
    }
    forall p | p in a ensures a[p] == b[p] { assert SameAt(a, b, p); }
  }
}
