/** SHA-256 over canonical JSON, taken as an injective function of the value that is encoded. */
module Digests {
  ghost predicate Injective<A(!new), D>(hash: A -> D) {
    forall a, b :: hash(a) == hash(b) ==> a == b
  }
}
