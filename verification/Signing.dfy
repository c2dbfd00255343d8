/** Ideal signatures and hashes (earned_autonomy/crypto/signing.py).

    Ed25519 (RFC 8032) is deterministic: a signature is identified here with the key and the message
    it was made for, so verification accepts exactly the signatures made for that key and message.
    Who can make one is not a matter of values; the places that receive tokens from outside say
    which signatures the issuer has made. SHA-256 is any function without collisions. */
module Signing {
  import opened CanonicalProperties

  datatype Signature = Signature(key: string, message: Bytes)

  function Sign(key: string, message: Bytes): Signature {
    Signature(key, message)
  }

  predicate Verify(key: string, message: Bytes, signature: Signature) {
    signature == Signature(key, message)
  }

  ghost predicate CollisionFree(hash: Bytes -> string) {
    forall x, y :: hash(x) == hash(y) ==> x == y
  }
}
