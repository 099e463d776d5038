/** The password hasher (bcrypt at index.js:57 and index.js:91), modelled
    abstractly: a digest remembers what it was computed from, and only Compare
    looks inside it.  The salt bcrypt draws at random is a parameter. */
module Hasher {

  /** The work factor signup passes to bcrypt.hash. */
  const COST_FACTOR: nat := 10

  type Salt = nat

  datatype Digest = Digest(preimage: string, salt: Salt, cost: nat)

  /** bcrypt.hash(password, 10) with the given salt: the digest verifies the
      password it was made from and no other. */
  function Hash(password: string, salt: Salt): (d: Digest)
    ensures Compare(password, d)
    ensures forall other :: Compare(other, d) ==> other == password
    ensures d.cost == COST_FACTOR
  {
    Digest(password, salt, COST_FACTOR)
  }

  /** bcrypt.compare(password, digest). */
  predicate Compare(password: string, digest: Digest) {
    digest.preimage == password
  }

  /** compare(p, hash(q)) holds exactly when p == q, whatever the salt. */
  lemma CompareHash(p: string, q: string, salt: Salt)
    ensures Compare(p, Hash(q, salt)) <==> p == q
  {
  }
}
