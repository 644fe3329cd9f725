/** Password hashing as the handlers use it: `bcrypt.hash(password, 10)` and
    `bcrypt.compare(password, hash)`. The hash is an ideal one: the digest determines
    the password it was made from, so `compare` accepts exactly that password. The salt,
    which bcryptjs draws at random, is a parameter. */
module Bcrypt {

  /** The cost factor every caller passes. */
  const SaltRounds: nat := 10

  /** A stored `password_hash`. */
  datatype Digest = Digest(cost: nat, salt: nat, password: string)

  function Hash(password: string, salt: nat): (h: Digest)
    ensures h.cost == SaltRounds && h.salt == salt
  {
    Digest(SaltRounds, salt, password)
  }

  /** Accepts a password exactly when hashing it again with the digest's own cost and salt
      gives back the digest: the password was the one the digest was made from. */
  predicate Compare(password: string, digest: Digest): (ok: bool)
    ensures ok <==> Digest(digest.cost, digest.salt, password) == digest
    ensures digest.cost == SaltRounds ==> (ok <==> Hash(password, digest.salt) == digest)
  {
    digest.password == password
  }

  /** A hash accepts the password it was made from and no other, whatever the salt. */
  lemma CompareHash(candidate: string, password: string, salt: nat)
    ensures Compare(candidate, Hash(password, salt)) <==> candidate == password
  {
  }
}
