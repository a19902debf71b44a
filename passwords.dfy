/**
 * Password storage (app/api.py `set_password`) over a stand-in for the
 * sha256_crypt library.  The library draws a random salt of its own for every
 * hash; here that salt is a parameter, so hashing is a function.
 */
module Passwords {

  /** A stored digest: the library's own random salt and the string that was hashed. */
  datatype Digest = Digest(randomSalt: nat, input: string)

  /** `sha256_crypt.verify(candidate, h)`: the candidate is what was hashed into `h`. */
  predicate Verify(candidate: string, h: Digest)
    ensures Verify(candidate, h) <==> h == Digest(h.randomSalt, candidate)
  {
    candidate == h.input
  }

  /** `sha256_crypt.hash(s)`, with the salt the library would draw passed in. */
  function Hash(s: string, randomSalt: nat): (h: Digest)
    ensures Verify(s, h)
  {
    Digest(randomSalt, s)
  }

  /**
   * `set_password(password, salt)`: the password with the "salt" (the username,
   * at every call site) appended, then hashed.  What is stored verifies
   * against password-then-salt, the order login concatenates in.
   */
  function SetPassword(password: string, salt: string, randomSalt: nat): (h: Digest)
    ensures Verify(password + salt, h)
  {
    Hash(password + salt, randomSalt)
  }

}
