/** The two foreign libraries the server leans on, `jsonwebtoken` and `bcrypt`, as oracles.
    Nothing of their internals is modelled; what the server relies on them for is stated
    as predicates that lemmas take as hypotheses. */
module Crypto {
  import opened Values

  /** The payload the server signs at login and reads back as `req.user`. */
  datatype Claims = Claims(username: Json, role: Json)

  /** A bcrypt digest. A distinct type from the plaintext, so a table row can hold only this. */
  datatype Digest = Digest(text: string)

  /** The output of `bcrypt.genSaltSync(10)`: fresh randomness for each registration. */
  type Salt = string

  /** The oracles, with the shared secret and the one-hour lifetime fixed inside them:
      `verify` is `jwt.verify(token, SECRET_KEY)` (None when it reports an error),
      `sign` is `jwt.sign(payload, SECRET_KEY, { expiresIn: "1h" })`,
      `hash` is `bcrypt.hashSync(password, salt)` and `compare` is `bcrypt.compareSync`. Both
      bcrypt calls throw for a password that is not a string, so they are only ever given strings. */
  datatype Crypto = Crypto(
    verify: string -> Option<Claims>,
    sign: Claims -> string,
    hash: (string, Salt) -> Digest,
    compare: (string, Digest) -> bool)

  /** Assumed of the token library (within the token's lifetime): a signed token is a non-empty
      string that verifies back to the claims it was signed with. */
  ghost predicate SignedTokensVerify(c: Crypto) {
    forall cl :: c.sign(cl) != "" && c.verify(c.sign(cl)) == Some(cl)
  }

  /** Assumed of bcrypt: a password matches every digest made from it, whatever the salt. */
  ghost predicate HashesMatch(c: Crypto) {
    forall p, s :: c.compare(p, c.hash(p, s))
  }
}
