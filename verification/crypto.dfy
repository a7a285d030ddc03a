/** Password hashing (`CryptoService.encrypt` / `decrypt`, bcrypt underneath),
    seen only through what its callers rely on. */
module Crypto {

  /** A hashing scheme: `hash` turns a secret into its stored digest and
      `compare` checks a candidate secret against a digest. */
  datatype Hasher = Hasher(hash: string -> string, compare: (string, string) -> bool)

  /** An ideal bcrypt: a secret always matches its own digest and no other
      secret matches it. Salting and one-wayness are not modelled. */
  ghost predicate Sound(h: Hasher) {
    && (forall x :: h.compare(x, h.hash(x)))
    && (forall x, y {:trigger h.compare(x, h.hash(y))} :: h.compare(x, h.hash(y)) ==> x == y)
  }
}
