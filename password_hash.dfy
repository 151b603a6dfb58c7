/**
 * `hashPassword` of the user controller. The bcrypt primitive
 * (`password_hash` with `PASSWORD_BCRYPT`) is foreign and stays a parameter:
 * any function from plaintext and cost to a hash, or to `None` where PHP
 * yields `false`/`null`. What is modelled is the rewrite around it.
 */
module PasswordHash {
  import opened Wrappers

  /** The cost handed to bcrypt; kept low because clients recompute it. */
  const BcryptCost: nat := 9

  /** The canonical bcrypt tag the rewrite produces. */
  const CanonicalTag := "$2a$"

  /** The bcrypt primitive: plaintext and cost to a hash, `None` on failure. */
  type Bcrypt = (string, nat) -> Option<string>

  /** The subject starts with `$2x$` or `$2y$` (what `/^\$2[xy]\$/` matches). */
  predicate HasVariantTag(h: string) {
    |h| >= 4 && h[0] == '$' && h[1] == '2' && (h[2] == 'x' || h[2] == 'y') && h[3] == '$'
  }

  /** `preg_replace('/^\$2[xy]\$/', '\$2a\$', h)`: at most one rewrite, at the start. */
  function NormalizeTag(h: string): (r: string)
    ensures !HasVariantTag(r)
    ensures |r| == |h|
    ensures HasVariantTag(h) ==> r[..4] == CanonicalTag && r[4..] == h[4..]
    ensures !HasVariantTag(h) ==> r == h
  {
    if HasVariantTag(h) then CanonicalTag + h[4..] else h
  }

  /** Rewriting an already rewritten hash changes nothing. */
  lemma NormalizeTagIdempotent(h: string)
    ensures NormalizeTag(NormalizeTag(h)) == NormalizeTag(h)
  {
  }

  /** PHP's string conversion of a primitive result: `false`/`null` become `''`. */
  function AsString(v: Option<string>): string {
    match v
    case None => ""
    case Some(t) => t
  }

  /**
   * `hashPassword(plain)`: the primitive's output with its tag made canonical,
   * and `''` whenever the primitive failed or produced nothing.
   */
  function HashPassword(plain: string, bcrypt: Bcrypt): (h: string)
    ensures h == "" <==> (bcrypt(plain, BcryptCost) == None || bcrypt(plain, BcryptCost) == Some(""))
    ensures !HasVariantTag(h)
    ensures bcrypt(plain, BcryptCost).Some? ==> h == NormalizeTag(bcrypt(plain, BcryptCost).value)
  {
    var tagged := NormalizeTag(AsString(bcrypt(plain, BcryptCost)));
    if tagged == "" then "" else tagged
  }

  /** The hash stored for a credential: `''` when none was given, else `hashPassword`. */
  function StoredHash(plain: string, bcrypt: Bcrypt): string {
    if plain == "" then "" else HashPassword(plain, bcrypt)
  }

  /** A credential is acceptable when none was given or its hash is non-empty. */
  predicate HashSucceeded(plain: string, bcrypt: Bcrypt) {
    plain == "" || HashPassword(plain, bcrypt) != ""
  }
}
