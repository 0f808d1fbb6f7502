/** The symmetric cipher both programs use (`cipher.EncryptBytes`,
    `cipher.DecryptBytes`, `cipher.EncryptString`), kept abstract: any pair
    of functions that meets `Sound` will do. Salts and keys are the strings
    `cipher.RandomString` produces; the model takes those strings as
    parameters wherever the source draws them. */
module Cipher {
  import opened Bytes
  import opened Outcomes

  /** `encrypt(plaintext, salt, key)` and `decrypt(ciphertext, salt, key)`;
      each may fail with an error message. */
  datatype Cipher = Cipher(
    encrypt: (Bytes, Bytes, Bytes) -> Result<Bytes, string>,
    decrypt: (Bytes, Bytes, Bytes) -> Result<Bytes, string>)

  /** What the model assumes of the cipher: a ciphertext decrypts, under the
      salt and key that produced it, to its plaintext; and a ciphertext is
      never empty (it carries at least its nonce). */
  ghost predicate Sound(c: Cipher) {
    forall p, salt, key :: c.encrypt(p, salt, key).Ok? ==>
      && |c.encrypt(p, salt, key).value| > 0
      && c.decrypt(c.encrypt(p, salt, key).value, salt, key) == Ok(p)
  }

  /** Lengths of the salt and key a server draws for its own layer. */
  const SaltLength: nat := 12
  const KeyLength: nat := 32

  /** A salt and key drawn with `cipher.RandomString(12)` and
      `cipher.RandomString(32)`. */
  datatype KeyDraw = KeyDraw(salt: Bytes, encPass: Bytes)

  predicate IsDraw(k: KeyDraw) {
    |k.salt| == SaltLength && |k.encPass| == KeyLength
  }

  /** The round trip `Sound` promises, for one plaintext. */
  lemma RoundTrip(c: Cipher, p: Bytes, salt: Bytes, key: Bytes)
    requires Sound(c)
    requires c.encrypt(p, salt, key).Ok?
    ensures |c.encrypt(p, salt, key).value| > 0
    ensures c.decrypt(c.encrypt(p, salt, key).value, salt, key) == Ok(p)
  {
  }
}
