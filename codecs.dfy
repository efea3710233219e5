/**
 * The libraries the encrypted company store calls and whose internals are not modelled:
 * AES-GCM from `cryptography` (NIST SP 800-38D, 96-bit nonce, no associated data),
 * URL-safe base64 (section 5 of RFC 4648) and `json` with UTF-8 text.
 *
 * Each library becomes a function value in a `Codecs` record, and what the store relies on
 * is stated by the ghost predicate `Sound`: opening what was sealed gives the plaintext back,
 * base64 decoding inverts encoding, and JSON parsing inverts serialisation. Lemmas that need
 * these laws take `Sound(c)` as a hypothesis.
 */
module Codecs {
  import opened Wrappers

  newtype byte = x: int | 0 <= x < 256
  type Bytes = seq<byte>

  /** A JSON document as Python's `json` module produces it (numbers are integers here). */
  datatype Json =
    | Null
    | Bool(b: bool)
    | Num(n: int)
    | Str(s: string)
    | Arr(items: seq<Json>)
    | Obj(fields: map<string, Json>)

  /** Length of an AES-256 key in bytes, as `AESGCM.generate_key(bit_length=256)` returns it. */
  const KEY_SIZE: nat := 32

  /** Length of the GCM nonce in bytes (96 bits). */
  const NONCE_SIZE: nat := 12

  datatype Codecs = Codecs(
    // AESGCM(key).encrypt(nonce, plaintext, None): ciphertext followed by the tag
    seal: (Bytes, Bytes, Bytes) -> Bytes,
    // AESGCM(key).decrypt(nonce, ciphertext, None); None when the key or nonce is refused or the tag does not verify
    open: (Bytes, Bytes, Bytes) -> Option<Bytes>,
    // base64.urlsafe_b64encode(b).decode('utf-8')
    b64encode: Bytes -> string,
    // base64.urlsafe_b64decode(s); None when it raises
    b64decode: string -> Option<Bytes>,
    // json.dumps(j, ensure_ascii=False).encode('utf-8')
    dumps: Json -> Bytes,
    // json.loads(b.decode('utf-8')); None when it raises
    loads: Bytes -> Option<Json>
  )

  /** The round-trip laws of the three libraries. */
  ghost predicate Sound(c: Codecs) {
    && (forall key, nonce, plaintext | |key| == KEY_SIZE && |nonce| == NONCE_SIZE ::
          c.open(key, nonce, c.seal(key, nonce, plaintext)) == Some(plaintext))
    && (forall b :: c.b64decode(c.b64encode(b)) == Some(b))
    && (forall j :: c.loads(c.dumps(j)) == Some(j))
  }
}
