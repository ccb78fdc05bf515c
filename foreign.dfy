/**
 * The Node.js and JavaScript primitives the core calls but whose algorithms are not part of this
 * model: MD5, base64 decoding, UTF-8 encoding and decoding, AES-256-CBC decryption with PKCS#7
 * padding, `JSON.parse` of the decrypted source list and `decodeURIComponent`. They are passed in
 * as a record of functions; the two that can throw return `None` for the exception.
 */
module Foreign {
  import opened Wrappers

  newtype byte = x: int | 0 <= x < 256

  /** An MD5 digest is always 16 bytes long (RFC 1321). */
  type Digest = s: seq<byte> | |s| == 16 witness [0, 0, 0, 0, 0, 0, 0, 0, 0, 0, 0, 0, 0, 0, 0, 0]

  /** One element of the decrypted source list: an object with `file` and `type`, or `null`. */
  datatype SourceEntry = SourceObject(file: Option<string>, sourceType: Option<string>) | NullSource

  datatype Primitives = Primitives(
    md5: seq<byte> -> Digest,
    /** `Buffer.from(s, 'base64')`: lenient, never throws. */
    base64Decode: string -> seq<byte>,
    /** `Buffer.from(s)`. */
    utf8Encode: string -> seq<byte>,
    /** `buffer.toString()`: malformed input becomes replacement characters, never throws. */
    utf8Decode: seq<byte> -> string,
    /** `update` then `final` of an `aes-256-cbc` decipher on (key, iv, input); `None` when `final` throws. */
    aes256CbcDecrypt: (seq<byte>, seq<byte>, seq<byte>) -> Option<seq<byte>>,
    /** `JSON.parse` followed by iteration; `None` for a syntax error or a value that is not iterable. */
    parseSources: string -> Option<seq<SourceEntry>>,
    /** `decodeURIComponent`; `None` for a malformed escape sequence (a `URIError`). */
    decodeComponent: string -> Option<string>)

  /** `JSON.parse` of the source list: the empty string is never valid JSON. */
  function JsonParseSources(p: Primitives, text: string): (r: Option<seq<SourceEntry>>)
    ensures text == "" ==> r.None?
  {
    if text == "" then None else p.parseSources(text)
  }

  /** `decodeURIComponent`: a string without `%` has no escape to decode and comes back unchanged. */
  function DecodeURIComponent(p: Primitives, s: string): (r: Option<string>)
    ensures '%' !in s ==> r == Some(s)
  {
    if '%' in s then p.decodeComponent(s) else Some(s)
  }
}
