/**
 * The library calls the logger makes but whose internals are not modelled:
 * Base64 (section 4 of RFC 4648), HMAC-SHA256 (RFC 2104 over FIPS 180-4),
 * Commons Lang `StringUtils.stripAccents` and `UUID.fromString`. They are
 * handed to the model as total functions; nothing is assumed about them.
 */
module Platform {
  import opened Wrappers
  import opened Unicode

  datatype Library = Library(
    /** `Base64.getDecoder().decode(s)`; `None` where it throws `IllegalArgumentException`. */
    base64Decode: string -> Option<seq<byte>>,
    /** `new String(Base64.getEncoder().encode(bytes))`. */
    base64Encode: seq<byte> -> string,
    /** `Mac("HmacSHA256")` initialised with `key`, then `doFinal(message)`. */
    hmacSha256: (seq<byte>, seq<byte>) -> seq<byte>,
    /** `StringUtils.stripAccents(s)`. */
    stripAccents: string -> string,
    /** `UUID.fromString(s)` returns without throwing. */
    parsesAsUuid: string -> bool
  )
}
