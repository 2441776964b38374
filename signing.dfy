/**
 * The shared-key signature of a request (`computeAuthHdr`,
 * `createAuthorizationHeader`).
 *
 * The signed (canonical) string is
 *   "POST\n" + length + "\napplication/json\nx-ms-date:" + date + "\n/api/logs"
 * where the length is the UTF-8 byte count of the body for application logs
 * and its UTF-16 length for system logs. The authorization value is
 * "SharedKey " + workspace id + ":" + Base64(HMAC-SHA256(key, UTF-8(canonical))),
 * with the key Base64-decoded from the configured shared key; when decoding
 * fails or the decoded key is empty (`SecretKeySpec` rejects it) the Java
 * method returns `null`, modelled as `None`.
 */
module Signing {
  import opened Wrappers
  import opened Unicode
  import opened Decimal
  import opened Platform

  const ContentType: string := "application/json"
  const Resource: string := "/api/logs"
  const SharedKeyScheme: string := "SharedKey "

  // The fixed parts of the canonical string around the length and the date.
  const CanonicalHead: string := "POST\n"
  const CanonicalMiddle: string := "\n" + ContentType + "\nx-ms-date:"
  const CanonicalTail: string := "\n" + Resource

  /** The string that is signed, for a given body length and `x-ms-date` value. */
  function CanonicalString(length: nat, date: string): string
  {
    CanonicalHead + (NatToString(length) + (CanonicalMiddle + (date + CanonicalTail)))
  }

  /** The body length the signature covers: UTF-16 units for system logs, UTF-8 bytes otherwise. */
  function BodyLength(body: string, isSysLog: bool): nat
  {
    if isSysLog then Utf16Len(body) else Utf8Len(body)
  }

  /** `createAuthorizationHeader(canonical)` with the configured key and workspace id. */
  function CreateAuthorizationHeader(lib: Library, sharedKey: string, wid: string, canonical: string): Option<string>
  {
    match lib.base64Decode(sharedKey)
    case None => None
    case Some(key) =>
      if key == [] then None
      else Some(SharedKeyScheme + wid + ":" + lib.base64Encode(lib.hmacSha256(key, Utf8Encode(canonical))))
  }

  /** `computeAuthHdr(body, isSysLog, date)`. */
  function ComputeAuthHdr(lib: Library, sharedKey: string, wid: string, body: string, isSysLog: bool, date: string): Option<string>
  {
    CreateAuthorizationHeader(lib, sharedKey, wid, CanonicalString(BodyLength(body, isSysLog), date))
  }

  // ----------------------------------------------------- reading it back

  /** Length of the run of decimal digits at the start of `s`. */
  function DigitRun(s: string): (k: nat)
    ensures k <= |s| && AllDigits(s[..k])
    ensures k < |s| ==> !IsDigit(s[k])
  {
    if s == [] || !IsDigit(s[0]) then 0
    else
      var k := 1 + DigitRun(s[1..]);
      assert s[..k] == [s[0]] + s[1..][..k - 1];
      k
  }

  lemma {:induction false} DigitRunOfNumeral(digits: string, rest: string)
    requires AllDigits(digits)
    requires rest != [] && !IsDigit(rest[0])
    ensures DigitRun(digits + rest) == |digits|
  {
    if digits == [] {
      assert digits + rest == rest;
    } else {
      assert (digits + rest)[0] == digits[0];
      assert (digits + rest)[1..] == digits[1..] + rest;
      DigitRunOfNumeral(digits[1..], rest);
    }
  }

  /** `s` without its prefix `p`, if it starts with `p`. */
  function StripPrefix(s: string, p: string): Option<string>
  {
    if |p| <= |s| && s[..|p|] == p then Some(s[|p|..]) else None
  }

  /** `s` without its suffix `p`, if it ends with `p`. */
  function StripSuffix(s: string, p: string): Option<string>
  {
    if |p| <= |s| && s[|s| - |p|..] == p then Some(s[..|s| - |p|]) else None
  }

  lemma StripPrefixOf(p: string, rest: string)
    ensures StripPrefix(p + rest, p) == Some(rest)
  {
    assert (p + rest)[..|p|] == p;
    assert (p + rest)[|p|..] == rest;
  }

  lemma StripSuffixOf(rest: string, p: string)
    ensures StripSuffix(rest + p, p) == Some(rest)
  {
    assert (rest + p)[|rest|..] == p;
    assert (rest + p)[..|rest|] == rest;
  }

  /**
   * What a receiver holding the canonical string can read off it: the body
   * length and the date. `None` when the string does not have the canonical shape.
   */
  function ParseCanonical(s: string): Option<(nat, string)>
  {
    match StripPrefix(s, CanonicalHead)
    case None => None
    case Some(t) =>
      var k := DigitRun(t);
      if k == 0 then None
      else
        match StripPrefix(t[k..], CanonicalMiddle)
        case None => None
        case Some(rest) =>
          match StripSuffix(rest, CanonicalTail)
          case None => None
          case Some(date) => Some((ParseDecimal(t[..k]), date))
  }

  /** The canonical string carries its length and date recoverably. */
  lemma ParseCanonicalString(length: nat, date: string)
    ensures ParseCanonical(CanonicalString(length, date)) == Some((length, date))
  {
    var digits := NatToString(length);
    var rest := date + CanonicalTail;
    var t := digits + (CanonicalMiddle + rest);
    StripPrefixOf(CanonicalHead, t);
    assert DigitRun(t) == |digits| by {
      assert (CanonicalMiddle + rest)[0] == '\n';
      DigitRunOfNumeral(digits, CanonicalMiddle + rest);
    }
    assert t[..|digits|] == digits;
    assert t[|digits|..] == CanonicalMiddle + rest;
    StripPrefixOf(CanonicalMiddle, rest);
    StripSuffixOf(date, CanonicalTail);
    ParseNatToString(length);
  }

  /** Two canonical strings are equal exactly when their lengths and dates are. */
  lemma CanonicalStringInjective(l1: nat, d1: string, l2: nat, d2: string)
    ensures CanonicalString(l1, d1) == CanonicalString(l2, d2) <==> l1 == l2 && d1 == d2
  {
    ParseCanonicalString(l1, d1);
    ParseCanonicalString(l2, d2);
  }

  /**
   * For a system log the signed length is the UTF-8 byte count (the length
   * of the transmitted body) exactly when the body is ASCII.
   */
  lemma SysLogLengthIsByteCountIffAscii(body: string, date: string)
    ensures CanonicalString(BodyLength(body, true), date) == CanonicalString(Utf8Len(body), date) <==> IsAscii(body)
    ensures BodyLength(body, false) == |Utf8Encode(body)|
  {
    CanonicalStringInjective(Utf16Len(body), date, Utf8Len(body), date);
    Utf8LenVersusUtf16Len(body);
  }

  /** The signature fails exactly when the key is not Base64 or decodes to no bytes. */
  lemma AuthorizationFailure(lib: Library, sharedKey: string, wid: string, canonical: string)
    ensures CreateAuthorizationHeader(lib, sharedKey, wid, canonical).None?
        <==> lib.base64Decode(sharedKey).None? || lib.base64Decode(sharedKey).value == []
  {
  }

  /** Index of the first occurrence of `c` in `s`. */
  function IndexOf(s: string, c: char): (r: Option<nat>)
    ensures r.Some? ==> r.value < |s| && s[r.value] == c && c !in s[..r.value]
    ensures r.None? ==> c !in s
  {
    if s == [] then None
    else if s[0] == c then Some(0)
    else
      match IndexOf(s[1..], c)
      case None => None
      case Some(i) => assert s[..i + 1] == [s[0]] + s[1..][..i]; Some(i + 1)
  }

  /** Splits an authorization value into the workspace id and the digest. */
  function ParseAuthorization(v: string): Option<(string, string)>
  {
    if |v| < |SharedKeyScheme| || v[..|SharedKeyScheme|] != SharedKeyScheme then None
    else
      var credential := v[|SharedKeyScheme|..];
      match IndexOf(credential, ':')
      case None => None
      case Some(i) => Some((credential[..i], credential[i + 1..]))
  }

  /**
   * A successful signature reads back as the workspace id and the Base64
   * encoding of the HMAC-SHA256 of the UTF-8 canonical string under the
   * decoded key (a workspace id never holds ':' once it parses as a UUID).
   */
  lemma ParseCreateAuthorizationHeader(lib: Library, sharedKey: string, wid: string, canonical: string)
    requires ':' !in wid
    requires lib.base64Decode(sharedKey).Some? && lib.base64Decode(sharedKey).value != []
    ensures var key := lib.base64Decode(sharedKey).value;
      var v := CreateAuthorizationHeader(lib, sharedKey, wid, canonical);
      v.Some? && ParseAuthorization(v.value) == Some((wid, lib.base64Encode(lib.hmacSha256(key, Utf8Encode(canonical)))))
  {
    var key := lib.base64Decode(sharedKey).value;
    var digest := lib.base64Encode(lib.hmacSha256(key, Utf8Encode(canonical)));
    var v := SharedKeyScheme + wid + ":" + digest;
    assert v[..|SharedKeyScheme|] == SharedKeyScheme;
    var credential := v[|SharedKeyScheme|..];
    assert credential == wid + [':'] + digest;
    assert credential[|wid|] == ':';
    assert credential[..|wid|] == wid;
    assert credential[|wid| + 1..] == digest;
  }
}
