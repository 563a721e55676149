/**
  The foreign functions the drivers call, passed in as values rather than
  modelled: HMAC-SHA1 (RFC 2104 over SHA-1), SHA-1 in hex, `base64_encode`
  (section 4 of RFC 4648), `json_encode`/`json_decode`, the XML reader used on
  error bodies, `urldecode` and `MimeHelper::getMimetype`.
 */
module Primitives {

  /** The JSON values the Qiniu upload policy is built from. */
  datatype Json =
    | JString(s: string)
    | JInt(i: int)
    | JObject(members: seq<(string, Json)>)

  datatype Primitives = Primitives(
    hmacSha1Raw: (string, string) -> string,  // hash_hmac('sha1', data, key, true): the raw digest
    hmacSha1Hex: (string, string) -> string,  // hash_hmac('sha1', data, key): the digest in hex
    sha1Hex: string -> string,                // sha1(s)
    base64Encode: string -> string,           // base64_encode(s)
    jsonEncode: Json -> string,               // json_encode(v)
    jsonErrorField: string -> string,         // json_decode(body, true)['error']
    xmlCode: string -> string,                // text of the first <Code> element of an XML body
    xmlMessage: string -> string,             // text of the first <Message> element of an XML body
    urldecode: string -> string,              // urldecode(s)
    mimeType: string -> string                // MimeHelper::getMimetype(path)
  )

  /** The alphabet of section 4 of RFC 4648, with its `=` padding. */
  predicate IsBase64Char(c: char)
  {
    'A' <= c <= 'Z' || 'a' <= c <= 'z' || '0' <= c <= '9' || c == '+' || c == '/' || c == '='
  }

  predicate IsBase64(s: string)
  {
    forall i :: 0 <= i < |s| ==> IsBase64Char(s[i])
  }

  predicate IsHexChar(c: char)
  {
    '0' <= c <= '9' || 'a' <= c <= 'f'
  }

  predicate IsHex(s: string)
  {
    forall i :: 0 <= i < |s| ==> IsHexChar(s[i])
  }

  /**
    The output alphabets the code relies on: base64 text in the alphabet of
    section 4 of RFC 4648, and lower-case hexadecimal, the default output of
    PHP's `hash_hmac` and `sha1`.
   */
  ghost predicate Conforming(p: Primitives)
  {
    && (forall s :: IsBase64(p.base64Encode(s)))
    && (forall d, k :: IsHex(p.hmacSha1Hex(d, k)))
    && (forall s :: IsHex(p.sha1Hex(s)))
  }
}
