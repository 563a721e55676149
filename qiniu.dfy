/**
  The Qiniu Kodo driver (`QiniuFile`): uploads are multipart POSTs to a
  per-region upload host carrying an upload token; deletes are signed
  "QBox" management requests to the resource API; reads fetch a signed
  private download URL. Every signature is HMAC-SHA1 under the secret key,
  written in the URL-safe base64 alphabet of section 5 of RFC 4648.
 */
module Qiniu {

  import opened Wrappers
  import opened Strings
  import opened Config
  import opened ParamChecker
  import opened Primitives
  import opened Http

  datatype QiniuFile = QiniuFile(
    region: string,
    bucketName: string,
    accessKey: string,
    secretKey: string,
    httpContext: string  // public address of the bucket
  )

  const RequiredFields: seq<string> := ["region", "bucketName", "accessKey", "secretKey", "httpContext"]

  /** Upload host of each region: east, north and south China, North America, south-east Asia. */
  const UploadRegions: map<string, string> := map[
    "z0" := "http://up.qiniup.com",
    "z1" := "http://up-z1.qiniup.com",
    "z2" := "http://up-z2.qiniup.com",
    "na0" := "http://up-na0.qiniup.com",
    "as0" := "http://up-as0.qiniup.com"
  ]

  /** The resource-management API that deletes go to. */
  const RsApiUrl: string := "http://rs.qiniu.com"

  /** The constructor: every required key must be present; the fields are copied from the config. */
  function New(config: Config): (r: Result<QiniuFile>)
    ensures r.Ok? <==> forall i :: 0 <= i < |RequiredFields| ==> RequiredFields[i] in config
    ensures r.Err? ==> r == Err(Check(config, RequiredFields).error)
    ensures r.Ok? ==> (&& r.value.region == Get(config, "region")
                       && r.value.bucketName == Get(config, "bucketName")
                       && r.value.accessKey == Get(config, "accessKey")
                       && r.value.secretKey == Get(config, "secretKey")
                       && r.value.httpContext == Get(config, "httpContext"))
  {
    match Check(config, RequiredFields)
    case Err(e) => Err(e)
    case Ok(_) =>
      Ok(QiniuFile(Get(config, "region"), Get(config, "bucketName"), Get(config, "accessKey"),
                   Get(config, "secretKey"), Get(config, "httpContext")))
  }

  // ---------------------------------------------------------------------------
  // URL-safe base64 (`safeBase64`)

  function SafeChar(c: char): char
  {
    if c == '+' then '-' else if c == '/' then '_' else c
  }

  function StdChar(c: char): char
  {
    if c == '-' then '+' else if c == '_' then '/' else c
  }

  /** `str_replace(['+', '/'], ['-', '_'], s)`: each character on its own, nothing added or dropped. */
  function UrlSafe(s: string): (r: string)
    ensures |r| == |s|
    ensures forall i :: 0 <= i < |s| ==> r[i] == SafeChar(s[i])
  {
    if s == [] then [] else [SafeChar(s[0])] + UrlSafe(s[1..])
  }

  /** Whatever the input, the substituted text holds neither `+` nor `/`, and keeps `=` padding where it was. */
  lemma UrlSafeAlphabet(s: string)
    ensures '+' !in UrlSafe(s) && '/' !in UrlSafe(s)
    ensures forall i :: 0 <= i < |s| && s[i] == '=' ==> UrlSafe(s)[i] == '='
  {
    var t := UrlSafe(s);
    assert forall i :: 0 <= i < |t| ==> t[i] != '+' && t[i] != '/';
  }

  /** The reverse substitution, as a verifier of a Qiniu token would apply it. */
  function UrlSafeToStd(s: string): (r: string)
    ensures |r| == |s|
    ensures forall i :: 0 <= i < |s| ==> r[i] == StdChar(s[i])
  {
    if s == [] then [] else [StdChar(s[0])] + UrlSafeToStd(s[1..])
  }

  /** The alphabet of section 5 of RFC 4648, with its `=` padding. */
  predicate IsUrlSafeBase64(s: string)
  {
    forall i :: 0 <= i < |s| ==> ('A' <= s[i] <= 'Z' || 'a' <= s[i] <= 'z' || '0' <= s[i] <= '9'
                                  || s[i] == '-' || s[i] == '_' || s[i] == '=')
  }

  /** Standard base64 turns into the URL-safe alphabet, and back again without loss. */
  lemma UrlSafeRoundTrip(s: string)
    requires IsBase64(s)
    ensures IsUrlSafeBase64(UrlSafe(s))
    ensures UrlSafeToStd(UrlSafe(s)) == s
  {
    var t := UrlSafe(s);
    assert forall i :: 0 <= i < |s| ==> IsBase64Char(s[i]);
    assert forall i :: 0 <= i < |s| ==> UrlSafeToStd(t)[i] == s[i];
  }

  /** `safeBase64`. */
  function SafeBase64(p: Primitives, s: string): string
  {
    UrlSafe(p.base64Encode(s))
  }

  /** Output of `safeBase64` never holds a separator the tokens and URLs use. */
  lemma SafeBase64Separators(p: Primitives, s: string)
    requires Conforming(p)
    ensures IsUrlSafeBase64(SafeBase64(p, s))
    ensures UrlSafeToStd(SafeBase64(p, s)) == p.base64Encode(s)
    ensures ':' !in SafeBase64(p, s) && '&' !in SafeBase64(p, s) && '?' !in SafeBase64(p, s)
  {
    UrlSafeRoundTrip(p.base64Encode(s));
    var t := SafeBase64(p, s);
    assert forall i :: 0 <= i < |t| ==> t[i] != ':' && t[i] != '&' && t[i] != '?';
  }

  /** `getEncodedSign` under a given key: the URL-safe raw HMAC-SHA1 of `data`. */
  function Sign(p: Primitives, secretKey: string, data: string): string
  {
    SafeBase64(p, p.hmacSha1Raw(data, secretKey))
  }

  function EncodedSign(p: Primitives, d: QiniuFile, data: string): string
  {
    Sign(p, d.secretKey, data)
  }

  // ---------------------------------------------------------------------------
  // Upload token (`getUploadToken`)

  /** Members of a JSON object by name: the first one. */
  function Member(members: seq<(string, Json)>, key: string): Option<Json>
  {
    if members == [] then None
    else if members[0].0 == key then Some(members[0].1)
    else Member(members[1..], key)
  }

  /** The body Qiniu answers an upload with: name, size and hash of the stored file. */
  const ReturnBody: Json := JObject([("name", JString("$(fname)")), ("size", JString("$(fsize)")),
                                     ("hash", JString("$(etag)"))])

  /** The upload policy: the bucket as scope, a deadline, and the JSON-encoded return body. */
  function Policy(p: Primitives, d: QiniuFile, now: int): Json
  {
    JObject([("scope", JString(d.bucketName)), ("deadline", JInt(now + 600)),
             ("returnBody", JString(p.jsonEncode(ReturnBody)))])
  }

  /** The policy lets uploads into the whole bucket until 600 seconds after `now`. */
  lemma PolicyFields(p: Primitives, d: QiniuFile, now: int)
    ensures Policy(p, d, now).JObject?
    ensures Member(Policy(p, d, now).members, "scope") == Some(JString(d.bucketName))
    ensures Member(Policy(p, d, now).members, "deadline") == Some(JInt(now + 600))
    ensures Member(Policy(p, d, now).members, "returnBody") == Some(JString(p.jsonEncode(ReturnBody)))
  {
    var m := Policy(p, d, now).members;
    assert m[1..][1..] == [m[2]];
    assert |"scope"| == 5 && |"deadline"| == 8 && |"returnBody"| == 10;
    assert Member(m, "deadline") == Member(m[1..], "deadline");
    assert Member(m, "returnBody") == Member(m[1..], "returnBody") == Member(m[1..][1..], "returnBody");
  }

  /** `getEncodedPolicy`. */
  function EncodedPolicy(p: Primitives, policy: Json): string
  {
    SafeBase64(p, p.jsonEncode(policy))
  }

  /** `accessKey:encodedSign:encodedPolicy`, the sign taken over the encoded policy. */
  function UploadToken(p: Primitives, d: QiniuFile, now: int): string
  {
    var encodedPolicy := EncodedPolicy(p, Policy(p, d, now));
    var encodedSign := EncodedSign(p, d, encodedPolicy);
    d.accessKey + ":" + encodedSign + ":" + encodedPolicy
  }

  /** Splits a token at its last two colons: access key, sign, signed data. */
  function ParseToken(token: string): Option<(string, string, string)>
  {
    match LastIndexOf(token, ':')
    case None => None
    case Some(k) =>
      var init := token[..k];
      match LastIndexOf(init, ':')
      case None => None
      case Some(j) => Some((init[..j], init[j + 1..], token[k + 1..]))
  }

  lemma ParseTokenOf(a: string, b: string, c: string)
    requires ':' !in b && ':' !in c
    ensures ParseToken(a + ":" + b + ":" + c) == Some((a, b, c))
  {
    var ab := a + [':'] + b;
    var t := ab + [':'] + c;
    assert a + ":" + b + ":" + c == t;
    LastIndexOfBefore(ab, ':', c);
    assert t[..|ab|] == ab && t[|ab| + 1..] == c;
    LastIndexOfBefore(a, ':', b);
    assert ab[..|a|] == a && ab[|a| + 1..] == b;
  }

  /** What the upload host checks: the access key, and a sign that is the HMAC of the third part. */
  predicate TokenValid(p: Primitives, accessKey: string, secretKey: string, token: string)
  {
    match ParseToken(token)
    case None => false
    case Some(parts) => parts.0 == accessKey && parts.1 == Sign(p, secretKey, parts.2)
  }

  /**
    The upload token verifies under the driver's keys, and its third part
    decodes to the JSON of the upload policy.
   */
  lemma UploadTokenVerifies(p: Primitives, d: QiniuFile, now: int)
    requires Conforming(p)
    ensures TokenValid(p, d.accessKey, d.secretKey, UploadToken(p, d, now))
    ensures var parts := ParseToken(UploadToken(p, d, now)).value;
            UrlSafeToStd(parts.2) == p.base64Encode(p.jsonEncode(Policy(p, d, now)))
  {
    var encodedPolicy := EncodedPolicy(p, Policy(p, d, now));
    var encodedSign := EncodedSign(p, d, encodedPolicy);
    SafeBase64Separators(p, p.jsonEncode(Policy(p, d, now)));
    SafeBase64Separators(p, p.hmacSha1Raw(encodedPolicy, d.secretKey));
    ParseTokenOf(d.accessKey, encodedSign, encodedPolicy);
  }

  // ---------------------------------------------------------------------------
  // Management requests (`getResUrl`, `getAdminToken`)

  /** PHP `empty` on a string: true for "" and for "0". */
  predicate PhpEmpty(s: string)
  {
    s == "" || s == "0"
  }

  /** `bucket:object` in URL-safe base64. */
  function EncodedEntry(p: Primitives, d: QiniuFile, objectName: string): string
  {
    SafeBase64(p, d.bucketName + ":" + objectName)
  }

  /** `getResUrl`: `/action/encodedEntry`, and `?query` unless the query is PHP-empty. */
  function ResUrl(p: Primitives, d: QiniuFile, action: string, objectName: string, query: string): string
  {
    var resUrl := "/" + action + "/" + EncodedEntry(p, d, objectName);
    if !PhpEmpty(query) then resUrl + ("?" + query) else resUrl
  }

  /**
    A resource URL holds a `?` exactly when a non-empty query was given; the
    first `?` then ends the encoded entry and the query follows it unchanged.
    A query of "0" is dropped, as PHP's `empty` has it.
   */
  lemma ResUrlQuery(p: Primitives, d: QiniuFile, action: string, objectName: string, query: string)
    requires Conforming(p) && '?' !in action
    ensures var base := "/" + action + "/" + EncodedEntry(p, d, objectName);
            var r := ResUrl(p, d, action, objectName, query);
            && ('?' in r <==> !PhpEmpty(query))
            && |base| <= |r| && r[..|base|] == base
            && (!PhpEmpty(query) ==> IndexOf(r, '?') == Some(|base|) && r[|base| + 1..] == query)
  {
    var entry := EncodedEntry(p, d, objectName);
    SafeBase64Separators(p, d.bucketName + ":" + objectName);
    var base := "/" + action + "/" + entry;
    assert '?' !in base by {
      assert forall i :: 0 <= i < |base| ==> base[i] != '?' by {
        assert forall i :: 0 <= i < |action| ==> action[i] != '?';
        assert forall i :: 0 <= i < |entry| ==> entry[i] != '?';
      }
    }
    if !PhpEmpty(query) {
      var r := base + ['?'] + query;
      assert ResUrl(p, d, action, objectName, query) == r;
      IndexOfAfter(base, '?', query);
      assert r[..|base|] == base && r[|base| + 1..] == query;
    }
  }

  /** `getAdminToken`: `accessKey:sign`, the sign taken over the resource URL and a newline. */
  function AdminToken(p: Primitives, d: QiniuFile, resUrl: string): string
  {
    d.accessKey + ":" + EncodedSign(p, d, resUrl + "\n")
  }

  /** `deleteFile`: a form-encoded POST to the resource API, authorised with `QBox` and the admin token. */
  function DeleteRequest(p: Primitives, d: QiniuFile, savePath: string): Request
  {
    var resUrl := ResUrl(p, d, "delete", savePath, "");
    Request("POST", RsApiUrl + resUrl,
            [("Content-Type", "application/x-www-form-urlencoded"),
             ("Authorization", "QBox " + AdminToken(p, d, resUrl))],
            NoBody)
  }

  /**
    A delete names the object by its URL-safe `bucket:savePath`, has no query,
    and is signed over exactly the path it requests on the resource API.
   */
  lemma DeleteRequestSigned(p: Primitives, d: QiniuFile, savePath: string)
    requires Conforming(p)
    ensures var req := DeleteRequest(p, d, savePath);
            var path := "/delete/" + EncodedEntry(p, d, savePath);
            && req.verb == "POST"
            && req.url == RsApiUrl + path
            && '?' !in path
            && UrlSafeToStd(EncodedEntry(p, d, savePath)) == p.base64Encode(d.bucketName + ":" + savePath)
            && HeaderValue(req.headers, "Content-Type") == Some("application/x-www-form-urlencoded")
            && HeaderValue(req.headers, "Authorization")
               == Some("QBox " + d.accessKey + ":" + Sign(p, d.secretKey, req.url[|RsApiUrl|..] + "\n"))
  {
    var entry := EncodedEntry(p, d, savePath);
    SafeBase64Separators(p, d.bucketName + ":" + savePath);
    ResUrlQuery(p, d, "delete", savePath, "");
    assert "/" + "delete" + "/" + entry == "/delete/" + entry;
    assert ResUrl(p, d, "delete", savePath, "") == "/delete/" + entry;
    var req := DeleteRequest(p, d, savePath);
    var h := req.headers;
    assert h[1..] == [h[1]];
    assert |"Content-Type"| == 12 && |"Authorization"| == 13;
    assert HeaderValue(h, "Authorization") == HeaderValue(h[1..], "Authorization")
        == Some("QBox " + AdminToken(p, d, "/delete/" + entry));
    assert req.url[|RsApiUrl|..] == "/delete/" + entry;
    var sign := Sign(p, d.secretKey, "/delete/" + entry + "\n");
    assert AdminToken(p, d, "/delete/" + entry) == d.accessKey + ":" + sign;
    assert "QBox " + (d.accessKey + ":" + sign) == "QBox " + d.accessKey + ":" + sign;
  }

  // ---------------------------------------------------------------------------
  // Private download URL (`readFile`)

  /** `httpContext/savePath?e=deadline`, the deadline 600 seconds after `now`. */
  function DownloadBase(d: QiniuFile, savePath: string, now: int): string
  {
    d.httpContext + "/" + savePath + "?e=" + IntToDec(now + 600)
  }

  /** The base URL with `&token=accessKey:sign` appended, the sign taken over the base URL. */
  function DownloadUrl(p: Primitives, d: QiniuFile, savePath: string, now: int): string
  {
    var downloadUrl := DownloadBase(d, savePath, now);
    var token := d.accessKey + ":" + EncodedSign(p, d, downloadUrl);
    downloadUrl + ("&token=" + token)
  }

  /** The deadline reads back from the text after the last `=` of the base URL. */
  lemma DownloadDeadline(d: QiniuFile, savePath: string, now: int)
    ensures var base := DownloadBase(d, savePath, now);
            var k := LastIndexOf(base, '=');
            && k.Some?
            && ParseInt(base[k.value + 1..]) == Some(now + 600)
  {
    var n := IntToDec(now + 600);
    var head := d.httpContext + "/" + savePath + "?e";
    assert "?e=" == "?e" + "=";
    var base := head + ['='] + n;
    assert DownloadBase(d, savePath, now) == base;
    assert '=' !in n by {
      assert forall i :: 0 <= i < |n| ==> n[i] != '=';
    }
    LastIndexOfBefore(head, '=', n);
    assert base[|head| + 1..] == n;
    IntToDecRoundTrip(now + 600);
  }

  /**
    The download URL splits at its last `&` into the base URL and a
    `token=accessKey:sign` whose sign is the HMAC of that base URL, as the
    download host checks it; an access key without `&` is all this needs.
   */
  lemma DownloadUrlVerifies(p: Primitives, d: QiniuFile, savePath: string, now: int)
    requires Conforming(p) && '&' !in d.accessKey
    ensures var url := DownloadUrl(p, d, savePath, now);
            var k := LastIndexOf(url, '&');
            && k.Some?
            && url[..k.value] == DownloadBase(d, savePath, now)
            && url[k.value + 1..] == "token=" + d.accessKey + ":" + Sign(p, d.secretKey, url[..k.value])
  {
    var base := DownloadBase(d, savePath, now);
    var sign := EncodedSign(p, d, base);
    SafeBase64Separators(p, p.hmacSha1Raw(base, d.secretKey));
    var tail := "token=" + d.accessKey + ":" + sign;
    assert "&token=" == "&" + "token=";
    var url := base + ['&'] + tail;
    assert DownloadUrl(p, d, savePath, now) == url;
    assert '&' !in tail by {
      assert forall i :: 0 <= i < |tail| ==> tail[i] != '&' by {
        assert forall i :: 0 <= i < |d.accessKey| ==> d.accessKey[i] != '&';
        assert forall i :: 0 <= i < |sign| ==> sign[i] != '&';
      }
    }
    LastIndexOfBefore(base, '&', tail);
    assert url[..|base|] == base && url[|base| + 1..] == tail;
  }

  // ---------------------------------------------------------------------------
  // Upload (`doUploadFile`)

  /** The multipart form: the key, the upload token, then the file part named after the path's basename. */
  function UploadParts(p: Primitives, d: QiniuFile, now: int, savePath: string, contents: string,
                       contentType: Option<string>): seq<Part>
  {
    [Field("key", savePath), Field("token", UploadToken(p, d, now)),
     FilePart("file", contents, Basename(savePath), ContentTypeFor(p, savePath, contentType))]
  }

  /** A POST to the region's upload host; a region outside the table has no host to send to. */
  function UploadRequest(p: Primitives, d: QiniuFile, now: int, savePath: string, contents: string,
                         contentType: Option<string>): (r: Result<Request>)
    ensures r.Ok? <==> d.region in UploadRegions
    ensures r.Err? ==> r.error == NoUploadEndpoint(d.region)
  {
    if d.region !in UploadRegions then Err(NoUploadEndpoint(d.region))
    else Ok(Request("POST", UploadRegions[d.region], [],
                    Multipart(UploadParts(p, d, now, savePath, contents, contentType))))
  }

  /**
    An upload to a known region stores `contents` under the key `savePath`,
    with the driver's upload token for this moment (whose policy scopes the
    bucket and expires at now+600, and which verifies under the driver's keys),
    the file name `basename(savePath)` and the resolved content type.
   */
  lemma UploadRequestShape(p: Primitives, d: QiniuFile, now: int, savePath: string, contents: string,
                           contentType: Option<string>)
    requires Conforming(p) && d.region in UploadRegions
    ensures var req := UploadRequest(p, d, now, savePath, contents, contentType).value;
            && req.verb == "POST"
            && req.url == UploadRegions[d.region]
            && req.body.Multipart?
            && |req.body.parts| == 3
            && req.body.parts[0] == Field("key", savePath)
            && req.body.parts[1].Field? && req.body.parts[1].name == "token"
            && req.body.parts[1] == Field("token", UploadToken(p, d, now))
            && TokenValid(p, d.accessKey, d.secretKey, req.body.parts[1].contents)
            && req.body.parts[2].FilePart?
            && req.body.parts[2].contents == contents
            && req.body.parts[2].filename == Basename(savePath)
            && '/' !in req.body.parts[2].filename
            && req.body.parts[2].contentType == ContentTypeFor(p, savePath, contentType)
  {
    UploadTokenVerifies(p, d, now);
  }

  // ---------------------------------------------------------------------------
  // Operations

  const UploadSuccess := 200
  const ReadSuccess := 200
  const DeleteSuccess := 200

  /** `writeFile`: status 200 is success; any other status fails with the JSON body's `error`. */
  function WriteFile(env: Env, d: QiniuFile, savePath: string, content: string,
                     contentType: Option<string>): (r: Result<()>)
    ensures d.region !in UploadRegions ==> r == Err(NoUploadEndpoint(d.region))
    ensures d.region in UploadRegions ==>
              var resp := env.send(UploadRequest(env.prims, d, env.now, savePath, content, contentType).value);
              && (r.Ok? <==> resp.status == 200)
              && (r.Err? ==> r.error == FsException(env.prims.jsonErrorField(resp.body)))
  {
    match UploadRequest(env.prims, d, env.now, savePath, content, contentType)
    case Err(e) => Err(e)
    case Ok(req) => Expect(env.prims, JsonErrorField, UploadSuccess, env.send(req))
  }

  /** `saveFile`: fails before any request when the local file is missing, otherwise uploads its content. */
  function SaveFile(env: Env, d: QiniuFile, files: map<string, string>, tmpPath: string,
                    savePath: string, contentType: Option<string>): (r: Result<()>)
    ensures tmpPath !in files ==> r == Err(FsException("文件" + tmpPath + "不存在"))
    ensures tmpPath in files ==> r == WriteFile(env, d, savePath, files[tmpPath], contentType)
  {
    if tmpPath !in files then Err(FsException("文件" + tmpPath + "不存在"))
    else match UploadRequest(env.prims, d, env.now, savePath, files[tmpPath], contentType)
      case Err(e) => Err(e)
      case Ok(req) => Expect(env.prims, JsonErrorField, UploadSuccess, env.send(req))
  }

  /** `readFile`: a GET of the signed download URL; on status 200 the body unchanged. */
  function ReadFile(env: Env, d: QiniuFile, savePath: string): (r: Result<string>)
    ensures var resp := env.send(Request("GET", DownloadUrl(env.prims, d, savePath, env.now), [], NoBody));
            && (r.Ok? <==> resp.status == 200)
            && (r.Ok? ==> r.value == resp.body)
            && (r.Err? ==> r.error == FsException(env.prims.jsonErrorField(resp.body)))
  {
    ExpectBody(env.prims, JsonErrorField, ReadSuccess,
               env.send(Request("GET", DownloadUrl(env.prims, d, savePath, env.now), [], NoBody)))
  }

  /** `deleteFile`: status 200 is success; any other status fails with the JSON body's `error`. */
  function DeleteFile(env: Env, d: QiniuFile, savePath: string): (r: Result<()>)
    ensures var resp := env.send(DeleteRequest(env.prims, d, savePath));
            && (r.Ok? <==> resp.status == 200)
            && (r.Err? ==> r.error == FsException(env.prims.jsonErrorField(resp.body)))
  {
    Expect(env.prims, JsonErrorField, DeleteSuccess, env.send(DeleteRequest(env.prims, d, savePath)))
  }

  /** `getFileUrl`: the public address, `httpContext/savePath`, built without any request. */
  function GetFileUrl(d: QiniuFile, savePath: string): (r: string)
    ensures |r| == |d.httpContext| + 1 + |savePath|
    ensures r[..|d.httpContext|] == d.httpContext && r[|d.httpContext|] == '/'
    ensures r[|d.httpContext| + 1..] == savePath
  {
    d.httpContext + "/" + savePath
  }
}
