/**
  The Aliyun OSS driver (`AliyunOssFile`): every request carries a `Date`
  header and an `Authorization: OSS id:signature` header, where the signature
  is base64(HMAC-SHA1) of a canonical string built from the request.
 */
module AliyunOss {

  import opened Wrappers
  import opened Strings
  import opened Config
  import opened ParamChecker
  import opened Primitives
  import opened Http

  datatype AliyunOssFile = AliyunOssFile(
    bucketName: string,
    accessKeyId: string,
    accessKeySecret: string,
    httpContext: string,     // public address of the bucket
    apiHttpContext: string   // address the API requests go to
  )

  const RequiredFields: seq<string> := ["bucketName", "accessKeyId", "accessKeySecret", "httpContext", "apiHttpContext"]

  /** The constructor: every required key must be present; the fields are copied from the config. */
  function New(config: Config): (r: Result<AliyunOssFile>)
    ensures r.Ok? <==> forall i :: 0 <= i < |RequiredFields| ==> RequiredFields[i] in config
    ensures r.Err? ==> r == Err(Check(config, RequiredFields).error)
    ensures r.Ok? ==> (&& r.value.bucketName == Get(config, "bucketName")
                       && r.value.accessKeyId == Get(config, "accessKeyId")
                       && r.value.accessKeySecret == Get(config, "accessKeySecret")
                       && r.value.httpContext == Get(config, "httpContext")
                       && r.value.apiHttpContext == Get(config, "apiHttpContext"))
  {
    match Check(config, RequiredFields)
    case Err(e) => Err(e)
    case Ok(_) =>
      Ok(AliyunOssFile(Get(config, "bucketName"), Get(config, "accessKeyId"), Get(config, "accessKeySecret"),
                       Get(config, "httpContext"), Get(config, "apiHttpContext")))
  }

  // ---------------------------------------------------------------------------
  // Signing

  /** One OSS header in the string-to-sign: lower-cased key, colon, value, newline. */
  function HeaderLine(h: (string, string)): string
  {
    Lower(h.0) + ":" + h.1 + "\n"
  }

  /** The OSS headers' part of the string-to-sign, one line per header in insertion order. */
  function CanonicalHeaders(ossHeaders: seq<(string, string)>): string
  {
    if ossHeaders == [] then ""
    else CanonicalHeaders(ossHeaders[..|ossHeaders| - 1]) + HeaderLine(ossHeaders[|ossHeaders| - 1])
  }

  /** Canonicalisation is line by line: two header lists give the lines of the first, then those of the second. */
  lemma {:induction false} CanonicalHeadersAppend(a: seq<(string, string)>, b: seq<(string, string)>)
    ensures CanonicalHeaders(a + b) == CanonicalHeaders(a) + CanonicalHeaders(b)
    decreases |b|
  {
    if b == [] {
      assert a + b == a;
    } else {
      var b' := b[..|b| - 1];
      var last := b[|b| - 1];
      CanonicalHeadersAppend(a, b');
      assert (a + b)[..|a + b| - 1] == a + b';
      assert (a + b)[|a + b| - 1] == last;
      calc {
        CanonicalHeaders(a + b);
        CanonicalHeaders(a + b') + HeaderLine(last);
        (CanonicalHeaders(a) + CanonicalHeaders(b')) + HeaderLine(last);
        CanonicalHeaders(a) + (CanonicalHeaders(b') + HeaderLine(last));
        CanonicalHeaders(a) + CanonicalHeaders(b);
      }
    }
  }

  /** A single header gives exactly its own line. */
  lemma CanonicalHeadersSingle(h: (string, string))
    ensures CanonicalHeaders([h]) == Lower(h.0) + ":" + h.1 + "\n"
  {
    assert [h][..0] == [];
  }

  function StringToSign(bucketName: string, verb: string, objectName: string, date: string,
                        contentType: string, ossHeaders: seq<(string, string)>, query: string): string
  {
    verb + "\n\n" + contentType + "\n" + date + "\n" + CanonicalHeaders(ossHeaders)
      + "/" + bucketName + "/" + objectName
      + (if query != "" then "?" + query else "")
  }

  /** The string-to-sign opens with the verb, an empty line, the content type and the date, one per line. */
  lemma StringToSignLayout(bucketName: string, verb: string, objectName: string, date: string,
                           contentType: string, ossHeaders: seq<(string, string)>, query: string)
    ensures var s := StringToSign(bucketName, verb, objectName, date, contentType, ossHeaders, query);
            var head := verb + "\n\n" + contentType + "\n" + date + "\n";
            var resource := "/" + bucketName + "/" + objectName;
            && s[..|head|] == head
            && s[|head|..|head| + |CanonicalHeaders(ossHeaders)|] == CanonicalHeaders(ossHeaders)
            && (query == "" ==> s[|s| - |resource|..] == resource)
            && (query != "" ==> s[|s| - |resource| - |query| - 1..] == resource + "?" + query)
  {
    var head := verb + "\n\n" + contentType + "\n" + date + "\n";
    var headers := CanonicalHeaders(ossHeaders);
    var tail := "/" + bucketName + "/" + objectName + (if query != "" then "?" + query else "");
    assert StringToSign(bucketName, verb, objectName, date, contentType, ossHeaders, query) == head + headers + tail;
    ThreeParts(head, headers, tail);
  }

  lemma ThreeParts<T>(a: seq<T>, b: seq<T>, c: seq<T>)
    ensures (a + b + c)[..|a|] == a && (a + b + c)[|a|..|a| + |b|] == b && (a + b + c)[|a| + |b|..] == c
  {
  }

  /**
    A receiver that takes the part after the header block and splits it at its
    first `?` recovers `/bucket/object` and the query, and finds no `?` at all
    exactly when the query is empty: the `?query` suffix is signed iff the query
    is non-empty.
   */
  lemma QuerySignedIffNonEmpty(bucketName: string, verb: string, objectName: string, date: string,
                               contentType: string, ossHeaders: seq<(string, string)>, query: string)
    requires '?' !in bucketName && '?' !in objectName
    ensures var s := StringToSign(bucketName, verb, objectName, date, contentType, ossHeaders, query);
            var k := |verb + "\n\n" + contentType + "\n" + date + "\n"| + |CanonicalHeaders(ossHeaders)|;
            var resource := "/" + bucketName + "/" + objectName;
            && k <= |s|
            && (IndexOf(s[k..], '?').None? <==> query == "")
            && (query == "" ==> s[k..] == resource)
            && (IndexOf(s[k..], '?').Some? ==>
                  var q := IndexOf(s[k..], '?').value;
                  s[k..][..q] == resource && s[k..][q + 1..] == query)
  {
    var head := verb + "\n\n" + contentType + "\n" + date + "\n";
    var headers := CanonicalHeaders(ossHeaders);
    var resource := "/" + bucketName + "/" + objectName;
    var tail := resource + (if query != "" then "?" + query else "");
    assert StringToSign(bucketName, verb, objectName, date, contentType, ossHeaders, query) == head + headers + tail;
    ThreeParts(head, headers, tail);
    assert '?' !in resource;
    if query != "" {
      assert tail == resource + ['?'] + query;
      IndexOfAfter(resource, '?', query);
      assert tail[..|resource|] == resource && tail[|resource| + 1..] == query;
    } else {
      assert tail == resource;
    }
  }

  /** The `Authorization` value: `OSS accessKeyId:base64(HMAC-SHA1(stringToSign, accessKeySecret))`. */
  function Authorization(p: Primitives, d: AliyunOssFile, verb: string, objectName: string, date: string,
                         contentType: string, ossHeaders: seq<(string, string)>, query: string): string
  {
    var toSign := StringToSign(d.bucketName, verb, objectName, date, contentType, ossHeaders, query);
    "OSS " + d.accessKeyId + ":" + p.base64Encode(p.hmacSha1Raw(toSign, d.accessKeySecret))
  }

  /** `getAuthorization`, with its loop over the OSS headers. */
  method GetAuthorization(p: Primitives, d: AliyunOssFile, verb: string, objectName: string, date: string,
                          contentType: string, ossHeaders: seq<(string, string)>, query: string)
    returns (auth: string)
    ensures auth == Authorization(p, d, verb, objectName, date, contentType, ossHeaders, query)
  {
    var stringToSign := verb + "\n\n" + contentType + "\n" + date + "\n";
    var headerStr := "";
    var i := 0;
    while i < |ossHeaders|
      invariant 0 <= i <= |ossHeaders|
      invariant headerStr == CanonicalHeaders(ossHeaders[..i])
    {
      assert ossHeaders[..i + 1][..i] == ossHeaders[..i];
      headerStr := headerStr + (Lower(ossHeaders[i].0) + ":" + ossHeaders[i].1 + "\n");
      i := i + 1;
    }
    assert ossHeaders[..i] == ossHeaders;
    stringToSign := stringToSign + (headerStr + "/" + d.bucketName + "/" + objectName);
    if query != "" {
      stringToSign := stringToSign + ("?" + query);
    }
    assert stringToSign == StringToSign(d.bucketName, verb, objectName, date, contentType, ossHeaders, query);
    var signature := p.base64Encode(p.hmacSha1Raw(stringToSign, d.accessKeySecret));
    auth := "OSS " + d.accessKeyId + ":" + signature;
  }

  // ---------------------------------------------------------------------------
  // Requests

  const AclHeaders: seq<(string, string)> := [("x-oss-object-acl", "public-read")]

  /** Every API request goes to `apiHttpContext/savePath`. */
  function ObjectUrl(d: AliyunOssFile, savePath: string): string
  {
    d.apiHttpContext + "/" + savePath
  }

  /** `doUploadFile`: a PUT with Content-Type, Date, the ACL header and the signature over all three. */
  function UploadRequest(p: Primitives, d: AliyunOssFile, date: string, savePath: string,
                         body: Body, contentType: Option<string>): Request
  {
    var ct := ContentTypeFor(p, savePath, contentType);
    var headers := [("Content-Type", ct), ("Date", date)] + AclHeaders;
    Request("PUT", ObjectUrl(d, savePath),
            headers + [("Authorization", Authorization(p, d, "PUT", savePath, date, ct, AclHeaders, ""))],
            body)
  }

  /** `readFile` and `deleteFile`: a request signed with no content type, no OSS header and no query. */
  function PlainRequest(p: Primitives, d: AliyunOssFile, verb: string, date: string, savePath: string): Request
  {
    Request(verb, ObjectUrl(d, savePath),
            [("Date", date), ("Authorization", Authorization(p, d, verb, savePath, date, "", [], ""))],
            NoBody)
  }

  // ---------------------------------------------------------------------------
  // What a receiver recomputes from the request it gets

  predicate IsOssHeader(key: string)
  {
    |key| >= 6 && Lower(key[..6]) == "x-oss-"
  }

  /** The `x-oss-` headers of a request, in the order they are sent. */
  function OssHeadersOf(headers: seq<(string, string)>): (r: seq<(string, string)>)
    ensures forall i :: 0 <= i < |r| ==> IsOssHeader(r[i].0)
  {
    if headers == [] then []
    else (if IsOssHeader(headers[0].0) then [headers[0]] else []) + OssHeadersOf(headers[1..])
  }

  lemma {:induction false} OssHeadersOfAppend(a: seq<(string, string)>, b: seq<(string, string)>)
    ensures OssHeadersOf(a + b) == OssHeadersOf(a) + OssHeadersOf(b)
  {
    if a != [] {
      OssHeadersOfAppend(a[1..], b);
      assert (a + b)[1..] == a[1..] + b;
    } else {
      assert a + b == b;
    }
  }

  lemma OssHeadersOfSingle(h: (string, string))
    ensures OssHeadersOf([h]) == if IsOssHeader(h.0) then [h] else []
  {
    assert [h][1..] == [];
  }

  /**
    The string-to-sign rebuilt from a request as sent: its verb, its Content-Type
    header (or nothing), its Date header, its `x-oss-` headers and the object
    named by its URL.
   */
  function ReceivedStringToSign(d: AliyunOssFile, req: Request): Option<string>
  {
    var prefix := d.apiHttpContext + "/";
    var date := HeaderValue(req.headers, "Date");
    if |req.url| < |prefix| || req.url[..|prefix|] != prefix || date.None? then None
    else
      var ct := HeaderValue(req.headers, "Content-Type");
      Some(StringToSign(d.bucketName, req.verb, req.url[|prefix|..], date.value,
                        if ct.Some? then ct.value else "", OssHeadersOf(req.headers), ""))
  }

  /** The request's Authorization header is the signature of what the request itself carries. */
  predicate SignatureMatches(p: Primitives, d: AliyunOssFile, req: Request)
  {
    var toSign := ReceivedStringToSign(d, req);
    && toSign.Some?
    && HeaderValue(req.headers, "Authorization")
         == Some("OSS " + d.accessKeyId + ":" + p.base64Encode(p.hmacSha1Raw(toSign.value, d.accessKeySecret)))
  }

  lemma UrlSplit(base: string, savePath: string)
    ensures (base + "/" + savePath)[..|base + "/"|] == base + "/"
    ensures (base + "/" + savePath)[|base + "/"|..] == savePath
  {
  }

  lemma HeaderKinds()
    ensures IsOssHeader("x-oss-object-acl")
    ensures !IsOssHeader("Content-Type") && !IsOssHeader("Date") && !IsOssHeader("Authorization")
  {
    assert "x-oss-object-acl"[..6] == "x-oss-";
    assert Lower("x-oss-") == "x-oss-";
  }

  /** Lookups in the header list of an upload. */
  lemma UploadHeaders(ct: string, date: string, auth: string)
    ensures var headers := [("Content-Type", ct), ("Date", date)] + AclHeaders + [("Authorization", auth)];
            && HeaderValue(headers, "Date") == Some(date)
            && HeaderValue(headers, "Content-Type") == Some(ct)
            && HeaderValue(headers, "x-oss-object-acl") == Some("public-read")
            && HeaderValue(headers, "Authorization") == Some(auth)
            && OssHeadersOf(headers) == AclHeaders
  {
    var h0, h1, h2, h3 := ("Content-Type", ct), ("Date", date), ("x-oss-object-acl", "public-read"), ("Authorization", auth);
    var headers := [h0, h1] + AclHeaders + [h3];
    assert headers == [h0, h1, h2, h3];
    UploadHeaderLookups(h0, h1, h2, h3);
    HeaderKinds();
    UploadOssHeaders(h0, h1, h2, h3);
  }

  lemma UploadHeaderLookups(h0: (string, string), h1: (string, string), h2: (string, string), h3: (string, string))
    requires h0.0 == "Content-Type" && h1.0 == "Date" && h2.0 == "x-oss-object-acl" && h3.0 == "Authorization"
    ensures var headers := [h0, h1, h2, h3];
            && HeaderValue(headers, "Date") == Some(h1.1)
            && HeaderValue(headers, "Content-Type") == Some(h0.1)
            && HeaderValue(headers, "x-oss-object-acl") == Some(h2.1)
            && HeaderValue(headers, "Authorization") == Some(h3.1)
  {
    var headers := [h0, h1, h2, h3];
    assert headers[1..] == [h1, h2, h3] && headers[2..] == [h2, h3] && headers[3..] == [h3];
    assert |h0.0| == 12 && |h1.0| == 4 && |h2.0| == 16 && |h3.0| == 13;
    assert HeaderValue(headers, "x-oss-object-acl") == HeaderValue([h1, h2, h3], "x-oss-object-acl")
        == HeaderValue([h2, h3], "x-oss-object-acl");
    assert HeaderValue(headers, "Authorization") == HeaderValue([h1, h2, h3], "Authorization")
        == HeaderValue([h2, h3], "Authorization") == HeaderValue([h3], "Authorization");
  }

  /** Of four headers where only the third is an OSS header, the OSS headers are that third one alone. */
  lemma UploadOssHeaders(h0: (string, string), h1: (string, string), h2: (string, string), h3: (string, string))
    requires !IsOssHeader(h0.0) && !IsOssHeader(h1.0) && IsOssHeader(h2.0) && !IsOssHeader(h3.0)
    ensures OssHeadersOf([h0, h1, h2, h3]) == [h2]
  {
    OssHeadersOfSingle(h0);
    OssHeadersOfSingle(h1);
    OssHeadersOfSingle(h2);
    OssHeadersOfSingle(h3);
    assert [h0, h1, h2, h3] == [h0] + [h1] + [h2] + [h3];
    OssHeadersOfAppend([h0] + [h1] + [h2], [h3]);
    OssHeadersOfAppend([h0] + [h1], [h2]);
    OssHeadersOfAppend([h0], [h1]);
  }

  /**
    An upload's single date is both the Date header and the signed date, its
    Content-Type header is the signed content type, and `x-oss-object-acl:
    public-read` is both sent and signed.
   */
  lemma UploadRequestSigned(p: Primitives, d: AliyunOssFile, date: string, savePath: string,
                            body: Body, contentType: Option<string>)
    ensures var req := UploadRequest(p, d, date, savePath, body, contentType);
            && req.verb == "PUT"
            && req.url == d.apiHttpContext + "/" + savePath
            && req.body == body
            && HeaderValue(req.headers, "Date") == Some(date)
            && HeaderValue(req.headers, "Content-Type") == Some(ContentTypeFor(p, savePath, contentType))
            && HeaderValue(req.headers, "x-oss-object-acl") == Some("public-read")
            && SignatureMatches(p, d, req)
  {
    var req := UploadRequest(p, d, date, savePath, body, contentType);
    var ct := ContentTypeFor(p, savePath, contentType);
    UploadHeaders(ct, date, Authorization(p, d, "PUT", savePath, date, ct, AclHeaders, ""));
    UrlSplit(d.apiHttpContext, savePath);
  }

  /** Reads and deletes send the signed date as `Date` and sign no content type and no OSS header. */
  lemma PlainRequestSigned(p: Primitives, d: AliyunOssFile, verb: string, date: string, savePath: string)
    ensures var req := PlainRequest(p, d, verb, date, savePath);
            && req.url == d.apiHttpContext + "/" + savePath
            && HeaderValue(req.headers, "Date") == Some(date)
            && HeaderValue(req.headers, "Content-Type").None?
            && OssHeadersOf(req.headers) == []
            && SignatureMatches(p, d, req)
  {
    var req := PlainRequest(p, d, verb, date, savePath);
    var h0, h1 := req.headers[0], req.headers[1];
    assert req.headers == [h0] + [h1];
    HeaderKinds();
    OssHeadersOfAppend([h0], [h1]);
    OssHeadersOfSingle(h0);
    OssHeadersOfSingle(h1);
    UrlSplit(d.apiHttpContext, savePath);
  }

  // ---------------------------------------------------------------------------
  // Operations

  const UploadSuccess := 200
  const ReadSuccess := 200
  const DeleteSuccess := 204

  /** `writeFile`: uploads the content; success is status 200, anything else a `[Code]Message` error. */
  function WriteFile(env: Env, d: AliyunOssFile, savePath: string, content: string,
                     contentType: Option<string>): (r: Result<()>)
    ensures var resp := env.send(UploadRequest(env.prims, d, env.date, savePath, Raw(content), contentType));
            && (r.Ok? <==> resp.status == 200)
            && (r.Err? ==> r.error == FsException(BracketMessage(env.prims.xmlCode(resp.body),
                                                                 env.prims.xmlMessage(resp.body))))
  {
    Expect(env.prims, XmlCodeMessage, UploadSuccess,
           env.send(UploadRequest(env.prims, d, env.date, savePath, Raw(content), contentType)))
  }

  /** `saveFile`: fails before any request when the local file is missing, otherwise uploads its content. */
  function SaveFile(env: Env, d: AliyunOssFile, files: map<string, string>, tmpPath: string,
                    savePath: string, contentType: Option<string>): (r: Result<()>)
    ensures tmpPath !in files ==> r == Err(FsException("文件" + tmpPath + "不存在"))
    ensures tmpPath in files ==> r == WriteFile(env, d, savePath, files[tmpPath], contentType)
  {
    if tmpPath !in files then Err(FsException("文件" + tmpPath + "不存在"))
    else Expect(env.prims, XmlCodeMessage, UploadSuccess,
                env.send(UploadRequest(env.prims, d, env.date, savePath, Raw(files[tmpPath]), contentType)))
  }

  /** `readFile`: on status 200 the body unchanged, otherwise a `[Code]Message` error. */
  function ReadFile(env: Env, d: AliyunOssFile, savePath: string): (r: Result<string>)
    ensures var resp := env.send(PlainRequest(env.prims, d, "GET", env.date, savePath));
            && (r.Ok? <==> resp.status == 200)
            && (r.Ok? ==> r.value == resp.body)
            && (r.Err? ==> r.error == FsException(BracketMessage(env.prims.xmlCode(resp.body),
                                                                 env.prims.xmlMessage(resp.body))))
  {
    ExpectBody(env.prims, XmlCodeMessage, ReadSuccess, env.send(PlainRequest(env.prims, d, "GET", env.date, savePath)))
  }

  /** `deleteFile`: success is status 204, anything else a `[Code]Message` error. */
  function DeleteFile(env: Env, d: AliyunOssFile, savePath: string): (r: Result<()>)
    ensures var resp := env.send(PlainRequest(env.prims, d, "DELETE", env.date, savePath));
            && (r.Ok? <==> resp.status == 204)
            && (r.Err? ==> r.error == FsException(BracketMessage(env.prims.xmlCode(resp.body),
                                                                 env.prims.xmlMessage(resp.body))))
  {
    Expect(env.prims, XmlCodeMessage, DeleteSuccess, env.send(PlainRequest(env.prims, d, "DELETE", env.date, savePath)))
  }

  /** `getFileUrl`: the public address, `httpContext/savePath`, built without any request. */
  function GetFileUrl(d: AliyunOssFile, savePath: string): (r: string)
    ensures |r| == |d.httpContext| + 1 + |savePath|
    ensures r[..|d.httpContext|] == d.httpContext && r[|d.httpContext|] == '/'
    ensures r[|d.httpContext| + 1..] == savePath
  {
    d.httpContext + "/" + savePath
  }
}
