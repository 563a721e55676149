/**
  The Tencent COS driver (`QcloudCosFile`): requests go to
  `bucket-appId.cos.region.myqcloud.com` and carry a query-string-shaped
  `Authorization` value derived by a two-stage HMAC-SHA1 over a sign-time window.
 */
module QcloudCos {

  import opened Wrappers
  import opened Strings
  import opened Config
  import opened Primitives
  import opened Http

  datatype QcloudCosFile = QcloudCosFile(
    region: string,
    bucketName: string,
    appId: string,
    secretId: string,
    secretKey: string,
    httpContext: string
  )

  /** The constructor checks nothing: each of the six keys is copied, a missing one reading as null (""). */
  function New(config: Config): (r: QcloudCosFile)
    ensures r.region == Get(config, "region") && r.bucketName == Get(config, "bucketName")
    ensures r.appId == Get(config, "appId") && r.secretId == Get(config, "secretId")
    ensures r.secretKey == Get(config, "secretKey") && r.httpContext == Get(config, "httpContext")
  {
    QcloudCosFile(Get(config, "region"), Get(config, "bucketName"), Get(config, "appId"),
                  Get(config, "secretId"), Get(config, "secretKey"), Get(config, "httpContext"))
  }

  /** `getApiHost`: `bucketName-appId.cos.region.myqcloud.com`. */
  function ApiHost(d: QcloudCosFile): (r: string)
    ensures |r| == |d.bucketName| + |d.appId| + |d.region| + 19
    ensures r[..|d.bucketName| + 1] == d.bucketName + "-"
    ensures r[|d.bucketName| + 1..|d.bucketName| + 1 + |d.appId| + 5] == d.appId + ".cos."
    ensures r[|r| - |d.region| - 13..] == d.region + ".myqcloud.com"
  {
    d.bucketName + "-" + d.appId + ".cos." + d.region + ".myqcloud.com"
  }

  // ---------------------------------------------------------------------------
  // The sign-time window

  /** `(now - 60);(now + 600)`, from a single reading of the clock. */
  function SignTime(now: int): string
  {
    IntToDec(now - 60) + ";" + IntToDec(now + 600)
  }

  /** Reads a `start;end` window back. */
  function ParseSignTime(s: string): Option<(int, int)>
  {
    match IndexOf(s, ';')
    case None => None
    case Some(k) =>
      match (ParseInt(s[..k]), ParseInt(s[k + 1..]))
      case (Some(a), Some(b)) => Some((a, b))
      case _ => None
  }

  /** The window opens 60 seconds before `now` and closes 600 seconds after, so it is never empty. */
  lemma SignTimeWindow(now: int)
    ensures ParseSignTime(SignTime(now)) == Some((now - 60, now + 600))
    ensures now - 60 < now + 600
  {
    var a, b := IntToDec(now - 60), IntToDec(now + 600);
    assert ';' !in a by {
      assert forall k :: 0 <= k < |a| ==> a[k] != ';';
    }
    IndexOfAfter(a, ';', b);
    var s := SignTime(now);
    assert s == a + [';'] + b;
    assert s[..|a|] == a && s[|a| + 1..] == b;
    IntToDecRoundTrip(now - 60);
    IntToDecRoundTrip(now + 600);
  }

  // ---------------------------------------------------------------------------
  // Signing

  function HttpString(p: Primitives, d: QcloudCosFile, verb: string, path: string): string
  {
    Lower(verb) + "\n" + p.urldecode(path) + "\n\nhost=" + ApiHost(d) + "\n"
  }

  function StringToSign(p: Primitives, d: QcloudCosFile, now: int, verb: string, path: string): string
  {
    "sha1\n" + SignTime(now) + "\n" + p.sha1Hex(HttpString(p, d, verb, path)) + "\n"
  }

  /** The HTTP string is four lines: lower-cased verb, decoded path, no parameters, and the signed `host` header. */
  lemma HttpStringLines(p: Primitives, d: QcloudCosFile, verb: string, path: string)
    ensures HttpString(p, d, verb, path) == Terminated([Lower(verb), p.urldecode(path), "", "host=" + ApiHost(d)])
  {
    var a, b, e := Lower(verb), p.urldecode(path), "host=" + ApiHost(d);
    var lines := [a, b, "", e];
    assert lines[1..] == [b, "", e] && lines[1..][1..] == ["", e] && lines[1..][1..][1..] == [e];
    assert Terminated([e]) == e + "\n";
    assert Terminated(["", e]) == "\n" + e + "\n";
    assert "\n\nhost=" == "\n" + "\n" + "host=";
  }

  /** The string-to-sign is three lines: the algorithm, the sign time, and the SHA-1 of the HTTP string. */
  lemma StringToSignLines(p: Primitives, d: QcloudCosFile, now: int, verb: string, path: string)
    ensures StringToSign(p, d, now, verb, path)
         == Terminated(["sha1", SignTime(now), p.sha1Hex(HttpString(p, d, verb, path))])
  {
    var b, c := SignTime(now), p.sha1Hex(HttpString(p, d, verb, path));
    var lines := ["sha1", b, c];
    assert lines[1..] == [b, c] && lines[1..][1..] == [c];
    assert Terminated([c]) == c + "\n";
    assert Terminated([b, c]) == b + "\n" + (c + "\n");
    assert "sha1\n" == "sha1" + "\n";
  }

  /** A receiver splitting the string-to-sign at its newlines gets back its three lines. */
  lemma StringToSignReadsBack(p: Primitives, d: QcloudCosFile, now: int, verb: string, path: string)
    requires Conforming(p)
    ensures SplitTerminated(StringToSign(p, d, now, verb, path))
         == ["sha1", SignTime(now), p.sha1Hex(HttpString(p, d, verb, path))]
  {
    var h := p.sha1Hex(HttpString(p, d, verb, path));
    var lines := ["sha1", SignTime(now), h];
    StringToSignLines(p, d, now, verb, path);
    SignTimeSeparators(now);
    assert IsHex(h);
    assert '\n' !in h by {
      assert forall k :: 0 <= k < |h| ==> h[k] != '\n';
    }
    assert '\n' !in "sha1";
    assert NoNewlines(lines);
    TerminatedRoundTrip(lines);
  }

  /** The first stage: hex HMAC-SHA1 of the sign time under the secret key. */
  function SignKey(p: Primitives, d: QcloudCosFile, now: int): string
  {
    p.hmacSha1Hex(SignTime(now), d.secretKey)
  }

  /** The second stage: hex HMAC-SHA1 of the string-to-sign under the first stage's result. */
  function Signature(p: Primitives, d: QcloudCosFile, now: int, verb: string, path: string): string
  {
    p.hmacSha1Hex(StringToSign(p, d, now, verb, path), SignKey(p, d, now))
  }

  /** `getAuthorization`: the sign time and signature of this request, with the secret id. */
  function Authorization(p: Primitives, d: QcloudCosFile, now: int, verb: string, path: string): string
  {
    AuthorizationText(d.secretId, SignTime(now), Signature(p, d, now, verb, path))
  }

  /** The authorization value, built in two appends as the source does. */
  function AuthorizationText(secretId: string, signTime: string, signature: string): string
  {
    var authorization := "q-sign-algorithm=sha1&q-ak=" + secretId + "&q-sign-time=" + signTime;
    authorization + ("&q-key-time=" + signTime + "&q-header-list=host&q-url-param-list=&q-signature=" + signature)
  }

  /** The fields the authorization value carries, in order. */
  function AuthorizationFields(p: Primitives, d: QcloudCosFile, now: int, verb: string, path: string)
    : seq<(string, string)>
  {
    FieldsOf(d.secretId, SignTime(now), Signature(p, d, now, verb, path))
  }

  function FieldsOf(secretId: string, signTime: string, signature: string): seq<(string, string)>
  {
    [("q-sign-algorithm", "sha1"), ("q-ak", secretId), ("q-sign-time", signTime),
     ("q-key-time", signTime), ("q-header-list", "host"), ("q-url-param-list", ""),
     ("q-signature", signature)]
  }

  // ---------------------------------------------------------------------------
  // Query strings: `k=v` pairs joined by `&`

  function PairText(kv: (string, string)): string
  {
    kv.0 + "=" + kv.1
  }

  function JoinQuery(pairs: seq<(string, string)>): string
    requires |pairs| > 0
  {
    if |pairs| == 1 then PairText(pairs[0]) else PairText(pairs[0]) + "&" + JoinQuery(pairs[1..])
  }

  function ParsePair(s: string): (string, string)
  {
    match IndexOf(s, '=')
    case None => (s, "")
    case Some(k) => (s[..k], s[k + 1..])
  }

  function ParseQuery(s: string): seq<(string, string)>
    decreases |s|
  {
    match IndexOf(s, '&')
    case None => [ParsePair(s)]
    case Some(k) => [ParsePair(s[..k])] + ParseQuery(s[k + 1..])
  }

  /** Keys free of `=` and `&`, values free of `&`. */
  predicate QuerySafe(pairs: seq<(string, string)>)
  {
    forall i :: 0 <= i < |pairs| ==> '=' !in pairs[i].0 && '&' !in pairs[i].0 && '&' !in pairs[i].1
  }

  lemma PairRoundTrip(kv: (string, string))
    requires '=' !in kv.0
    ensures ParsePair(PairText(kv)) == kv
    ensures '&' !in kv.0 && '&' !in kv.1 ==> '&' !in PairText(kv)
  {
    IndexOfAfter(kv.0, '=', kv.1);
    var s := PairText(kv);
    assert s == kv.0 + ['='] + kv.1;
    assert s[..|kv.0|] == kv.0 && s[|kv.0| + 1..] == kv.1;
  }

  /** A query string built from safe pairs reads back to exactly those pairs, in order. */
  lemma {:induction false} QueryRoundTrip(pairs: seq<(string, string)>)
    requires |pairs| > 0 && QuerySafe(pairs)
    ensures ParseQuery(JoinQuery(pairs)) == pairs
    decreases |pairs|
  {
    var head := PairText(pairs[0]);
    PairRoundTrip(pairs[0]);
    if |pairs| == 1 {
      assert IndexOf(head, '&').None?;
    } else {
      var rest := JoinQuery(pairs[1..]);
      IndexOfAfter(head, '&', rest);
      var s := head + ['&'] + rest;
      assert JoinQuery(pairs) == s;
      assert s[..|head|] == head && s[|head| + 1..] == rest;
      QueryRoundTrip(pairs[1..]);
      assert pairs == [pairs[0]] + pairs[1..];
    }
  }

  /** `JoinQuery` of seven pairs, unfolded. */
  lemma JoinSeven(f: seq<(string, string)>)
    requires |f| == 7
    ensures JoinQuery(f) == PairText(f[0]) + "&" + (PairText(f[1]) + "&" + (PairText(f[2]) + "&" + (PairText(f[3]) + "&"
              + (PairText(f[4]) + "&" + (PairText(f[5]) + "&" + PairText(f[6]))))))
  {
    assert f[6..] == [f[6]];
    assert forall k :: 0 <= k < 6 ==> f[k..][1..] == f[k + 1..];
    assert JoinQuery(f[5..]) == PairText(f[5]) + "&" + PairText(f[6]);
    assert JoinQuery(f[4..]) == PairText(f[4]) + "&" + JoinQuery(f[5..]);
    assert JoinQuery(f[3..]) == PairText(f[3]) + "&" + JoinQuery(f[4..]);
    assert JoinQuery(f[2..]) == PairText(f[2]) + "&" + JoinQuery(f[3..]);
    assert JoinQuery(f[1..]) == PairText(f[1]) + "&" + JoinQuery(f[2..]);
  }

  /** The authorization literals regrouped around their keys, `=` and `&`, for any piece values. */
  lemma Regroup<T>(k1: seq<T>, v1: seq<T>, k2: seq<T>, id: seq<T>, k3: seq<T>, st: seq<T>, k4: seq<T>,
                   k5: seq<T>, v5: seq<T>, k6: seq<T>, k7: seq<T>, sig: seq<T>, e: seq<T>, amp: seq<T>)
    ensures (k1 + e + v1 + amp + k2 + e) + id + (amp + k3 + e) + st
            + ((amp + k4 + e) + st + (amp + k5 + e + v5 + amp + k6 + e + amp + k7 + e) + sig)
         == (k1 + e + v1) + amp + ((k2 + e + id) + amp + ((k3 + e + st) + amp + ((k4 + e + st) + amp
            + ((k5 + e + v5) + amp + ((k6 + e + []) + amp + (k7 + e + sig))))))
  {
  }

  // The source's literals, split at their key, `=` and `&` boundaries.
  lemma AlgorithmLiteral()
    ensures "q-sign-algorithm=sha1&q-ak=" == "q-sign-algorithm" + "=" + "sha1" + "&" + "q-ak" + "="
  {
    assert "q-sign-algorithm=sha1&q-ak=" == "q-sign-algorithm=sha1&" + "q-ak=";
  }

  lemma TimeLiterals()
    ensures "&q-sign-time=" == "&" + "q-sign-time" + "="
    ensures "&q-key-time=" == "&" + "q-key-time" + "="
  {
  }

  lemma TailLiteral()
    ensures "&q-header-list=host&q-url-param-list=&q-signature="
         == "&" + "q-header-list" + "=" + "host" + "&" + "q-url-param-list" + "=" + "&" + "q-signature" + "="
  {
    assert "&q-header-list=host&q-url-param-list=&q-signature="
        == "&q-header-list=host&" + "q-url-param-list=&q-signature=";
    assert "&q-header-list=host&" == "&" + "q-header-list" + "=" + "host" + "&";
    assert "q-url-param-list=&q-signature=" == "q-url-param-list" + "=" + "&" + "q-signature" + "=";
  }

  /** The two appends of `getAuthorization` spell out exactly the query string of its seven fields. */
  lemma TextIsQuery(secretId: string, signTime: string, signature: string)
    ensures AuthorizationText(secretId, signTime, signature) == JoinQuery(FieldsOf(secretId, signTime, signature))
  {
    var f := FieldsOf(secretId, signTime, signature);
    JoinSeven(f);
    TextRegrouped(secretId, signTime, signature);
    assert PairText(f[5]) == "q-url-param-list" + "=" + [];
  }

  lemma TextRegrouped(secretId: string, signTime: string, signature: string)
    ensures AuthorizationText(secretId, signTime, signature)
         == ("q-sign-algorithm" + "=" + "sha1") + "&" + (("q-ak" + "=" + secretId) + "&" + (("q-sign-time" + "=" + signTime)
            + "&" + (("q-key-time" + "=" + signTime) + "&" + (("q-header-list" + "=" + "host") + "&"
            + (("q-url-param-list" + "=" + []) + "&" + ("q-signature" + "=" + signature))))))
  {
    calc {
      AuthorizationText(secretId, signTime, signature);
    ==
      "q-sign-algorithm=sha1&q-ak=" + secretId + "&q-sign-time=" + signTime
      + ("&q-key-time=" + signTime + "&q-header-list=host&q-url-param-list=&q-signature=" + signature);
    == { AlgorithmLiteral(); TimeLiterals(); TailLiteral(); }
      ("q-sign-algorithm" + "=" + "sha1" + "&" + "q-ak" + "=") + secretId + ("&" + "q-sign-time" + "=") + signTime
      + (("&" + "q-key-time" + "=") + signTime
         + ("&" + "q-header-list" + "=" + "host" + "&" + "q-url-param-list" + "=" + "&" + "q-signature" + "=")
         + signature);
    == { Regroup("q-sign-algorithm", "sha1", "q-ak", secretId, "q-sign-time", signTime, "q-key-time",
                 "q-header-list", "host", "q-url-param-list", "q-signature", signature, "=", "&"); }
      ("q-sign-algorithm" + "=" + "sha1") + "&" + (("q-ak" + "=" + secretId) + "&" + (("q-sign-time" + "=" + signTime)
      + "&" + (("q-key-time" + "=" + signTime) + "&" + (("q-header-list" + "=" + "host") + "&"
      + (("q-url-param-list" + "=" + []) + "&" + ("q-signature" + "=" + signature))))));
    }
  }

  /** The sign time holds only digits, minus signs and `;`: no query or line separator. */
  lemma SignTimeSeparators(now: int)
    ensures '&' !in SignTime(now) && '\n' !in SignTime(now)
  {
    var a, b := IntToDec(now - 60), IntToDec(now + 600);
    assert forall k :: 0 <= k < |a| ==> a[k] != '&' && a[k] != '\n';
    assert forall k :: 0 <= k < |b| ==> b[k] != '&' && b[k] != '\n';
    assert SignTime(now) == a + ";" + b;
  }

  /**
    The authorization value reads back, field by field, as: algorithm sha1, the
    secret id, the same sign time in both the q-sign-time and q-key-time slots,
    `host` as the only signed header, no signed URL parameter, and the signature.
   */
  lemma AuthorizationParses(p: Primitives, d: QcloudCosFile, now: int, verb: string, path: string)
    requires Conforming(p)
    requires '&' !in d.secretId
    ensures ParseQuery(Authorization(p, d, now, verb, path)) == AuthorizationFields(p, d, now, verb, path)
  {
    SignTimeSeparators(now);
    var sig := Signature(p, d, now, verb, path);
    assert IsHex(sig);
    assert '&' !in sig by {
      assert forall k :: 0 <= k < |sig| ==> sig[k] != '&';
    }
    TextParses(d.secretId, SignTime(now), sig);
  }

  /** The authorization text reads back to its fields whenever no value carries an `&`. */
  lemma TextParses(secretId: string, signTime: string, signature: string)
    requires '&' !in secretId && '&' !in signTime && '&' !in signature
    ensures ParseQuery(AuthorizationText(secretId, signTime, signature)) == FieldsOf(secretId, signTime, signature)
  {
    TextIsQuery(secretId, signTime, signature);
    FieldsSafe(secretId, signTime, signature);
    QueryRoundTrip(FieldsOf(secretId, signTime, signature));
  }

  /** The seven keys hold neither `=` nor `&`, so only the values need checking. */
  lemma FieldsSafe(secretId: string, signTime: string, signature: string)
    requires '&' !in secretId && '&' !in signTime && '&' !in signature
    ensures QuerySafe(FieldsOf(secretId, signTime, signature))
  {
  }


  // ---------------------------------------------------------------------------
  // Requests

  /** Every operation signs `/savePath` and requests `http://apiHost/savePath`. */
  function ObjectUrl(d: QcloudCosFile, path: string): string
  {
    "http://" + ApiHost(d) + path
  }

  /** `doUploadFile`: a PUT carrying Content-Type and `x-cos-acl: public-read`; only `host` is signed. */
  function UploadRequest(p: Primitives, d: QcloudCosFile, now: int, savePath: string,
                         body: Body, contentType: Option<string>): Request
  {
    var path := "/" + savePath;
    Request("PUT", ObjectUrl(d, path),
            [("Content-Type", ContentTypeFor(p, savePath, contentType)), ("x-cos-acl", "public-read"),
             ("Authorization", Authorization(p, d, now, "PUT", path))],
            body)
  }

  /** `readFile` and `deleteFile`: only the Authorization header. */
  function PlainRequest(p: Primitives, d: QcloudCosFile, now: int, verb: string, savePath: string): Request
  {
    var path := "/" + savePath;
    Request(verb, ObjectUrl(d, path), [("Authorization", Authorization(p, d, now, verb, path))], NoBody)
  }

  /** The request's Authorization is the one for its own verb and the path its URL names on the API host. */
  predicate SignatureMatches(p: Primitives, d: QcloudCosFile, now: int, req: Request)
  {
    var prefix := "http://" + ApiHost(d);
    && |req.url| >= |prefix| && req.url[..|prefix|] == prefix
    && HeaderValue(req.headers, "Authorization") == Some(Authorization(p, d, now, req.verb, req.url[|prefix|..]))
  }

  lemma UrlSplit(prefix: string, path: string)
    ensures (prefix + path)[..|prefix|] == prefix && (prefix + path)[|prefix|..] == path
  {
  }

  /** An upload sends the resolved content type and the public-read ACL, signed for the path it requests. */
  lemma UploadRequestSigned(p: Primitives, d: QcloudCosFile, now: int, savePath: string,
                            body: Body, contentType: Option<string>)
    ensures var req := UploadRequest(p, d, now, savePath, body, contentType);
            && req.verb == "PUT"
            && req.url == "http://" + ApiHost(d) + "/" + savePath
            && req.body == body
            && HeaderValue(req.headers, "Content-Type") == Some(ContentTypeFor(p, savePath, contentType))
            && HeaderValue(req.headers, "x-cos-acl") == Some("public-read")
            && SignatureMatches(p, d, now, req)
  {
    var req := UploadRequest(p, d, now, savePath, body, contentType);
    var h := req.headers;
    assert h[1..] == [h[1], h[2]] && h[2..] == [h[2]];
    assert |"Content-Type"| == 12 && |"x-cos-acl"| == 9 && |"Authorization"| == 13;
    assert HeaderValue(h, "x-cos-acl") == HeaderValue(h[1..], "x-cos-acl");
    assert HeaderValue(h, "Authorization") == HeaderValue(h[1..], "Authorization")
        == HeaderValue(h[2..], "Authorization");
    UrlSplit("http://" + ApiHost(d), "/" + savePath);
  }

  /** Reads and deletes are signed for the path they request. */
  lemma PlainRequestSigned(p: Primitives, d: QcloudCosFile, now: int, verb: string, savePath: string)
    ensures var req := PlainRequest(p, d, now, verb, savePath);
            && req.url == "http://" + ApiHost(d) + "/" + savePath
            && SignatureMatches(p, d, now, req)
  {
    UrlSplit("http://" + ApiHost(d), "/" + savePath);
  }

  // ---------------------------------------------------------------------------
  // Operations

  const UploadSuccess := 200
  const ReadSuccess := 200
  const DeleteSuccess := 204

  /** `writeFile`: success is status 200, anything else a `[Code]Message` error. */
  function WriteFile(env: Env, d: QcloudCosFile, savePath: string, content: string,
                     contentType: Option<string>): (r: Result<()>)
    ensures var resp := env.send(UploadRequest(env.prims, d, env.now, savePath, Raw(content), contentType));
            && (r.Ok? <==> resp.status == 200)
            && (r.Err? ==> r.error == FsException(BracketMessage(env.prims.xmlCode(resp.body),
                                                                 env.prims.xmlMessage(resp.body))))
  {
    Expect(env.prims, XmlCodeMessage, UploadSuccess,
           env.send(UploadRequest(env.prims, d, env.now, savePath, Raw(content), contentType)))
  }

  /** `saveFile`: fails before any request when the local file is missing, otherwise uploads its content. */
  function SaveFile(env: Env, d: QcloudCosFile, files: map<string, string>, tmpPath: string,
                    savePath: string, contentType: Option<string>): (r: Result<()>)
    ensures tmpPath !in files ==> r == Err(FsException("文件" + tmpPath + "不存在"))
    ensures tmpPath in files ==> r == WriteFile(env, d, savePath, files[tmpPath], contentType)
  {
    if tmpPath !in files then Err(FsException("文件" + tmpPath + "不存在"))
    else Expect(env.prims, XmlCodeMessage, UploadSuccess,
                env.send(UploadRequest(env.prims, d, env.now, savePath, Raw(files[tmpPath]), contentType)))
  }

  /** `readFile`: on status 200 the body unchanged, otherwise a `[Code]Message` error. */
  function ReadFile(env: Env, d: QcloudCosFile, savePath: string): (r: Result<string>)
    ensures var resp := env.send(PlainRequest(env.prims, d, env.now, "GET", savePath));
            && (r.Ok? <==> resp.status == 200)
            && (r.Ok? ==> r.value == resp.body)
            && (r.Err? ==> r.error == FsException(BracketMessage(env.prims.xmlCode(resp.body),
                                                                 env.prims.xmlMessage(resp.body))))
  {
    ExpectBody(env.prims, XmlCodeMessage, ReadSuccess, env.send(PlainRequest(env.prims, d, env.now, "GET", savePath)))
  }

  /** `deleteFile`: success is status 204, anything else a `[Code]Message` error. */
  function DeleteFile(env: Env, d: QcloudCosFile, savePath: string): (r: Result<()>)
    ensures var resp := env.send(PlainRequest(env.prims, d, env.now, "DELETE", savePath));
            && (r.Ok? <==> resp.status == 204)
            && (r.Err? ==> r.error == FsException(BracketMessage(env.prims.xmlCode(resp.body),
                                                                 env.prims.xmlMessage(resp.body))))
  {
    Expect(env.prims, XmlCodeMessage, DeleteSuccess, env.send(PlainRequest(env.prims, d, env.now, "DELETE", savePath)))
  }

  /** `getFileUrl`: the public address, `httpContext/savePath`, built without any request. */
  function GetFileUrl(d: QcloudCosFile, savePath: string): (r: string)
    ensures |r| == |d.httpContext| + 1 + |savePath|
    ensures r[..|d.httpContext|] == d.httpContext && r[|d.httpContext|] == '/'
    ensures r[|d.httpContext| + 1..] == savePath
  {
    d.httpContext + "/" + savePath
  }
}
