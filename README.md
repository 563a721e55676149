# liuguang/filesystem in Dafny

A model of `liuguang\fs`, a PHP file-storage facade. A `FileSystem` picks one of
four drivers from its configuration and forwards five operations to it:
`saveFile` (upload a local file), `writeFile` (upload a string), `readFile`,
`deleteFile` and `getFileUrl`. The drivers are:

- `LocalFile`: files under `saveDir` on the local disk.
- `AliyunOssFile`: Aliyun OSS, signed with an `OSS id:signature` header over a canonical string.
- `QcloudCosFile`: Tencent COS, signed with a query-string-shaped `Authorization` value built by a two-stage HMAC-SHA1 over a sign-time window.
- `QiniuFile`: Qiniu Kodo. It uses an upload token in a multipart form, a `QBox` admin token for deletes and a signed private download URL for reads.

The model keeps what the servers check byte for byte: the exact layout of
every string-to-sign, token, header and URL. It also keeps which status counts
as success, the error texts and the driver selection. The foreign functions
(HMAC-SHA1, SHA-1, base64, JSON, XML reading, `urldecode`, MIME lookup) are
the fields of a `Primitives` value. `Conforming(p)` states the output
alphabets the code relies on: base64 text in the alphabet of section 4 of
RFC 4648, and lower-case hexadecimal from PHP's `hash_hmac` and `sha1`, whose
default output is hex.
The clock reading, the formatted date and the HTTP transport are the fields
of an `Env`. A remote operation is a function of the `Env`, the driver and
the local files. Each one is proved to send one request of the proven shape
and to read the result from the response's status.

The local disk is a `FileStore.Disk` object whose `files` map the methods
update. Local `saveFile`, `writeFile`, `readFile` and `deleteFile` are methods
on it. Each is proved against a function on maps, and the round trips are
lemmas about those functions. `ParamChecker.CheckConfig` keeps the source's
early-exit loop. `Facade.FileSystem.Open` follows the constructor step by
step.

Files: `wrappers.dfy` (Option, Result, errors), `strings.dfy` (PHP string
builtins), `config.dfy`, `param_checker.dfy`, `primitives.dfy`, `http.dfy`
(requests, responses, error translation), `file_store.dfy`, `local_file.dfy`,
`aliyun_oss.dfy`, `qcloud_cos.dfy`, `qiniu.dfy`, `drivers.dfy` (the closed
set of drivers and the five operations over it) and `facade.dfy`.

## Model

| member | source | states |
|---|---|---|
| ParamChecker.FirstMissing | src/ParamChecker.php:13-20 | the first required name that is not a key of the config: none iff all are keys, otherwise missing with every earlier name present |
| ParamChecker.CheckConfig | src/ParamChecker.php:13-20 | the loop succeeds iff every required name is a key (a key mapped to null counts, an empty list always succeeds); otherwise the error is `config:<field> is not defined` for the first missing field in list order; the config is a value and is not changed |
| ParamChecker.FirstMissingIsFirst | src/ParamChecker.php:15-17 | "missing here, present before" pins the first missing index, which is what the loop's early exit reports |
| Strings.Lower | src/drivers/AliyunOssFile.php:49 | `strtolower` keeps the length and lowers each ASCII capital, nothing else |
| Strings.Ucfirst | src/FileSystem.php:21 | `ucfirst` raises the first character only and keeps the rest |
| Strings.UcfirstIgnoresFirstCase | src/FileSystem.php:21 | names that differ only in the case of their first letter give the same `ucfirst` |
| Strings.IntToDecRoundTrip | src/drivers/QcloudCosFile.php:60 | an integer written in decimal, as PHP concatenation writes it, reads back to itself |
| Strings.Basename | src/drivers/QiniuFile.php:169 | the upload file name is the last `/`-separated component of the path with trailing slashes trimmed: a slash-free suffix of it, preceded by `/` or the whole trimmed path; the path itself when it has no `/` |
| Strings.TerminatedRoundTrip | src/drivers/QcloudCosFile.php:61-62 | newline-free lines joined with terminating newlines split back into the same lines |
| Http.ContentTypeFor | src/drivers/AliyunOssFile.php:91-93 | an upload's content type is the caller's, or else the MIME type of the remote path, never the local path |
| Http.BracketMessageRoundTrip | src/drivers/AliyunOssFile.php:72-80 | the `[Code]Message` error text gives back both Code and Message when Code has no `]` |
| Http.Expect | src/drivers/AliyunOssFile.php:190-193 | an operation succeeds iff the status is the one success status; otherwise the error is the translated body |
| Http.ExpectBody | src/drivers/AliyunOssFile.php:164-168 | a read succeeds iff the status is the success status, and then returns the body unchanged |
| AliyunOss.New | src/drivers/AliyunOssFile.php:27-41 | construction succeeds iff all five keys are present, fails with the first missing one, and copies the fields |
| AliyunOss.CanonicalHeadersAppend | src/drivers/AliyunOssFile.php:48-50 | OSS headers are canonicalised line by line in insertion order |
| AliyunOss.CanonicalHeadersSingle | src/drivers/AliyunOssFile.php:49 | one header gives `lower(key):value\n` |
| AliyunOss.StringToSignLayout | src/drivers/AliyunOssFile.php:45-51 | the string-to-sign is the verb, an empty line, the content type and the date, then the header lines, then `/bucket/object` (and the query) |
| AliyunOss.QuerySignedIffNonEmpty | src/drivers/AliyunOssFile.php:51-54 | with no `?` in bucket or object name, splitting the part after the header block at its first `?` gives back `/bucket/object` and the query; there is no `?` iff the query is empty |
| AliyunOss.GetAuthorization | src/drivers/AliyunOssFile.php:43-57 | the header loop and appends produce `OSS id:base64(HMAC-SHA1(stringToSign, secret))` |
| AliyunOss.OssHeadersOf | src/drivers/AliyunOssFile.php:97-104 | a receiver's view of the signed headers: only `x-oss-` headers, in order |
| AliyunOss.UploadHeaders | src/drivers/AliyunOssFile.php:97-104 | the upload header list carries the content type, the date, the public-read ACL and the signature, and its only OSS header is the ACL |
| AliyunOss.UploadRequestSigned | src/drivers/AliyunOssFile.php:89-109 | an upload PUTs to `apiHttpContext/savePath`; the one date is both sent and signed; the sent content type is the signed one (defaulting to the remote path's MIME type); the ACL header is sent and signed; the signature matches what the request carries |
| AliyunOss.PlainRequestSigned | src/drivers/AliyunOssFile.php:153-164 | reads and deletes send the signed date, sign no content type, no OSS header and no query, and their signature matches the request |
| AliyunOss.WriteFile | src/drivers/AliyunOssFile.php:138-143 | success iff status 200; otherwise `[Code]Message` from the body |
| AliyunOss.SaveFile | src/drivers/AliyunOssFile.php:121-130 | a missing local file fails with `文件<tmpPath>不存在` before any request; otherwise it is `writeFile` of the file's content |
| AliyunOss.ReadFile | src/drivers/AliyunOssFile.php:151-169 | success iff status 200, returning the body; otherwise `[Code]Message` |
| AliyunOss.DeleteFile | src/drivers/AliyunOssFile.php:177-194 | success iff status 204; otherwise `[Code]Message` |
| AliyunOss.GetFileUrl | src/drivers/AliyunOssFile.php:202-205 | the public URL is `httpContext/savePath` |
| QcloudCos.New | src/drivers/QcloudCosFile.php:43-51 | the constructor checks nothing and copies the six keys, a missing one reading as "" |
| QcloudCos.ApiHost | src/drivers/QcloudCosFile.php:53-56 | the API host is `bucketName-appId.cos.region.myqcloud.com` |
| QcloudCos.SignTimeWindow | src/drivers/QcloudCosFile.php:60 | the sign time reads back as the window from now-60 to now+600, whose start is before its end |
| QcloudCos.HttpStringLines | src/drivers/QcloudCosFile.php:61 | the HTTP string is the lines: lower-case verb, decoded path, empty parameters, `host=apiHost` |
| QcloudCos.StringToSignLines | src/drivers/QcloudCosFile.php:62 | the string-to-sign is the lines `sha1`, the sign time, and the SHA-1 of the HTTP string |
| QcloudCos.StringToSignReadsBack | src/drivers/QcloudCosFile.php:62 | a receiver splitting the string-to-sign at newlines gets those three lines back |
| QcloudCos.PairRoundTrip | src/drivers/QcloudCosFile.php:66-67 | a `key=value` pair reads back when the key has no `=` |
| QcloudCos.QueryRoundTrip | src/drivers/QcloudCosFile.php:66-67 | pairs joined with `&` read back in order when no key has `=` or `&` and no value has `&` |
| QcloudCos.TextRegrouped | src/drivers/QcloudCosFile.php:66-67 | the two appends regroup as seven `key=value` pieces joined by `&` |
| QcloudCos.TextIsQuery | src/drivers/QcloudCosFile.php:66-67 | the authorization text is exactly the query string of its seven fields |
| QcloudCos.TextParses | src/drivers/QcloudCosFile.php:66-67 | with `&`-free values, the authorization text parses back into its seven fields |
| QcloudCos.AuthorizationParses | src/drivers/QcloudCosFile.php:58-69 | the authorization parses as algorithm sha1, the secret id, the same sign time in both time slots, `host` as the only signed header, no signed URL parameter, and the signature |
| QcloudCos.UploadRequestSigned | src/drivers/QcloudCosFile.php:101-116 | an upload PUTs to `http://apiHost/savePath`, sends the resolved content type and `x-cos-acl: public-read`, and is signed for that method and path |
| QcloudCos.PlainRequestSigned | src/drivers/QcloudCosFile.php:158-168 | reads and deletes request `http://apiHost/savePath` signed for that same path |
| QcloudCos.WriteFile | src/drivers/QcloudCosFile.php:145-150 | success iff status 200; otherwise `[Code]Message` |
| QcloudCos.SaveFile | src/drivers/QcloudCosFile.php:128-137 | a missing local file fails before any request; otherwise it is `writeFile` of its content |
| QcloudCos.ReadFile | src/drivers/QcloudCosFile.php:158-173 | success iff status 200, returning the body; otherwise `[Code]Message` |
| QcloudCos.DeleteFile | src/drivers/QcloudCosFile.php:181-195 | success iff status 204; otherwise `[Code]Message` |
| QcloudCos.GetFileUrl | src/drivers/QcloudCosFile.php:203-206 | the public URL is `httpContext/savePath` |
| Qiniu.New | src/drivers/QiniuFile.php:40-54 | construction succeeds iff all five keys are present, fails with the first missing one, and copies the fields |
| Qiniu.UrlSafe | src/drivers/QiniuFile.php:94-103 | the substitution keeps the length and replaces `+` by `-` and `/` by `_`, character by character |
| Qiniu.UrlSafeToStd | src/drivers/QiniuFile.php:94-103 | the reverse substitution, character by character |
| Qiniu.UrlSafeAlphabet | src/drivers/QiniuFile.php:94-103 | the output holds neither `+` nor `/`, and `=` padding stays in place |
| Qiniu.UrlSafeRoundTrip | src/drivers/QiniuFile.php:94-103 | standard base64 goes into the alphabet of section 5 of RFC 4648 and comes back unchanged |
| Qiniu.SafeBase64Separators | src/drivers/QiniuFile.php:94-103 | `safeBase64` output decodes to the standard encoding and holds no `:`, `&` or `?` |
| Qiniu.PolicyFields | src/drivers/QiniuFile.php:63-71 | the policy's scope is the bucket, its deadline is now+600, and its return body is the JSON of name, size and hash |
| Qiniu.ParseTokenOf | src/drivers/QiniuFile.php:74 | a token splits at its last two colons into its three parts |
| Qiniu.UploadTokenVerifies | src/drivers/QiniuFile.php:61-75 | the upload token is `accessKey:sign:encodedPolicy`; the sign is the HMAC of exactly the third part; that part decodes to the policy's JSON |
| Qiniu.ResUrlQuery | src/drivers/QiniuFile.php:77-85 | the resource URL is `/action/safeBase64(bucket:object)`; `?query` follows iff the query is not PHP-empty (so "0" is dropped) |
| Qiniu.DeleteRequestSigned | src/drivers/QiniuFile.php:221-236 | a delete POSTs form-encoded to `rsApiUrl/delete/<entry>` with no query, and `Authorization: QBox accessKey:sign(path + "\n")` over that same path |
| Qiniu.DownloadDeadline | src/drivers/QiniuFile.php:202 | the signed download URL carries `e=` now+600, readable after its last `=` |
| Qiniu.DownloadUrlVerifies | src/drivers/QiniuFile.php:202-206 | the fetched URL splits at its last `&` into the base URL and `token=accessKey:sign`, the sign taken over that base URL |
| Qiniu.UploadRequest | src/drivers/QiniuFile.php:146-148 | an upload has a host iff the region is one of the five in the table; otherwise no request can be sent |
| Qiniu.UploadRequestShape | src/drivers/QiniuFile.php:130-148 | an upload POSTs to the region's host the fields `key=savePath`, `token` = the driver's upload token for this moment (its policy scopes the bucket and expires at now+600, and it verifies under the driver's keys), and the file with the name `basename(savePath)`, which holds no `/`, and the resolved content type |
| Qiniu.WriteFile | src/drivers/QiniuFile.php:182-192 | success iff status 200; otherwise the JSON body's `error` |
| Qiniu.SaveFile | src/drivers/QiniuFile.php:161-174 | a missing local file fails before any request; otherwise it is `writeFile` of its content |
| Qiniu.ReadFile | src/drivers/QiniuFile.php:200-213 | a GET of the signed download URL; success iff status 200, returning the body; otherwise the JSON `error` |
| Qiniu.DeleteFile | src/drivers/QiniuFile.php:221-236 | success iff status 200; otherwise the JSON `error` |
| Qiniu.GetFileUrl | src/drivers/QiniuFile.php:244-247 | the public URL is `httpContext/savePath` |
| LocalDriver.New | src/drivers/LocalFile.php:22-31 | construction fails iff `saveDir` is missing; `httpContext` is set iff its key is present and not null |
| LocalDriver.DistPathInjective | src/drivers/LocalFile.php:56-59 | destinations lie under `saveDir/./`, and distinct save paths have distinct destinations |
| LocalDriver.GetFileUrl | src/drivers/LocalFile.php:138-144 | fails with `\Exception` iff there is no `httpContext`; otherwise `httpContext/savePath` |
| LocalDriver.ReadAfterWrite | src/drivers/LocalFile.php:85-111 | reading what was written gives it back; other save paths read as before |
| LocalDriver.SavedIsWriteOfSource | src/drivers/LocalFile.php:67-77 | `saveFile` fails iff `tmpPath` is not a file, before touching the destination; otherwise it writes that file's content, which then reads back |
| LocalDriver.ReadFailsIffAbsent | src/drivers/LocalFile.php:100-105 | `readFile` fails iff the destination is absent, with `目标文件路径不存在` |
| LocalDriver.DeleteLeavesFile | src/drivers/LocalFile.php:119-130 | without the stray `return`, a successful delete leaves the file readable with its old content |
| LocalDriver.ReadAfterDelete | src/drivers/LocalFile.php:119-130 | with removal, a delete fails in the same cases, the file no longer reads, and other paths are untouched |
| LocalDriver.SaveFile | src/drivers/LocalFile.php:67-77 | on the disk: copies the source's content to the destination, or fails changing nothing |
| LocalDriver.WriteFile | src/drivers/LocalFile.php:85-92 | on the disk: the destination holds the content |
| LocalDriver.ReadFile | src/drivers/LocalFile.php:100-111 | on the disk: the destination's content, or the not-found error |
| LocalDriver.DeleteFile | src/drivers/LocalFile.php:119-130 | as written, less the stray `return`: the checks of `readFile`, and the disk is not changed |
| LocalDriver.DeleteFileRemoving | src/drivers/LocalFile.php:119-130 | as intended: the destination is removed, or it fails changing nothing |
| Drivers.ConstructFailsIffMissingKey | src/FileSystem.php:26 | constructing a driver fails iff one of its required keys is missing, with the first one named; the COS driver always constructs |
| Drivers.SaveIsWriteOfSource | src/FileSystem.php:41-44 | for every driver, `saveFile` of a missing local file fails with the same message and no effect; otherwise it is `writeFile` of that file's content |
| Drivers.RemoteKeepsStore | src/FileSystem.php:41-87 | remote drivers never change the local disk |
| Drivers.LocalRoundTrips | src/FileSystem.php:58-87 | through the local driver, writes read back, other paths are untouched, and deleted files no longer read |
| Drivers.FileUrlIsPublicPath | src/FileSystem.php:97-100 | a public URL exists iff the driver has an `httpContext`, and is `httpContext/savePath` |
| Facade.Stripped | src/FileSystem.php:25 | removing `driver` keeps every other entry unchanged |
| Facade.SelectCases | src/FileSystem.php:15-27 | no `driver` key fails; an unknown class fails with `filesystem driver [name] not found`; otherwise the class's constructor gets the config without `driver` |
| Facade.SelectIgnoresFirstLetterCase | src/FileSystem.php:21 | driver names that differ only in first-letter case select the same driver |
| Facade.LocalByEitherCase | src/FileSystem.php:21-26 | `local` and `Local` both give the local driver, which never sees the `driver` key |
| Facade.FileSystem.Open | src/FileSystem.php:15-27 | the constructor's steps give the selected driver, or its error with no driver built |
| Facade.FileSystem.SaveFile | src/FileSystem.php:41-44 | forwards to the driver; the result and the disk are the driver's |
| Facade.FileSystem.WriteFile | src/FileSystem.php:58-61 | forwards to the driver; the result and the disk are the driver's |
| Facade.FileSystem.ReadFile | src/FileSystem.php:71-74 | returns the driver's result unchanged |
| Facade.FileSystem.DeleteFile | src/FileSystem.php:84-87 | forwards to the driver, with the local delete corrected to remove the file |
| Facade.FileSystem.GetFileUrl | src/FileSystem.php:97-100 | returns the driver's result unchanged |

## Left out

- HMAC-SHA1, SHA-1, `base64_encode`, `json_encode`/`json_decode`, XML parsing, `urldecode` and `MimeHelper::getMimetype` are foreign. They are fields of `Primitives`, constrained only by their output alphabets (`Conforming`).
- The HTTP transport (Guzzle) is the function `Env.send`. The error text read from a failure body is whatever the primitives' XML or JSON reading gives. PHP 8 only warns when a `Code`/`Message` node or the `error` field is missing. So a malformed body still ends in `FsException("[]")` for Aliyun and COS and `FsException("")` for Qiniu, and the primitives stand for that reading. An empty XML body, on which `loadXML` throws a `ValueError` instead, is not modelled.
- `time()` and `gmdate()` are one reading per operation, `Env.now` and `Env.date` of the `Env` each `FileSystem` operation is given. In `QcloudCosFile::getAuthorization` the source reads the clock twice. The model reads it once, so the window is exactly 660 seconds.
- Local I/O failures are not modelled. These are the `mkdir` of the destination directory (`buildDistDir`, mode 0755), a failing `copy` or `file_put_contents`, and an unreadable file. Directories, permissions and streams are not modelled either. The `Disk` maps paths to contents, compared as strings, so `a/./b` and `a/b` are different keys.
- `class_exists` is case-insensitive and autoloads. Driver selection here is an exact match of `ucfirst(driver) . 'File'` against the four class names.
- `IFileSystem` has signatures only. It is the closed `Drivers.Driver` datatype.
- Strings.Basename: trailing slashes are trimmed and the last `/` component is kept. PHP's locale-dependent multibyte handling is not modelled.
- Strings.Lower: only ASCII letters change case, as in PHP 8's `strtolower`.
- Qiniu.UploadRequest: a region outside the table makes the source pass a null URL to Guzzle, which throws. The model returns `NoUploadEndpoint(region)` and sends nothing.
- Facade.FileSystem.DeleteFile: for the local driver it forwards to the corrected `DeleteFileRemoving`, not the as-written `DeleteFile` (see Findings).
- The local driver is modelled as if the stray `return $content;` in `LocalFile::deleteFile` were absent. As written, PHP rejects the class when it loads, so selecting `local` is a fatal error and no local operation runs (see Findings). `LocalDriver`, `Drivers.LocalRoundTrips` and `Facade.LocalByEitherCase` describe the class with that line removed.
- Remote `saveFile` streams the local file. The model uploads the file's content at call time.

Where the code and the library's stated intent differ, the model follows the code:

- Success is one exact status per operation, 200 or 204. It is not "any 2xx".
- The Qiniu `getResUrl` drops a query of "0", since PHP's `empty("0")` is true. Aliyun's `$query != ''` keeps it.
- The COS constructor checks no keys.
- The local `deleteFile` does not compile, and without its `return` it removes nothing (see Findings).

## Findings

| source | as written | input that shows it | evidently intended | confidence | as-written member | corrected member |
|---|---|---|---|---|---|---|
| src/drivers/LocalFile.php:119-130 | the class does not compile: `deleteFile` is declared `: void` and returns `$content`, which PHP 7.1+ rejects when the class loads; without the `return`, the method checks that the target exists, reads it, and deletes nothing | loading the class, e.g. `new FileSystem(['driver' => 'local', 'saveDir' => 'd'])`, is a fatal error; with the `return` removed, `writeFile("a", "x")`, then `deleteFile("a")` succeeds, then `readFile("a")` still returns `"x"` | the target is removed, and a later `readFile` fails with `目标文件路径不存在` | high, not executed | LocalDriver.DeleteLeavesFile | LocalDriver.ReadAfterDelete |
