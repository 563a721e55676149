/**
  The four drivers behind the `IFileSystem` interface, and what each of the
  five interface operations does with a driver, the local disk and the
  outside world.
 */
module Drivers {

  import opened Wrappers
  import opened Config
  import opened ParamChecker
  import opened Http
  import LocalDriver
  import AliyunOss
  import QcloudCos
  import Qiniu

  /** A constructed driver, by the class it is an instance of. */
  datatype Driver =
    | LocalFile(local: LocalDriver.LocalFile)
    | AliyunOssFile(oss: AliyunOss.AliyunOssFile)
    | QcloudCosFile(cos: QcloudCos.QcloudCosFile)
    | QiniuFile(qiniu: Qiniu.QiniuFile)

  /** The classes of `liuguang\fs\drivers`. */
  const DriverClasses: set<string> := {"LocalFile", "AliyunOssFile", "QcloudCosFile", "QiniuFile"}

  /** The keys each driver's constructor demands, in the order it checks them. */
  function RequiredOf(className: string): seq<string>
    requires className in DriverClasses
  {
    if className == "LocalFile" then LocalDriver.RequiredFields
    else if className == "AliyunOssFile" then AliyunOss.RequiredFields
    else if className == "QiniuFile" then Qiniu.RequiredFields
    else []
  }

  /** `new $driverClass($config)`. */
  function Construct(className: string, config: Config): Result<Driver>
    requires className in DriverClasses
  {
    if className == "LocalFile" then
      match LocalDriver.New(config)
      case Err(e) => Err(e)
      case Ok(d) => Ok(LocalFile(d))
    else if className == "AliyunOssFile" then
      match AliyunOss.New(config)
      case Err(e) => Err(e)
      case Ok(d) => Ok(AliyunOssFile(d))
    else if className == "QiniuFile" then
      match Qiniu.New(config)
      case Err(e) => Err(e)
      case Ok(d) => Ok(QiniuFile(d))
    else Ok(QcloudCosFile(QcloudCos.New(config)))
  }

  /**
    Constructing a driver fails exactly when one of its required keys is
    missing, and then with the error naming the first of them; the Tencent
    COS driver requires none and always constructs.
   */
  lemma ConstructFailsIffMissingKey(className: string, config: Config)
    requires className in DriverClasses
    ensures Construct(className, config).Ok?
            <==> forall i :: 0 <= i < |RequiredOf(className)| ==> RequiredOf(className)[i] in config
    ensures Construct(className, config).Err?
            ==> Construct(className, config).error == Check(config, RequiredOf(className)).error
    ensures className == "QcloudCosFile" ==> Construct(className, config).Ok?
  {
    if className == "LocalFile" {
      var need := LocalDriver.RequiredFields;
      assert need == ["saveDir"];
      assert RequiredOf(className) == need && need[0] == "saveDir";
      assert (forall i :: 0 <= i < |need| ==> need[i] in config) <==> need[0] in config;
      assert Construct(className, config).Ok? <==> LocalDriver.New(config).Ok?;
    } else if className == "AliyunOssFile" {
      assert RequiredOf(className) == AliyunOss.RequiredFields;
      assert Construct(className, config).Ok? <==> AliyunOss.New(config).Ok?;
    } else if className == "QiniuFile" {
      assert RequiredOf(className) == Qiniu.RequiredFields;
      assert Construct(className, config).Ok? <==> Qiniu.New(config).Ok?;
    }
  }

  // ---------------------------------------------------------------------------
  // The interface operations. Each gives its result and the local store after it.

  function Save(env: Env, drv: Driver, files: map<string, string>, tmpPath: string, savePath: string,
                contentType: Option<string>): (Result<()>, map<string, string>)
  {
    match drv
    case LocalFile(d) =>
      (match LocalDriver.Saved(d, files, tmpPath, savePath)
       case Err(e) => (Err(e), files)
       case Ok(m) => (Ok(()), m))
    case AliyunOssFile(d) => (AliyunOss.SaveFile(env, d, files, tmpPath, savePath, contentType), files)
    case QcloudCosFile(d) => (QcloudCos.SaveFile(env, d, files, tmpPath, savePath, contentType), files)
    case QiniuFile(d) => (Qiniu.SaveFile(env, d, files, tmpPath, savePath, contentType), files)
  }

  function Write(env: Env, drv: Driver, files: map<string, string>, savePath: string, content: string,
                 contentType: Option<string>): (Result<()>, map<string, string>)
  {
    match drv
    case LocalFile(d) => (Ok(()), LocalDriver.Written(d, files, savePath, content))
    case AliyunOssFile(d) => (AliyunOss.WriteFile(env, d, savePath, content, contentType), files)
    case QcloudCosFile(d) => (QcloudCos.WriteFile(env, d, savePath, content, contentType), files)
    case QiniuFile(d) => (Qiniu.WriteFile(env, d, savePath, content, contentType), files)
  }

  function Read(env: Env, drv: Driver, files: map<string, string>, savePath: string): Result<string>
  {
    match drv
    case LocalFile(d) => LocalDriver.Read(d, files, savePath)
    case AliyunOssFile(d) => AliyunOss.ReadFile(env, d, savePath)
    case QcloudCosFile(d) => QcloudCos.ReadFile(env, d, savePath)
    case QiniuFile(d) => Qiniu.ReadFile(env, d, savePath)
  }

  /** The local driver removes the file, as the interface intends. */
  function Delete(env: Env, drv: Driver, files: map<string, string>, savePath: string): (Result<()>, map<string, string>)
  {
    match drv
    case LocalFile(d) =>
      (match LocalDriver.Deleted(d, files, savePath)
       case Err(e) => (Err(e), files)
       case Ok(m) => (Ok(()), m))
    case AliyunOssFile(d) => (AliyunOss.DeleteFile(env, d, savePath), files)
    case QcloudCosFile(d) => (QcloudCos.DeleteFile(env, d, savePath), files)
    case QiniuFile(d) => (Qiniu.DeleteFile(env, d, savePath), files)
  }

  function FileUrl(drv: Driver, savePath: string): Result<string>
  {
    match drv
    case LocalFile(d) => LocalDriver.GetFileUrl(d, savePath)
    case AliyunOssFile(d) => Ok(AliyunOss.GetFileUrl(d, savePath))
    case QcloudCosFile(d) => Ok(QcloudCos.GetFileUrl(d, savePath))
    case QiniuFile(d) => Ok(Qiniu.GetFileUrl(d, savePath))
  }

  /** The public base address a driver was configured with, if any. */
  function HttpContext(drv: Driver): Option<string>
  {
    match drv
    case LocalFile(d) => d.httpContext
    case AliyunOssFile(d) => Some(d.httpContext)
    case QcloudCosFile(d) => Some(d.httpContext)
    case QiniuFile(d) => Some(d.httpContext)
  }

  /**
    Every driver's `saveFile` first checks that the local file exists, failing
    with the same message and no effect when it does not, and is otherwise
    its own `writeFile` of that file's content.
   */
  lemma SaveIsWriteOfSource(env: Env, drv: Driver, files: map<string, string>, tmpPath: string,
                            savePath: string, contentType: Option<string>)
    ensures tmpPath !in files ==> Save(env, drv, files, tmpPath, savePath, contentType)
                                  == (Err(FsException("文件" + tmpPath + "不存在")), files)
    ensures tmpPath in files ==> Save(env, drv, files, tmpPath, savePath, contentType)
                                 == Write(env, drv, files, savePath, files[tmpPath], contentType)
  {
    if drv.LocalFile? {
      LocalDriver.SavedIsWriteOfSource(drv.local, files, tmpPath, savePath);
    }
  }

  /** Only the local driver changes the local store. */
  lemma RemoteKeepsStore(env: Env, drv: Driver, files: map<string, string>, tmpPath: string, savePath: string,
                         content: string, contentType: Option<string>)
    requires !drv.LocalFile?
    ensures Save(env, drv, files, tmpPath, savePath, contentType).1 == files
    ensures Write(env, drv, files, savePath, content, contentType).1 == files
    ensures Delete(env, drv, files, savePath).1 == files
  {
  }

  /**
    With the local driver, what is written reads back, other paths keep
    their content, and a deleted file no longer reads.
   */
  lemma LocalRoundTrips(env: Env, drv: Driver, files: map<string, string>, savePath: string, content: string,
                        contentType: Option<string>, other: string)
    requires drv.LocalFile?
    ensures var after := Write(env, drv, files, savePath, content, contentType).1;
            && Read(env, drv, after, savePath) == Ok(content)
            && (other != savePath ==> Read(env, drv, after, other) == Read(env, drv, files, other))
    ensures Delete(env, drv, files, savePath).0.Ok? ==> Read(env, drv, Delete(env, drv, files, savePath).1, savePath).Err?
  {
    LocalDriver.ReadAfterWrite(drv.local, files, savePath, content, other);
    LocalDriver.ReadAfterDelete(drv.local, files, savePath, other);
  }

  /** A public URL, when there is one, is the configured address, a slash, and the save path. */
  lemma FileUrlIsPublicPath(drv: Driver, savePath: string)
    ensures FileUrl(drv, savePath).Ok? <==> HttpContext(drv).Some?
    ensures FileUrl(drv, savePath).Ok? ==> FileUrl(drv, savePath).value == HttpContext(drv).value + "/" + savePath
  {
    var r := FileUrl(drv, savePath);
    if r.Ok? {
      var h := HttpContext(drv).value;
      assert r.value == r.value[..|h| + 1] + r.value[|h| + 1..];
      if !drv.LocalFile? {
        assert r.value[..|h| + 1] == r.value[..|h|] + [r.value[|h|]];
      }
    }
  }
}
