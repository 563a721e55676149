/**
  The local driver (`LocalFile`): files live under `saveDir`, at
  `saveDir/./savePath`, on the disk of the machine running the code.
 */
module LocalDriver {

  import opened Wrappers
  import opened Config
  import opened ParamChecker
  import opened FileStore

  datatype LocalFile = LocalFile(saveDir: string, httpContext: Option<string>)

  const RequiredFields: seq<string> := ["saveDir"]

  /**
    The constructor: `saveDir` must be present; `httpContext` is taken only
    when it is set (present and not null), and stays null otherwise.
   */
  function New(config: Config): (r: Result<LocalFile>)
    ensures r.Ok? <==> "saveDir" in config
    ensures r.Err? ==> r.error == FsException(MissingMessage("saveDir"))
    ensures r.Ok? ==> r.value.saveDir == Get(config, "saveDir")
    ensures r.Ok? ==> (r.value.httpContext.Some? <==> "httpContext" in config && config["httpContext"] != Null)
    ensures r.Ok? && r.value.httpContext.Some? ==> r.value.httpContext.value == Get(config, "httpContext")
  {
    match Check(config, RequiredFields)
    case Err(e) => Err(e)
    case Ok(_) =>
      var httpContext := if "httpContext" in config && config["httpContext"] != Null
                         then Some(Text(config["httpContext"])) else None;
      Ok(LocalFile(Get(config, "saveDir"), httpContext))
  }

  /** `getDistPath`: `saveDir/./savePath`, with no normalisation. */
  function DistPath(d: LocalFile, savePath: string): string
  {
    d.saveDir + "/./" + savePath
  }

  /** Distinct save paths never share a destination, and every destination lies under `saveDir/./`. */
  lemma DistPathInjective(d: LocalFile, a: string, b: string)
    ensures DistPath(d, a)[..|d.saveDir| + 3] == d.saveDir + "/./"
    ensures DistPath(d, a) == DistPath(d, b) <==> a == b
  {
    var prefix := d.saveDir + "/./";
    assert DistPath(d, a) == prefix + a && DistPath(d, b) == prefix + b;
    if DistPath(d, a) == DistPath(d, b) {
      assert a == DistPath(d, a)[|prefix|..] == DistPath(d, b)[|prefix|..] == b;
    }
  }

  /** `getFileUrl`: an `\Exception` without an `httpContext`, otherwise `httpContext/savePath`. */
  function GetFileUrl(d: LocalFile, savePath: string): (r: Result<string>)
    ensures r.Err? <==> d.httpContext.None?
    ensures r.Err? ==> r.error == Exception("不支持获取URL")
    ensures r.Ok? ==> (&& |r.value| == |d.httpContext.value| + 1 + |savePath|
                       && r.value[..|d.httpContext.value| + 1] == d.httpContext.value + "/"
                       && r.value[|d.httpContext.value| + 1..] == savePath)
  {
    match d.httpContext
    case None => Err(Exception("不支持获取URL"))
    case Some(h) => Ok(h + "/" + savePath)
  }

  // ---------------------------------------------------------------------------
  // The operations on a store, as values

  function MissingSource(tmpPath: string): Error
  {
    FsException("文件" + tmpPath + "不存在")
  }

  const MissingTarget: Error := FsException("目标文件路径不存在")

  /** `saveFile` on a store: fails when `tmpPath` is not a file, else copies its content to the destination. */
  function Saved(d: LocalFile, files: map<string, string>, tmpPath: string, savePath: string)
    : Result<map<string, string>>
  {
    if tmpPath !in files then Err(MissingSource(tmpPath))
    else Ok(files[DistPath(d, savePath) := files[tmpPath]])
  }

  /** `writeFile` on a store: the destination holds `content`. */
  function Written(d: LocalFile, files: map<string, string>, savePath: string, content: string): map<string, string>
  {
    files[DistPath(d, savePath) := content]
  }

  /** `readFile` on a store. */
  function Read(d: LocalFile, files: map<string, string>, savePath: string): Result<string>
  {
    var distPath := DistPath(d, savePath);
    if distPath !in files then Err(MissingTarget) else Ok(files[distPath])
  }

  /** `deleteFile` as written, less its stray `return` (which keeps the class from compiling): the same checks as `readFile`, and the file stays where it is. */
  function DeleteAsWritten(d: LocalFile, files: map<string, string>, savePath: string): Result<()>
  {
    if DistPath(d, savePath) !in files then Err(MissingTarget) else Ok(())
  }

  /** `deleteFile` as its name and interface promise: the file is removed. */
  function Deleted(d: LocalFile, files: map<string, string>, savePath: string): Result<map<string, string>>
  {
    var distPath := DistPath(d, savePath);
    if distPath !in files then Err(MissingTarget) else Ok(files - {distPath})
  }

  /** Reading back what was written gives it back; every other save path reads as before. */
  lemma ReadAfterWrite(d: LocalFile, files: map<string, string>, savePath: string, content: string, other: string)
    ensures Read(d, Written(d, files, savePath, content), savePath) == Ok(content)
    ensures other != savePath ==> Read(d, Written(d, files, savePath, content), other) == Read(d, files, other)
  {
    DistPathInjective(d, savePath, other);
  }

  /**
    `saveFile` fails, leaving the store as it was, exactly when `tmpPath` is
    not a file; otherwise it is `writeFile` of `tmpPath`'s content, so the
    destination then reads back as that content.
   */
  lemma SavedIsWriteOfSource(d: LocalFile, files: map<string, string>, tmpPath: string, savePath: string)
    ensures Saved(d, files, tmpPath, savePath).Err? <==> tmpPath !in files
    ensures tmpPath !in files ==> Saved(d, files, tmpPath, savePath) == Err(MissingSource(tmpPath))
    ensures tmpPath in files ==> (&& Saved(d, files, tmpPath, savePath) == Ok(Written(d, files, savePath, files[tmpPath]))
                                  && Read(d, Saved(d, files, tmpPath, savePath).value, savePath) == Ok(files[tmpPath]))
  {
    if tmpPath in files {
      ReadAfterWrite(d, files, savePath, files[tmpPath], savePath);
    }
  }

  /** `readFile` fails exactly when the destination is not a file. */
  lemma ReadFailsIffAbsent(d: LocalFile, files: map<string, string>, savePath: string)
    ensures Read(d, files, savePath).Err? <==> DistPath(d, savePath) !in files
    ensures Read(d, files, savePath).Err? ==> Read(d, files, savePath).error == MissingTarget
  {
  }

  /** Without the stray `return`, a successful `deleteFile` leaves the file readable with its old content. */
  lemma DeleteLeavesFile(d: LocalFile, files: map<string, string>, savePath: string)
    ensures DeleteAsWritten(d, files, savePath).Ok? <==> Read(d, files, savePath).Ok?
    ensures DeleteAsWritten(d, files, savePath).Ok? ==> Read(d, files, savePath) == Ok(files[DistPath(d, savePath)])
  {
  }

  /** With removal, a deleted file no longer reads, and every other save path reads as before. */
  lemma ReadAfterDelete(d: LocalFile, files: map<string, string>, savePath: string, other: string)
    ensures Deleted(d, files, savePath).Err? <==> DeleteAsWritten(d, files, savePath).Err?
    ensures Deleted(d, files, savePath).Ok? ==> Read(d, Deleted(d, files, savePath).value, savePath) == Err(MissingTarget)
    ensures Deleted(d, files, savePath).Ok? && other != savePath
            ==> Read(d, Deleted(d, files, savePath).value, other) == Read(d, files, other)
  {
    DistPathInjective(d, savePath, other);
  }

  // ---------------------------------------------------------------------------
  // The operations on the disk

  /** `saveFile`: on success the destination holds the source's content; on failure nothing changes. */
  method SaveFile(d: LocalFile, disk: Disk, tmpPath: string, savePath: string) returns (r: Result<()>)
    modifies disk
    ensures Saved(d, old(disk.files), tmpPath, savePath).Err?
            ==> r == Err(Saved(d, old(disk.files), tmpPath, savePath).error) && disk.files == old(disk.files)
    ensures Saved(d, old(disk.files), tmpPath, savePath).Ok?
            ==> r == Ok(()) && disk.files == Saved(d, old(disk.files), tmpPath, savePath).value
  {
    if tmpPath !in disk.files {
      return Err(MissingSource(tmpPath));
    }
    var distPath := DistPath(d, savePath);
    disk.files := disk.files[distPath := disk.files[tmpPath]];
    return Ok(());
  }

  /** `writeFile`: the destination holds `content`; every other path is as before. */
  method WriteFile(d: LocalFile, disk: Disk, savePath: string, content: string) returns (r: Result<()>)
    modifies disk
    ensures r == Ok(())
    ensures disk.files == Written(d, old(disk.files), savePath, content)
  {
    var distPath := DistPath(d, savePath);
    disk.files := disk.files[distPath := content];
    return Ok(());
  }

  /** `readFile`: the destination's content, or an error when it is not a file. */
  method ReadFile(d: LocalFile, disk: Disk, savePath: string) returns (r: Result<string>)
    ensures r == Read(d, disk.files, savePath)
  {
    var distPath := DistPath(d, savePath);
    if distPath !in disk.files {
      return Err(MissingTarget);
    }
    return Ok(disk.files[distPath]);
  }

  /** `deleteFile` as written, less its stray `return`: it checks and reads the destination, and removes nothing. */
  method DeleteFile(d: LocalFile, disk: Disk, savePath: string) returns (r: Result<()>)
    ensures r == DeleteAsWritten(d, disk.files, savePath)
  {
    var distPath := DistPath(d, savePath);
    if distPath !in disk.files {
      return Err(MissingTarget);
    }
    var content := disk.files[distPath];
    return Ok(());
  }

  /** `deleteFile` as intended: the destination is removed; on failure nothing changes. */
  method DeleteFileRemoving(d: LocalFile, disk: Disk, savePath: string) returns (r: Result<()>)
    modifies disk
    ensures Deleted(d, old(disk.files), savePath).Err? ==> r == Err(MissingTarget) && disk.files == old(disk.files)
    ensures Deleted(d, old(disk.files), savePath).Ok?
            ==> r == Ok(()) && disk.files == Deleted(d, old(disk.files), savePath).value
  {
    var distPath := DistPath(d, savePath);
    if distPath !in disk.files {
      return Err(MissingTarget);
    }
    disk.files := disk.files - {distPath};
    return Ok(());
  }
}
