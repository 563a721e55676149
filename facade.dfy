/**
  The `FileSystem` facade: its constructor picks a driver class from the
  `driver` key, hands the rest of the configuration to that class, and its
  five operations forward to the driver.
 */
module Facade {

  import opened Wrappers
  import opened Strings
  import opened Config
  import opened ParamChecker
  import opened Http
  import opened FileStore
  import opened Drivers
  import LocalDriver

  const DriverKey: string := "driver"

  /** `ucfirst(driver) . 'File'`: the short name of the driver class. */
  function ClassName(driver: string): string
  {
    Ucfirst(driver) + "File"
  }

  function NotFoundMessage(driver: string): string
  {
    "filesystem driver [" + driver + "] not found"
  }

  /** The configuration after `unset($config['driver'])`. */
  function Stripped(config: Config): (r: Config)
    ensures r.Keys == config.Keys - {DriverKey}
    ensures forall k :: k in r ==> r[k] == config[k]
  {
    config - {DriverKey}
  }

  /** What the constructor ends in: the driver it builds, or the error it throws. */
  function SelectDriver(config: Config): Result<Driver>
  {
    match Check(config, [DriverKey])
    case Err(e) => Err(e)
    case Ok(_) =>
      var driver := Get(config, DriverKey);
      var className := ClassName(driver);
      if className !in DriverClasses then Err(FsException(NotFoundMessage(driver)))
      else Construct(className, Stripped(config))
  }

  /**
    Selection fails without a `driver` key, fails naming the driver when no
    class `ucfirst(driver) . 'File'` exists, and otherwise is that class's
    constructor applied to the configuration without its `driver` key.
   */
  lemma SelectCases(config: Config)
    ensures DriverKey !in config ==> SelectDriver(config) == Err(FsException(MissingMessage(DriverKey)))
    ensures DriverKey in config && ClassName(Get(config, DriverKey)) !in DriverClasses
            ==> SelectDriver(config) == Err(FsException(NotFoundMessage(Get(config, DriverKey))))
    ensures DriverKey in config && ClassName(Get(config, DriverKey)) in DriverClasses
            ==> SelectDriver(config) == Construct(ClassName(Get(config, DriverKey)), Stripped(config))
  {
    var need := [DriverKey];
    if DriverKey !in config {
      FirstMissingIsFirst(config, need, 0);
    } else {
      assert forall i :: 0 <= i < |need| ==> need[i] in config;
    }
  }

  /**
    Two configurations whose driver names differ at most in the case of
    their first letter, and which agree on every other key, select the same
    driver.
   */
  lemma SelectIgnoresFirstLetterCase(c1: Config, c2: Config)
    requires DriverKey in c1 && DriverKey in c2
    requires var a, b := Get(c1, DriverKey), Get(c2, DriverKey);
             |a| == |b| > 0 && a[1..] == b[1..] && UpperChar(a[0]) == UpperChar(b[0])
    requires Stripped(c1) == Stripped(c2)
    ensures SelectDriver(c1).Ok? <==> SelectDriver(c2).Ok?
    ensures SelectDriver(c1).Ok? ==> SelectDriver(c1) == SelectDriver(c2)
  {
    UcfirstIgnoresFirstCase(Get(c1, DriverKey), Get(c2, DriverKey));
    SelectCases(c1);
    SelectCases(c2);
  }

  /** `local` and `Local` both select the local driver, and the `driver` key never reaches it. */
  lemma LocalByEitherCase(saveDir: string)
    ensures SelectDriver(map[DriverKey := Str("local"), "saveDir" := Str(saveDir)])
         == Ok(LocalFile(LocalDriver.LocalFile(saveDir, None)))
    ensures SelectDriver(map[DriverKey := Str("Local"), "saveDir" := Str(saveDir)])
         == Ok(LocalFile(LocalDriver.LocalFile(saveDir, None)))
  {
    assert ClassName("local") == "LocalFile" by {
      assert Ucfirst("local") == "Local";
    }
    assert ClassName("Local") == "LocalFile" by {
      assert Ucfirst("Local") == "Local";
    }
    var c1 := map[DriverKey := Str("local"), "saveDir" := Str(saveDir)];
    var c2 := map[DriverKey := Str("Local"), "saveDir" := Str(saveDir)];
    SelectCases(c1);
    SelectCases(c2);
    assert Stripped(c1) == map["saveDir" := Str(saveDir)] == Stripped(c2);
  }

  /**
    The file system: a driver and the local disk. Each remote operation is
    given the `Env` of its own call (the clock and date it reads, the transport
    it sends through), as every PHP call reads `time()` and `gmdate()` afresh.
   */
  class FileSystem {
    const driverObj: Driver
    const disk: Disk

    constructor (driverObj: Driver, disk: Disk)
      ensures this.driverObj == driverObj && this.disk == disk
    {
      this.driverObj := driverObj;
      this.disk := disk;
    }

    /**
      `new FileSystem($config)`: a file system over the selected driver, or
      the error the selection ends in, with no driver constructed.
     */
    static method Open(config: Config, disk: Disk) returns (r: Result<FileSystem>)
      ensures r.Ok? <==> SelectDriver(config).Ok?
      ensures r.Err? ==> r.error == SelectDriver(config).error
      ensures r.Ok? ==> (&& fresh(r.value)
                         && r.value.driverObj == SelectDriver(config).value
                         && r.value.disk == disk)
    {
      var checked := CheckConfig(config, [DriverKey]);
      if checked.Err? {
        return Err(checked.error);
      }
      var driver := Get(config, DriverKey);
      var driverClass := ClassName(driver);
      if driverClass !in DriverClasses {
        return Err(FsException(NotFoundMessage(driver)));
      }
      var rest := config - {DriverKey};
      var driverObj := Construct(driverClass, rest);
      if driverObj.Err? {
        return Err(driverObj.error);
      }
      var fs := new FileSystem(driverObj.value, disk);
      return Ok(fs);
    }

    /** `saveFile`: the local driver copies on the disk; a remote one reads the disk and uploads. */
    method SaveFile(env: Env, tmpPath: string, savePath: string, contentType: Option<string>) returns (r: Result<()>)
      modifies disk
      ensures (r, disk.files) == Save(env, driverObj, old(disk.files), tmpPath, savePath, contentType)
    {
      if driverObj.LocalFile? {
        r := LocalDriver.SaveFile(driverObj.local, disk, tmpPath, savePath);
      } else {
        r := Save(env, driverObj, disk.files, tmpPath, savePath, contentType).0;
      }
    }

    /** `writeFile`: the local driver writes the disk; a remote one uploads. */
    method WriteFile(env: Env, savePath: string, content: string, contentType: Option<string>) returns (r: Result<()>)
      modifies disk
      ensures (r, disk.files) == Write(env, driverObj, old(disk.files), savePath, content, contentType)
    {
      if driverObj.LocalFile? {
        r := LocalDriver.WriteFile(driverObj.local, disk, savePath, content);
      } else {
        r := Write(env, driverObj, disk.files, savePath, content, contentType).0;
      }
    }

    /** `readFile`: the driver's result, unchanged. */
    method ReadFile(env: Env, savePath: string) returns (r: Result<string>)
      ensures r == Read(env, driverObj, disk.files, savePath)
    {
      if driverObj.LocalFile? {
        r := LocalDriver.ReadFile(driverObj.local, disk, savePath);
      } else {
        r := Read(env, driverObj, disk.files, savePath);
      }
    }

    /** `deleteFile`: the local driver removes the file from the disk; a remote one sends a delete. */
    method DeleteFile(env: Env, savePath: string) returns (r: Result<()>)
      modifies disk
      ensures (r, disk.files) == Delete(env, driverObj, old(disk.files), savePath)
    {
      if driverObj.LocalFile? {
        r := LocalDriver.DeleteFileRemoving(driverObj.local, disk, savePath);
      } else {
        r := Delete(env, driverObj, disk.files, savePath).0;
      }
    }

    /** `getFileUrl`: the driver's result, unchanged. */
    method GetFileUrl(savePath: string) returns (r: Result<string>)
      ensures r == FileUrl(driverObj, savePath)
    {
      r := FileUrl(driverObj, savePath);
    }
  }
}
