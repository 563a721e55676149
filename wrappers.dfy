/**
  Option and Result, and the errors the file system raises. The source signals
  every failure by throwing; here an operation returns `Err` instead.
 */
module Wrappers {

  datatype Option<+T> = None | Some(value: T)

  datatype Error =
    | FsException(message: string)      // `liuguang\fs\FsException`
    | Exception(message: string)        // a plain PHP `\Exception`
    | NoUploadEndpoint(region: string)  // a Qiniu region with no upload host: the source hands the HTTP client a null URL

  datatype Result<+T> = Ok(value: T) | Err(error: Error)
}
