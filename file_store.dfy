/**
  The local file system every driver can see: a map from a path, taken as
  written, to the content of the regular file there. `is_file(path)` is
  membership; `copy`, `file_put_contents` and `file_get_contents` are map
  updates and lookups.
 */
module FileStore {

  class Disk {
    var files: map<string, string>

    constructor (files: map<string, string>)
      ensures this.files == files
    {
      this.files := files;
    }
  }
}
