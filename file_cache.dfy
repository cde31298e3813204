/**
  The file system as the price engine and the currency sensor see it: a
  map from path to the file's content and modification time. A file is
  either what the program itself serialised or something it cannot parse.
*/
module FileCache {

  datatype Stored<T> = Intact(value: T) | Corrupt

  datatype File<T> = File(content: Stored<T>, mtime: int)

  /** Seconds since the file at `path` was modified; a missing file is
      dated at the epoch (mtime 0), as `cache_age` and `file_age` do. */
  function Age<T>(files: map<string, File<T>>, path: string, now: int): (age: int)
    ensures path in files ==> age == now - files[path].mtime
    ensures path !in files ==> age == now
  {
    now - (if path in files then files[path].mtime else 0)
  }

  /** The disk that holds the cache files. */
  class Disk<T> {
    var files: map<string, File<T>>

    constructor (files: map<string, File<T>>)
      ensures this.files == files
    {
      this.files := files;
    }

    /** Serialise `value` to `path`, overwriting it; its mtime becomes `now`. */
    method Write(path: string, value: T, now: int)
      modifies this
      ensures files == old(files)[path := File(Intact(value), now)]
    {
      files := files[path := File(Intact(value), now)];
    }
  }
}
