/**
 * The part of the `file` package that the form data manager uses. Its source is not
 * part of this model, so its operations are not defined here: they are the fields of
 * a `FileLib` value, which the manager receives once and then only calls. Nothing
 * about them is assumed beyond their types.
 */
module File {
  import opened Wrappers

  /** The identity of a `*file.IO` object (a stored file with its metadata). */
  datatype FileHandle = FileHandle(id: nat)

  /** `file.Meta`: the metadata a caller supplies for an uploaded file. */
  datatype Meta = Meta(name: string, contentType: string)

  /**
   * A value stored under a field name of a form (Go's `interface{}`): nil, a file
   * object, a `map[string]interface{}` (which may describe a file), or any other value.
   */
  datatype Value =
    | Nil
    | File(io: FileHandle)
    | Object(fields: map<string, Value>)
    | Scalar(text: string)

  /** `file.MapIO`: the data of one form, field name to value. */
  type MapIO = map<string, Value>

  /** The `file` package operations, uninterpreted. */
  datatype FileLib = FileLib(
    mergeWith: (MapIO, MapIO) -> MapIO,                      // MapIO.MergeWith: the map after merging the second into it
    get: (MapIO, string) -> Value,                           // MapIO.Get(dataPath)
    getFileInfo: (MapIO, string, string) -> Option<FileHandle>, // MapIO.GetFileInfo(baseFilePath, name); None is nil
    makeFileInfos: (MapIO, string) -> MapIO,                 // MapIO.MakeFileInfos(baseFilePath): the map afterwards
    isFileInfo: map<string, Value> -> bool,                  // file.IsFileInfo
    fromMap: (string, map<string, Value>) -> FileHandle,     // file.FromMap(baseFilePath, m)
    toMap: FileHandle -> map<string, Value>,                 // IO.ToMap(true)
    path: FileHandle -> string,                              // IO.Path()
    newFile: (string, Meta) -> FileHandle                    // file.New(baseFilePath, meta)
  )
}
