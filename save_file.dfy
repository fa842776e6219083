/** The file save method of internal/pkg/save: the init response as JSON in one file. */
module FileSave {
  import opened Outcomes
  import opened Codec
  import opened FileSystem

  /** The one field the functional options may change. */
  datatype FileSettings = FileSettings(filePath: string)

  function ApplyFileOptions(s: FileSettings, options: seq<FileSettings -> FileSettings>): FileSettings
    decreases |options|
  {
    if options == [] then s else ApplyFileOptions(options[0](s), options[1..])
  }

  /** Save's result: the path as the location, or the write error. */
  function SaveResult(locked: set<string>, path: string): (r: Result<string>)
    ensures r.Ok? <==> path !in locked
    ensures r.Ok? ==> r.value == path
  {
    match WriteError(locked, path)
    case Some(e) => Err(e)
    case None => Ok(path)
  }

  /** Load: read the file, then decode it. */
  function LoadSpec(files: map<string, Text<InitResponse>>, locked: set<string>, path: string): (r: Result<InitResponse>)
    ensures r.Ok? <==> path !in locked && path in files && files[path].Encoded?
    ensures r.Ok? ==> files[path] == Marshal(r.value)
  {
    match ReadSpec(files, locked, path)
    case Err(e) => Err(e)
    case Ok(text) => Unmarshal(text)
  }

  /** A Save that succeeded is read back by Load on the same path as the same response. */
  lemma SaveLoadRoundTrip(files: map<string, Text<InitResponse>>, locked: set<string>, path: string, resp: InitResponse)
    requires SaveResult(locked, path).Ok?
    ensures LoadSpec(Written(files, locked, path, Marshal(resp)), locked, path) == Ok(resp)
  {
  }

  class FileSaveMethod {
    const filePath: string
    const disk: Disk

    /** NewFileSaveMethod: the path, then the options in order; it cannot fail. */
    constructor (filePath: string, disk: Disk, options: seq<FileSettings -> FileSettings>)
      ensures this.filePath == ApplyFileOptions(FileSettings(filePath), options).filePath
      ensures this.disk == disk
    {
      var m := FileSettings(filePath);
      var i := 0;
      while i < |options|
        invariant 0 <= i <= |options|
        invariant ApplyFileOptions(m, options[i..]) == ApplyFileOptions(FileSettings(filePath), options)
      {
        assert options[i..][1..] == options[i + 1..];
        m := options[i](m);
        i := i + 1;
      }
      this.filePath := m.filePath;
      this.disk := disk;
    }

    /** Save: overwrites the file at filePath with the JSON of the response, and nothing else. */
    method Save(response: InitResponse) returns (r: Result<string>)
      modifies disk
      ensures disk.files == Written(old(disk.files), disk.locked, filePath, Marshal(response))
      ensures r == SaveResult(disk.locked, filePath)
    {
      var initJson := Marshal(response);
      var err := disk.WriteFile(filePath, initJson);
      if err.Some? {
        return Err(err.value);
      }
      return Ok(filePath);
    }

    method Load() returns (r: Result<InitResponse>)
      ensures r == LoadSpec(disk.files, disk.locked, filePath)
    {
      var initJson := disk.ReadFile(filePath);
      if initJson.Err? {
        return Err(initJson.msg);
      }
      r := Unmarshal(initJson.value);
    }
  }
}
