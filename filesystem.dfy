/**
 * The local file system, as far as the init-response files need it: a map from path to
 * contents, and a fixed set of paths the process may not read or write.
 */
module FileSystem {
  import opened Outcomes
  import opened Codec

  const PermissionDenied := "permission denied"
  const NoSuchFile := "no such file or directory"

  /**
   * A store of entries by path after writing `content` at `path`: that entry is replaced,
   * unless the path is locked (a file the process may not write, a secret it may not put).
   */
  function Written<T>(files: map<string, T>, locked: set<string>, path: string, content: T): (r: map<string, T>)
    ensures path in locked ==> r == files
    ensures path !in locked ==> path in r && r[path] == content
    ensures forall p :: p != path ==> (p in r <==> p in files)
    ensures forall p :: p != path && p in files ==> r[p] == files[p]
  {
    if path in locked then files else files[path := content]
  }

  /** The error of writing `path`, if any. */
  function WriteError(locked: set<string>, path: string): Option<string> {
    if path in locked then Some(PermissionDenied) else None
  }

  /** Reading `path`: its contents, or the error for a locked or missing path. */
  function ReadSpec(files: map<string, Text<InitResponse>>, locked: set<string>, path: string): (r: Result<Text<InitResponse>>)
    ensures r.Ok? <==> path !in locked && path in files
    ensures r.Ok? ==> r.value == files[path]
  {
    if path in locked then Err(PermissionDenied)
    else if path !in files then Err(NoSuchFile)
    else Ok(files[path])
  }

  class Disk {
    var files: map<string, Text<InitResponse>>
    const locked: set<string>

    constructor (files: map<string, Text<InitResponse>>, locked: set<string>)
      ensures this.files == files && this.locked == locked
    {
      this.files := files;
      this.locked := locked;
    }

    /** os.WriteFile: creates or truncates the file; no other entry changes. */
    method WriteFile(path: string, content: Text<InitResponse>) returns (err: Option<string>)
      modifies this
      ensures files == Written(old(files), locked, path, content)
      ensures err == WriteError(locked, path)
    {
      if path in locked {
        return Some(PermissionDenied);
      }
      files := files[path := content];
      return None;
    }

    /** os.ReadFile. */
    method ReadFile(path: string) returns (r: Result<Text<InitResponse>>)
      ensures r == ReadSpec(files, locked, path)
    {
      if path in locked {
        return Err(PermissionDenied);
      }
      if path !in files {
        return Err(NoSuchFile);
      }
      return Ok(files[path]);
    }
  }
}
