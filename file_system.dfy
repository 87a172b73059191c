/**
 * The file system the Lima configuration lives on (an afero file system in the
 * source): a map from path to bytes, plus the set of paths that refuse to be
 * opened for writing.
 */
module FileSystem {
  import opened Wrappers

  newtype byte = x: int | 0 <= x < 256

  type Files = map<string, seq<byte>>

  /** The `*fs.PathError` values the model distinguishes. */
  datatype FsError =
    | NotExist(path: string)          // open of a missing file
    | PermissionDenied(path: string)  // open for writing refused

  /** Reading a whole file; a missing file is an error, not empty content. */
  function Read(files: Files, path: string): Result<seq<byte>, FsError>
  {
    if path in files then Success(files[path]) else Failure(NotExist(path))
  }

  /** What a successful append leaves behind for `path`: the old content, or nothing. */
  function Existing(files: Files, path: string): (content: seq<byte>)
  {
    if path in files then files[path] else []
  }

  /**
   * Opening `path` in create-and-append mode and writing `data` to it.
   * On success the old content survives as a prefix, `data` follows it, and
   * no other file changes; on failure nothing changes.
   */
  function Append(files: Files, readOnly: set<string>, path: string, data: seq<byte>): (r: Result<Files, FsError>)
    ensures r.Failure? <==> path in readOnly
    ensures r.Failure? ==> r.error == PermissionDenied(path)
    ensures r.Success? ==> r.value.Keys == files.Keys + {path}
    ensures r.Success? ==> forall p :: p in files && p != path ==> r.value[p] == files[p]
    ensures r.Success? ==> path in files ==> files[path] <= r.value[path]
    ensures r.Success? ==> |r.value[path]| == |Existing(files, path)| + |data|
    ensures r.Success? ==> r.value[path][|Existing(files, path)|..] == data
  {
    if path in readOnly then Failure(PermissionDenied(path))
    else Success(files[path := Existing(files, path) + data])
  }

  /** Appending to a missing or empty file leaves exactly the appended bytes. */
  lemma AppendToEmpty(files: Files, readOnly: set<string>, path: string, data: seq<byte>)
    requires path !in readOnly
    requires path !in files || files[path] == []
    ensures Append(files, readOnly, path, data).Success?
    ensures Append(files, readOnly, path, data).value[path] == data
  {
  }

  /** The in-memory file system that operations read and change in place. */
  class MemFs {
    var files: Files
    const readOnly: set<string>

    constructor (files0: Files, readOnly0: set<string>)
      ensures files == files0 && readOnly == readOnly0
    {
      files := files0;
      readOnly := readOnly0;
    }

    method ReadFile(path: string) returns (r: Result<seq<byte>, FsError>)
      ensures r == Read(files, path)
    {
      if path in files {
        r := Success(files[path]);
      } else {
        r := Failure(NotExist(path));
      }
    }

    method AppendFile(path: string, data: seq<byte>) returns (err: Option<FsError>)
      modifies this
      ensures match Append(old(files), readOnly, path, data)
              case Success(after) => err == None && files == after
              case Failure(e) => err == Some(e) && files == old(files)
    {
      if path in readOnly {
        err := Some(PermissionDenied(path));
      } else {
        var existing := if path in files then files[path] else [];
        files := files[path := existing + data];
        err := None;
      }
    }
  }
}
