/** The local filesystem as the collectors use it: a map from path to the
    units written to that file so far. Files are only ever checked for
    existence and opened in append mode (`'a+'`). */
module Files {

  /** What a file holds: nothing when it does not exist. */
  function Contents<U>(files: map<string, seq<U>>, path: string): seq<U>
  {
    if path in files then files[path] else []
  }

  /** The result of opening `path` in append mode and writing `units`: the file
      is created if absent, its old content is kept as a prefix, and no other
      file changes. */
  function Appended<U>(files: map<string, seq<U>>, path: string, units: seq<U>): (r: map<string, seq<U>>)
    ensures r.Keys == files.Keys + {path}
    ensures |Contents(files, path)| <= |r[path]|
    ensures r[path][..|Contents(files, path)|] == Contents(files, path)
    ensures r[path][|Contents(files, path)|..] == units
    ensures forall p :: p in files && p != path ==> r[p] == files[p]
  {
    files[path := Contents(files, path) + units]
  }

  /** The appended file is its old content followed by the written units. */
  lemma AppendedPath<U>(files: map<string, seq<U>>, path: string, units: seq<U>)
    ensures Appended(files, path, units)[path] == Contents(files, path) + units
  {
  }

  class FileStore<U> {
    var files: map<string, seq<U>>

    constructor (initial: map<string, seq<U>>)
      ensures files == initial
    {
      files := initial;
    }

    /** `os.path.exists(path)`. */
    function Exists(path: string): bool
      reads this
    {
      path in files
    }

    /** `with open(path, 'a+') as f: f.write(units)`. */
    method Append(path: string, units: seq<U>)
      modifies this
      ensures files == Appended(old(files), path, units)
    {
      files := files[path := Contents(files, path) + units];
    }
  }
}
