/** The file system as the program sees it: a set of existing folders and a map
    from file path to what the file holds. Folder paths are kept as the program
    writes them, ending in '/'. */
module FileStore {
  import opened Basics
  import opened Artifacts

  /** Every folder on the way to `p`: each prefix of `p` that ends in '/'. This is
      what `os.makedirs(p)` creates for a path that ends in '/'. */
  function FolderPrefixes(p: string): (r: set<string>)
    ensures forall q :: q in r ==> q <= p && q != [] && q[|q| - 1] == '/'
    ensures p != [] && p[|p| - 1] == '/' ==> p in r
  {
    assert p != [] && p[|p| - 1] == '/' ==> p[..|p|] == p;
    set i | 0 <= i < |p| && p[i] == '/' :: p[..i + 1]
  }

  /** `os.path.exists(p)` */
  predicate Exists(dirs: set<string>, files: map<string, Content>, p: string) {
    p in dirs || p in files
  }

  /** The folders after `if not exists(folder): makedirs(folder)`. */
  function EnsuredDirs(dirs: set<string>, files: map<string, Content>, folder: string): set<string> {
    if Exists(dirs, files, folder) then dirs else dirs + FolderPrefixes(folder) + {folder}
  }

  /** After the guarded `makedirs` the folder exists and every folder that existed
      still does; doing it a second time changes nothing. */
  lemma {:induction false} EnsuredDirsSpec(dirs: set<string>, files: map<string, Content>, folder: string)
    ensures Exists(EnsuredDirs(dirs, files, folder), files, folder)
    ensures dirs <= EnsuredDirs(dirs, files, folder)
    ensures Exists(dirs, files, folder) ==> EnsuredDirs(dirs, files, folder) == dirs
    ensures EnsuredDirs(EnsuredDirs(dirs, files, folder), files, folder) == EnsuredDirs(dirs, files, folder)
  {
  }

  // ---------------------------------------------------------------------------
  // Load or build

  /** What one load-or-build step leaves behind: the artifact or the error that
      stopped it, and the store afterwards. */
  datatype Cached<T> = Cached(value: Result<T>, dirs: set<string>, files: map<string, Content>)

  /** Reading the artifact stored at `p`; a path that is a folder, or holds the
      wrong kind of content, cannot be read. */
  function Loaded<T>(files: map<string, Content>, p: string, load: Content -> Option<T>): (r: Result<T>)
    ensures r.Ok? <==> p in files && load(files[p]).Some?
  {
    if p in files && load(files[p]).Some? then Ok(load(files[p]).value) else Err(Corrupt(p))
  }

  /** The pattern every cached artifact follows: take the folder from its getter
      (which creates it when missing), then load `folder + file` if that path
      exists, and otherwise build the artifact and save it at exactly that path. */
  function Resolve<T>(dirs: set<string>, files: map<string, Content>, folder: Result<string>, file: string,
                      built: Result<T>, load: Content -> Option<T>, save: T -> Content): Cached<T>
  {
    if folder.Err? then Cached(Err(folder.error), dirs, files)
    else
      var p := folder.value + file;
      var dirs' := EnsuredDirs(dirs, files, folder.value);
      if Exists(dirs', files, p) then Cached(Loaded(files, p, load), dirs', files)
      else if built.Err? then Cached(Err(built.error), dirs', files)
      else Cached(Ok(built.value), dirs', files[p := save(built.value)])
  }

  /** A present path never triggers a build: whatever would have been built, the
      stored artifact is loaded and no file changes. */
  lemma {:induction false} ResolvePresent<T>(dirs: set<string>, files: map<string, Content>, folder: string, file: string,
                          built1: Result<T>, built2: Result<T>, load: Content -> Option<T>, save: T -> Content)
    requires Exists(EnsuredDirs(dirs, files, folder), files, folder + file)
    ensures Resolve(dirs, files, Ok(folder), file, built1, load, save)
         == Resolve(dirs, files, Ok(folder), file, built2, load, save)
    ensures Resolve(dirs, files, Ok(folder), file, built1, load, save).files == files
    ensures Resolve(dirs, files, Ok(folder), file, built1, load, save).value == Loaded(files, folder + file, load)
  {
  }

  /** A missing path is built and saved there; the store gains exactly that path. */
  lemma {:induction false} ResolveAbsent<T>(dirs: set<string>, files: map<string, Content>, folder: string, file: string,
                         x: T, load: Content -> Option<T>, save: T -> Content)
    requires !Exists(EnsuredDirs(dirs, files, folder), files, folder + file)
    ensures var step := Resolve(dirs, files, Ok(folder), file, Ok(x), load, save);
      step.value == Ok(x) && step.dirs == EnsuredDirs(dirs, files, folder) && step.files == files[folder + file := save(x)] &&
      step.files.Keys == files.Keys + {folder + file} && folder + file !in files
  {
  }

  /** Once an artifact was loaded or built, resolving it again finds it in place:
      the same artifact comes back, whatever would have been built, and nothing
      changes. This needs the reader to recover what the writer saved. */
  lemma {:induction false} ResolveTwice<T>(dirs: set<string>, files: map<string, Content>, folder: Result<string>, file: string,
                        built: Result<T>, again: Result<T>, load: Content -> Option<T>, save: T -> Content)
    requires forall x :: load(save(x)) == Some(x)
    requires Resolve(dirs, files, folder, file, built, load, save).value.Ok?
    ensures var step := Resolve(dirs, files, folder, file, built, load, save);
      Resolve(step.dirs, step.files, folder, file, again, load, save) == step
  {
    var step := Resolve(dirs, files, folder, file, built, load, save);
    EnsuredDirsSpec(dirs, files, folder.value);
    var p := folder.value + file;
    if !Exists(EnsuredDirs(dirs, files, folder.value), files, p) {
      assert step.files[p] == save(built.value);
      assert Exists(step.dirs, step.files, folder.value);
    }
  }

  class Store {
    var dirs: set<string>
    var files: map<string, Content>

    constructor (dirs0: set<string>, files0: map<string, Content>)
      ensures dirs == dirs0 && files == files0
    {
      dirs := dirs0;
      files := files0;
    }

    predicate Has(p: string)
      reads this
    {
      Exists(dirs, files, p)
    }

    /** `if path.exists(folder) is False: makedirs(folder)` */
    method EnsureFolder(folder: string)
      modifies this
      ensures dirs == EnsuredDirs(old(dirs), old(files), folder)
      ensures files == old(files)
      ensures Has(folder)
    {
      if !Has(folder) {
        dirs := dirs + FolderPrefixes(folder) + {folder};
      }
    }

    /** `with open(p, "w") as f: <dump c into f>`: the file is created or replaced. */
    method Write(p: string, c: Content)
      modifies this
      ensures files == old(files)[p := c]
      ensures dirs == old(dirs)
    {
      files := files[p := c];
    }
  }
}
