/**
  The config-drive metadata service: its lifecycle around a locator
  (`load`, `cleanup`) and the read of a metadata file from the directory the
  locator filled (`_get_data`). The file system is a map from path to bytes.
 */
module ConfigDrive {
  import opened Wrappers
  import opened ConfigDriveOptions

  type Bytes = seq<bv8>

  /** Errors the service's own operations raise besides the configuration
      error: the metadata file cannot be opened; `os.path.join` is handed
      `None` because no metadata path was recorded; `cleanup` finds no
      manager because `load` never obtained one. */
  datatype ServiceError = NotExistingMetadata | NoMetadataPath | NoManager

  /** Both separators Windows path functions accept. */
  predicate IsSeparator(c: char) {
    c == '/' || c == '\\'
  }

  /** `p` names an entry strictly inside directory `dir`. */
  predicate Under(p: string, dir: string) {
    dir != [] && |dir| < |p| && p[..|dir|] == dir &&
    (IsSeparator(p[|dir|]) || IsSeparator(dir[|dir| - 1]))
  }

  /** `shutil.rmtree(dir, ignore_errors=True)` on the map: every file inside
      `dir` goes, every other file stays as it was; a missing directory is
      no error and removes nothing; so does the empty path, which names
      no directory. */
  function RemoveTree(files: map<string, Bytes>, dir: string): (r: map<string, Bytes>)
    ensures forall p :: p in r <==> p in files && !Under(p, dir)
    ensures forall p :: p in r ==> r[p] == files[p]
    ensures (forall p :: p in files ==> !Under(p, dir)) ==> r == files
    ensures dir == [] ==> r == files
  {
    map p | p in files && !Under(p, dir) :: files[p]
  }

  /** Removing a tree a second time changes nothing. */
  lemma RemoveTreeIdempotent(files: map<string, Bytes>, dir: string)
    ensures RemoveTree(RemoveTree(files, dir), dir) == RemoveTree(files, dir)
  {
  }

  /** The host's file system. `normJoin` is `os.path.normpath(os.path.join(a, b))`
      of the running platform, whose rules are not modelled. */
  class FileSystem {
    const normJoin: (string, string) -> string
    var files: map<string, Bytes>

    constructor (normJoin: (string, string) -> string, files: map<string, Bytes>)
      ensures this.normJoin == normJoin && this.files == files
    {
      this.normJoin := normJoin;
      this.files := files;
    }
  }

  /** The platform's config-drive manager. `targetPath` is the private
      directory it chose; `scan` is the outcome of its device scan for a
      request, which is not modelled. `requests` logs every call. */
  class ConfigDriveManager {
    const targetPath: string
    const scan: SearchRequest -> bool
    ghost var requests: seq<SearchRequest>

    constructor (targetPath: string, scan: SearchRequest -> bool)
      ensures this.targetPath == targetPath && this.scan == scan
      ensures requests == []
    {
      this.targetPath := targetPath;
      this.scan := scan;
      requests := [];
    }

    /** Looks for the drive and reports whether it was found. */
    method GetConfigDriveFiles(searchedTypes: set<string>, searchedLocations: set<string>)
      returns (found: bool)
      modifies this`requests
      ensures found == scan(SearchRequest(searchedTypes, searchedLocations))
      ensures requests == old(requests) + [SearchRequest(searchedTypes, searchedLocations)]
    {
      found := scan(SearchRequest(searchedTypes, searchedLocations));
      requests := requests + [SearchRequest(searchedTypes, searchedLocations)];
    }
  }

  class ConfigDriveService {
    var searchedTypes: set<string>
    var searchedLocations: set<string>
    var mgr: ConfigDriveManager?
    var metadataPath: Option<string>

    constructor ()
      ensures metadataPath == None && mgr == null
      ensures searchedTypes == {} && searchedLocations == {}
    {
      metadataPath := None;
      mgr := null;
      searchedTypes, searchedLocations := {}, {};
    }

    /** Builds the searched sets step by step and validates them; the sets
        are left assigned even when validation fails. */
    method PreprocessOptions(o: Options) returns (outcome: Outcome<ConfigError>)
      modifies this`searchedTypes, this`searchedLocations
      ensures SearchRequest(searchedTypes, searchedLocations) == Searched(o)
      ensures outcome == Validate(Searched(o))
    {
      searchedTypes := set t | t in o.types;
      searchedLocations := set l | l in o.locations;

      // Deprecated options, kept for backward compatibility.
      if o.rawHdd {
        searchedTypes := searchedTypes + {"iso"};
        searchedLocations := searchedLocations + {"hdd"};
      }
      if o.cdrom {
        searchedTypes := searchedTypes + {"iso"};
        searchedLocations := searchedLocations + {"cdrom"};
      }
      if o.vfat {
        searchedTypes := searchedTypes + {"vfat"};
        searchedLocations := searchedLocations + {"hdd"};
      }
      SearchedIsUnion(o);

      if Exceeds(searchedTypes, CdTypes) {
        return Fail(InvalidTypes(searchedTypes));
      }
      if Exceeds(searchedLocations, CdLocations) {
        return Fail(InvalidLocations(searchedLocations));
      }
      outcome := Pass;
    }

    /** Preprocesses, then obtains `factoryMgr` and asks it to locate the
        drive; the found directory is recorded only when found. */
    method Load(o: Options, factoryMgr: ConfigDriveManager) returns (r: Result<bool, ConfigError>)
      modifies this, factoryMgr`requests
      ensures SearchRequest(searchedTypes, searchedLocations) == Searched(o)
      ensures Preprocess(o).Failure? ==>
                r == Failure(Preprocess(o).error) && mgr == old(mgr) &&
                metadataPath == old(metadataPath) &&
                factoryMgr.requests == old(factoryMgr.requests)
      ensures Preprocess(o).Success? ==>
                mgr == factoryMgr &&
                factoryMgr.requests == old(factoryMgr.requests) + [Searched(o)] &&
                r == Success(factoryMgr.scan(Searched(o))) &&
                metadataPath == (if r.value then Some(factoryMgr.targetPath) else old(metadataPath))
    {
      var checked := PreprocessOptions(o);
      if checked.Fail? {
        return Failure(checked.error);
      }
      mgr := factoryMgr;
      var found := mgr.GetConfigDriveFiles(searchedTypes, searchedLocations);
      if found {
        metadataPath := Some(mgr.targetPath);
      }
      r := Success(found);
    }

    /** The whole content of the file at the normalized join of the metadata
        path and `path`. */
    function GetData(fs: FileSystem, path: string): (r: Result<Bytes, ServiceError>)
      reads this, fs
      ensures metadataPath.None? ==> r == Failure(NoMetadataPath)
      ensures metadataPath.Some? ==>
                var p := fs.normJoin(metadataPath.value, path);
                (r.Success? <==> p in fs.files) &&
                (r.Success? ==> r.value == fs.files[p]) &&
                (r.Failure? ==> r.error == NotExistingMetadata)
    {
      match metadataPath
      case None => Failure(NoMetadataPath)
      case Some(dir) =>
        var p := fs.normJoin(dir, path);
        if p in fs.files then Success(fs.files[p]) else Failure(NotExistingMetadata)
    }

    /** Removes the manager's directory, ignoring errors, and forgets the
        metadata path. */
    method Cleanup(fs: FileSystem) returns (outcome: Outcome<ServiceError>)
      modifies this`metadataPath, fs`files
      ensures mgr == null ==>
                outcome == Fail(NoManager) && metadataPath == old(metadataPath) &&
                fs.files == old(fs.files)
      ensures mgr != null ==>
                outcome == Pass && metadataPath == None &&
                fs.files == RemoveTree(old(fs.files), mgr.targetPath)
    {
      if mgr == null {
        return Fail(NoManager);
      }
      fs.files := RemoveTree(fs.files, mgr.targetPath);
      metadataPath := None;
      outcome := Pass;
    }
  }

  /** A read that resolves inside the directory a cleanup removed finds no
      file, even when the metadata path points at that directory again. */
  lemma ReadInsideRemovedTreeFails(s: ConfigDriveService, fs: FileSystem,
                                   before: map<string, Bytes>, dir: string, path: string)
    requires fs.files == RemoveTree(before, dir)
    requires s.metadataPath == Some(dir)
    requires Under(fs.normJoin(dir, path), dir)
    ensures s.GetData(fs, path) == Failure(NotExistingMetadata)
  {
  }

  /** A whole lifecycle: a cdrom search that finds the drive, reads of a
      present and of a missing file, a cleanup, a read after it and a second
      cleanup. */
  method Lifecycle() returns (present: Result<Bytes, ServiceError>,
                              missing: Result<Bytes, ServiceError>,
                              afterCleanup: Result<Bytes, ServiceError>,
                              first: Outcome<ServiceError>,
                              second: Outcome<ServiceError>)
    ensures present == Success([1, 2])
    ensures missing == Failure(NotExistingMetadata)
    ensures afterCleanup == Failure(NoMetadataPath)
    ensures first == Pass && second == Pass
  {
    var fs := new FileSystem((a: string, b: string) => a + "/" + b,
                             map["/cd/x" := [1, 2]]);
    var m := new ConfigDriveManager("/cd", (req: SearchRequest) => "cdrom" in req.locations);
    var s := new ConfigDriveService();
    var o := Options(["iso"], [], false, true, false);
    CdromScenario(o);
    var loaded := s.Load(o, m);
    assert loaded == Success(true) && s.metadataPath == Some("/cd");
    assert fs.normJoin("/cd", "x") == "/cd/x";
    present := s.GetData(fs, "x");
    assert fs.normJoin("/cd", "y") == "/cd/y";
    missing := s.GetData(fs, "y");
    first := s.Cleanup(fs);
    assert Under("/cd/x", "/cd");
    assert fs.files == map[];
    afterCleanup := s.GetData(fs, "x");
    second := s.Cleanup(fs);
  }
}
