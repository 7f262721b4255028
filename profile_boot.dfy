/** The profile boot verifier, `Boot` in app/classes/Boot.js: it ensures the
    profile directories and files exist, checks them, removes the legacy
    profile directory and prunes rotated log files. */
module ProfileBoot {
  import opened Js
  import opened FileSystem
  import opened LogRotation

  /** The locations resolved once at start-up (`PATHS`). */
  datatype ProfilePaths = ProfilePaths(logFile: Path, settingsFile: Path, logDir: Path, prevProfileDir: Path)

  /** What `init` works through: the directories, the settings file, the
      files, and the legacy directory to remove. */
  datatype Layout = Layout(dirs: seq<Path>, settings: Path, files: seq<Path>, prev: Path)

  /** No path that `init` ensures lies inside the legacy directory it removes. */
  predicate LayoutValid(l: Layout) {
    && (forall k :: 0 <= k < |l.dirs| ==> !Within(l.prev, l.dirs[k]))
    && !Within(l.prev, l.settings)
    && (forall k :: 0 <= k < |l.files| ==> !Within(l.prev, l.files[k]))
  }

  /** None of the paths `init` creates or removes is refused to the process. */
  predicate LayoutPermitted(l: Layout, denied: set<Path>) {
    && (forall k :: 0 <= k < |l.dirs| ==> l.dirs[k] !in denied)
    && l.settings !in denied
    && (forall k :: 0 <= k < |l.files| ==> l.files[k] !in denied)
    && l.prev !in denied
  }

  // ---------------------------------------------------------------------------
  // init, step by step, as functions of the disk state

  /** One turn of the directory loop: create the directory when the check fails. */
  function EnsureDir(s: FsState, denied: set<Path>, d: Path): FsState {
    if d in s.entries then s else MakeDirAt(s, denied, d)
  }

  /** The directory loop over `dirs`, in order. */
  function EnsureDirs(s: FsState, denied: set<Path>, dirs: seq<Path>): FsState
    decreases |dirs|
  {
    if dirs == [] then s
    else EnsureDir(EnsureDirs(s, denied, dirs[..|dirs| - 1]), denied, dirs[|dirs| - 1])
  }

  /** One file check: start an empty write when the file does not exist. */
  function EnsureFile(s: FsState, denied: set<Path>, f: Path): FsState {
    if f in s.entries then s else WriteEmptyAt(s, denied, f)
  }

  /** The file loop over `files`, in order. */
  function EnsureFiles(s: FsState, denied: set<Path>, files: seq<Path>): FsState
    decreases |files|
  {
    if files == [] then s
    else EnsureFile(EnsureFiles(s, denied, files[..|files| - 1]), denied, files[|files| - 1])
  }

  /** The disk when `init` reaches the legacy-directory check. */
  function Prepared(s: FsState, denied: set<Path>, l: Layout): FsState {
    EnsureFiles(EnsureFile(EnsureDirs(s, denied, l.dirs), denied, l.settings), denied, l.files)
  }

  /** The disk after `init`. */
  function InitState(s: FsState, denied: set<Path>, l: Layout): FsState {
    var t := Prepared(s, denied, l);
    if l.prev in t.entries then RemoveTreeAt(t, denied, l.prev) else t
  }

  /** What `init` returns: `true`, or `undefined` when deleting the legacy
      directory throws into the catch block. */
  function InitResult(s: FsState, denied: set<Path>, l: Layout): JsBool {
    var t := Prepared(s, denied, l);
    if l.prev in t.entries && l.prev in denied then JsUndefined else JsTrue
  }

  /** The condition under which `verify` returns `true`, as written: its first
      loop runs up to the length of the FILE list but indexes the DIRECTORY
      list, so an index past the directory list reads `undefined` (missing) and
      directories past the file list's length are never checked. */
  predicate VerifyPasses(dirs: seq<Path>, files: seq<Path>, entries: set<Path>) {
    && |files| <= |dirs|
    && (forall k :: 0 <= k < |files| ==> dirs[k] in entries)
    && (forall k :: 0 <= k < |files| ==> files[k] in entries)
  }

  /** The full paths `cleanRotationFiles` deletes, in order: none when the log
      directory cannot be listed. */
  function RotationTargets(logDir: Path, logDirListed: bool, listing: seq<string>, base: string, now: string,
                           daysDiff: (string, string) -> int, threshold: int): (r: seq<Path>)
    ensures |r| <= |listing|
  {
    if logDirListed then ChildPaths(logDir, RotationVictims(listing, base, now, daysDiff, threshold)) else []
  }

  /** Deleting `targets`, one after another. */
  function RemoveAll(s: FsState, denied: set<Path>, targets: seq<Path>): FsState
    decreases |targets|
  {
    if targets == [] then s
    else RemoveTreeAt(RemoveAll(s, denied, targets[..|targets| - 1]), denied, targets[|targets| - 1])
  }

  // ---------------------------------------------------------------------------
  // The class

  class Boot {
    const verifyDirList: seq<Path>
    const verifyFileList: seq<Path>
    const settingsFile: Path
    const paths: ProfilePaths
    const disk: Disk

    /** The work list of `init`. */
    function InitLayout(): Layout {
      Layout(verifyDirList, settingsFile, verifyFileList, paths.prevProfileDir)
    }

    constructor (paths: ProfilePaths, disk: Disk)
      ensures verifyDirList == [paths.logDir] && verifyFileList == [paths.logFile]
      ensures settingsFile == paths.settingsFile
      ensures this.paths == paths && this.disk == disk
    {
      verifyDirList := [paths.logDir];
      verifyFileList := [paths.logFile];
      settingsFile := paths.settingsFile;
      this.paths := paths;
      this.disk := disk;
    }

    /** `verifyDir(filePath)`: `filePath` may be `undefined` (None), which
        never exists. */
    method VerifyDir(filePath: Option<Path>) returns (present: bool)
      ensures present <==> filePath.Some? && filePath.value in disk.entries
    {
      present := false;
      if filePath.Some? {
        present := disk.Exists(filePath.value);
      }
    }

    /** `verifyFile(filePath)`. */
    method VerifyFile(filePath: Path) returns (present: bool)
      ensures present <==> filePath in disk.entries
    {
      present := disk.Exists(filePath);
    }

    /** `createDir(path)`: a failure of the helper is caught and logged. */
    method CreateDir(newFolderPath: Path)
      modifies disk
      ensures disk.State() == MakeDirAt(old(disk.State()), disk.denied, newFolderPath)
    {
      var _ := disk.CreateDirSync(newFolderPath);
    }

    /** `createFile(path)`: starts the write and does not wait for it. */
    method CreateFile(filePath: Path)
      modifies disk
      ensures disk.State() == WriteEmptyAt(old(disk.State()), disk.denied, filePath)
    {
      disk.WriteFileAsync(filePath);
    }

    /** `init`: directories, then the settings file, then the files, then the
        legacy profile directory. */
    method Init() returns (r: JsBool)
      modifies disk
      ensures disk.State() == InitState(old(disk.State()), disk.denied, InitLayout())
      ensures r == InitResult(old(disk.State()), disk.denied, InitLayout())
    {
      ghost var s0 := disk.State();
      var i := 0;
      while i < |verifyDirList|
        invariant 0 <= i <= |verifyDirList|
        invariant disk.State() == EnsureDirs(s0, disk.denied, verifyDirList[..i])
      {
        var item := verifyDirList[i];
        var present := VerifyDir(Some(item));
        if !present {
          CreateDir(item);
        }
        assert verifyDirList[..i + 1][..i] == verifyDirList[..i];
        i := i + 1;
      }
      assert verifyDirList[..i] == verifyDirList;

      var settingsPresent := VerifyFile(settingsFile);
      if !settingsPresent {
        CreateFile(settingsFile);
      }

      ghost var s1 := disk.State();
      i := 0;
      while i < |verifyFileList|
        invariant 0 <= i <= |verifyFileList|
        invariant disk.State() == EnsureFiles(s1, disk.denied, verifyFileList[..i])
      {
        var item := verifyFileList[i];
        var present := VerifyFile(item);
        if !present {
          CreateFile(item);
        }
        assert verifyFileList[..i + 1][..i] == verifyFileList[..i];
        i := i + 1;
      }
      assert verifyFileList[..i] == verifyFileList;

      var prevPresent := VerifyDir(Some(paths.prevProfileDir));
      if prevPresent {
        var ok := disk.DeleteFilesSync(paths.prevProfileDir);
        if !ok {
          // the helper threw: the catch block logs and `init` returns undefined
          return JsUndefined;
        }
      }
      r := JsTrue;
    }

    /** `verify`: reads the disk and changes nothing. */
    method Verify() returns (r: JsBool)
      ensures r == (if VerifyPasses(verifyDirList, verifyFileList, disk.entries) then JsTrue else JsFalse)
    {
      var i := 0;
      while i < |verifyFileList|
        invariant 0 <= i <= |verifyFileList|
        invariant i <= |verifyDirList|
        invariant forall k :: 0 <= k < i ==> verifyDirList[k] in disk.entries
      {
        var item := if i < |verifyDirList| then Some(verifyDirList[i]) else None;
        var present := VerifyDir(item);
        if !present {
          assert !(i < |verifyDirList| && verifyDirList[i] in disk.entries);
          return JsFalse;
        }
        i := i + 1;
      }

      i := 0;
      while i < |verifyFileList|
        invariant 0 <= i <= |verifyFileList|
        invariant forall k :: 0 <= k < i ==> verifyFileList[k] in disk.entries
      {
        var present := VerifyFile(verifyFileList[i]);
        if !present {
          assert verifyFileList[i] !in disk.entries;
          return JsFalse;
        }
        i := i + 1;
      }
      r := JsTrue;
    }

    /** `quickVerify`: `false` as soon as a file is missing; otherwise it falls
        off its end and yields `undefined`, never `true`. */
    method QuickVerify() returns (r: JsBool)
      ensures r != JsTrue
      ensures r == JsFalse <==> exists k :: 0 <= k < |verifyFileList| && verifyFileList[k] !in disk.entries
    {
      var i := 0;
      while i < |verifyFileList|
        invariant 0 <= i <= |verifyFileList|
        invariant forall k :: 0 <= k < i ==> verifyFileList[k] in disk.entries
      {
        var present := VerifyFile(verifyFileList[i]);
        if !present {
          return JsFalse;
        }
        i := i + 1;
      }
      r := JsUndefined;
    }

    /** `cleanRotationFiles`. `listing` is what `readdirSync(logDir)` returns,
        `baseName`, `dateNow({})` (as `now`) and `daysDiff` are the helpers of
        the same names, `threshold` is `LOG_FILE_ROTATION_CLEANUP_THRESHOLD`. */
    method CleanRotationFiles(listing: seq<string>, baseName: Path -> string, now: string,
                              daysDiff: (string, string) -> int, threshold: int)
      requires PlainBaseName(baseName(paths.logFile))
      modifies disk
      ensures disk.State() ==
        RemoveAll(old(disk.State()), disk.denied,
                       RotationTargets(paths.logDir, paths.logDir in old(disk.entries), listing,
                                       baseName(paths.logFile), now, daysDiff, threshold))
    {
      ghost var s0 := disk.State();
      var listed := disk.Exists(paths.logDir);
      if !listed {
        // readdirSync throws; the catch block logs it
        return;
      }
      var base := baseName(paths.logFile);
      if base == [] {
        // new RegExp('^\\') throws; the catch block logs it
        return;
      }
      var filesList := WithoutActiveLog(listing, base);
      if |filesList| < 1 {
        return;
      }
      var i := 0;
      ghost var targets: seq<Path> := [];
      while i < |filesList|
        invariant 0 <= i <= |filesList|
        invariant targets == ChildPaths(paths.logDir, ExpiredNames(filesList[..i], now, daysDiff, threshold))
        invariant disk.State() == RemoveAll(s0, disk.denied, targets)
      {
        var a := filesList[i];
        ExpiredNamesStep(filesList, i, now, daysDiff, threshold);
        var dateMatch := DateToken(a);
        if dateMatch.Some? && daysDiff(now, dateMatch.value) >= threshold {
          // a failed deletion rejects only this callback's promise
          var _ := disk.DeleteFilesSync(paths.logDir + "/" + a);
          ChildPathsSnoc(paths.logDir, ExpiredNames(filesList[..i], now, daysDiff, threshold), a);
          RemoveAllSnoc(s0, disk.denied, targets, paths.logDir + "/" + a);
          targets := targets + [paths.logDir + "/" + a];
        }
        i := i + 1;
      }
      assert filesList[..i] == filesList;
    }
  }

  /** Removing one more target after the others. */
  lemma RemoveAllSnoc(s: FsState, denied: set<Path>, targets: seq<Path>, p: Path)
    ensures RemoveAll(s, denied, targets + [p]) == RemoveTreeAt(RemoveAll(s, denied, targets), denied, p)
  {
    assert (targets + [p])[..|targets|] == targets;
  }

  /** The child paths of one more name. */
  lemma ChildPathsSnoc(dir: Path, names: seq<string>, name: string)
    ensures ChildPaths(dir, names + [name]) == ChildPaths(dir, names) + [dir + "/" + name]
  {
  }

  /** `dir/name` for each name, in order. */
  function ChildPaths(dir: Path, names: seq<string>): (r: seq<Path>)
    ensures |r| == |names|
    ensures forall k :: 0 <= k < |names| ==> r[k] == dir + "/" + names[k]
  {
    seq(|names|, k requires 0 <= k < |names| => dir + "/" + names[k])
  }
}
