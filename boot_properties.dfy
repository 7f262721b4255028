/** What `Boot.init`, `Boot.verify` and `Boot.cleanRotationFiles` guarantee,
    stated over the functions that specify them. */
module BootProperties {
  import opened Js
  import opened FileSystem
  import opened LogRotation
  import opened ProfileBoot

  /** A call `init` may issue starting from `s`: a directory creation only for a
      directory that was missing, an empty write only for a settings or profile
      file that was missing, and a removal only of the legacy directory when it
      was present. */
  predicate InitCall(c: FsCall, s: FsState, l: Layout) {
    match c
    case MakeDir(p) => p in l.dirs && p !in s.entries
    case WriteEmpty(p) => (p == l.settings || p in l.files) && p !in s.entries
    case RemoveTree(p) => p == l.prev && p in s.entries
  }

  /** The calls after position `n` once one more call is issued. */
  lemma SliceAppend(xs: seq<FsCall>, x: FsCall, n: nat)
    requires n <= |xs|
    ensures (xs + [x])[n..] == xs[n..] + [x]
  {
  }

  /** The directory loop creates exactly the missing directories it may create,
      issues a creation only for a directory whose check failed, and one for
      every such directory. */
  lemma {:induction false} EnsureDirsEffect(s: FsState, denied: set<Path>, dirs: seq<Path>)
    ensures var r := EnsureDirs(s, denied, dirs);
      && (forall p :: p in r.entries <==> p in s.entries || (p in dirs && p !in denied))
      && r.pending == s.pending
      && |s.calls| <= |r.calls| && r.calls[..|s.calls|] == s.calls
      && (forall k :: |s.calls| <= k < |r.calls| ==>
            r.calls[k].MakeDir? && r.calls[k].path in dirs && r.calls[k].path !in s.entries)
      && (forall d :: d in dirs && d !in s.entries ==> MakeDir(d) in r.calls[|s.calls|..])
      && ((forall d :: d in dirs ==> d in s.entries) ==> r == s)
    decreases |dirs|
  {
    if dirs != [] {
      var pre, d := dirs[..|dirs| - 1], dirs[|dirs| - 1];
      assert dirs == pre + [d];
      EnsureDirsEffect(s, denied, pre);
      var t := EnsureDirs(s, denied, pre);
      if d !in t.entries {
        assert EnsureDirs(s, denied, dirs) == MakeDirAt(t, denied, d);
        SliceAppend(t.calls, MakeDir(d), |s.calls|);
      } else {
        assert EnsureDirs(s, denied, dirs) == t;
      }
    }
  }

  /** The file loop starts a write exactly for each missing file, and changes
      nothing that exists. */
  lemma {:induction false} EnsureFilesEffect(s: FsState, denied: set<Path>, files: seq<Path>)
    ensures var r := EnsureFiles(s, denied, files);
      && r.entries == s.entries
      && (forall p :: p in r.pending <==> p in s.pending || (p in files && p !in s.entries && p !in denied))
      && |s.calls| <= |r.calls| && r.calls[..|s.calls|] == s.calls
      && (forall k :: |s.calls| <= k < |r.calls| ==>
            r.calls[k].WriteEmpty? && r.calls[k].path in files && r.calls[k].path !in s.entries)
      && (forall f :: f in files && f !in s.entries ==> WriteEmpty(f) in r.calls[|s.calls|..])
      && ((forall f :: f in files ==> f in s.entries) ==> r == s)
    decreases |files|
  {
    if files != [] {
      var pre, f := files[..|files| - 1], files[|files| - 1];
      assert files == pre + [f];
      EnsureFilesEffect(s, denied, pre);
      var t := EnsureFiles(s, denied, pre);
      if f !in t.entries {
        assert EnsureFiles(s, denied, files) == WriteEmptyAt(t, denied, f);
        SliceAppend(t.calls, WriteEmpty(f), |s.calls|);
      } else {
        assert EnsureFiles(s, denied, files) == t;
      }
    }
  }

  /** The disk after `init`: every directory it may create exists, the settings
      file and every profile file exist or are being written, the legacy
      directory is gone unless deleting it is refused, nothing outside the legacy
      directory is removed, and nothing but the layout's paths is added. */
  lemma InitEffect(s: FsState, denied: set<Path>, l: Layout)
    requires LayoutValid(l)
    ensures var r := InitState(s, denied, l);
      && (forall k :: 0 <= k < |l.dirs| && l.dirs[k] !in denied ==> l.dirs[k] in r.entries)
      && (l.settings in r.entries || l.settings in r.pending || l.settings in denied)
      && (forall k :: 0 <= k < |l.files| ==> l.files[k] in r.entries || l.files[k] in r.pending || l.files[k] in denied)
      && (l.prev in r.entries <==> l.prev in s.entries && l.prev in denied)
      && (forall q :: q in s.entries && !Within(l.prev, q) ==> q in r.entries)
      && (forall q :: q in r.entries && q !in s.entries ==> q in l.dirs)
      && (forall q :: q in r.pending && q !in s.pending ==> q == l.settings || q in l.files)
    ensures InitResult(s, denied, l) == (if l.prev in s.entries && l.prev in denied then JsUndefined else JsTrue)
  {
    var t1 := EnsureDirs(s, denied, l.dirs);
    EnsureDirsEffect(s, denied, l.dirs);
    var t2 := EnsureFile(t1, denied, l.settings);
    var t3 := EnsureFiles(t2, denied, l.files);
    EnsureFilesEffect(t2, denied, l.files);
    assert l.prev !in l.dirs by {
      forall k | 0 <= k < |l.dirs| ensures l.dirs[k] != l.prev { assert !Within(l.prev, l.dirs[k]); }
    }
    assert l.prev in t3.entries <==> l.prev in s.entries;
    var r := InitState(s, denied, l);
    forall k | 0 <= k < |l.dirs| && l.dirs[k] !in denied ensures l.dirs[k] in r.entries {
      assert !Within(l.prev, l.dirs[k]);
    }
  }

  /** `init` only appends to the call log, and every call it appends was
      needed: a creation of a missing directory, a write of a missing file, or
      the removal of the legacy directory. */
  lemma InitCallsEffect(s: FsState, denied: set<Path>, l: Layout)
    requires LayoutValid(l)
    ensures var r := InitState(s, denied, l);
      && |s.calls| <= |r.calls| && r.calls[..|s.calls|] == s.calls
      && (forall k :: |s.calls| <= k < |r.calls| ==> InitCall(r.calls[k], s, l))
  {
    var t1 := EnsureDirs(s, denied, l.dirs);
    var t2 := EnsureFile(t1, denied, l.settings);
    var t3 := EnsureFiles(t2, denied, l.files);
    var r := InitState(s, denied, l);
    assert |s.calls| <= |t1.calls| && t1.calls[..|s.calls|] == s.calls by {
      EnsureDirsEffect(s, denied, l.dirs);
    }
    assert |t2.calls| <= |t3.calls| && t3.calls[..|t2.calls|] == t2.calls by {
      EnsureFilesEffect(t2, denied, l.files);
    }
    forall k | |s.calls| <= k < |r.calls| ensures InitCall(r.calls[k], s, l) {
      if k < |t1.calls| {
        assert r.calls[k] == t1.calls[k];
        EnsureDirsEffect(s, denied, l.dirs);
      } else if k < |t2.calls| {
        assert r.calls[k] == t2.calls[k] == WriteEmpty(l.settings);
        EnsureDirsEffect(s, denied, l.dirs);
      } else if k < |t3.calls| {
        assert r.calls[k] == t3.calls[k];
        EnsureDirsEffect(s, denied, l.dirs);
        EnsureFilesEffect(t2, denied, l.files);
      } else {
        assert l.prev in t3.entries ==> l.prev in s.entries by {
          EnsureDirsEffect(s, denied, l.dirs);
          EnsureFilesEffect(t2, denied, l.files);
          forall k | 0 <= k < |l.dirs| ensures l.dirs[k] != l.prev { assert !Within(l.prev, l.dirs[k]); }
        }
      }
    }
  }

  /** A call issued after position `n` of a prefix is issued after position `n`
      of the whole. */
  lemma InLaterSlice(xs: seq<FsCall>, ys: seq<FsCall>, n: nat, x: FsCall)
    requires n <= |xs| <= |ys| && ys[..|xs|] == xs && x in xs[n..]
    ensures x in ys[n..]
  {
    var k :| n <= k < |xs| && xs[k] == x;
    assert ys[n..][k - n] == x;
  }

  /** The call logs of `init`'s stages are prefixes of one another. */
  lemma InitStagePrefixes(s: FsState, denied: set<Path>, l: Layout)
    ensures var t1 := EnsureDirs(s, denied, l.dirs);
      var t2 := EnsureFile(t1, denied, l.settings);
      var t3 := EnsureFiles(t2, denied, l.files);
      var r := InitState(s, denied, l);
      && |s.calls| <= |t1.calls| <= |t2.calls| <= |t3.calls| <= |r.calls|
      && r.calls[..|t1.calls|] == t1.calls && r.calls[..|t2.calls|] == t2.calls && r.calls[..|t3.calls|] == t3.calls
  {
    var t1 := EnsureDirs(s, denied, l.dirs);
    var t2 := EnsureFile(t1, denied, l.settings);
    var t3 := EnsureFiles(t2, denied, l.files);
    var r := InitState(s, denied, l);
    assert |s.calls| <= |t1.calls| by {
      EnsureDirsEffect(s, denied, l.dirs);
    }
    assert |t2.calls| <= |t3.calls| && t3.calls[..|t2.calls|] == t2.calls by {
      EnsureFilesEffect(t2, denied, l.files);
    }
    assert r.calls[..|t3.calls|] == t3.calls;
    assert r.calls[..|t2.calls|] == t2.calls;
    assert r.calls[..|t1.calls|] == t1.calls;
  }

  /** `init` issues a creation for every missing directory. */
  lemma InitCreatesMissingDirs(s: FsState, denied: set<Path>, l: Layout, d: Path)
    requires d in l.dirs && d !in s.entries
    ensures |s.calls| <= |InitState(s, denied, l).calls|
    ensures MakeDir(d) in InitState(s, denied, l).calls[|s.calls|..]
  {
    var t1 := EnsureDirs(s, denied, l.dirs);
    InitStagePrefixes(s, denied, l);
    EnsureDirsEffect(s, denied, l.dirs);
    InLaterSlice(t1.calls, InitState(s, denied, l).calls, |s.calls|, MakeDir(d));
  }

  /** `init` issues a write for the settings file when it is missing and is not
      a directory it creates. */
  lemma InitWritesMissingSettings(s: FsState, denied: set<Path>, l: Layout)
    requires l.settings !in s.entries && l.settings !in l.dirs
    ensures |s.calls| <= |InitState(s, denied, l).calls|
    ensures WriteEmpty(l.settings) in InitState(s, denied, l).calls[|s.calls|..]
  {
    var t1 := EnsureDirs(s, denied, l.dirs);
    var t2 := EnsureFile(t1, denied, l.settings);
    InitStagePrefixes(s, denied, l);
    assert l.settings !in t1.entries by {
      EnsureDirsEffect(s, denied, l.dirs);
    }
    assert t2.calls[|s.calls|..][|t1.calls| - |s.calls|] == WriteEmpty(l.settings);
    InLaterSlice(t2.calls, InitState(s, denied, l).calls, |s.calls|, WriteEmpty(l.settings));
  }

  /** `init` issues a write for every missing profile file that is not a
      directory it creates. */
  lemma InitWritesMissingFile(s: FsState, denied: set<Path>, l: Layout, f: Path)
    requires f in l.files && f !in s.entries && f !in l.dirs
    ensures |s.calls| <= |InitState(s, denied, l).calls|
    ensures WriteEmpty(f) in InitState(s, denied, l).calls[|s.calls|..]
  {
    var t1 := EnsureDirs(s, denied, l.dirs);
    var t2 := EnsureFile(t1, denied, l.settings);
    var t3 := EnsureFiles(t2, denied, l.files);
    InitStagePrefixes(s, denied, l);
    assert f !in t2.entries by {
      EnsureDirsEffect(s, denied, l.dirs);
    }
    assert WriteEmpty(f) in t3.calls[|t2.calls|..] by {
      EnsureFilesEffect(t2, denied, l.files);
    }
    var k :| |t2.calls| <= k < |t3.calls| && t3.calls[k] == WriteEmpty(f);
    assert InitState(s, denied, l).calls[|s.calls|..][k - |s.calls|] == WriteEmpty(f);
  }

  /** `init` issues the removal of the legacy directory when it is present. */
  lemma InitRemovesLegacy(s: FsState, denied: set<Path>, l: Layout)
    requires LayoutValid(l) && l.prev in s.entries
    ensures |s.calls| <= |InitState(s, denied, l).calls|
    ensures RemoveTree(l.prev) in InitState(s, denied, l).calls[|s.calls|..]
  {
    var t1 := EnsureDirs(s, denied, l.dirs);
    var t2 := EnsureFile(t1, denied, l.settings);
    var t3 := EnsureFiles(t2, denied, l.files);
    var r := InitState(s, denied, l);
    InitStagePrefixes(s, denied, l);
    assert l.prev in t3.entries by {
      EnsureDirsEffect(s, denied, l.dirs);
      EnsureFilesEffect(t2, denied, l.files);
    }
    assert r.calls[|s.calls|..][|r.calls| - 1 - |s.calls|] == RemoveTree(l.prev);
  }

  /** The other direction of `InitCall`: `init` issues a creation for every
      missing directory, a write for the settings file and every profile file
      that is missing (and is not also a directory it creates), and the removal
      of the legacy directory when it is present. */
  lemma InitIssuesWhenMissing(s: FsState, denied: set<Path>, l: Layout)
    requires LayoutValid(l)
    ensures |s.calls| <= |InitState(s, denied, l).calls|
    ensures var issued := InitState(s, denied, l).calls[|s.calls|..];
      && (forall d :: d in l.dirs && d !in s.entries ==> MakeDir(d) in issued)
      && (l.settings !in s.entries && l.settings !in l.dirs ==> WriteEmpty(l.settings) in issued)
      && (forall f :: f in l.files && f !in s.entries && f !in l.dirs ==> WriteEmpty(f) in issued)
      && (l.prev in s.entries ==> RemoveTree(l.prev) in issued)
  {
    InitStagePrefixes(s, denied, l);
    forall d | d in l.dirs && d !in s.entries ensures MakeDir(d) in InitState(s, denied, l).calls[|s.calls|..] {
      InitCreatesMissingDirs(s, denied, l, d);
    }
    if l.settings !in s.entries && l.settings !in l.dirs {
      InitWritesMissingSettings(s, denied, l);
    }
    forall f | f in l.files && f !in s.entries && f !in l.dirs ensures WriteEmpty(f) in InitState(s, denied, l).calls[|s.calls|..] {
      InitWritesMissingFile(s, denied, l, f);
    }
    if l.prev in s.entries {
      InitRemovesLegacy(s, denied, l);
    }
  }

  /** Running `init` a second time leaves the paths on disk and the writes in
      flight as the first run left them. */
  lemma InitIdempotent(s: FsState, denied: set<Path>, l: Layout)
    requires LayoutValid(l)
    ensures var u := InitState(s, denied, l);
      InitState(u, denied, l).entries == u.entries && InitState(u, denied, l).pending == u.pending
  {
    var u := InitState(s, denied, l);
    var t1 := EnsureDirs(u, denied, l.dirs);
    assert t1.entries == u.entries && t1.pending == u.pending by {
      InitEffect(s, denied, l);
      EnsureDirsEffect(u, denied, l.dirs);
    }
    var t2 := EnsureFile(t1, denied, l.settings);
    assert t2.pending == u.pending by {
      if l.settings !in t1.entries && l.settings !in denied {
        InitEffect(s, denied, l);
        EnsureDirsEffect(s, denied, l.dirs);
        var a := EnsureDirs(s, denied, l.dirs);
        assert l.settings !in a.entries;
      }
    }
    var t3 := EnsureFiles(t2, denied, l.files);
    assert t3.entries == u.entries && t3.pending == u.pending by {
      EnsureFilesEffect(t2, denied, l.files);
      forall p | p in l.files && p !in t2.entries && p !in denied ensures p in u.pending {
        InitEffect(s, denied, l);
        EnsureDirsEffect(s, denied, l.dirs);
        var a := EnsureDirs(s, denied, l.dirs);
        var b := EnsureFile(a, denied, l.settings);
        EnsureFilesEffect(b, denied, l.files);
        var k :| 0 <= k < |l.files| && l.files[k] == p;
        assert !Within(l.prev, p);
      }
    }
    assert l.prev in u.entries ==> l.prev in denied by {
      InitEffect(s, denied, l);
    }
  }

  /** Once the first run's writes have landed and nothing `init` touches is
      refused, a second `init` issues no call at all: the disk is unchanged. */
  lemma InitQuiescent(s: FsState, denied: set<Path>, l: Layout)
    requires LayoutValid(l) && LayoutPermitted(l, denied)
    requires l.prev !in s.pending
    ensures var u := Settled(InitState(s, denied, l)); InitState(u, denied, l) == u
  {
    var u := Settled(InitState(s, denied, l));
    InitEffect(s, denied, l);
    var t1 := EnsureDirs(u, denied, l.dirs);
    EnsureDirsEffect(u, denied, l.dirs);
    assert forall d :: d in l.dirs ==> d in u.entries;
    assert t1 == u;
    assert l.settings in u.entries;
    var t3 := EnsureFiles(u, denied, l.files);
    EnsureFilesEffect(u, denied, l.files);
    assert forall f :: f in l.files ==> f in u.entries;
    assert t3 == u;
    assert l.prev !in u.entries;
  }

  /** On a disk where nothing `init` touches is refused and the writes of `init`
      have landed, `verify` passes whenever the file list is no longer than the
      directory list (it is one path each in `Boot`). */
  lemma VerifyAfterInit(s: FsState, denied: set<Path>, l: Layout)
    requires LayoutValid(l) && LayoutPermitted(l, denied)
    requires |l.files| <= |l.dirs|
    ensures VerifyPasses(l.dirs, l.files, Settled(InitState(s, denied, l)).entries)
  {
    InitEffect(s, denied, l);
  }

  /** Because `createFile` does not await the write, `verify` right after `init`
      fails on a fresh profile: the missing profile file is still only in flight. */
  lemma VerifyBeforeWritesLandFails(s: FsState, denied: set<Path>, l: Layout)
    requires LayoutValid(l)
    requires |l.files| > 0 && l.files[0] !in s.entries && l.files[0] !in l.dirs
    ensures !VerifyPasses(l.dirs, l.files, InitState(s, denied, l).entries)
  {
    InitEffect(s, denied, l);
  }

  /** Removing a path `verify` checks makes it fail. */
  lemma VerifyDetectsRemoval(dirs: seq<Path>, files: seq<Path>, entries: set<Path>, k: nat, removeDir: bool)
    requires k < |files| <= |dirs|
    ensures !VerifyPasses(dirs, files, entries - {if removeDir then dirs[k] else files[k]})
  {
    var gone := if removeDir then dirs[k] else files[k];
    assert (if removeDir then dirs[k] else files[k]) !in entries - {gone};
  }

  /** The loop bound of `verify`: a file list longer than the directory list
      always fails, and otherwise the directories past the length of the file
      list are never checked. */
  lemma VerifyLoopBoundQuirk(dirs: seq<Path>, files: seq<Path>, entries: set<Path>)
    ensures |files| > |dirs| ==> !VerifyPasses(dirs, files, entries)
    ensures |files| <= |dirs| ==>
              (VerifyPasses(dirs, files, entries) <==> VerifyPasses(dirs[..|files|], files, entries))
    ensures VerifyPasses(["/p/logs", "/p/cache"], ["/p/logs/error.log"], {"/p/logs", "/p/logs/error.log"})
  {
  }

  /** For the one directory and one file of `Boot`, `verify` passes exactly when
      the log directory and the log file both exist. */
  lemma VerifyOnProfile(p: ProfilePaths, entries: set<Path>)
    ensures VerifyPasses([p.logDir], [p.logFile], entries) <==> p.logDir in entries && p.logFile in entries
  {
    if VerifyPasses([p.logDir], [p.logFile], entries) {
      assert [p.logDir][0] in entries && [p.logFile][0] in entries;
    }
  }

  // ---------------------------------------------------------------------------
  // cleanRotationFiles

  /** Deleting targets that all lie inside `dir` removes only paths inside the
      targets, removes every permitted target, leaves everything outside `dir`
      and the writes in flight alone, and issues one removal per target. */
  lemma {:induction false} RemoveAllEffect(s: FsState, denied: set<Path>, dir: Path, targets: seq<Path>)
    requires forall k :: 0 <= k < |targets| ==> Within(dir, targets[k])
    ensures var r := RemoveAll(s, denied, targets);
      && r.pending == s.pending
      && r.entries <= s.entries
      && (forall q :: !Within(dir, q) ==> (q in r.entries <==> q in s.entries))
      && (forall q :: q in s.entries && q !in r.entries ==>
            exists k :: 0 <= k < |targets| && targets[k] !in denied && Within(targets[k], q))
      && (forall k :: 0 <= k < |targets| && targets[k] !in denied ==> targets[k] !in r.entries)
      && |r.calls| == |s.calls| + |targets|
      && r.calls[..|s.calls|] == s.calls
      && (forall k :: 0 <= k < |targets| ==> r.calls[|s.calls| + k] == RemoveTree(targets[k]))
    decreases |targets|
  {
    if targets != [] {
      var pre, t := targets[..|targets| - 1], targets[|targets| - 1];
      RemoveAllEffect(s, denied, dir, pre);
      var m := RemoveAll(s, denied, pre);
      var r := RemoveTreeAt(m, denied, t);
      forall q | !Within(dir, q) ensures q in r.entries <==> q in m.entries {
        if Within(t, q) { WithinTrans(dir, t, q); }
      }
      forall q | q in s.entries && q !in r.entries
        ensures exists k :: 0 <= k < |targets| && targets[k] !in denied && Within(targets[k], q)
      {
        if q !in m.entries {
          var k :| 0 <= k < |pre| && pre[k] !in denied && Within(pre[k], q);
          assert targets[k] == pre[k];
        } else {
          assert targets[|targets| - 1] == t;
        }
      }
      forall k | 0 <= k < |targets| && targets[k] !in denied ensures targets[k] !in r.entries {
        if k < |pre| { assert targets[k] == pre[k]; } else { assert Within(t, t); }
      }
      forall k | 0 <= k < |targets| ensures r.calls[|s.calls| + k] == RemoveTree(targets[k]) {
        if k < |pre| { assert targets[k] == pre[k]; }
      }
    }
  }

  /** `dir/a` and `dir/b` are the same path only when `a` and `b` are the same name. */
  lemma ChildPathInjective(dir: Path, a: string, b: string)
    requires dir + "/" + a == dir + "/" + b
    ensures a == b
  {
    assert a == (dir + "/" + a)[|dir| + 1..];
    assert b == (dir + "/" + b)[|dir| + 1..];
  }

  /** `cleanRotationFiles` deletes `logDir/name` exactly when the log directory
      was listed, `name` is in the listing, it does not start (ignoring case)
      with the active log's base name, it has a date token, and `daysDiff(now,
      token)` reaches the threshold. Every call goes to a child of `logDir`,
      nothing outside `logDir` changes, and the writes in flight are untouched. */
  lemma CleanRotationEffect(s: FsState, denied: set<Path>, logDir: Path, listing: seq<string>, base: string,
                            now: string, daysDiff: (string, string) -> int, threshold: int, name: string)
    ensures var targets := RotationTargets(logDir, logDir in s.entries, listing, base, now, daysDiff, threshold);
      && ((logDir + "/" + name) in targets <==>
            && logDir in s.entries
            && base != []
            && name in listing
            && !MatchesActiveLog(base, name)
            && DateToken(name).Some?
            && daysDiff(now, DateToken(name).value) >= threshold)
    ensures var r := RemoveAll(s, denied, RotationTargets(logDir, logDir in s.entries, listing, base, now, daysDiff, threshold));
      && r.pending == s.pending
      && r.entries <= s.entries
      && (forall q :: !Within(logDir, q) ==> (q in r.entries <==> q in s.entries))
      && (forall k :: |s.calls| <= k < |r.calls| ==> r.calls[k].RemoveTree? && Within(logDir, r.calls[k].path))
  {
    var victims := RotationVictims(listing, base, now, daysDiff, threshold);
    var targets := RotationTargets(logDir, logDir in s.entries, listing, base, now, daysDiff, threshold);
    RotationVictimsExactly(listing, base, now, daysDiff, threshold, name);
    if logDir in s.entries {
      assert targets == ChildPaths(logDir, victims);
      if (logDir + "/" + name) in targets {
        var k :| 0 <= k < |targets| && targets[k] == logDir + "/" + name;
        ChildPathInjective(logDir, victims[k], name);
      }
      if name in victims {
        var k :| 0 <= k < |victims| && victims[k] == name;
        assert targets[k] == logDir + "/" + name;
      }
    }
    forall k | 0 <= k < |targets| ensures Within(logDir, targets[k]) {
      ChildWithin(logDir, victims[k]);
    }
    RemoveAllEffect(s, denied, logDir, targets);
    var r := RemoveAll(s, denied, targets);
    forall k | |s.calls| <= k < |r.calls| ensures r.calls[k].RemoveTree? && Within(logDir, r.calls[k].path) {
      assert r.calls[|s.calls| + (k - |s.calls|)] == RemoveTree(targets[k - |s.calls|]);
    }
  }
}
