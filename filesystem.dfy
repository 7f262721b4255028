/** The profile area on disk as the boot verifier sees it: the set of paths that
    exist, the writes that have been issued but have not landed yet, and the list
    of mutating calls issued so far. */
module FileSystem {

  type Path = string

  /** `p` is `root` itself or lies somewhere inside the directory `root`. */
  predicate Within(root: Path, p: Path) {
    p == root || root + "/" <= p
  }

  /** A mutating call issued to the filesystem helpers. */
  datatype FsCall = MakeDir(path: Path) | WriteEmpty(path: Path) | RemoveTree(path: Path)

  /** A snapshot of the disk. `pending` holds the paths of empty-file writes that
      were started but not awaited; they exist only once they land. */
  datatype FsState = FsState(entries: set<Path>, pending: set<Path>, calls: seq<FsCall>)

  /** `createDirSync(p)`: the directory appears unless the process may not create it. */
  function MakeDirAt(s: FsState, denied: set<Path>, p: Path): FsState {
    FsState(if p in denied then s.entries else s.entries + {p}, s.pending, s.calls + [MakeDir(p)])
  }

  /** `writeFileAsync(p, '')` without `await`: the write is in flight and will
      create `p` when it lands, unless the process may not write it. */
  function WriteEmptyAt(s: FsState, denied: set<Path>, p: Path): FsState {
    FsState(s.entries, if p in denied then s.pending else s.pending + {p}, s.calls + [WriteEmpty(p)])
  }

  /** `deleteFilesSync(p)`: `p` and everything beneath it disappear, unless the
      process may not delete `p`. */
  function RemoveTreeAt(s: FsState, denied: set<Path>, p: Path): FsState {
    var kept := if p in denied then s.entries else (set q | q in s.entries && !Within(p, q));
    FsState(kept, s.pending, s.calls + [RemoveTree(p)])
  }

  /** Every write in flight has landed. */
  function Settled(s: FsState): (r: FsState)
    ensures r.pending == {} && r.calls == s.calls
    ensures forall p :: p in r.entries <==> p in s.entries || p in s.pending
  {
    FsState(s.entries + s.pending, {}, s.calls)
  }

  /** A child `dir/name` lies inside `dir`. */
  lemma ChildWithin(dir: Path, name: string)
    ensures Within(dir, dir + "/" + name)
  {
    assert (dir + "/" + name)[..|dir| + 1] == dir + "/";
  }

  /** Lying inside is transitive. */
  lemma WithinTrans(a: Path, b: Path, c: Path)
    requires Within(a, b) && Within(b, c)
    ensures Within(a, c)
  {
    if a != b && b != c {
      assert c[..|b|] == b;
      assert c[..|a| + 1] == b[..|a| + 1];
    }
  }

  /** The process's view of the disk, updated in place by the fileOps helpers. */
  class Disk {
    var entries: set<Path>
    var pending: set<Path>
    var calls: seq<FsCall>
    /** Paths the process is not permitted to create, write or delete. */
    const denied: set<Path>

    function State(): FsState
      reads this
    {
      FsState(entries, pending, calls)
    }

    constructor (existing: set<Path>, denied: set<Path>)
      ensures State() == FsState(existing, {}, []) && this.denied == denied
    {
      entries, pending, calls := existing, {}, [];
      this.denied := denied;
    }

    /** `fileExistsSync(p)`. */
    method Exists(p: Path) returns (present: bool)
      ensures present <==> p in entries
    {
      present := p in entries;
    }

    /** `createDirSync(p)`; `ok` is false when the helper throws. */
    method CreateDirSync(p: Path) returns (ok: bool)
      modifies this
      ensures State() == MakeDirAt(old(State()), denied, p)
      ensures ok <==> p !in denied
    {
      ok := p !in denied;
      if ok {
        entries := entries + {p};
      }
      calls := calls + [MakeDir(p)];
    }

    /** `writeFileAsync(p, '')`, started and not awaited. */
    method WriteFileAsync(p: Path)
      modifies this
      ensures State() == WriteEmptyAt(old(State()), denied, p)
    {
      if p !in denied {
        pending := pending + {p};
      }
      calls := calls + [WriteEmpty(p)];
    }

    /** `deleteFilesSync(p)`; `ok` is false when the helper throws. */
    method DeleteFilesSync(p: Path) returns (ok: bool)
      modifies this
      ensures State() == RemoveTreeAt(old(State()), denied, p)
      ensures ok <==> p !in denied
    {
      ok := p !in denied;
      if ok {
        entries := set q | q in entries && !Within(p, q);
      }
      calls := calls + [RemoveTree(p)];
    }

    /** The writes in flight land (the I/O thread pool has finished them). */
    method SettleWrites()
      modifies this
      ensures State() == Settled(old(State()))
    {
      entries := entries + pending;
      pending := {};
    }
  }
}
