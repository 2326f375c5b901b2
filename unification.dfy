/**
 * The unification pass (`unify_no_location` / `_unir_sin_ubicacion`): files left in the
 * unresolved-location folder are moved into the resolved folder that has a date folder of the
 * same name, and date folders emptied that way are removed.  Both variants run this same
 * algorithm; only the name of the unresolved folder (the sentinel) differs.
 */
module Unification {

  import opened Dates
  import opened OutputTree

  type Path = (string, string, string)

  /** `output/folder/d` is a directory whose name is a date and `folder` is a resolved location. */
  predicate IsDateDir(t: Tree, sentinel: string, folder: string, d: string) {
    && folder != sentinel && folder in t.top && t.top[folder] == Dir
    && (folder, d) in t.mid && t.mid[(folder, d)] == Dir && MatchesDatePattern(d)
  }

  /** `os.listdir(output/folder)`: the names one level below `folder`. */
  function Children(t: Tree, folder: string): (names: set<string>)
    ensures forall d :: d in names <==> (folder, d) in t.mid
  {
    set k | k in t.mid && k.0 == folder :: k.1
  }

  /** `os.listdir(output/folder/d)`: the names two levels below `folder`. */
  function Entries(t: Tree, folder: string, d: string): (names: set<string>)
    ensures forall n :: n in names <==> (folder, d, n) in t.leaf
  {
    set k | k in t.leaf && k.0 == folder && k.1 == d :: k.2
  }

  /** The date folders the index takes from one top-level entry. */
  function DatesOf(t: Tree, sentinel: string, folder: string): (dates: set<string>)
    ensures forall d :: d in dates <==> IsDateDir(t, sentinel, folder, d)
  {
    if folder != sentinel && folder in t.top && t.top[folder] == Dir then
      set d | d in Children(t, folder) && IsDateDir(t, sentinel, folder, d)
    else {}
  }

  /**
   * `date_destinations` after visiting the top-level entries in `listing` order: each date
   * folder of a resolved location maps to that location, a later location overwriting an
   * earlier one.  Every entry points at a real date directory of a resolved location.
   */
  function IndexOf(t: Tree, sentinel: string, listing: seq<string>): (index: map<string, string>)
    ensures forall d | d in index :: IsDateDir(t, sentinel, index[d], d)
    decreases |listing|
  {
    if listing == [] then map[]
    else
      var folder := listing[|listing| - 1];
      IndexOf(t, sentinel, listing[..|listing| - 1]) + map d | d in DatesOf(t, sentinel, folder) :: folder
  }

  /** A date is indexed exactly when some listed location has a date folder of that name. */
  lemma {:induction false} IndexCoversListedDates(t: Tree, sentinel: string, listing: seq<string>, d: string)
    ensures d in IndexOf(t, sentinel, listing) <==>
            exists i :: 0 <= i < |listing| && IsDateDir(t, sentinel, listing[i], d)
    decreases |listing|
  {
    if listing != [] {
      var n := |listing| - 1;
      var front := listing[..n];
      IndexCoversListedDates(t, sentinel, front, d);
      assert forall i :: 0 <= i < n ==> front[i] == listing[i];
      if !IsDateDir(t, sentinel, listing[n], d) {
        if exists i :: 0 <= i < |listing| && IsDateDir(t, sentinel, listing[i], d) {
          var i :| 0 <= i < |listing| && IsDateDir(t, sentinel, listing[i], d);
          assert i < n && IsDateDir(t, sentinel, front[i], d);
        }
      }
    }
  }

  /**
   * Last writer wins: an indexed date points at a listed location that has it, and no location
   * listed after that one has it.
   */
  lemma {:induction false} IndexLastWriterWins(t: Tree, sentinel: string, listing: seq<string>, d: string)
    requires d in IndexOf(t, sentinel, listing)
    ensures exists i :: && 0 <= i < |listing| && listing[i] == IndexOf(t, sentinel, listing)[d]
                        && forall j :: i < j < |listing| ==> !IsDateDir(t, sentinel, listing[j], d)
    decreases |listing|
  {
    var n := |listing| - 1;
    var front := listing[..n];
    if IsDateDir(t, sentinel, listing[n], d) {
      assert listing[n] == IndexOf(t, sentinel, listing)[d];
    } else {
      assert IndexOf(t, sentinel, listing)[d] == IndexOf(t, sentinel, front)[d];
      IndexLastWriterWins(t, sentinel, front, d);
      var i :| && 0 <= i < |front| && front[i] == IndexOf(t, sentinel, front)[d]
               && forall j :: i < j < |front| ==> !IsDateDir(t, sentinel, front[j], d);
      assert listing[i] == front[i];
      assert forall j :: i < j < |listing| ==> !IsDateDir(t, sentinel, listing[j], d) by {
        forall j | i < j < |listing|
          ensures !IsDateDir(t, sentinel, listing[j], d)
        {
          if j < n {
            assert listing[j] == front[j];
          }
        }
      }
    }
  }

  /** `output/sentinel/d` is a date directory with a match in the index: its files move. */
  predicate Movable(t: Tree, sentinel: string, index: map<string, string>, d: string) {
    (sentinel, d) in t.mid && t.mid[(sentinel, d)] == Dir && MatchesDatePattern(d) && d in index
  }

  /** `p` is a regular file inside a movable date folder of the sentinel. */
  predicate Moves(t: Tree, sentinel: string, index: map<string, string>, p: Path) {
    p in t.leaf && p.0 == sentinel && Movable(t, sentinel, index, p.1) && t.leaf[p].File?
  }

  /** Where a moved file lands: the same date folder and name under the indexed location. */
  function Dest(index: map<string, string>, p: Path): Path
    requires p.1 in index
  {
    (index[p.1], p.1, p.2)
  }

  /** Every entry of `output/sentinel/d` is a regular file, so moving them empties the folder. */
  predicate OnlyFiles(t: Tree, sentinel: string, d: string) {
    forall p | p in t.leaf && p.0 == sentinel && p.1 == d :: t.leaf[p].File?
  }

  /**
   * No regular file of a sentinel date folder has a namesake in a resolved folder of the same
   * date.  The source does not check the destination: when a namesake file is there, the moved
   * file replaces it, as `shutil.move` does.
   */
  ghost predicate NoNameClashes(t: Tree, sentinel: string) {
    forall p, q | p in t.leaf && q in t.mid ::
      (p.0 == sentinel && t.leaf[p].File? && MatchesDatePattern(p.1)
       && q.0 != sentinel && q.1 == p.1 && t.mid[q] == Dir) ==> (q.0, q.1, p.2) !in t.leaf
  }

  /**
   * No regular file of a sentinel date folder has a directory as namesake in another folder of
   * the same date: `shutil.move` would put the file inside that directory, a level below the
   * ones the model holds.
   */
  ghost predicate NoDirectoryInTheWay(t: Tree, sentinel: string) {
    forall p, q | p in t.leaf && q in t.leaf ::
      (p.0 == sentinel && t.leaf[p].File? && q.0 != sentinel && q.1 == p.1 && q.2 == p.2) ==> t.leaf[q].File?
  }

  /** The files moved once the sentinel's date folders in `done` have been handled. */
  function MovedSources(t: Tree, sentinel: string, index: map<string, string>, done: set<string>): (m: set<Path>)
    ensures forall p :: p in m <==> p.1 in done && Moves(t, sentinel, index, p)
  {
    set p | p in t.leaf && p.1 in done && Moves(t, sentinel, index, p)
  }

  /** The files that stay where they are while the files in `moved` are moved. */
  function Kept(t: Tree, moved: set<Path>): map<Path, Entry> {
    map p | p in t.leaf && p !in moved :: t.leaf[p]
  }

  /** The moved files at their destinations. */
  function Landed(t: Tree, sentinel: string, index: map<string, string>, moved: set<Path>): map<Path, Entry> {
    map p | p in moved && p in t.leaf && p.0 == sentinel && p.1 in index :: Dest(index, p) := t.leaf[p]
  }

  /** The placed files once the files in `moved` have been moved to their destinations. */
  function MovedLeaf(t: Tree, sentinel: string, index: map<string, string>, moved: set<Path>): map<Path, Entry> {
    Kept(t, moved) + Landed(t, sentinel, index, moved)
  }

  /** The date folders one level down, once the emptied ones among `done` have been removed. */
  function RemainingMid(t: Tree, sentinel: string, index: map<string, string>, done: set<string>): map<(string, string), Entry>
  {
    map q | q in t.mid && !(q.0 == sentinel && q.1 in done && Movable(t, sentinel, index, q.1) && OnlyFiles(t, sentinel, q.1)) :: t.mid[q]
  }

  /** The tree once the sentinel's date folders in `done` have been handled. */
  function Progress(t: Tree, sentinel: string, index: map<string, string>, done: set<string>): Tree {
    Tree(t.top, RemainingMid(t, sentinel, index, done), MovedLeaf(t, sentinel, index, MovedSources(t, sentinel, index, done)))
  }

  /** The tree after the move phase: every date folder of the sentinel handled. */
  function Unified(t: Tree, sentinel: string, index: map<string, string>): Tree {
    Progress(t, sentinel, index, Children(t, sentinel))
  }

  /** Every indexed date points at a date directory of a resolved location. */
  ghost predicate IndexValid(t: Tree, sentinel: string, index: map<string, string>) {
    forall d | d in index :: IsDateDir(t, sentinel, index[d], d)
  }

  /** A moved file's destination is free and lies outside the sentinel folder. */
  lemma DestIsFree(t: Tree, sentinel: string, index: map<string, string>, m: Path)
    requires IndexValid(t, sentinel, index) && NoNameClashes(t, sentinel)
    requires Moves(t, sentinel, index, m)
    ensures Dest(index, m) !in t.leaf && Dest(index, m).0 != sentinel
  {
    var q := (index[m.1], m.1);
    assert IsDateDir(t, sentinel, index[m.1], m.1);
    assert q in t.mid;
  }

  /** A landed file is named after a moved one and lies outside the sentinel folder. */
  lemma LandedAt(t: Tree, sentinel: string, index: map<string, string>, moved: set<Path>, p: Path)
    requires IndexValid(t, sentinel, index)
    requires forall m | m in moved :: Moves(t, sentinel, index, m)
    requires p in Landed(t, sentinel, index, moved)
    ensures p.0 != sentinel && p.1 in index && p.0 == index[p.1] && (sentinel, p.1, p.2) in moved
    ensures Landed(t, sentinel, index, moved)[p] == t.leaf[(sentinel, p.1, p.2)]
  {
    var m :| m in moved && m in t.leaf && m.0 == sentinel && m.1 in index && Dest(index, m) == p;
    assert m == (sentinel, p.1, p.2);
    assert IsDateDir(t, sentinel, index[m.1], m.1);
  }

  lemma KeptOneMore(t: Tree, moved: set<Path>, m: Path)
    ensures Kept(t, moved + {m}) == Kept(t, moved) - {m}
  {
  }

  lemma LandedOneMore(t: Tree, sentinel: string, index: map<string, string>, moved: set<Path>, m: Path)
    requires IndexValid(t, sentinel, index)
    requires forall p | p in moved :: Moves(t, sentinel, index, p)
    requires Moves(t, sentinel, index, m)
    ensures Landed(t, sentinel, index, moved + {m}) == Landed(t, sentinel, index, moved)[Dest(index, m) := t.leaf[m]]
  {
    var before, after := Landed(t, sentinel, index, moved), Landed(t, sentinel, index, moved + {m});
    var expected := before[Dest(index, m) := t.leaf[m]];
    forall p | p in after
      ensures p in expected && after[p] == expected[p]
    {
      var q :| q in moved + {m} && q in t.leaf && q.0 == sentinel && q.1 in index && Dest(index, q) == p;
      assert q == (sentinel, p.1, p.2);
      if q != m {
        assert p in before;
      }
    }
    forall p | p in expected
      ensures p in after
    {
      if p != Dest(index, m) {
        var q :| q in moved && q in t.leaf && q.0 == sentinel && q.1 in index && Dest(index, q) == p;
        assert q in moved + {m};
      }
    }
  }

  /** Removing a key that the right operand lacks commutes with the union, and so does an update. */
  lemma UnionAlgebra<K, V>(keep: map<K, V>, land: map<K, V>, m: K, k: K, v: V)
    requires m !in land
    ensures (keep + land) - {m} == (keep - {m}) + land
    ensures (keep - {m}) + land[k := v] == ((keep - {m}) + land)[k := v]
  {
  }

  /** Moving one more file: remove it from the sentinel folder, add it at its destination. */
  lemma MoveOneMore(t: Tree, sentinel: string, index: map<string, string>, moved: set<Path>, m: Path)
    requires IndexValid(t, sentinel, index)
    requires forall p | p in moved :: Moves(t, sentinel, index, p)
    requires Moves(t, sentinel, index, m) && m !in moved
    ensures m in MovedLeaf(t, sentinel, index, moved) && MovedLeaf(t, sentinel, index, moved)[m] == t.leaf[m]
    ensures MovedLeaf(t, sentinel, index, moved + {m})
            == (MovedLeaf(t, sentinel, index, moved) - {m})[Dest(index, m) := t.leaf[m]]
  {
    var keep, land := Kept(t, moved), Landed(t, sentinel, index, moved);
    assert m !in land by {
      if m in land {
        LandedAt(t, sentinel, index, moved, m);
      }
    }
    KeptOneMore(t, moved, m);
    LandedOneMore(t, sentinel, index, moved, m);
    UnionAlgebra(keep, land, m, Dest(index, m), t.leaf[m]);
  }

  /**
   * What is left in the sentinel folder once the files in `moved` are gone: exactly its
   * original entries other than the moved ones, unchanged.
   */
  lemma SentinelEntries(t: Tree, sentinel: string, index: map<string, string>, moved: set<Path>, p: Path)
    requires IndexValid(t, sentinel, index)
    requires forall m | m in moved :: Moves(t, sentinel, index, m)
    requires p.0 == sentinel
    ensures p in MovedLeaf(t, sentinel, index, moved) <==> p in t.leaf && p !in moved
    ensures p in MovedLeaf(t, sentinel, index, moved) ==> MovedLeaf(t, sentinel, index, moved)[p] == t.leaf[p]
  {
    if p in Landed(t, sentinel, index, moved) {
      LandedAt(t, sentinel, index, moved, p);
    }
  }

  /** Handling one more date folder removes it from the middle level exactly when it is movable and holds only files. */
  lemma RemainingMidOneMore(t: Tree, sentinel: string, index: map<string, string>, done: set<string>, d: string)
    ensures RemainingMid(t, sentinel, index, done + {d})
            == if Movable(t, sentinel, index, d) && OnlyFiles(t, sentinel, d)
               then RemainingMid(t, sentinel, index, done) - {(sentinel, d)}
               else RemainingMid(t, sentinel, index, done)
  {
  }

  /** A date folder that is not movable changes nothing when it is visited. */
  lemma SkipFolder(t: Tree, sentinel: string, index: map<string, string>, done: set<string>, d: string)
    requires !Movable(t, sentinel, index, d)
    ensures Progress(t, sentinel, index, done + {d}) == Progress(t, sentinel, index, done)
  {
    RemainingMidOneMore(t, sentinel, index, done, d);
    assert MovedSources(t, sentinel, index, done + {d}) == MovedSources(t, sentinel, index, done);
  }

  /** After a movable date folder is handled, what is left in it is exactly its non-file entries. */
  lemma LeftInFolder(t: Tree, sentinel: string, index: map<string, string>, done: set<string>, d: string, n: string)
    requires IndexValid(t, sentinel, index)
    requires d in done && Movable(t, sentinel, index, d)
    ensures (sentinel, d, n) in MovedLeaf(t, sentinel, index, MovedSources(t, sentinel, index, done))
            <==> (sentinel, d, n) in t.leaf && !t.leaf[(sentinel, d, n)].File?
  {
    SentinelEntries(t, sentinel, index, MovedSources(t, sentinel, index, done), (sentinel, d, n));
  }

  /** A date folder is left empty by the move exactly when it held only files. */
  lemma EmptiedIffOnlyFiles(t: Tree, sentinel: string, index: map<string, string>, done: set<string>, d: string)
    requires IndexValid(t, sentinel, index)
    requires d in done && Movable(t, sentinel, index, d)
    ensures (forall n :: (sentinel, d, n) !in MovedLeaf(t, sentinel, index, MovedSources(t, sentinel, index, done)))
            <==> OnlyFiles(t, sentinel, d)
  {
    forall n {
      LeftInFolder(t, sentinel, index, done, d, n);
    }
    if !OnlyFiles(t, sentinel, d) {
      var p :| p in t.leaf && p.0 == sentinel && p.1 == d && !t.leaf[p].File?;
      assert p == (sentinel, d, p.2);
    }
  }

  /** The files to move from `output/sentinel/d` among the names `visited`. */
  function FilesAmong(t: Tree, sentinel: string, index: map<string, string>, d: string, visited: set<string>): (m: set<Path>)
    ensures forall p :: p in m <==> p.0 == sentinel && p.1 == d && p.2 in visited && Moves(t, sentinel, index, p)
  {
    set p | p in t.leaf && p.0 == sentinel && p.1 == d && p.2 in visited && Moves(t, sentinel, index, p)
  }

  /** Visiting one more name adds that name's file when it is to be moved. */
  lemma FilesAmongOneMore(t: Tree, sentinel: string, index: map<string, string>, d: string, visited: set<string>, n: string)
    ensures FilesAmong(t, sentinel, index, d, visited + {n})
            == FilesAmong(t, sentinel, index, d, visited)
               + (if Moves(t, sentinel, index, (sentinel, d, n)) then {(sentinel, d, n)} else {})
  {
  }

  /**
   * One step of the inner move loop: the entry `output/sentinel/d/n`, found in the folder
   * before the loop, is still in place; if it is a regular file, moving it is what visiting
   * `n` adds to the moves, and otherwise visiting `n` changes nothing.
   */
  lemma MoveStep(t: Tree, sentinel: string, index: map<string, string>, done: set<string>, d: string,
                 visited: set<string>, n: string)
    requires IndexValid(t, sentinel, index)
    requires d !in done && Movable(t, sentinel, index, d) && n !in visited
    requires (sentinel, d, n) in MovedLeaf(t, sentinel, index, MovedSources(t, sentinel, index, done))
    ensures var leaf := MovedLeaf(t, sentinel, index, MovedSources(t, sentinel, index, done) + FilesAmong(t, sentinel, index, d, visited));
            && (sentinel, d, n) in leaf && leaf[(sentinel, d, n)] == t.leaf[(sentinel, d, n)]
            && MovedLeaf(t, sentinel, index, MovedSources(t, sentinel, index, done) + FilesAmong(t, sentinel, index, d, visited + {n}))
               == if t.leaf[(sentinel, d, n)].File?
                  then (leaf - {(sentinel, d, n)})[(index[d], d, n) := t.leaf[(sentinel, d, n)]]
                  else leaf
  {
    var source := (sentinel, d, n);
    var before := MovedSources(t, sentinel, index, done);
    var moved := before + FilesAmong(t, sentinel, index, d, visited);
    SentinelEntries(t, sentinel, index, before, source);
    SentinelEntries(t, sentinel, index, moved, source);
    FilesAmongOneMore(t, sentinel, index, d, visited, n);
    if t.leaf[source].File? {
      MoveOneMore(t, sentinel, index, moved, source);
      UnionAssociative(before, FilesAmong(t, sentinel, index, d, visited), {source});
    } else {
      assert moved == before + FilesAmong(t, sentinel, index, d, visited + {n});
    }
  }

  /** Visiting every name found in a movable date folder moves exactly that folder's files. */
  lemma AllNamesVisited(t: Tree, sentinel: string, index: map<string, string>, done: set<string>, d: string)
    requires IndexValid(t, sentinel, index)
    requires d !in done
    ensures MovedSources(t, sentinel, index, done) + FilesAmong(t, sentinel, index, d, {}) == MovedSources(t, sentinel, index, done)
    ensures MovedSources(t, sentinel, index, done + {d})
            == MovedSources(t, sentinel, index, done)
               + FilesAmong(t, sentinel, index, d, Entries(Progress(t, sentinel, index, done), sentinel, d))
  {
    var before := MovedSources(t, sentinel, index, done);
    forall p | Moves(t, sentinel, index, p) && p.1 == d
      ensures p.2 in Entries(Progress(t, sentinel, index, done), sentinel, d)
    {
      SentinelEntries(t, sentinel, index, before, p);
    }
  }

  lemma UnionAssociative<T>(a: set<T>, b: set<T>, c: set<T>)
    ensures (a + b) + c == a + (b + c)
  {
  }

  /** Taking one more element out of the pending part of a work set. */
  lemma VisitOneMore<T>(all: set<T>, pending: set<T>, x: T)
    requires x in pending && pending <= all
    ensures all - (pending - {x}) == (all - pending) + {x}
  {
  }

  /**
   * The body of the inner move loop for the name `n` of `output/sentinel/d`: a regular file is
   * moved to the indexed location's folder of the same date, anything else is left alone.
   */
  method VisitName(ghost t: Tree, r: Tree, sentinel: string, index: map<string, string>,
                   ghost done: set<string>, d: string, ghost visited: set<string>, n: string) returns (next: Tree)
    requires IndexValid(t, sentinel, index)
    requires d !in done && Movable(t, sentinel, index, d) && n !in visited
    requires (sentinel, d, n) in MovedLeaf(t, sentinel, index, MovedSources(t, sentinel, index, done))
    requires r.leaf == MovedLeaf(t, sentinel, index, MovedSources(t, sentinel, index, done) + FilesAmong(t, sentinel, index, d, visited))
    ensures next.top == r.top && next.mid == r.mid
    ensures next.leaf == MovedLeaf(t, sentinel, index, MovedSources(t, sentinel, index, done) + FilesAmong(t, sentinel, index, d, visited + {n}))
  {
    MoveStep(t, sentinel, index, done, d, visited, n);
    next := r;
    if r.leaf[(sentinel, d, n)].File? {
      next := r.(leaf := (r.leaf - {(sentinel, d, n)})[(index[d], d, n) := r.leaf[(sentinel, d, n)]]);
    }
  }

  /**
   * The inner move loop for one date folder `output/sentinel/d` that matches the pattern and is
   * indexed: every regular file in it is moved to the indexed location's folder of the same
   * date.  `t` is the tree before the move phase and `done` the date folders already handled.
   */
  method MoveFolderFiles(ghost t: Tree, current: Tree, sentinel: string, index: map<string, string>,
                         ghost done: set<string>, d: string) returns (r: Tree)
    requires IndexValid(t, sentinel, index)
    requires current == Progress(t, sentinel, index, done)
    requires d !in done && Movable(t, sentinel, index, d)
    ensures r.top == t.top && r.mid == RemainingMid(t, sentinel, index, done)
    ensures r.leaf == MovedLeaf(t, sentinel, index, MovedSources(t, sentinel, index, done + {d}))
  {
    var names := Entries(current, sentinel, d);
    ghost var before := MovedSources(t, sentinel, index, done);
    var pending := names;
    r := current;
    AllNamesVisited(t, sentinel, index, done, d);
    assert names - pending == {};
    while pending != {}
      invariant pending <= names
      invariant r.top == t.top && r.mid == RemainingMid(t, sentinel, index, done)
      invariant r.leaf == MovedLeaf(t, sentinel, index, before + FilesAmong(t, sentinel, index, d, names - pending))
      decreases pending
    {
      var n :| n in pending;
      r := VisitName(t, r, sentinel, index, done, d, names - pending, n);
      VisitOneMore(names, pending, n);
      pending := pending - {n};
    }
    assert names - pending == names;
  }

  /**
   * One date folder `output/sentinel/d` that matches the pattern and is indexed: its regular
   * files are moved, then the folder is removed if nothing is left in it.
   */
  method DrainFolder(ghost t: Tree, current: Tree, sentinel: string, index: map<string, string>,
                     ghost done: set<string>, d: string) returns (r: Tree)
    requires IndexValid(t, sentinel, index)
    requires current == Progress(t, sentinel, index, done)
    requires d !in done && Movable(t, sentinel, index, d)
    ensures r == Progress(t, sentinel, index, done + {d})
  {
    r := MoveFolderFiles(t, current, sentinel, index, done, d);
    var rest := Entries(r, sentinel, d);
    EmptiedIffOnlyFiles(t, sentinel, index, done + {d}, d);
    assert rest == {} <==> forall n :: (sentinel, d, n) !in r.leaf by {
      if n :| (sentinel, d, n) in r.leaf {
        assert n in rest;
      }
    }
    RemainingMidOneMore(t, sentinel, index, done, d);
    if rest == {} {
      r := r.(mid := r.mid - {(sentinel, d)});
    }
  }

  /** The index entries one location contributes, restricted to the subfolders visited so far. */
  function FolderDates(t: Tree, sentinel: string, folder: string, visited: set<string>): (m: map<string, string>)
    ensures forall d :: d in m <==> d in visited && IsDateDir(t, sentinel, folder, d)
    ensures forall d | d in m :: m[d] == folder
  {
    map d | d in visited && IsDateDir(t, sentinel, folder, d) :: folder
  }

  /** Visiting one more subfolder adds it to the index exactly when it is a date directory. */
  lemma FolderDatesOneMore(t: Tree, sentinel: string, folder: string, base: map<string, string>, visited: set<string>, d: string)
    ensures base + FolderDates(t, sentinel, folder, visited + {d})
            == if IsDateDir(t, sentinel, folder, d) then (base + FolderDates(t, sentinel, folder, visited))[d := folder]
               else base + FolderDates(t, sentinel, folder, visited)
  {
  }

  /** The index after all of a location's subfolders, and before any of them. */
  lemma FolderDatesBounds(t: Tree, sentinel: string, folder: string, base: map<string, string>)
    ensures base + FolderDates(t, sentinel, folder, {}) == base
    ensures base + FolderDates(t, sentinel, folder, Children(t, folder))
            == base + map d | d in DatesOf(t, sentinel, folder) :: folder
  {
    assert FolderDates(t, sentinel, folder, {}) == map[];
  }

  /**
   * The inner index loop for one top-level entry `folder` that is a resolved location's
   * directory: each of its subfolders that is a directory named like a date now maps to
   * `folder`, overwriting what an earlier location left there.
   */
  method IndexFolder(t: Tree, sentinel: string, folder: string, index: map<string, string>) returns (r: map<string, string>)
    requires folder != sentinel && folder in t.top && t.top[folder] == Dir
    ensures r == index + map d | d in DatesOf(t, sentinel, folder) :: folder
  {
    var subfolders := Children(t, folder);
    var pending := subfolders;
    r := index;
    FolderDatesBounds(t, sentinel, folder, index);
    assert subfolders - pending == {};
    while pending != {}
      invariant pending <= subfolders
      invariant r == index + FolderDates(t, sentinel, folder, subfolders - pending)
      decreases pending
    {
      var d :| d in pending;
      FolderDatesOneMore(t, sentinel, folder, index, subfolders - pending, d);
      if (folder, d) in t.mid && t.mid[(folder, d)] == Dir && MatchesDatePattern(d) {
        r := r[d := folder];
      }
      VisitOneMore(subfolders, pending, d);
      pending := pending - {d};
    }
    assert subfolders - pending == subfolders;
  }

  /** One more listed entry extends the index by that entry's date folders. */
  lemma IndexOfOneMore(t: Tree, sentinel: string, listing: seq<string>, i: nat)
    requires i < |listing|
    ensures IndexOf(t, sentinel, listing[..i + 1])
            == IndexOf(t, sentinel, listing[..i]) + map d | d in DatesOf(t, sentinel, listing[i]) :: listing[i]
  {
    assert listing[..i + 1][..i] == listing[..i];
  }

  /**
   * The index loop: the top-level entries are visited in `listing` order, skipping the
   * sentinel and anything that is not a directory.
   */
  method BuildIndex(t: Tree, sentinel: string, listing: seq<string>) returns (index: map<string, string>)
    ensures index == IndexOf(t, sentinel, listing)
  {
    index := map[];
    var i := 0;
    while i < |listing|
      invariant 0 <= i <= |listing|
      invariant index == IndexOf(t, sentinel, listing[..i])
    {
      var folder := listing[i];
      IndexOfOneMore(t, sentinel, listing, i);
      if folder != sentinel && folder in t.top && t.top[folder] == Dir {
        index := IndexFolder(t, sentinel, folder, index);
      } else {
        assert DatesOf(t, sentinel, folder) == {};
        assert (index + map d | d in DatesOf(t, sentinel, folder) :: folder) == index;
      }
      i := i + 1;
    }
    assert listing[..i] == listing;
  }

  /** Before any date folder is handled the tree is unchanged. */
  lemma ProgressNone(t: Tree, sentinel: string, index: map<string, string>)
    ensures Progress(t, sentinel, index, {}) == t
  {
    assert MovedSources(t, sentinel, index, {}) == {};
    assert Kept(t, {}) == t.leaf;
    assert Landed(t, sentinel, index, {}) == map[];
    assert RemainingMid(t, sentinel, index, {}) == t.mid;
  }

  /** A date folder not yet handled is still as it was, so testing it now tests the original. */
  lemma MovableNow(t: Tree, sentinel: string, index: map<string, string>, done: set<string>, d: string)
    requires d !in done
    ensures var mid := Progress(t, sentinel, index, done).mid;
            Movable(t, sentinel, index, d)
            <==> (sentinel, d) in mid && mid[(sentinel, d)] == Dir && MatchesDatePattern(d) && d in index
  {
  }

  /**
   * The move loop: every entry of the sentinel folder is visited; the date folders that match
   * the pattern and are indexed are drained, and the others are left alone.
   */
  method MovePhase(t: Tree, sentinel: string, index: map<string, string>) returns (result: Tree)
    requires IndexValid(t, sentinel, index)
    ensures result == Unified(t, sentinel, index)
  {
    var names := Children(t, sentinel);
    var pending := names;
    result := t;
    ProgressNone(t, sentinel, index);
    assert names - pending == {};
    while pending != {}
      invariant pending <= names
      invariant result == Progress(t, sentinel, index, names - pending)
      decreases pending
    {
      var d :| d in pending;
      MovableNow(t, sentinel, index, names - pending, d);
      if (sentinel, d) in result.mid && result.mid[(sentinel, d)] == Dir && MatchesDatePattern(d) && d in index {
        result := DrainFolder(t, result, sentinel, index, names - pending, d);
      } else {
        SkipFolder(t, sentinel, index, names - pending, d);
      }
      VisitOneMore(names, pending, d);
      pending := pending - {d};
    }
    assert names - pending == names;
  }

  /**
   * The whole pass, for either variant's sentinel (`No_Location` or `Sin_Ubicacion`), given
   * the output folder's entries in the order `os.listdir` returns them.  Nothing happens when
   * the sentinel is absent; when it is a file, listing it raises once the index is built, and
   * the tree is unchanged; otherwise the result is `Unified` with the index of the listing.
   */
  method Unify(t: Tree, sentinel: string, listing: seq<string>) returns (result: Tree, raised: bool)
    requires forall n :: n in t.top <==> n in listing
    requires NoDirectoryInTheWay(t, sentinel)
    ensures raised <==> sentinel in t.top && t.top[sentinel].File?
    ensures sentinel !in t.top || raised ==> result == t
    ensures sentinel in t.top && t.top[sentinel] == Dir ==> result == Unified(t, sentinel, IndexOf(t, sentinel, listing))
    ensures result.top == t.top
  {
    if sentinel !in t.top {
      return t, false;
    }
    var index := BuildIndex(t, sentinel, listing);
    if t.top[sentinel].File? {
      return t, true;
    }
    result := MovePhase(t, sentinel, index);
    raised := false;
  }

  /**
   * A regular file of an indexed date folder of the sentinel leaves it and appears, unchanged,
   * under the indexed location's folder of the same date.
   */
  lemma UnifiedMovesFiles(t: Tree, sentinel: string, index: map<string, string>, p: Path)
    requires IndexValid(t, sentinel, index)
    requires Moves(t, sentinel, index, p)
    ensures var u := Unified(t, sentinel, index);
            p !in u.leaf && Dest(index, p) in u.leaf && u.leaf[Dest(index, p)] == t.leaf[p]
  {
    var moved := MovedSources(t, sentinel, index, Children(t, sentinel));
    assert p.1 in Children(t, sentinel);
    SentinelEntries(t, sentinel, index, moved, p);
    assert Dest(index, p) in Landed(t, sentinel, index, moved);
  }

  /**
   * Every other entry stays where it is; its content changes only when it is the namesake a
   * moved file replaces, which cannot happen when there are no name clashes.
   */
  lemma UnifiedKeepsOthers(t: Tree, sentinel: string, index: map<string, string>, p: Path)
    requires IndexValid(t, sentinel, index)
    requires p in t.leaf && !Moves(t, sentinel, index, p)
    ensures var u := Unified(t, sentinel, index);
            && p in u.leaf
            && (u.leaf[p] == t.leaf[p]
                || (Moves(t, sentinel, index, (sentinel, p.1, p.2)) && p == Dest(index, (sentinel, p.1, p.2))))
            && (NoNameClashes(t, sentinel) ==> u.leaf[p] == t.leaf[p])
  {
    var moved := MovedSources(t, sentinel, index, Children(t, sentinel));
    assert p in Kept(t, moved);
    if p in Landed(t, sentinel, index, moved) {
      LandedAt(t, sentinel, index, moved, p);
      if NoNameClashes(t, sentinel) {
        DestIsFree(t, sentinel, index, (sentinel, p.1, p.2));
      }
    }
  }

  /** Nothing appears from nowhere: every entry after the pass is an unmoved original or a moved file at its destination. */
  lemma UnifiedAddsNothing(t: Tree, sentinel: string, index: map<string, string>, p: Path)
    requires IndexValid(t, sentinel, index)
    requires p in Unified(t, sentinel, index).leaf
    ensures || (p in t.leaf && !Moves(t, sentinel, index, p))
            || (Moves(t, sentinel, index, (sentinel, p.1, p.2)) && p == Dest(index, (sentinel, p.1, p.2)))
  {
    var moved := MovedSources(t, sentinel, index, Children(t, sentinel));
    if p in Landed(t, sentinel, index, moved) {
      LandedAt(t, sentinel, index, moved, p);
    }
  }

  /**
   * An indexed date folder of the sentinel keeps no regular file, and it is gone afterwards
   * exactly when it held nothing but regular files.
   */
  lemma UnifiedDrainsIndexedDates(t: Tree, sentinel: string, index: map<string, string>, d: string, n: string)
    requires IndexValid(t, sentinel, index)
    requires Movable(t, sentinel, index, d)
    ensures var u := Unified(t, sentinel, index);
            && ((sentinel, d, n) in u.leaf ==> !u.leaf[(sentinel, d, n)].File?)
            && ((sentinel, d) in u.mid <==> !OnlyFiles(t, sentinel, d))
  {
    assert d in Children(t, sentinel);
    LeftInFolder(t, sentinel, index, Children(t, sentinel), d, n);
    SentinelEntries(t, sentinel, index, MovedSources(t, sentinel, index, Children(t, sentinel)), (sentinel, d, n));
  }

  /**
   * Folders one level down are only ever removed, never changed or added, and a removed one is
   * an indexed date folder of the sentinel that the pass left empty.
   */
  lemma UnifiedRemovesOnlyEmptied(t: Tree, sentinel: string, index: map<string, string>, q: (string, string), n: string)
    requires IndexValid(t, sentinel, index)
    ensures var u := Unified(t, sentinel, index);
            && (q in u.mid ==> q in t.mid && u.mid[q] == t.mid[q])
            && (q in t.mid && q !in u.mid ==> q.0 == sentinel && Movable(t, sentinel, index, q.1) && (q.0, q.1, n) !in u.leaf)
  {
    var u := Unified(t, sentinel, index);
    if q in t.mid && q !in u.mid {
      assert q.1 in Children(t, sentinel);
      EmptiedIffOnlyFiles(t, sentinel, index, Children(t, sentinel), q.1);
    }
  }

  /** The pass keeps the output folder well formed: a moved file lands in an existing date directory. */
  lemma UnifiedWellFormed(t: Tree, sentinel: string, index: map<string, string>)
    requires WellFormed(t) && IndexValid(t, sentinel, index)
    ensures WellFormed(Unified(t, sentinel, index))
  {
    var u := Unified(t, sentinel, index);
    var moved := MovedSources(t, sentinel, index, Children(t, sentinel));
    forall k | k in u.leaf
      ensures (k.0, k.1) in u.mid && u.mid[(k.0, k.1)] == Dir
    {
      if k in Landed(t, sentinel, index, moved) {
        LandedAt(t, sentinel, index, moved, k);
      } else if k.0 == sentinel {
        SentinelEntries(t, sentinel, index, moved, k);
      }
    }
  }

  /** Only the sentinel's folders change, so the index of the unified tree is the index of the original. */
  lemma DatesOfUnchanged(t: Tree, sentinel: string, index: map<string, string>, folder: string)
    requires IndexValid(t, sentinel, index)
    ensures DatesOf(Unified(t, sentinel, index), sentinel, folder) == DatesOf(t, sentinel, folder)
  {
    forall d
      ensures IsDateDir(Unified(t, sentinel, index), sentinel, folder, d) <==> IsDateDir(t, sentinel, folder, d)
    {
      UnifiedRemovesOnlyEmptied(t, sentinel, index, (folder, d), "");
    }
  }

  lemma {:induction false} IndexOfUnchanged(t: Tree, sentinel: string, index: map<string, string>, listing: seq<string>)
    requires IndexValid(t, sentinel, index)
    ensures IndexOf(Unified(t, sentinel, index), sentinel, listing) == IndexOf(t, sentinel, listing)
    decreases |listing|
  {
    if listing != [] {
      IndexOfUnchanged(t, sentinel, index, listing[..|listing| - 1]);
      DatesOfUnchanged(t, sentinel, index, listing[|listing| - 1]);
    }
  }

  /** A tree with no regular file left to move and no emptied date folder left to remove is a fixed point. */
  lemma NothingToDo(u: Tree, sentinel: string, index: map<string, string>)
    requires forall p | p in u.leaf && p.0 == sentinel && Movable(u, sentinel, index, p.1) :: !u.leaf[p].File?
    requires forall d | Movable(u, sentinel, index, d) :: !OnlyFiles(u, sentinel, d)
    ensures Unified(u, sentinel, index) == u
  {
    var moved := MovedSources(u, sentinel, index, Children(u, sentinel));
    assert moved == {};
    assert Kept(u, moved) == u.leaf;
    assert Landed(u, sentinel, index, moved) == map[];
    assert RemainingMid(u, sentinel, index, Children(u, sentinel)) == u.mid;
  }

  /**
   * Unification is idempotent: running the pass again on its own output, with the same
   * listing order, changes nothing.
   */
  lemma UnifyIdempotent(t: Tree, sentinel: string, listing: seq<string>)
    ensures var u := Unified(t, sentinel, IndexOf(t, sentinel, listing));
            Unified(u, sentinel, IndexOf(u, sentinel, listing)) == u
  {
    var index := IndexOf(t, sentinel, listing);
    var u := Unified(t, sentinel, index);
    IndexOfUnchanged(t, sentinel, index, listing);
    forall p | p in u.leaf && p.0 == sentinel && Movable(u, sentinel, index, p.1)
      ensures !u.leaf[p].File?
    {
      UnifiedRemovesOnlyEmptied(t, sentinel, index, (sentinel, p.1), p.2);
      UnifiedDrainsIndexedDates(t, sentinel, index, p.1, p.2);
      assert p == (sentinel, p.1, p.2);
    }
    forall d | Movable(u, sentinel, index, d)
      ensures !OnlyFiles(u, sentinel, d)
    {
      UnifiedRemovesOnlyEmptied(t, sentinel, index, (sentinel, d), "");
      UnifiedDrainsIndexedDates(t, sentinel, index, d, "");
      var p :| p in t.leaf && p.0 == sentinel && p.1 == d && !t.leaf[p].File?;
      SentinelEntries(t, sentinel, index, MovedSources(t, sentinel, index, Children(t, sentinel)), p);
    }
    NothingToDo(u, sentinel, index);
  }
}
