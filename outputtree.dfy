/**
 * The output folder as the engine sees it: entries directly under it (location labels, and
 * stray files such as a log), entries one level down (date folders) and entries two levels down
 * (the placed files).  A directory's own contents below the third level are not modelled.
 */
module OutputTree {

  /** A directory entry: a regular file (named after the source file it copies) or a directory. */
  datatype Entry = File(origin: string) | Dir

  /**
   * `top[location]`, `mid[(location, date)]` and `leaf[(location, date, name)]` are the entries at
   * `output/location`, `output/location/date` and `output/location/date/name`.
   */
  datatype Tree = Tree(
    top: map<string, Entry>,
    mid: map<(string, string), Entry>,
    leaf: map<(string, string, string), Entry>)

  /** Every entry's parent exists and is a directory. */
  ghost predicate WellFormed(t: Tree) {
    && (forall k | k in t.mid :: k.0 in t.top && t.top[k.0] == Dir)
    && (forall k | k in t.leaf :: (k.0, k.1) in t.mid && t.mid[(k.0, k.1)] == Dir)
  }

  /** Every entry present in `t` is present in `u` unchanged. */
  ghost predicate Extends(t: Tree, u: Tree) {
    && (forall k | k in t.top :: k in u.top && u.top[k] == t.top[k])
    && (forall k | k in t.mid :: k in u.mid && u.mid[k] == t.mid[k])
    && (forall k | k in t.leaf :: k in u.leaf && u.leaf[k] == t.leaf[k])
  }

  /** What one placement did: copied, skipped an existing destination, or raised. */
  datatype CopyOutcome = Copied(tree: Tree) | Skipped(tree: Tree) | Raised

  /** `os.makedirs(output/location/date, exist_ok=True)` raises when either component is a file. */
  predicate MakedirsRaises(t: Tree, location: string, date: string) {
    (location in t.top && t.top[location].File?) || ((location, date) in t.mid && t.mid[(location, date)].File?)
  }

  /**
   * One placement: `os.makedirs(target, exist_ok=True)`, then `shutil.copy` unless
   * `output/location/date/name` already exists, in which case the copy is skipped.  A file in the
   * way of the directories makes makedirs raise.
   */
  function CopyIfAbsent(t: Tree, location: string, date: string, name: string, origin: string): (r: CopyOutcome)
    ensures r.Raised? <==> MakedirsRaises(t, location, date)
    ensures r.Copied? <==> !MakedirsRaises(t, location, date) && (location, date, name) !in t.leaf
    ensures !r.Raised? ==> Extends(t, r.tree) && (location, date, name) in r.tree.leaf
    ensures !r.Raised? ==> r.tree.top.Keys == t.top.Keys + {location}
    ensures !r.Raised? ==> r.tree.mid.Keys == t.mid.Keys + {(location, date)}
    ensures !r.Raised? ==> r.tree.leaf.Keys == t.leaf.Keys + {(location, date, name)}
    ensures r.Copied? ==> r.tree.leaf[(location, date, name)] == File(origin)
    ensures WellFormed(t) && !r.Raised? ==> WellFormed(r.tree)
    ensures WellFormed(t) && r.Skipped? ==> r.tree == t
  {
    if MakedirsRaises(t, location, date) then Raised
    else
      var dirs := Tree(t.top[location := Dir], t.mid[(location, date) := Dir], t.leaf);
      if (location, date, name) in t.leaf then
        assert WellFormed(t) ==> dirs == t by {
          if WellFormed(t) {
            assert t.top[location := Dir] == t.top;
            assert t.mid[(location, date) := Dir] == t.mid;
          }
        }
        Skipped(dirs)
      else
        Copied(dirs.(leaf := t.leaf[(location, date, name) := File(origin)]))
  }

  /** Copy-if-absent never changes a file that is already in the tree. */
  lemma NeverOverwrites(t: Tree, location: string, date: string, name: string, origin: string, k: (string, string, string))
    requires k in t.leaf
    requires !CopyIfAbsent(t, location, date, name, origin).Raised?
    ensures CopyIfAbsent(t, location, date, name, origin).tree.leaf[k] == t.leaf[k]
  {
  }

  /** `Extends` is transitive. */
  lemma ExtendsTransitive(t: Tree, u: Tree, v: Tree)
    requires Extends(t, u) && Extends(u, v)
    ensures Extends(t, v)
  {
  }
}
