/**
 * The class-based engine of `AcomodoFotos/src/organizador.py`: `PhotoVideoOrganizer`, whose
 * metadata resolver reads embedded tags only, whose location cache is a database table that
 * remembers successes only, and whose `organize` runs the placement walk and then the
 * unification of the `Sin_Ubicacion` bucket.  Its conversion of coordinates (`_dms2dd`,
 * `_parse_gps_info`), its tag reader and its date-folder pattern are the shared ones.
 */
module Organizador {

  import opened Wrappers
  import opened Dates
  import opened FileNames
  import opened Coordinates
  import opened MediaMetadata
  import opened Geocoding
  import opened OutputTree
  import opened Unification
  import English

  /** The unresolved-location and undated sentinels of this variant. */
  const SinUbicacion := "Sin_Ubicacion"
  const SinFecha := "Sin_Fecha"

  // ------------------------------------------------------------------ metadata

  /**
   * `_get_final_metadata`: an image gets the date and coordinate of its embedded tags; any other
   * file, videos included, gets (None, None).  No sidecar file is ever consulted.
   */
  function FinalMetadata(name: string, exif: ExifFile): (m: Metadata)
    ensures IsImage(name) ==> m == MetadataFromExif(exif)
    ensures !IsImage(name) ==> m == NoMetadata
  {
    if IsImage(name) then MetadataFromExif(exif) else NoMetadata
  }

  /**
   * Where `English.py` finds no sidecar, the two variants agree; the class-based one behaves as
   * if the sidecar never existed.
   */
  lemma VariantsAgreeWithoutSidecar(name: string, exif: ExifFile)
    ensures FinalMetadata(name, exif) == English.FinalMetadata(name, None, exif)
  {
  }

  /** A video never gets a date or a coordinate, whatever its tags say. */
  lemma VideosGetNoMetadata(name: string, exif: ExifFile)
    requires IsVideo(name)
    ensures FinalMetadata(name, exif) == NoMetadata
  {
    ImageAndVideoDisjoint(name);
  }

  /**
   * The sidecar is where the variants part: a video whose sidecar carries a date is dated by
   * `English.py` and left undated here.
   */
  lemma SidecarOnlyCountsInEnglish(name: string, exif: ExifFile, d: CalendarDate)
    requires IsVideo(name)
    ensures English.FinalMetadata(name, Some(English.Sidecar(Parsed(d), None, None)), exif).date == Some(d)
    ensures FinalMetadata(name, exif).date.None?
  {
    ImageAndVideoDisjoint(name);
  }

  // ------------------------------------------------------------------ location cache

  /**
   * The `location_cache` table, read as a map from the exact coordinate to its (city, state)
   * row, and the coordinates sent to the geocoder so far.
   */
  datatype CacheState = CacheState(rows: map<Coord, (string, string)>, requests: seq<Coord>)

  /**
   * `_get_city_state_name` on a cache state: a stored row gives "city - state" with no geocoder
   * call; otherwise the geocoder is called once, and only an answer with a city and a state is
   * stored.  The sentinel comes back exactly when the coordinate is still not stored afterwards.
   */
  function Resolve(geocoder: Geocoder, s: CacheState, c: Coord): (r: (string, CacheState))
    ensures r.0 == SinUbicacion <==> c !in r.1.rows
    ensures c in r.1.rows ==> r.0 == Label(r.1.rows[c].0, r.1.rows[c].1)
    ensures forall k | k in s.rows :: k in r.1.rows && r.1.rows[k] == s.rows[k]
    ensures r.1.rows.Keys <= s.rows.Keys + {c}
    ensures c !in s.rows && c in r.1.rows ==> CityState(geocoder(c)) == Some(r.1.rows[c])
    ensures r.1.requests == if c in s.rows then s.requests else s.requests + [c]
  {
    if c in s.rows then
      LabelIsNeverSentinel(s.rows[c].0, s.rows[c].1);
      (Label(s.rows[c].0, s.rows[c].1), s)
    else
      var answer := CityState(geocoder(c));
      if answer.Some? then
        LabelIsNeverSentinel(answer.value.0, answer.value.1);
        (Label(answer.value.0, answer.value.1), CacheState(s.rows[c := answer.value], s.requests + [c]))
      else
        (SinUbicacion, CacheState(s.rows, s.requests + [c]))
  }

  /** A stored row answers without a geocoder call and changes nothing. */
  lemma HitCallsNothing(geocoder: Geocoder, s: CacheState, c: Coord)
    requires c in s.rows
    ensures Resolve(geocoder, s, c) == (Label(s.rows[c].0, s.rows[c].1), s)
  {
  }

  /** A geocoder answer with a city and a state is stored and returned as "city - state". */
  lemma SuccessIsStored(geocoder: Geocoder, s: CacheState, c: Coord)
    requires c !in s.rows && CityState(geocoder(c)).Some?
    ensures var (location, s') := Resolve(geocoder, s, c);
            && s'.rows == s.rows[c := CityState(geocoder(c)).value]
            && location == Label(CityState(geocoder(c)).value.0, CityState(geocoder(c)).value.1)
  {
  }

  /**
   * A failure stores nothing, so resolving the same coordinate again is a fresh geocoder call,
   * whose answer (`retry`) may differ from the first one: two resolutions make two calls, the
   * first returns the sentinel, and the second returns whatever the new answer yields.
   */
  lemma FailuresAreRetried(geocoder: Geocoder, retry: Geocoder, s: CacheState, c: Coord)
    requires c !in s.rows && CityState(geocoder(c)).None?
    ensures var (first, s1) := Resolve(geocoder, s, c);
            var (second, s2) := Resolve(retry, s1, c);
            && first == SinUbicacion && s1 == CacheState(s.rows, s.requests + [c])
            && s2.requests == s.requests + [c, c]
            && (CityState(retry(c)).None? ==> second == SinUbicacion && s2.rows == s.rows)
            && (CityState(retry(c)).Some? ==>
                  && second == Label(CityState(retry(c)).value.0, CityState(retry(c)).value.1)
                  && s2.rows == s.rows[c := CityState(retry(c)).value])
  {
  }

  /** A success is asked for once: resolving again returns the same label with no new call. */
  lemma SuccessesAreAskedOnce(geocoder: Geocoder, s: CacheState, c: Coord)
    requires CityState(geocoder(c)).Some?
    ensures var (first, s1) := Resolve(geocoder, s, c);
            var (second, s2) := Resolve(geocoder, s1, c);
            && second == first && s2 == s1
  {
  }

  /**
   * The two cache policies side by side, on a coordinate neither cache knows: both variants
   * return the same "City - State" label when the geocoder answers, and their own sentinels when
   * it does not; after a failure `English.py` remembers the sentinel while this variant stores
   * nothing.
   */
  lemma CachePoliciesCompared(geocoder: Geocoder, keyOf: Coord -> string, e: English.CacheState, s: CacheState, c: Coord)
    requires keyOf(c) !in e.entries && c !in s.rows
    ensures var (english, e') := English.Resolve(geocoder, keyOf, e, c);
            var (spanish, s') := Resolve(geocoder, s, c);
            && (CityState(geocoder(c)).Some? ==> english == spanish)
            && (CityState(geocoder(c)).None? ==> english == English.NoLocation && spanish == SinUbicacion)
            && (CityState(geocoder(c)).None? ==> keyOf(c) in e'.entries && c !in s'.rows)
  {
  }

  // ------------------------------------------------------------------ placement

  /** A file met by `os.walk(self.base_folder)`: its path, its name and its embedded tags. */
  datatype SourceFile = SourceFile(path: string, name: string, exif: ExifFile)

  /** The state of a placement walk: the output tree, the cache, and whether it has raised. */
  datatype Run = Run(tree: Tree, cache: CacheState, crashed: bool)

  /**
   * The bucket of a supported file: its location label (resolved when the file has a
   * coordinate, `Sin_Ubicacion` otherwise), its date folder (`Sin_Fecha` without a date), and the
   * cache after resolving.
   */
  function Bucket(geocoder: Geocoder, s: CacheState, f: SourceFile): (b: (string, string, CacheState))
    ensures var m := FinalMetadata(f.name, f.exif);
            && (m.coords.None? ==> b.0 == SinUbicacion && b.2 == s)
            && (m.coords.Some? ==> (b.0, b.2) == Resolve(geocoder, s, m.coords.value))
            && (m.date.Some? ==> b.1 == DateFolder(m.date.value))
            && (m.date.None? ==> b.1 == SinFecha)
    ensures b.1 == SinFecha || MatchesDatePattern(b.1)
    ensures forall k | k in s.rows :: k in b.2.rows && b.2.rows[k] == s.rows[k]
    ensures forall k | k in b.2.rows && k !in s.rows :: CityState(geocoder(k)) == Some(b.2.rows[k])
  {
    var m := FinalMetadata(f.name, f.exif);
    var (location, s') := if m.coords.Some? then Resolve(geocoder, s, m.coords.value) else (SinUbicacion, s);
    (location, DateFolderOr(m.date, SinFecha), s')
  }

  /**
   * One iteration of the walk: unsupported files are passed over; the others are copied if absent.
   * Nothing already in the output folder changes, and a raise leaves the folder as it was.
   */
  function Step(geocoder: Geocoder, run: Run, f: SourceFile): (next: Run)
    requires !run.crashed
    ensures !IsSupported(f.name) ==> next == run
    ensures Extends(run.tree, next.tree)
    ensures next.crashed ==> next.tree == run.tree
  {
    if !IsSupported(f.name) then run
    else
      var (location, date, s') := Bucket(geocoder, run.cache, f);
      match CopyIfAbsent(run.tree, location, date, f.name, f.path)
      case Raised => Run(run.tree, s', true)
      case Copied(t) => Run(t, s', false)
      case Skipped(t) => Run(t, s', false)
  }

  /**
   * The walk over `files` in order, stopping at the first file whose directories cannot be made.
   * Nothing already in the output folder changes.
   */
  function Organized(geocoder: Geocoder, run: Run, files: seq<SourceFile>): (r: Run)
    ensures Extends(run.tree, r.tree)
    decreases |files|
  {
    if run.crashed || files == [] then run
    else
      var next := Step(geocoder, run, files[0]);
      var r := Organized(geocoder, next, files[1..]);
      ExtendsTransitive(run.tree, next.tree, r.tree);
      r
  }

  /**
   * Stored rows are kept, and every row the walk adds is the geocoder's own answer for that
   * coordinate: failures are never stored.
   */
  ghost predicate StoresOnlySuccesses(geocoder: Geocoder, s: CacheState, s': CacheState) {
    && (forall k | k in s.rows :: k in s'.rows && s'.rows[k] == s.rows[k])
    && (forall k | k in s'.rows && k !in s.rows :: CityState(geocoder(k)) == Some(s'.rows[k]))
  }

  /**
   * The walk only adds: every entry of the output tree survives unchanged (a copy never
   * overwrites), the tree stays well formed, and the cache gains successes only.
   */
  lemma {:induction false} OrganizeOnlyAdds(geocoder: Geocoder, run: Run, files: seq<SourceFile>)
    requires WellFormed(run.tree)
    ensures var r := Organized(geocoder, run, files);
            Extends(run.tree, r.tree) && WellFormed(r.tree) && StoresOnlySuccesses(geocoder, run.cache, r.cache)
    decreases |files|
  {
    if !run.crashed && files != [] {
      var next := Step(geocoder, run, files[0]);
      OrganizeOnlyAdds(geocoder, next, files[1..]);
      ExtendsTransitive(run.tree, next.tree, Organized(geocoder, next, files[1..]).tree);
    }
  }

  /**
   * The location folder `f` belongs in according to a table: "city - state" of its coordinate's
   * row, or `Sin_Ubicacion` when it has no coordinate or its coordinate has no row.
   */
  function PlacedLocation(rows: map<Coord, (string, string)>, f: SourceFile): string {
    var m := FinalMetadata(f.name, f.exif);
    if m.coords.Some? && m.coords.value in rows then Label(rows[m.coords.value].0, rows[m.coords.value].1)
    else SinUbicacion
  }

  /**
   * The location a bucket gets is the one the table still gives at any later point of the walk:
   * a stored row is never changed, and a coordinate that failed is never stored afterwards.
   */
  lemma BucketAgreesWithLaterRows(geocoder: Geocoder, s: CacheState, f: SourceFile, later: CacheState)
    requires StoresOnlySuccesses(geocoder, Bucket(geocoder, s, f).2, later)
    ensures Bucket(geocoder, s, f).0 == PlacedLocation(later.rows, f)
  {
    var m := FinalMetadata(f.name, f.exif);
    if m.coords.Some? {
      var c := m.coords.value;
      if c !in s.rows && CityState(geocoder(c)).None? {
        assert c !in Bucket(geocoder, s, f).2.rows;
        assert c !in later.rows;
      }
    }
  }

  /**
   * `p` holds a copy of `f`, in the bucket its metadata and the table of `r` give: its coordinate's
   * "city - state" (or `Sin_Ubicacion`) and its date's `DD-MM-YY` name (or `Sin_Fecha`).
   */
  ghost predicate PlacedFrom(r: Run, p: Path, f: SourceFile) {
    && p.2 == f.name && p in r.tree.leaf && r.tree.leaf[p] == File(f.path)
    && p.0 == PlacedLocation(r.cache.rows, f)
    && p.1 == DateFolderOr(FinalMetadata(f.name, f.exif).date, SinFecha)
  }

  /** A copy made by one step of the walk stays where the rest of the walk's table says it belongs. */
  lemma StepPlaces(geocoder: Geocoder, run: Run, f: SourceFile, rest: seq<SourceFile>, p: Path)
    requires !run.crashed && WellFormed(run.tree)
    requires p !in run.tree.leaf && p in Step(geocoder, run, f).tree.leaf
    ensures IsSupported(p.2) && (p.1 == SinFecha || MatchesDatePattern(p.1))
    ensures PlacedFrom(Organized(geocoder, Step(geocoder, run, f), rest), p, f)
  {
    var next := Step(geocoder, run, f);
    var r := Organized(geocoder, next, rest);
    var b := Bucket(geocoder, run.cache, f);
    assert IsSupported(f.name) && next.cache == b.2;
    assert p == (b.0, b.1, f.name) && next.tree.leaf[p] == File(f.path);
    OrganizeOnlyAdds(geocoder, next, rest);
    BucketAgreesWithLaterRows(geocoder, run.cache, f, r.cache);
  }

  /**
   * Whatever the walk adds is a supported file of the walk, copied from its path into the bucket
   * its metadata and the final table give: the location is `PlacedLocation` of the table after the
   * walk, and the date folder is its date's `DD-MM-YY` name or `Sin_Fecha`.
   */
  lemma {:induction false} OrganizePlacesOnlySupported(geocoder: Geocoder, run: Run, files: seq<SourceFile>, p: Path)
    requires WellFormed(run.tree)
    requires p !in run.tree.leaf && p in Organized(geocoder, run, files).tree.leaf
    ensures IsSupported(p.2) && (p.1 == SinFecha || MatchesDatePattern(p.1))
    ensures exists i :: 0 <= i < |files| && PlacedFrom(Organized(geocoder, run, files), p, files[i])
    decreases |files|
  {
    var f := files[0];
    var next := Step(geocoder, run, f);
    var r := Organized(geocoder, run, files);
    if p in next.tree.leaf {
      StepPlaces(geocoder, run, f, files[1..], p);
      assert PlacedFrom(r, p, files[0]);
    } else {
      OrganizePlacesOnlySupported(geocoder, next, files[1..], p);
      var i :| 0 <= i < |files[1..]| && PlacedFrom(r, p, files[1..][i]);
      assert files[i + 1] == files[1..][i];
      assert PlacedFrom(r, p, files[i + 1]);
    }
  }

  /** The walk adds regular files only, so a tree whose date folders hold only files keeps that shape. */
  lemma OrganizeAddsOnlyFiles(geocoder: Geocoder, run: Run, files: seq<SourceFile>)
    requires WellFormed(run.tree)
    requires forall p | p in run.tree.leaf :: run.tree.leaf[p].File?
    ensures var t := Organized(geocoder, run, files).tree;
            forall p | p in t.leaf :: t.leaf[p].File?
  {
    var t := Organized(geocoder, run, files).tree;
    OrganizeOnlyAdds(geocoder, run, files);
    forall p | p in t.leaf
      ensures t.leaf[p].File?
    {
      if p !in run.tree.leaf {
        OrganizePlacesOnlySupported(geocoder, run, files, p);
      }
    }
  }

  /** The coordinates the tags of the walk's images carry (other files get no coordinate). */
  function ImageCoords(files: seq<SourceFile>): set<Coord>
    decreases |files|
  {
    if files == [] then {}
    else
      var m := FinalMetadata(files[0].name, files[0].exif);
      (if m.coords.Some? then {m.coords.value} else {}) + ImageCoords(files[1..])
  }

  /**
   * The walk only appends to the geocoder calls, and each call it makes is for a coordinate
   * carried by an image of the walk.
   */
  lemma {:induction false} OrganizeCallsOnlyForImages(geocoder: Geocoder, run: Run, files: seq<SourceFile>)
    ensures var r := Organized(geocoder, run, files);
            && run.cache.requests <= r.cache.requests
            && forall j | |run.cache.requests| <= j < |r.cache.requests| :: r.cache.requests[j] in ImageCoords(files)
    decreases |files|
  {
    if !run.crashed && files != [] {
      var next := Step(geocoder, run, files[0]);
      OrganizeCallsOnlyForImages(geocoder, next, files[1..]);
      var r := Organized(geocoder, next, files[1..]);
      forall j | |run.cache.requests| <= j < |next.cache.requests|
        ensures r.cache.requests[j] in ImageCoords(files)
      {
        assert r.cache.requests[j] == next.cache.requests[j];
      }
    }
  }

  /**
   * `f` needs nothing more: if it is supported, finding its bucket stores no new row and its
   * destination already exists.  Unlike in `English.py`, finding the bucket may still call the
   * geocoder, for a coordinate whose earlier call failed.
   */
  ghost predicate Settled(geocoder: Geocoder, run: Run, f: SourceFile) {
    IsSupported(f.name) ==>
      var b := Bucket(geocoder, run.cache, f);
      b.2.rows == run.cache.rows && (b.0, b.1, f.name) in run.tree.leaf
  }

  /**
   * Within one walk, a settled file stays settled while the tree only grows and the cache gains
   * successes only: the geocoder answers a coordinate the same way each time it is asked.
   */
  lemma SettledStaysSettled(geocoder: Geocoder, run: Run, later: Run, f: SourceFile)
    requires Settled(geocoder, run, f)
    requires StoresOnlySuccesses(geocoder, run.cache, later.cache) && Extends(run.tree, later.tree)
    ensures Settled(geocoder, later, f)
  {
    var m := FinalMetadata(f.name, f.exif);
    if IsSupported(f.name) && m.coords.Some? && m.coords.value !in run.cache.rows {
      assert CityState(geocoder(m.coords.value)).None?;
    }
  }

  /** A file the walk has just handled without raising is settled for the rest of that walk. */
  lemma StepSettles(geocoder: Geocoder, run: Run, f: SourceFile)
    requires !run.crashed && !Step(geocoder, run, f).crashed
    ensures Settled(geocoder, Step(geocoder, run, f), f)
  {
    if IsSupported(f.name) {
      var (location, date, s') := Bucket(geocoder, run.cache, f);
      var next := Step(geocoder, run, f);
      assert next.cache == s' && (location, date, f.name) in next.tree.leaf;
      var m := FinalMetadata(f.name, f.exif);
      if m.coords.Some? {
        var c := m.coords.value;
        assert Resolve(geocoder, s', c).0 == location;
      }
    }
  }

  /**
   * Meeting a settled file again leaves the tree and the stored rows as they are; only a retried
   * failure adds a geocoder call.
   */
  lemma SettledStepKeepsTree(geocoder: Geocoder, run: Run, f: SourceFile)
    requires !run.crashed && WellFormed(run.tree) && Settled(geocoder, run, f)
    ensures var next := Step(geocoder, run, f);
            !next.crashed && next.tree == run.tree && next.cache.rows == run.cache.rows
  {
    if IsSupported(f.name) {
      var (location, date, s') := Bucket(geocoder, run.cache, f);
      assert (location, date) in run.tree.mid;
    }
  }

  /** When the walk does not raise, every file it met is settled afterwards. */
  lemma {:induction false} OrganizeSettles(geocoder: Geocoder, run: Run, files: seq<SourceFile>)
    requires WellFormed(run.tree)
    ensures var r := Organized(geocoder, run, files);
            !r.crashed ==> forall i | 0 <= i < |files| :: Settled(geocoder, r, files[i])
    decreases |files|
  {
    if !run.crashed && files != [] {
      var next := Step(geocoder, run, files[0]);
      var r := Organized(geocoder, next, files[1..]);
      if !r.crashed {
        OrganizeSettles(geocoder, next, files[1..]);
        StepSettles(geocoder, run, files[0]);
        OrganizeOnlyAdds(geocoder, next, files[1..]);
        SettledStaysSettled(geocoder, next, r, files[0]);
        forall i | 1 <= i < |files|
          ensures Settled(geocoder, r, files[i])
        {
          assert files[i] == files[1..][i - 1];
        }
      }
    }
  }

  /** A walk over files that are all settled leaves the tree and the stored rows as they are. */
  lemma {:induction false} SettledWalkKeepsTree(geocoder: Geocoder, run: Run, files: seq<SourceFile>)
    requires !run.crashed && WellFormed(run.tree)
    requires forall i | 0 <= i < |files| :: Settled(geocoder, run, files[i])
    ensures var r := Organized(geocoder, run, files);
            !r.crashed && r.tree == run.tree && r.cache.rows == run.cache.rows
    decreases |files|
  {
    if files != [] {
      var next := Step(geocoder, run, files[0]);
      SettledStepKeepsTree(geocoder, run, files[0]);
      forall i | 0 <= i < |files[1..]|
        ensures Settled(geocoder, next, files[1..][i])
      {
        assert files[1..][i] == files[i + 1];
        SettledStaysSettled(geocoder, run, next, files[i + 1]);
      }
      SettledWalkKeepsTree(geocoder, next, files[1..]);
    }
  }

  /** Every coordinate an image of the walk carries is in `ImageCoords`. */
  lemma {:induction false} InImageCoords(files: seq<SourceFile>, i: nat)
    requires i < |files| && FinalMetadata(files[i].name, files[i].exif).coords.Some?
    ensures FinalMetadata(files[i].name, files[i].exif).coords.value in ImageCoords(files)
    decreases i
  {
    if i > 0 {
      InImageCoords(files[1..], i - 1);
      assert files[1..][i - 1] == files[i];
    }
  }

  /**
   * A settled file stays settled when the geocoder is asked again by a later walk (`retry`), as
   * long as the new answer for its unstored coordinate is a failure too.
   */
  lemma SettledUnderRetry(geocoder: Geocoder, retry: Geocoder, run: Run, f: SourceFile)
    requires Settled(geocoder, run, f)
    requires var m := FinalMetadata(f.name, f.exif);
             m.coords.Some? && m.coords.value !in run.cache.rows ==> CityState(retry(m.coords.value)).None?
    ensures Settled(retry, run, f)
  {
  }

  /**
   * Placement is idempotent on the output folder and the table, provided the coordinates that
   * failed fail again: walking the same files a second time over the result of a walk that did
   * not raise, with the geocoder answering `retry` this time, copies nothing and stores nothing
   * when every image coordinate left without a row gets no (city, state) from `retry` either.
   * The failed coordinates are still sent to the geocoder again.
   */
  lemma OrganizeTreeIdempotent(geocoder: Geocoder, retry: Geocoder, tree: Tree, cache: CacheState,
                               files: seq<SourceFile>)
    requires WellFormed(tree)
    requires forall c | c in ImageCoords(files) && c !in Organized(geocoder, Run(tree, cache, false), files).cache.rows
               :: CityState(retry(c)).None?
    ensures var r := Organized(geocoder, Run(tree, cache, false), files);
            var again := Organized(retry, r, files);
            !r.crashed ==> !again.crashed && again.tree == r.tree && again.cache.rows == r.cache.rows
  {
    var r := Organized(geocoder, Run(tree, cache, false), files);
    if !r.crashed {
      OrganizeSettles(geocoder, Run(tree, cache, false), files);
      OrganizeOnlyAdds(geocoder, Run(tree, cache, false), files);
      forall i | 0 <= i < |files|
        ensures Settled(retry, r, files[i])
      {
        if FinalMetadata(files[i].name, files[i].exif).coords.Some? {
          InImageCoords(files, i);
        }
        SettledUnderRetry(geocoder, retry, r, files[i]);
      }
      SettledWalkKeepsTree(retry, r, files);
    }
  }

  /**
   * What meeting an image whose coordinate failed does when the next call succeeds: the first
   * meeting copied it into `Sin_Ubicacion`, and this one copies it again, into its "city - state"
   * folder, and stores the row.
   */
  lemma RecoveredStepCopiesAgain(retry: Geocoder, run: Run, f: SourceFile)
    requires !run.crashed
    requires var m := FinalMetadata(f.name, f.exif);
             m.coords.Some? && m.coords.value !in run.cache.rows && CityState(retry(m.coords.value)).Some?
    ensures var m := FinalMetadata(f.name, f.exif);
            var answer := CityState(retry(m.coords.value)).value;
            var p := (Label(answer.0, answer.1), DateFolderOr(m.date, SinFecha), f.name);
            var next := Step(retry, run, f);
            !next.crashed && p !in run.tree.leaf ==>
              && p in next.tree.leaf && next.tree.leaf[p] == File(f.path)
              && next.cache.rows == run.cache.rows[m.coords.value := answer]
  {
    assert IsSupported(f.name);
  }

  /**
   * Without that proviso placement is not idempotent: an image whose coordinate failed is copied
   * into `Sin_Ubicacion`, and when the next walk's call succeeds it is copied a second time, into
   * its "city - state" folder.
   */
  lemma RecoveredFailureCopiesAgain(geocoder: Geocoder, retry: Geocoder, tree: Tree, cache: CacheState, f: SourceFile)
    requires var m := FinalMetadata(f.name, f.exif);
             && m.coords.Some? && m.coords.value !in cache.rows
             && CityState(geocoder(m.coords.value)).None? && CityState(retry(m.coords.value)).Some?
    ensures var m := FinalMetadata(f.name, f.exif);
            var answer := CityState(retry(m.coords.value)).value;
            var date := DateFolderOr(m.date, SinFecha);
            var r := Organized(geocoder, Run(tree, cache, false), [f]);
            var again := Organized(retry, r, [f]);
            !r.crashed && !again.crashed && (Label(answer.0, answer.1), date, f.name) !in tree.leaf ==>
              && (SinUbicacion, date, f.name) in r.tree.leaf
              && (Label(answer.0, answer.1), date, f.name) !in r.tree.leaf
              && (Label(answer.0, answer.1), date, f.name) in again.tree.leaf
              && again.tree.leaf[(Label(answer.0, answer.1), date, f.name)] == File(f.path)
              && again.cache.rows == r.cache.rows[m.coords.value := answer]
  {
    var m := FinalMetadata(f.name, f.exif);
    var answer := CityState(retry(m.coords.value)).value;
    var date := DateFolderOr(m.date, SinFecha);
    LabelIsNeverSentinel(answer.0, answer.1);
    assert IsSupported(f.name);
    var r := Organized(geocoder, Run(tree, cache, false), [f]);
    var first := Step(geocoder, Run(tree, cache, false), f);
    assert [f][0] == f && [f][1..] == [];
    assert Organized(geocoder, first, []) == first;
    assert r == first;
    if !r.crashed {
      assert r.tree.leaf.Keys == tree.leaf.Keys + {(SinUbicacion, date, f.name)};
      assert r.cache.rows == cache.rows;
      assert Organized(retry, r, [f]) == Step(retry, r, f);
      RecoveredStepCopiesAgain(retry, r, f);
    }
  }

  // ------------------------------------------------------------------ the organizer

  /**
   * `PhotoVideoOrganizer`: the geocoder made from the API key, and the location cache table, whose
   * rows and geocoder calls the methods update.  The base and output folders it is built with are
   * the files and the tree its methods are given.
   */
  class PhotoVideoOrganizer {
    const geocoder: Geocoder
    var rows: map<Coord, (string, string)>
    var requests: seq<Coord>

    /**
     * `__init__`: the table is created only if it does not exist, so the rows stored by earlier
     * runs (`stored`) are kept.
     */
    constructor (geocoder: Geocoder, stored: map<Coord, (string, string)>)
      ensures this.geocoder == geocoder
      ensures rows == stored && requests == []
    {
      this.geocoder := geocoder;
      rows := stored;
      requests := [];
    }

    function Cache(): CacheState
      reads this
    {
      CacheState(rows, requests)
    }

    /** `_get_location_from_cache(lat, lon)`: the stored (city, state), if any. */
    function LocationFromCache(c: Coord): (row: Option<(string, string)>)
      reads this
      ensures row.Some? <==> c in rows
      ensures row.Some? ==> row.value == rows[c]
    {
      if c in rows then Some(rows[c]) else None
    }

    /**
     * `_save_location_to_cache(lat, lon, city, state)`: inserts a row.  The lookup returns the
     * first matching row, so inserting for a coordinate already stored changes no answer.
     */
    method SaveLocationToCache(c: Coord, city: string, state: string)
      modifies this
      ensures LocationFromCache(c) == Some(old(LocationFromCache(c)).GetOr((city, state)))
      ensures rows == if c in old(rows) then old(rows) else old(rows)[c := (city, state)]
      ensures requests == old(requests)
    {
      if c !in rows {
        rows := rows[c := (city, state)];
      }
    }

    /** `_get_city_state_name(lat, lon)`. */
    method GetCityStateName(c: Coord) returns (location: string)
      modifies this
      ensures (location, Cache()) == Resolve(geocoder, old(Cache()), c)
    {
      var cached := LocationFromCache(c);
      if cached.Some? {
        LabelIsNeverSentinel(cached.value.0, cached.value.1);
        return Label(cached.value.0, cached.value.1);
      }
      requests := requests + [c];
      var answer := CityState(geocoder(c));
      if answer.Some? {
        LabelIsNeverSentinel(answer.value.0, answer.value.1);
        SaveLocationToCache(c, answer.value.0, answer.value.1);
        return Label(answer.value.0, answer.value.1);
      }
      location := SinUbicacion;
    }

    /**
     * `_organize_files()` over the files of the walk, in walk order: supported files are copied
     * into their bucket unless their name is already there.  A file in the way of a bucket's
     * directories makes the walk raise and stop.
     */
    method OrganizeFiles(files: seq<SourceFile>, output: Tree) returns (result: Tree, crashed: bool)
      modifies this
      ensures Run(result, Cache(), crashed) == Organized(geocoder, Run(output, old(Cache()), false), files)
    {
      result, crashed := output, false;
      var i := 0;
      while i < |files| && !crashed
        invariant 0 <= i <= |files|
        invariant Organized(geocoder, Run(result, Cache(), crashed), files[i..])
                  == Organized(geocoder, Run(output, old(Cache()), false), files)
      {
        var f := files[i];
        ghost var before := Run(result, Cache(), crashed);
        assert files[i..][1..] == files[i + 1..];
        if IsSupported(f.name) {
          var m := FinalMetadata(f.name, f.exif);
          var location := SinUbicacion;
          if m.coords.Some? {
            location := GetCityStateName(m.coords.value);
          }
          var date := DateFolderOr(m.date, SinFecha);
          match CopyIfAbsent(result, location, date, f.name, f.path) {
            case Raised => crashed := true;
            case Copied(t) => result := t;
            case Skipped(t) => result := t;
          }
        }
        assert Run(result, Cache(), crashed) == Step(geocoder, before, f);
        i := i + 1;
      }
    }

    /** `_unir_sin_ubicacion()`, given `os.listdir(self.output_folder)`. */
    method UnirSinUbicacion(t: Tree, listing: seq<string>) returns (result: Tree, raised: bool)
      requires forall n :: n in t.top <==> n in listing
      requires NoDirectoryInTheWay(t, SinUbicacion)
      ensures raised <==> SinUbicacion in t.top && t.top[SinUbicacion].File?
      ensures SinUbicacion !in t.top || raised ==> result == t
      ensures SinUbicacion in t.top && t.top[SinUbicacion] == Dir ==> result == Unified(t, SinUbicacion, IndexOf(t, SinUbicacion, listing))
      ensures result.top == t.top
    {
      result, raised := Unify(t, SinUbicacion, listing);
    }

    /**
     * `organize()`: the whole placement walk, then, if it did not raise, the unification of
     * `Sin_Ubicacion`.  `listingOf` gives the order in which `os.listdir` returns the output
     * folder's entries.  Date folders are assumed to hold files only, as a fresh output folder does.
     */
    method Organize(files: seq<SourceFile>, output: Tree, listingOf: Tree -> seq<string>)
      returns (result: Tree, crashed: bool)
      requires WellFormed(output)
      requires forall p | p in output.leaf :: output.leaf[p].File?
      requires forall u: Tree, n: string :: n in u.top <==> n in listingOf(u)
      modifies this
      ensures var r := Organized(geocoder, Run(output, old(Cache()), false), files);
              && Cache() == r.cache
              && (r.crashed ==> crashed && result == r.tree)
              && (!r.crashed ==> (crashed <==> SinUbicacion in r.tree.top && r.tree.top[SinUbicacion].File?))
              && (!r.crashed && SinUbicacion !in r.tree.top ==> result == r.tree)
              && (!r.crashed && SinUbicacion in r.tree.top && r.tree.top[SinUbicacion] == Dir ==>
                    result == Unified(r.tree, SinUbicacion, IndexOf(r.tree, SinUbicacion, listingOf(r.tree))))
    {
      ghost var start := Run(output, Cache(), false);
      var placed;
      placed, crashed := OrganizeFiles(files, output);
      if crashed {
        return placed, true;
      }
      OrganizeAddsOnlyFiles(geocoder, start, files);
      result, crashed := UnirSinUbicacion(placed, listingOf(placed));
    }
  }
}
