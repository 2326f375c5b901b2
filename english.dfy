/**
 * The module-level engine of `English.py`: the sidecar JSON reader, the metadata precedence
 * between the sidecar and the embedded tags, the location cache (a dictionary in memory that
 * also remembers failures), the placement walk, and the unification of the `No_Location` bucket.
 */
module English {

  import opened Wrappers
  import opened Dates
  import opened FileNames
  import opened Coordinates
  import opened MediaMetadata
  import opened Geocoding
  import opened OutputTree
  import opened Unification

  /** The unresolved-location and undated sentinels of this variant. */
  const NoLocation := "No_Location"
  const NoDate := "No_Date"

  // ------------------------------------------------------------------ sidecar JSON

  /**
   * A `geoData` or `geoDataExif` member: an object with optional `latitude` and `longitude`
   * numbers, or something that is not an object (calling `.get` on it raises).
   */
  datatype GeoField = GeoField(latitude: Option<real>, longitude: Option<real>) | NotAnObject

  /**
   * A sidecar file after `json.load`: `Unparsable` when reading or decoding raises; otherwise the
   * `photoTakenTime.timestamp` date (`Malformed` when `int` or `fromtimestamp` raises) and the
   * two geo members, `None` when absent.
   */
  datatype SidecarJson =
    | Unparsable
    | Sidecar(photoTakenTime: Stamp, geoData: Option<GeoField>, geoDataExif: Option<GeoField>)

  /** `(m.get("latitude", 0.0), m.get("longitude", 0.0))`. */
  function PairOf(g: GeoField): (real, real)
    requires g.GeoField?
  {
    (g.latitude.GetOr(0.0), g.longitude.GetOr(0.0))
  }

  /** A pair is absent when it is exactly (0.0, 0.0). */
  function NonZero(p: (real, real)): (c: Option<Coord>)
    ensures c.Some? <==> p != (0.0, 0.0)
    ensures c.Some? ==> c.value == Coord(p.0, p.1)
  {
    if p == (0.0, 0.0) then None else Some(Coord(p.0, p.1))
  }

  /**
   * The coordinate part of `get_metadata_from_json`: `geoData`, then `geoDataExif` when the first
   * pair is still (0.0, 0.0), and no coordinate when the final pair is (0.0, 0.0).  A member that
   * is not an object raises, which the reader turns into "no coordinate".
   */
  function JsonCoords(geoData: Option<GeoField>, geoDataExif: Option<GeoField>): (c: Option<Coord>)
    ensures c.Some? ==> c.value != Coord(0.0, 0.0)
    ensures geoData.Some? && geoData.value.GeoField? && PairOf(geoData.value) != (0.0, 0.0)
            ==> c == NonZero(PairOf(geoData.value))
    ensures (geoData.None? || (geoData.value.GeoField? && PairOf(geoData.value) == (0.0, 0.0)))
            ==> c == (if geoDataExif.Some? && geoDataExif.value.GeoField? then NonZero(PairOf(geoDataExif.value)) else None)
    ensures geoData.Some? && geoData.value.NotAnObject? ==> c.None?
  {
    var first := if geoData.None? then Some((0.0, 0.0))
                 else if geoData.value.NotAnObject? then None
                 else Some(PairOf(geoData.value));
    if first.None? then None
    else if first.value == (0.0, 0.0) && geoDataExif.Some? then
      if geoDataExif.value.NotAnObject? then None else NonZero(PairOf(geoDataExif.value))
    else NonZero(first.value)
  }

  /**
   * `get_metadata_from_json`: never raises.  An unreadable file, or a timestamp that does not
   * convert, gives (None, None), because the exception skips the coordinate code; otherwise the
   * date of the timestamp, if present, and the coordinate chosen by `JsonCoords`.
   */
  function MetadataFromJson(j: SidecarJson): (m: Metadata)
    ensures j.Unparsable? ==> m == NoMetadata
    ensures j.Sidecar? && j.photoTakenTime.Malformed? ==> m == NoMetadata
    ensures j.Sidecar? && !j.photoTakenTime.Malformed? ==>
              m.date == StampDate(j.photoTakenTime) && m.coords == JsonCoords(j.geoData, j.geoDataExif)
  {
    match j
    case Unparsable => NoMetadata
    case Sidecar(Malformed, _, _) => NoMetadata
    case Sidecar(stamp, geo, geoExif) => Metadata(StampDate(stamp), JsonCoords(geo, geoExif))
  }

  /**
   * `geoDataExif` is consulted only when `geoData` is absent or exactly (0.0, 0.0): a usable
   * `geoData` pair makes the second member irrelevant.
   */
  lemma GeoDataExifOnlyWhenZero(geoData: GeoField, exifA: Option<GeoField>, exifB: Option<GeoField>)
    requires geoData.GeoField? && PairOf(geoData) != (0.0, 0.0)
    ensures JsonCoords(Some(geoData), exifA) == JsonCoords(Some(geoData), exifB) == Some(Coord(PairOf(geoData).0, PairOf(geoData).1))
  {
  }

  /** A (0, 0) `geoData` counts as absent: it behaves exactly like a missing member. */
  lemma ZeroGeoDataIsAbsent(exif: Option<GeoField>)
    ensures JsonCoords(Some(GeoField(Some(0.0), Some(0.0))), exif) == JsonCoords(None, exif)
    ensures JsonCoords(Some(GeoField(None, None)), exif) == JsonCoords(None, exif)
  {
  }

  // ------------------------------------------------------------------ precedence

  /** The sidecar's metadata; no sidecar file (`os.path.exists` false) gives (None, None). */
  function JsonMetadata(sidecar: Option<SidecarJson>): Metadata {
    if sidecar.Some? then MetadataFromJson(sidecar.value) else NoMetadata
  }

  /** Field by field: the first source's value when it has one, the second's otherwise. */
  function Merge(first: Metadata, second: Metadata): (m: Metadata)
    ensures first.date.Some? ==> m.date == first.date
    ensures first.date.None? ==> m.date == second.date
    ensures first.coords.Some? ==> m.coords == first.coords
    ensures first.coords.None? ==> m.coords == second.coords
  {
    Metadata(if first.date.Some? then first.date else second.date,
             if first.coords.Some? then first.coords else second.coords)
  }

  /**
   * `get_final_metadata` for a file named `name` with sidecar `sidecar` (`None` when
   * `<file>.json` does not exist) and embedded tags `exif`: the sidecar's fields win; an image
   * whose sidecar leaves a field missing reads its tags, which fill only the missing fields; any
   * other file gets the sidecar's fields alone.
   */
  function FinalMetadata(name: string, sidecar: Option<SidecarJson>, exif: ExifFile): (m: Metadata)
    ensures JsonMetadata(sidecar).date.Some? ==> m.date == JsonMetadata(sidecar).date
    ensures JsonMetadata(sidecar).coords.Some? ==> m.coords == JsonMetadata(sidecar).coords
    ensures !IsImage(name) ==> m == JsonMetadata(sidecar)
    ensures IsImage(name) && JsonMetadata(sidecar).date.None? ==> m.date == MetadataFromExif(exif).date
    ensures IsImage(name) && JsonMetadata(sidecar).coords.None? ==> m.coords == MetadataFromExif(exif).coords
  {
    var json := JsonMetadata(sidecar);
    if IsImage(name) && (json.date.None? || json.coords.None?) then Merge(json, MetadataFromExif(exif))
    else json
  }

  /**
   * The embedded tags are never looked at when the sidecar supplies both fields, nor for a file
   * that is not an image: any two tag readings give the same result.
   */
  lemma ExifOnlyFillsGaps(name: string, sidecar: Option<SidecarJson>, exifA: ExifFile, exifB: ExifFile)
    requires !IsImage(name) || (JsonMetadata(sidecar).date.Some? && JsonMetadata(sidecar).coords.Some?)
    ensures FinalMetadata(name, sidecar, exifA) == FinalMetadata(name, sidecar, exifB)
  {
  }

  /**
   * The precedence examples: a sidecar with date and coordinate wins over tags that have both;
   * a sidecar with a date only is completed by the tags' coordinate.
   */
  lemma PrecedenceExamples(d1: CalendarDate, d2: CalendarDate, c1: Coord, c2: Coord, gps: GpsTags)
    requires c1 != Coord(0.0, 0.0) && ParseGpsInfo(gps) == Some(c2)
    ensures var full := Sidecar(Parsed(d1), Some(GeoField(Some(c1.lat), Some(c1.lon))), None);
            FinalMetadata("a.jpg", Some(full), Tags(Parsed(d2), gps)) == Metadata(Some(d1), Some(c1))
    ensures var dateOnly := Sidecar(Parsed(d1), None, None);
            FinalMetadata("a.jpg", Some(dateOnly), Tags(Parsed(d2), gps)) == Metadata(Some(d1), Some(c2))
  {
    JpegIsImage();
  }

  /**
   * A sidecar that does not parse does not stop the file: an image falls back to its embedded
   * tags, and a file with neither gets (None, None) and so the sentinel buckets.
   */
  lemma BrokenSidecarFallsBack(name: string, exif: ExifFile)
    ensures IsImage(name) ==> FinalMetadata(name, Some(Unparsable), exif) == MetadataFromExif(exif)
    ensures FinalMetadata(name, Some(Unparsable), Unreadable) == NoMetadata
  {
  }

  // ------------------------------------------------------------------ location cache

  /**
   * The location cache and the geocoder calls made so far: `entries` is `location_cache`, keyed
   * by the formatted coordinate, and `requests` lists the coordinates sent to the geocoder.
   */
  datatype CacheState = CacheState(entries: map<string, string>, requests: seq<Coord>)

  /**
   * `get_city_state_name` on a cache state: a key already cached returns its label with no
   * geocoder call; otherwise the geocoder is called once and the label it yields, or
   * `No_Location`, is stored under the key and returned.  `keyOf` is the `"%.6f,%.6f"` formatting.
   */
  function Resolve(geocoder: Geocoder, keyOf: Coord -> string, s: CacheState, c: Coord): (r: (string, CacheState))
    ensures keyOf(c) in r.1.entries && r.1.entries[keyOf(c)] == r.0
    ensures forall k | k in s.entries :: k in r.1.entries && r.1.entries[k] == s.entries[k]
    ensures r.1.entries.Keys == s.entries.Keys + {keyOf(c)}
    ensures r.1.requests == s.requests || r.1.requests == s.requests + [c]
  {
    var key := keyOf(c);
    if key in s.entries then (s.entries[key], s)
    else
      var answer := CityState(geocoder(c));
      var location := if answer.Some? then Label(answer.value.0, answer.value.1) else NoLocation;
      (location, CacheState(s.entries[key := location], s.requests + [c]))
  }

  /** A hit returns the stored label and calls nothing. */
  lemma HitCallsNothing(geocoder: Geocoder, keyOf: Coord -> string, s: CacheState, c: Coord)
    requires keyOf(c) in s.entries
    ensures Resolve(geocoder, keyOf, s, c) == (s.entries[keyOf(c)], s)
  {
  }

  /**
   * A miss calls the geocoder exactly once; when it yields a city and a state the result is
   * "City - State", otherwise `No_Location`, and either way it is what gets cached.
   */
  lemma MissCallsOnce(geocoder: Geocoder, keyOf: Coord -> string, s: CacheState, c: Coord)
    requires keyOf(c) !in s.entries
    ensures var (location, s') := Resolve(geocoder, keyOf, s, c);
            && s'.requests == s.requests + [c]
            && s'.entries == s.entries[keyOf(c) := location]
            && (CityState(geocoder(c)).Some? ==> location == Label(CityState(geocoder(c)).value.0, CityState(geocoder(c)).value.1))
            && (CityState(geocoder(c)).None? ==> location == NoLocation)
  {
  }

  /**
   * Resolving twice never calls the geocoder a second time, even after a failure, and returns
   * the same label.
   */
  lemma ResolveTwiceCallsOnce(geocoder: Geocoder, keyOf: Coord -> string, s: CacheState, c: Coord)
    ensures var (first, s1) := Resolve(geocoder, keyOf, s, c);
            var (second, s2) := Resolve(geocoder, keyOf, s1, c);
            && second == first && s2 == s1
            && |s2.requests| <= |s.requests| + 1
  {
  }

  /**
   * Every coordinate sent to the geocoder has its key cached, and no key is sent twice.  A fresh
   * cache with no calls has it, and resolving keeps it.
   */
  ghost predicate CallsAreUnique(keyOf: Coord -> string, s: CacheState) {
    && (forall i | 0 <= i < |s.requests| :: keyOf(s.requests[i]) in s.entries)
    && (forall i, j | 0 <= i < j < |s.requests| :: keyOf(s.requests[i]) != keyOf(s.requests[j]))
  }

  lemma ResolveKeepsCallsUnique(geocoder: Geocoder, keyOf: Coord -> string, s: CacheState, c: Coord)
    requires CallsAreUnique(keyOf, s)
    ensures CallsAreUnique(keyOf, Resolve(geocoder, keyOf, s, c).1)
  {
  }

  /**
   * The cache as a mutable object, as the module-level dictionary is: `GetCityStateName`
   * updates `entries` and logs its geocoder calls in `requests`.
   */
  class LocationCache {
    var entries: map<string, string>
    var requests: seq<Coord>
    const geocoder: Geocoder
    const keyOf: Coord -> string

    /** The cache loaded from `location_cache.json` (or empty), before any call. */
    constructor (geocoder: Geocoder, keyOf: Coord -> string, loaded: map<string, string>)
      ensures entries == loaded && requests == []
      ensures this.geocoder == geocoder && this.keyOf == keyOf
    {
      entries := loaded;
      requests := [];
      this.geocoder := geocoder;
      this.keyOf := keyOf;
    }

    function State(): CacheState
      reads this
    {
      CacheState(entries, requests)
    }

    /** `get_city_state_name(lat, lon)`; writing the cache file back is not modelled. */
    method GetCityStateName(c: Coord) returns (location: string)
      modifies this
      ensures (location, State()) == Resolve(geocoder, keyOf, old(State()), c)
    {
      var key := keyOf(c);
      if key in entries {
        return entries[key];
      }
      requests := requests + [c];
      var answer := CityState(geocoder(c));
      if answer.Some? {
        location := Label(answer.value.0, answer.value.1);
      } else {
        location := NoLocation;
      }
      entries := entries[key := location];
    }
  }

  // ------------------------------------------------------------------ placement

  /**
   * A file met by `os.walk(base_folder)`: its path (what the copy reads), its name, its sidecar
   * `<path>.json` (`None` when that file does not exist) and its embedded tags.
   */
  datatype SourceFile = SourceFile(path: string, name: string, sidecar: Option<SidecarJson>, exif: ExifFile)

  /** The state of a placement walk: the output tree, the cache, and whether it has raised. */
  datatype Run = Run(tree: Tree, cache: CacheState, crashed: bool)

  /**
   * The bucket of a supported file: the location label (resolved through the cache when the
   * file has a coordinate, `No_Location` otherwise), the date folder (`No_Date` without a date),
   * and the cache after resolving.
   */
  function Bucket(geocoder: Geocoder, keyOf: Coord -> string, s: CacheState, f: SourceFile): (b: (string, string, CacheState))
    ensures var m := FinalMetadata(f.name, f.sidecar, f.exif);
            && (m.coords.None? ==> b.0 == NoLocation && b.2 == s)
            && (m.coords.Some? ==> (b.0, b.2) == Resolve(geocoder, keyOf, s, m.coords.value))
            && (m.date.Some? ==> b.1 == DateFolder(m.date.value))
            && (m.date.None? ==> b.1 == NoDate)
    ensures b.1 == NoDate || MatchesDatePattern(b.1)
    ensures b.2.entries.Keys >= s.entries.Keys
  {
    var m := FinalMetadata(f.name, f.sidecar, f.exif);
    var (location, s') := if m.coords.Some? then Resolve(geocoder, keyOf, s, m.coords.value) else (NoLocation, s);
    (location, DateFolderOr(m.date, NoDate), s')
  }

  /**
   * One iteration of the walk: unsupported files are passed over; the others are copied if absent.
   * Nothing already in the output folder changes, and a raise leaves the folder as it was.
   */
  function Step(geocoder: Geocoder, keyOf: Coord -> string, run: Run, f: SourceFile): (next: Run)
    requires !run.crashed
    ensures !IsSupported(f.name) ==> next == run
    ensures Extends(run.tree, next.tree)
    ensures next.crashed ==> next.tree == run.tree
  {
    if !IsSupported(f.name) then run
    else
      var (location, date, s') := Bucket(geocoder, keyOf, run.cache, f);
      match CopyIfAbsent(run.tree, location, date, f.name, f.path)
      case Raised => Run(run.tree, s', true)
      case Copied(t) => Run(t, s', false)
      case Skipped(t) => Run(t, s', false)
  }

  /**
   * The walk over `files` in order, stopping at the first file whose directories cannot be made.
   * Nothing already in the output folder changes.
   */
  function Organized(geocoder: Geocoder, keyOf: Coord -> string, run: Run, files: seq<SourceFile>): (r: Run)
    ensures Extends(run.tree, r.tree)
    decreases |files|
  {
    if run.crashed || files == [] then run
    else
      var next := Step(geocoder, keyOf, run, files[0]);
      var r := Organized(geocoder, keyOf, next, files[1..]);
      ExtendsTransitive(run.tree, next.tree, r.tree);
      r
  }

  /** Entries already cached keep their labels. */
  ghost predicate CacheGrows(s: CacheState, s': CacheState) {
    forall k | k in s.entries :: k in s'.entries && s'.entries[k] == s.entries[k]
  }

  /**
   * The walk only adds: every entry of the output tree survives unchanged (a copy never
   * overwrites), the tree stays well formed, and cached labels are kept.
   */
  lemma {:induction false} OrganizeOnlyAdds(geocoder: Geocoder, keyOf: Coord -> string, run: Run, files: seq<SourceFile>)
    requires WellFormed(run.tree)
    ensures var r := Organized(geocoder, keyOf, run, files);
            Extends(run.tree, r.tree) && WellFormed(r.tree) && CacheGrows(run.cache, r.cache)
    decreases |files|
  {
    if !run.crashed && files != [] {
      var next := Step(geocoder, keyOf, run, files[0]);
      OrganizeOnlyAdds(geocoder, keyOf, next, files[1..]);
      ExtendsTransitive(run.tree, next.tree, Organized(geocoder, keyOf, next, files[1..]).tree);
    }
  }

  /**
   * The location folder `f` belongs in according to a cache: the label cached under its
   * coordinate's key (a "city - state" or `No_Location`), or `No_Location` without a coordinate.
   */
  function PlacedLocation(keyOf: Coord -> string, entries: map<string, string>, f: SourceFile): string {
    var m := FinalMetadata(f.name, f.sidecar, f.exif);
    if m.coords.Some? && keyOf(m.coords.value) in entries then entries[keyOf(m.coords.value)] else NoLocation
  }

  /** The location a bucket gets is the label the cache keeps for it for the rest of the walk. */
  lemma BucketAgreesWithLaterCache(geocoder: Geocoder, keyOf: Coord -> string, s: CacheState, f: SourceFile,
                                   later: CacheState)
    requires CacheGrows(Bucket(geocoder, keyOf, s, f).2, later)
    ensures Bucket(geocoder, keyOf, s, f).0 == PlacedLocation(keyOf, later.entries, f)
  {
  }

  /**
   * `p` holds a copy of `f`, in the bucket its metadata and the cache of `r` give: the label cached
   * for its coordinate (or `No_Location`) and its date's `DD-MM-YY` name (or `No_Date`).
   */
  ghost predicate PlacedFrom(keyOf: Coord -> string, r: Run, p: Path, f: SourceFile) {
    && p.2 == f.name && p in r.tree.leaf && r.tree.leaf[p] == File(f.path)
    && p.0 == PlacedLocation(keyOf, r.cache.entries, f)
    && p.1 == DateFolderOr(FinalMetadata(f.name, f.sidecar, f.exif).date, NoDate)
  }

  /** A copy made by one step of the walk stays where the rest of the walk's cache says it belongs. */
  lemma StepPlaces(geocoder: Geocoder, keyOf: Coord -> string, run: Run, f: SourceFile, rest: seq<SourceFile>, p: Path)
    requires !run.crashed && WellFormed(run.tree)
    requires p !in run.tree.leaf && p in Step(geocoder, keyOf, run, f).tree.leaf
    ensures IsSupported(p.2) && (p.1 == NoDate || MatchesDatePattern(p.1))
    ensures PlacedFrom(keyOf, Organized(geocoder, keyOf, Step(geocoder, keyOf, run, f), rest), p, f)
  {
    var next := Step(geocoder, keyOf, run, f);
    var r := Organized(geocoder, keyOf, next, rest);
    var b := Bucket(geocoder, keyOf, run.cache, f);
    assert IsSupported(f.name) && next.cache == b.2;
    assert p == (b.0, b.1, f.name) && next.tree.leaf[p] == File(f.path);
    OrganizeOnlyAdds(geocoder, keyOf, next, rest);
    BucketAgreesWithLaterCache(geocoder, keyOf, run.cache, f, r.cache);
  }

  /**
   * Whatever the walk adds is a supported file of the walk, copied from its path into the bucket
   * its metadata and the final cache give: the location is the label cached for its coordinate
   * after the walk (`No_Location` without one), and the date folder is its date's `DD-MM-YY` name
   * or `No_Date`.
   */
  lemma {:induction false} OrganizePlacesOnlySupported(geocoder: Geocoder, keyOf: Coord -> string, run: Run,
                                                       files: seq<SourceFile>, p: Path)
    requires WellFormed(run.tree)
    requires p !in run.tree.leaf && p in Organized(geocoder, keyOf, run, files).tree.leaf
    ensures IsSupported(p.2) && (p.1 == NoDate || MatchesDatePattern(p.1))
    ensures exists i :: 0 <= i < |files| && PlacedFrom(keyOf, Organized(geocoder, keyOf, run, files), p, files[i])
    decreases |files|
  {
    var f := files[0];
    var next := Step(geocoder, keyOf, run, f);
    var r := Organized(geocoder, keyOf, run, files);
    if p in next.tree.leaf {
      StepPlaces(geocoder, keyOf, run, f, files[1..], p);
      assert PlacedFrom(keyOf, r, p, files[0]);
    } else {
      OrganizePlacesOnlySupported(geocoder, keyOf, next, files[1..], p);
      var i :| 0 <= i < |files[1..]| && PlacedFrom(keyOf, r, p, files[1..][i]);
      assert files[i + 1] == files[1..][i];
      assert PlacedFrom(keyOf, r, p, files[i + 1]);
    }
  }

  /**
   * `f` needs nothing more: if it is supported, finding its bucket takes no geocoder call (the
   * key is cached, or the file has no coordinate) and its destination already exists.
   */
  ghost predicate Settled(geocoder: Geocoder, keyOf: Coord -> string, run: Run, f: SourceFile) {
    IsSupported(f.name) ==>
      var b := Bucket(geocoder, keyOf, run.cache, f);
      b.2 == run.cache && (b.0, b.1, f.name) in run.tree.leaf
  }

  /** A settled file stays settled while the cache and the tree only grow. */
  lemma SettledStaysSettled(geocoder: Geocoder, keyOf: Coord -> string, run: Run, later: Run, f: SourceFile)
    requires Settled(geocoder, keyOf, run, f)
    requires CacheGrows(run.cache, later.cache) && Extends(run.tree, later.tree)
    ensures Settled(geocoder, keyOf, later, f)
  {
  }

  /** A file the walk has just handled without raising is settled. */
  lemma StepSettles(geocoder: Geocoder, keyOf: Coord -> string, run: Run, f: SourceFile)
    requires !run.crashed && !Step(geocoder, keyOf, run, f).crashed
    ensures Settled(geocoder, keyOf, Step(geocoder, keyOf, run, f), f)
  {
  }

  /** Meeting a settled file again changes nothing: the copy is skipped and no call is made. */
  lemma SettledStepIsNoop(geocoder: Geocoder, keyOf: Coord -> string, run: Run, f: SourceFile)
    requires !run.crashed && WellFormed(run.tree) && Settled(geocoder, keyOf, run, f)
    ensures Step(geocoder, keyOf, run, f) == run
  {
    if IsSupported(f.name) {
      var (location, date, s') := Bucket(geocoder, keyOf, run.cache, f);
      assert (location, date) in run.tree.mid;
    }
  }

  /** When the walk does not raise, every file it met is settled afterwards. */
  lemma {:induction false} OrganizeSettles(geocoder: Geocoder, keyOf: Coord -> string, run: Run, files: seq<SourceFile>)
    requires WellFormed(run.tree)
    ensures var r := Organized(geocoder, keyOf, run, files);
            !r.crashed ==> forall i | 0 <= i < |files| :: Settled(geocoder, keyOf, r, files[i])
    decreases |files|
  {
    if !run.crashed && files != [] {
      var next := Step(geocoder, keyOf, run, files[0]);
      var r := Organized(geocoder, keyOf, next, files[1..]);
      if !r.crashed {
        OrganizeSettles(geocoder, keyOf, next, files[1..]);
        StepSettles(geocoder, keyOf, run, files[0]);
        OrganizeOnlyAdds(geocoder, keyOf, next, files[1..]);
        SettledStaysSettled(geocoder, keyOf, next, r, files[0]);
        forall i | 1 <= i < |files|
          ensures Settled(geocoder, keyOf, r, files[i])
        {
          assert files[i] == files[1..][i - 1];
        }
      }
    }
  }

  /** A walk over files that are all settled changes nothing. */
  lemma {:induction false} SettledWalkIsNoop(geocoder: Geocoder, keyOf: Coord -> string, run: Run, files: seq<SourceFile>)
    requires !run.crashed && WellFormed(run.tree)
    requires forall i | 0 <= i < |files| :: Settled(geocoder, keyOf, run, files[i])
    ensures Organized(geocoder, keyOf, run, files) == run
    decreases |files|
  {
    if files != [] {
      SettledStepIsNoop(geocoder, keyOf, run, files[0]);
      forall i | 0 <= i < |files[1..]|
        ensures Settled(geocoder, keyOf, run, files[1..][i])
      {
        assert files[1..][i] == files[i + 1];
      }
      SettledWalkIsNoop(geocoder, keyOf, run, files[1..]);
    }
  }

  /** A settled file needs no geocoder call, so it is settled whatever the geocoder would answer. */
  lemma SettledForAnyGeocoder(geocoder: Geocoder, retry: Geocoder, keyOf: Coord -> string, run: Run, f: SourceFile)
    requires Settled(geocoder, keyOf, run, f)
    ensures Settled(retry, keyOf, run, f)
  {
    var m := FinalMetadata(f.name, f.sidecar, f.exif);
    if IsSupported(f.name) && m.coords.Some? {
      assert keyOf(m.coords.value) in run.cache.entries;
    }
  }

  /**
   * Placement is idempotent: walking the same files again over the result of a walk that did
   * not raise copies nothing, skips every supported file, and calls the geocoder for none --
   * whatever the geocoder would answer this time (`retry`), since every key met is cached,
   * failures included.
   */
  lemma OrganizeIdempotent(geocoder: Geocoder, retry: Geocoder, keyOf: Coord -> string, tree: Tree, cache: CacheState,
                           files: seq<SourceFile>)
    requires WellFormed(tree)
    ensures var r := Organized(geocoder, keyOf, Run(tree, cache, false), files);
            !r.crashed ==> Organized(retry, keyOf, r, files) == r
  {
    var r := Organized(geocoder, keyOf, Run(tree, cache, false), files);
    if !r.crashed {
      OrganizeSettles(geocoder, keyOf, Run(tree, cache, false), files);
      OrganizeOnlyAdds(geocoder, keyOf, Run(tree, cache, false), files);
      forall i | 0 <= i < |files|
        ensures Settled(retry, keyOf, r, files[i])
      {
        SettledForAnyGeocoder(geocoder, retry, keyOf, r, files[i]);
      }
      SettledWalkIsNoop(retry, keyOf, r, files);
    }
  }

  /** The walk never sends a key to the geocoder twice: every call is remembered, failures included. */
  lemma {:induction false} OrganizeCallsEachKeyOnce(geocoder: Geocoder, keyOf: Coord -> string, run: Run, files: seq<SourceFile>)
    requires CallsAreUnique(keyOf, run.cache)
    ensures CallsAreUnique(keyOf, Organized(geocoder, keyOf, run, files).cache)
    decreases |files|
  {
    if !run.crashed && files != [] {
      var f := files[0];
      var m := FinalMetadata(f.name, f.sidecar, f.exif);
      if IsSupported(f.name) && m.coords.Some? {
        ResolveKeepsCallsUnique(geocoder, keyOf, run.cache, m.coords.value);
      }
      OrganizeCallsEachKeyOnce(geocoder, keyOf, Step(geocoder, keyOf, run, f), files[1..]);
    }
  }

  /** The walk adds regular files only, so a tree whose date folders hold only files keeps that shape. */
  lemma OrganizeAddsOnlyFiles(geocoder: Geocoder, keyOf: Coord -> string, run: Run, files: seq<SourceFile>)
    requires WellFormed(run.tree)
    requires forall p | p in run.tree.leaf :: run.tree.leaf[p].File?
    ensures var t := Organized(geocoder, keyOf, run, files).tree;
            forall p | p in t.leaf :: t.leaf[p].File?
  {
    var t := Organized(geocoder, keyOf, run, files).tree;
    OrganizeOnlyAdds(geocoder, keyOf, run, files);
    forall p | p in t.leaf
      ensures t.leaf[p].File?
    {
      if p !in run.tree.leaf {
        OrganizePlacesOnlySupported(geocoder, keyOf, run, files, p);
      }
    }
  }

  /**
   * `organize_files(base_folder, output_folder)` over the files of the walk, in walk order:
   * supported files are copied into their bucket unless their name is already there.  A file in
   * the way of a bucket's directories makes the walk raise and stop.
   */
  method OrganizeFiles(cache: LocationCache, files: seq<SourceFile>, output: Tree) returns (result: Tree, crashed: bool)
    modifies cache
    ensures Run(result, cache.State(), crashed)
            == Organized(cache.geocoder, cache.keyOf, Run(output, old(cache.State()), false), files)
  {
    result, crashed := output, false;
    var i := 0;
    while i < |files| && !crashed
      invariant 0 <= i <= |files|
      invariant Organized(cache.geocoder, cache.keyOf, Run(result, cache.State(), crashed), files[i..])
                == Organized(cache.geocoder, cache.keyOf, Run(output, old(cache.State()), false), files)
    {
      var f := files[i];
      ghost var before := Run(result, cache.State(), crashed);
      assert files[i..][1..] == files[i + 1..];
      if IsSupported(f.name) {
        var m := FinalMetadata(f.name, f.sidecar, f.exif);
        var location := NoLocation;
        if m.coords.Some? {
          location := cache.GetCityStateName(m.coords.value);
        }
        var date := DateFolderOr(m.date, NoDate);
        match CopyIfAbsent(result, location, date, f.name, f.path) {
          case Raised => crashed := true;
          case Copied(t) => result := t;
          case Skipped(t) => result := t;
        }
      }
      assert Run(result, cache.State(), crashed) == Step(cache.geocoder, cache.keyOf, before, f);
      i := i + 1;
    }
  }

  /** `unify_no_location(output_folder)`, given `os.listdir(output_folder)`. */
  method UnifyNoLocation(t: Tree, listing: seq<string>) returns (result: Tree, raised: bool)
    requires forall n :: n in t.top <==> n in listing
    requires NoDirectoryInTheWay(t, NoLocation)
    ensures raised <==> NoLocation in t.top && t.top[NoLocation].File?
    ensures NoLocation !in t.top || raised ==> result == t
    ensures NoLocation in t.top && t.top[NoLocation] == Dir ==> result == Unified(t, NoLocation, IndexOf(t, NoLocation, listing))
    ensures result.top == t.top
  {
    result, raised := Unify(t, NoLocation, listing);
  }

  /**
   * `main()`: the whole placement walk, then, if it did not raise, the unification of
   * `No_Location`.  `listingOf` gives the order in which `os.listdir` returns the output folder's
   * entries.  Date folders are assumed to hold files only, as a fresh output folder does.
   */
  method Organize(cache: LocationCache, files: seq<SourceFile>, output: Tree, listingOf: Tree -> seq<string>)
    returns (result: Tree, crashed: bool)
    requires WellFormed(output)
    requires forall p | p in output.leaf :: output.leaf[p].File?
    requires forall u: Tree, n: string :: n in u.top <==> n in listingOf(u)
    modifies cache
    ensures var r := Organized(cache.geocoder, cache.keyOf, Run(output, old(cache.State()), false), files);
            && cache.State() == r.cache
            && (r.crashed ==> crashed && result == r.tree)
            && (!r.crashed ==> (crashed <==> NoLocation in r.tree.top && r.tree.top[NoLocation].File?))
            && (!r.crashed && NoLocation !in r.tree.top ==> result == r.tree)
            && (!r.crashed && NoLocation in r.tree.top && r.tree.top[NoLocation] == Dir ==>
                  result == Unified(r.tree, NoLocation, IndexOf(r.tree, NoLocation, listingOf(r.tree))))
  {
    ghost var start := Run(output, cache.State(), false);
    var placed;
    placed, crashed := OrganizeFiles(cache, files, output);
    if crashed {
      return placed, true;
    }
    OrganizeAddsOnlyFiles(cache.geocoder, cache.keyOf, start, files);
    result, crashed := UnifyNoLocation(placed, listingOf(placed));
  }

  /** The two-bucket tree of the unification example. */
  function ExampleTree(location: string, day: string, a: string, b: string): Tree {
    Tree(map[location := Dir, NoLocation := Dir],
         map[(location, day) := Dir, (NoLocation, day) := Dir],
         map[(location, day, a) := File(a), (NoLocation, day, b) := File(b)])
  }

  /** In the example, the date folder is indexed under the resolved location. */
  lemma ExampleIndex(location: string, day: string, a: string, b: string)
    requires location != NoLocation && MatchesDatePattern(day)
    ensures var t := ExampleTree(location, day, a, b);
            var index := IndexOf(t, NoLocation, [location, NoLocation]);
            day in index && index[day] == location
  {
    var t := ExampleTree(location, day, a, b);
    var listing := [location, NoLocation];
    assert IsDateDir(t, NoLocation, listing[0], day);
    IndexCoversListedDates(t, NoLocation, listing, day);
    IndexLastWriterWins(t, NoLocation, listing, day);
  }

  /**
   * The unification example, for any resolved location (such as `Paris - IDF`) and date folder
   * (such as `01-01-24`): with `location/day/a` and `No_Location/day/b`, `b` ends up in
   * `location/day` and leaves `No_Location/day`.
   */
  lemma UnificationExample(location: string, day: string, a: string, b: string)
    requires location != NoLocation && MatchesDatePattern(day)
    ensures var t := ExampleTree(location, day, a, b);
            var u := Unified(t, NoLocation, IndexOf(t, NoLocation, [location, NoLocation]));
            (location, day, b) in u.leaf && (NoLocation, day, b) !in u.leaf
  {
    var t := ExampleTree(location, day, a, b);
    ExampleIndex(location, day, a, b);
    UnifiedMovesFiles(t, NoLocation, IndexOf(t, NoLocation, [location, NoLocation]), (NoLocation, day, b));
  }

  /** In the same example, the emptied `No_Location/day` is removed and `No_Location` itself stays. */
  lemma UnificationExampleCleansUp(location: string, day: string, a: string, b: string)
    requires location != NoLocation && MatchesDatePattern(day)
    ensures var t := ExampleTree(location, day, a, b);
            var u := Unified(t, NoLocation, IndexOf(t, NoLocation, [location, NoLocation]));
            (NoLocation, day) !in u.mid && NoLocation in u.top
  {
    var t := ExampleTree(location, day, a, b);
    ExampleIndex(location, day, a, b);
    assert OnlyFiles(t, NoLocation, day);
    UnifiedDrainsIndexedDates(t, NoLocation, IndexOf(t, NoLocation, [location, NoLocation]), day, b);
  }

  /** In the same example, `location/day/a` is left where it is. */
  lemma UnificationExampleKeepsResolved(location: string, day: string, a: string, b: string)
    requires location != NoLocation && MatchesDatePattern(day)
    ensures var t := ExampleTree(location, day, a, b);
            var u := Unified(t, NoLocation, IndexOf(t, NoLocation, [location, NoLocation]));
            (location, day, a) in u.leaf
  {
    var t := ExampleTree(location, day, a, b);
    ExampleIndex(location, day, a, b);
    UnifiedKeepsOthers(t, NoLocation, IndexOf(t, NoLocation, [location, NoLocation]), (location, day, a));
  }

  /**
   * A dated video without a coordinate, met by the walk when `No_Location` is a directory without
   * its date folder, is copied into `No_Location/<date>`.
   */
  lemma UnlocatedVideoIsCopied(geocoder: Geocoder, keyOf: Coord -> string, cache: CacheState, u: Tree,
                               d: CalendarDate, b: string, path: string, exif: ExifFile)
    requires IsVideo(b)
    requires NoLocation in u.top && u.top[NoLocation] == Dir && (NoLocation, DateFolder(d)) !in u.mid
    requires (NoLocation, DateFolder(d), b) !in u.leaf
    ensures var fb := SourceFile(path, b, Some(Sidecar(Parsed(d), None, None)), exif);
            var again := Organized(geocoder, keyOf, Run(u, cache, false), [fb]);
            && !again.crashed && (NoLocation, DateFolder(d), b) in again.tree.leaf
            && again.tree.leaf[(NoLocation, DateFolder(d), b)] == File(path)
  {
    var fb := SourceFile(path, b, Some(Sidecar(Parsed(d), None, None)), exif);
    ImageAndVideoDisjoint(b);
    assert FinalMetadata(fb.name, fb.sidecar, fb.exif) == Metadata(Some(d), None);
    var first := Step(geocoder, keyOf, Run(u, cache, false), fb);
    assert [fb][0] == fb && [fb][1..] == [];
    assert Organized(geocoder, keyOf, first, []) == first;
  }

  /**
   * Rerunning `main` is not a no-op on the walk: after the unification example has moved `b` out
   * of `No_Location/day`, a second run's walk meets `b` again (a video dated by its sidecar, with
   * no coordinate), recreates `No_Location/day` and copies `b` there afresh, beside the copy
   * already in `location/day`.
   */
  lemma RerunRecopiesMovedFile(geocoder: Geocoder, keyOf: Coord -> string, cache: CacheState, location: string,
                               d: CalendarDate, a: string, b: string, path: string, exif: ExifFile)
    requires location != NoLocation && IsVideo(b)
    ensures var day := DateFolder(d);
            var t := ExampleTree(location, day, a, b);
            var u := Unified(t, NoLocation, IndexOf(t, NoLocation, [location, NoLocation]));
            var fb := SourceFile(path, b, Some(Sidecar(Parsed(d), None, None)), exif);
            var again := Organized(geocoder, keyOf, Run(u, cache, false), [fb]);
            && (location, day, b) in u.leaf && (NoLocation, day, b) !in u.leaf
            && !again.crashed && (NoLocation, day, b) in again.tree.leaf
            && again.tree.leaf[(NoLocation, day, b)] == File(path)
  {
    var day := DateFolder(d);
    DateFolderMatchesPattern(d);
    var t := ExampleTree(location, day, a, b);
    var u := Unified(t, NoLocation, IndexOf(t, NoLocation, [location, NoLocation]));
    UnificationExample(location, day, a, b);
    UnificationExampleCleansUp(location, day, a, b);
    assert u.top == t.top;
    UnlocatedVideoIsCopied(geocoder, keyOf, cache, u, d, b, path, exif);
  }
}
