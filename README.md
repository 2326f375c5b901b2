# Media organization engine, modelled in Dafny

This project models the engine of a photo and video organizer. The engine takes a folder of
exported media and copies each image or video into `output/<location>/<DD-MM-YY>/<name>`. The
location is a reverse-geocoded "City - State" label and the date is the capture date. It then
merges the files it could not locate into the matching date buckets of located files. The
repository holds the engine twice, and both are modelled:

- `English.py`: module-level functions. Sidecar JSON files (`<file>.json`) come first and the
  embedded EXIF tags fill gaps. The location cache is a dictionary saved as JSON, and it also
  remembers failed lookups. The sentinels are `No_Location` and `No_Date`.
- `AcomodoFotos/src/organizador.py`: the class `PhotoVideoOrganizer`. It reads EXIF tags only,
  and images only. Its location cache is an SQLite table, and it stores successes only, so
  failed lookups are asked again. The sentinels are `Sin_Ubicacion` and `Sin_Fecha`.

The modules follow the engine's parts:

- `Dates`: capture dates, `DD-MM-YY` folder names, and the folder-name pattern
  `^\d{2}-\d{2}-\d{2}$`.
- `FileNames`: extension extraction as `os.path.splitext` does it, lower-casing, and the
  image and video extension sets.
- `Coordinates`: `dms2dd` over reals, and the assembly of GPS tags into a (lat, lon) pair.
- `MediaMetadata`: the EXIF reader's result.
- `Geocoding`: the geocoder as an oracle from a coordinate to the address components of its
  first result, and the "City - State" label.
- `OutputTree`: the output folder as three levels of entries, and copy-if-absent.
- `Unification`: the merge pass, shared by both variants, parameterised by the sentinel name.
  The index loop and the move loop are methods proved against the functions `IndexOf` and
  `Unified`.
- `English` and `Organizador`: each variant's metadata precedence, location cache, placement
  walk and top-level driver.

The location caches are mutable objects: `English.LocationCache` and
`Organizador.PhotoVideoOrganizer`. Each logs every geocoder call in a `requests` field, so
"a hit makes no call" is a postcondition. The placement walks are loops proved against recursive
walk functions (`Organized`).

Two behaviours of the code are easy to miss:

- A file in the way of a bucket directory makes `os.makedirs` raise. That aborts the whole run,
  and the unification pass never starts. The run does not skip to the next file.
- The class-based variant calls the geocoder again for a coordinate that failed before.
  Resolving the same coordinate twice can therefore make two calls there.

## Model

| member | source | states |
|---|---|---|
| Coordinates.Dms2Dd | English.py:58-63 | the result is d + m/60 + s/3600 or its negation; for a nonzero sum it is negated exactly when the direction is "S" or "W" |
| Coordinates.SignFollowsHemisphere | AcomodoFotos/src/organizador.py:131-139 | `_dms2dd` with non-negative parts: never positive for S/W, never negative for any other token; the size is always the sum |
| Coordinates.HemispheresMirror | English.py:61-62 | S mirrors N, W mirrors E, and any other token behaves as N |
| Coordinates.Dms2DdExamples | English.py:58-63 | 10°30' S is -10.5, and the origin is 0 under N, S, E and W |
| Coordinates.RationalValue | English.py:68-70 | num/den is defined exactly when den ≠ 0, and the result times den is num |
| Coordinates.ExtractDms | English.py:67-71 | a (d, m, s) triple exists exactly when there are at least three rationals with nonzero denominators (otherwise the code raises), and it is the values of the first three |
| Coordinates.ParseGpsInfo | English.py:73-93 | a pair exactly when both GPSLatitude and GPSLongitude are present and readable; each axis uses its reference tag, defaulting to "N" and "E" |
| Coordinates.MissingReferencesMeanNorthEast | AcomodoFotos/src/organizador.py:155-166 | with no reference tags and non-negative rationals, the pair is in the north-eastern quadrant |
| Coordinates.OneAxisIsNotEnough | AcomodoFotos/src/organizador.py:168-172 | a latitude without a longitude, or the reverse, gives no pair |
| Coordinates.NonNegativeDms | English.py:67-71 | non-negative rationals with positive denominators give a non-negative (d, m, s) |
| MediaMetadata.MetadataFromExif | English.py:122-149 | an unreadable file gives (None, None), and so does a malformed date tag, because it raises before GPS is read; otherwise the date tag and the GPS pair |
| MediaMetadata.MalformedDateHidesGps | AcomodoFotos/src/organizador.py:215-231 | a date tag that does not parse hides a good GPS pair |
| Dates.Pad2 | English.py:231 | two decimal digits whose value is n |
| Dates.DateFolder | English.py:231 | `strftime('%d-%m-%y')` gives eight characters with dashes at the third and sixth; the digits are read back by DateFolderRoundTrip |
| Dates.DateFolderOr | English.py:228-231 | a date gives its own `DD-MM-YY` name, which matches the date pattern; no date gives the sentinel |
| Dates.DateFolderMatchesPattern | English.py:253 | every `DD-MM-YY` folder the walk creates is recognised by the unification pattern |
| Dates.DateFolderRoundTrip | English.py:229-231 | reading a date folder back gives the day, the month and the year mod 100 |
| Dates.DateFolderInjective | AcomodoFotos/src/organizador.py:278-280 | two dates share a folder exactly when day, month and year mod 100 agree |
| Dates.MatchingNameIsPadded | AcomodoFotos/src/organizador.py:23 | every 8-character name the pattern accepts is the padded spelling of its three numbers |
| Dates.NoDateSentinelsDoNotMatch | AcomodoFotos/src/organizador.py:277-278 | `No_Date` and `Sin_Fecha` never pass as date folders |
| Dates.PatternIsAnchored | AcomodoFotos/src/organizador.py:23 | the pattern accepts `21-05-23` and `21-05-23` plus a final newline; it rejects a trailing digit or space, a one-digit day and slashes |
| FileNames.LastDot | English.py:219 | the index of the last dot, or -1; no dot follows it |
| FileNames.Extension | English.py:219 | `splitext`: empty, or the suffix from the last dot with a non-dot before it; empty when every dot is preceded only by dots |
| FileNames.SidecarIsNeverPlaced | English.py:189 | a `<name>.json` sidecar has extension ".json" (or none) and is never placed |
| FileNames.ImageAndVideoDisjoint | English.py:18-19 | no name is both an image and a video |
| FileNames.ExtensionCaseIgnored | English.py:219-220 | `IMG_0001.JPG` is an image and `clip.MOV` a video |
| FileNames.UnsupportedExamples | English.py:220 | `notes.txt` and `anim.gif` are not placed |
| FileNames.LastDotOnly | English.py:219 | `archive.tar.gz` has extension ".gz" |
| FileNames.JpegIsImage | AcomodoFotos/src/organizador.py:14 | `a.jpg` is an image |
| FileNames.DotNameIsUnsupported | AcomodoFotos/src/organizador.py:266-269 | a file named `.jpg` has no extension and is not placed |
| Geocoding.CityOf | English.py:108 | the first non-empty of city, town, village, municipality, in that order, and nothing when all four are empty |
| Geocoding.CityState | English.py:106-110 | a pair exactly when the answer has a city and a non-empty state; the pair is (that city, that state), both non-empty |
| Geocoding.Label | English.py:111 | `f"{city} - {state}"`: the city, then " - ", then the state, so both parts can be read back |
| Geocoding.LabelHasSpace | English.py:111 | a composed label contains a space |
| Geocoding.LabelIsNeverSentinel | AcomodoFotos/src/organizador.py:195-202 | a composed label is never `No_Location` or `Sin_Ubicacion` |
| OutputTree.CopyIfAbsent | English.py:233-241 | makedirs raises exactly when a file is in the way; otherwise exactly `location`, `location/date` and `location/date/name` are added to the keys of the three levels, the copy happens exactly when the destination is absent, old entries are kept, the tree stays well formed, and a skip changes nothing |
| OutputTree.NeverOverwrites | AcomodoFotos/src/organizador.py:282-290 | a file already in the tree is never changed by a placement |
| Unification.Children | English.py:269 | `listdir` of a folder: exactly the names one level below it |
| Unification.Entries | English.py:275 | `listdir` of a date folder: exactly the names two levels below it |
| Unification.DatesOf | English.py:258-266 | the names indexed from one top-level entry are exactly its date directories (none for the sentinel or a file) |
| Unification.IndexOf | English.py:254-266 | every indexed date points at a date directory of a resolved location |
| Unification.IndexCoversListedDates | English.py:257-266 | a date is indexed exactly when some listed resolved folder has it |
| Unification.IndexLastWriterWins | AcomodoFotos/src/organizador.py:305-313 | an indexed date points at a listed folder that has it, and no later-listed folder has it |
| Unification.IndexFolder | English.py:261-266 | the inner index loop adds the folder's date directories, overwriting earlier entries |
| Unification.BuildIndex | English.py:257-266 | the index loop computes `IndexOf` of the listing order |
| Unification.VisitName | AcomodoFotos/src/organizador.py:321-325 | one name of a movable folder: a regular file moves to the indexed folder, anything else stays |
| Unification.MoveFolderFiles | English.py:275-279 | after the inner move loop, every regular file of the folder has moved and nothing else has changed |
| Unification.DrainFolder | English.py:273-283 | moving a folder's files and removing it when empty yields the specified progress |
| Unification.MovePhase | English.py:269-283 | the move loop over the sentinel's entries computes `Unified` |
| Unification.Unify | English.py:248-283 | no-op when the sentinel is absent; raises with the tree unchanged when it is a file; otherwise `Unified` with the listing's index; top-level entries are never removed |
| Unification.UnifiedMovesFiles | AcomodoFotos/src/organizador.py:316-325 | a regular file of an indexed date folder of the sentinel leaves it and appears unchanged under the indexed location |
| Unification.UnifiedKeepsOthers | English.py:278 | every other entry stays; its content changes only when a moved namesake replaces it, which cannot happen without name clashes |
| Unification.UnifiedAddsNothing | English.py:269-283 | every entry afterwards is an unmoved original or a moved file at its destination |
| Unification.UnifiedDrainsIndexedDates | English.py:280-283 | an indexed sentinel date folder keeps no regular file, and it is removed exactly when it held only regular files |
| Unification.UnifiedRemovesOnlyEmptied | AcomodoFotos/src/organizador.py:327-330 | date folders are only removed, never changed, and a removed one is an emptied, indexed date folder of the sentinel |
| Unification.UnifiedWellFormed | AcomodoFotos/src/organizador.py:319-324 | moved files land in existing date directories, so the tree stays well formed |
| Unification.DatesOfUnchanged | AcomodoFotos/src/organizador.py:304-313 | the pass changes no resolved folder's date directories |
| Unification.IndexOfUnchanged | AcomodoFotos/src/organizador.py:304-313 | the index of the unified tree equals the index of the original |
| Unification.NothingToDo | English.py:269-283 | a tree with nothing to move and no emptied folder to remove is a fixed point |
| Unification.UnifyIdempotent | English.py:243-283 | running the pass again on its output, with the same listing order, changes nothing |
| English.NonZero | English.py:175-176 | a coordinate exactly when the pair is not (0.0, 0.0) |
| English.JsonCoords | English.py:164-176 | a nonzero geoData pair wins; geoDataExif only when geoData is absent or (0, 0); a final (0, 0) means none; a non-object member raises and gives none |
| English.MetadataFromJson | English.py:151-181 | an unreadable file or a bad timestamp gives (None, None); otherwise the timestamp's date and the chosen coordinate |
| English.GeoDataExifOnlyWhenZero | English.py:171-173 | with a usable geoData pair, geoDataExif is irrelevant |
| English.ZeroGeoDataIsAbsent | English.py:165-173 | a (0, 0) or empty geoData behaves exactly like a missing one |
| English.Merge | English.py:195-207 | field by field, the first source's value wins when it has one |
| English.FinalMetadata | English.py:183-209 | the sidecar's fields win; an image with a missing field takes that field from EXIF; a non-image gets the sidecar alone |
| English.ExifOnlyFillsGaps | English.py:200-203 | EXIF is irrelevant for non-images and for sidecars with both fields |
| English.PrecedenceExamples | English.py:192-207 | a complete sidecar beats the tags; a date-only sidecar is completed by the tags' coordinate |
| English.BrokenSidecarFallsBack | English.py:193-207 | an unparsable sidecar makes an image fall back to EXIF, and a file with neither gets (None, None) |
| English.Resolve | English.py:95-120 | the key ends up mapped to the returned label; old entries are kept; exactly the key is added; at most one geocoder call |
| English.HitCallsNothing | English.py:100-102 | a cached key returns its label with no call and no change |
| English.MissCallsOnce | English.py:104-120 | a miss calls once and caches "City - State" on success or `No_Location` on failure |
| English.ResolveTwiceCallsOnce | English.py:115-120 | resolving twice gives the same label and calls at most once, failures included |
| English.ResolveKeepsCallsUnique | English.py:100-120 | every called coordinate's key is cached and no key is called twice; resolving keeps this |
| English.LocationCache.constructor | English.py:43-48 | the cache starts as the loaded file's contents, with no calls |
| English.LocationCache.GetCityStateName | English.py:95-120 | the label and the new cache are exactly `Resolve` of the old cache |
| English.Bucket | English.py:221-231 | no coordinate gives `No_Location` and leaves the cache alone; a coordinate gives the label and cache of `Resolve`; a date gives its `DD-MM-YY` folder, no date gives `No_Date` |
| English.Step | English.py:218-241 | an unsupported file changes nothing; nothing already in the output folder changes; a raise leaves the folder as it was |
| English.Organized | English.py:215-241 | the walk never changes an entry already in the output folder |
| English.BucketAgreesWithLaterCache | English.py:222-225 | the label a bucket gets is the one the cache keeps for the rest of the walk |
| English.OrganizeOnlyAdds | English.py:236-241 | the walk keeps every existing entry unchanged, keeps the tree well formed and keeps cached labels |
| English.OrganizePlacesOnlySupported | English.py:216-238 | every new entry is a supported file of the walk, copied from its path into the folder of its metadata: the label the final cache holds for its coordinate (`No_Location` without one) and its date's `DD-MM-YY` name or `No_Date` |
| English.StepSettles | English.py:221-238 | a handled file needs nothing more: no call, destination present |
| English.SettledStepIsNoop | English.py:236-241 | meeting a settled file again changes nothing |
| English.OrganizeSettles | English.py:216-241 | after a walk that did not raise, every file met is settled |
| English.SettledWalkIsNoop | English.py:216-241 | a walk over settled files changes nothing |
| English.OrganizeIdempotent | English.py:211-241 | walking the same files again copies nothing and calls the geocoder for nothing, whatever the geocoder would answer the second time, because failures are cached too |
| English.SettledForAnyGeocoder | English.py:100-102 | a settled file's bucket needs no call, so it is settled under any geocoder |
| English.OrganizeCallsEachKeyOnce | English.py:100-120 | over a whole walk, no key is ever sent to the geocoder twice |
| English.OrganizeAddsOnlyFiles | English.py:236-238 | the walk adds regular files only |
| English.OrganizeFiles | English.py:211-241 | the loop's tree, cache and raised flag are exactly those of the walk function |
| English.UnifyNoLocation | English.py:243-283 | `Unify` with `No_Location` |
| English.Organize | English.py:285-290 | placement first; unification of `No_Location` only when placement did not raise, on the placed tree |
| English.ExampleIndex | English.py:256-266 | in a two-bucket example, the date folder is indexed under the resolved location |
| English.UnificationExample | English.py:269-279 | in the example, `No_Location/day/b` moves to `location/day/b` |
| English.UnificationExampleCleansUp | English.py:280-283 | in the example, the emptied `No_Location/day` is removed and `No_Location` stays |
| English.UnificationExampleKeepsResolved | English.py:278 | in the example, `location/day/a` stays |
| English.UnlocatedVideoIsCopied | English.py:222-238 | a dated video with no coordinate is copied into a recreated `No_Location/<date>` when that folder is missing |
| English.RerunRecopiesMovedFile | English.py:285-290 | rerunning `main` after the unification example copies `b` back into `No_Location/day`, beside the copy already moved to `location/day` |
| Organizador.VariantsAgreeWithoutSidecar | AcomodoFotos/src/organizador.py:236-254 | EXIF-only metadata equals the English precedence with no sidecar |
| Organizador.VideosGetNoMetadata | AcomodoFotos/src/organizador.py:246-254 | a video gets (None, None) whatever its tags |
| Organizador.SidecarOnlyCountsInEnglish | AcomodoFotos/src/organizador.py:244-252 | a video with a dated sidecar is dated in English.py and undated here |
| Organizador.Resolve | AcomodoFotos/src/organizador.py:174-202 | `Sin_Ubicacion` comes back exactly when the coordinate is not stored afterwards; stored rows are kept; only a geocoder success is added; one call exactly on a miss |
| Organizador.HitCallsNothing | AcomodoFotos/src/organizador.py:179-182 | a stored row answers "city - state" with no call |
| Organizador.SuccessIsStored | AcomodoFotos/src/organizador.py:184-198 | a success inserts the (city, state) row and returns its label |
| Organizador.FailuresAreRetried | AcomodoFotos/src/organizador.py:199-202 | a failure stores nothing, so resolving the coordinate again makes a second call, which returns `Sin_Ubicacion` if the new answer fails too and stores and returns "city - state" if it succeeds |
| Organizador.SuccessesAreAskedOnce | AcomodoFotos/src/organizador.py:179-198 | after a success, resolving again makes no call and returns the same label |
| Organizador.CachePoliciesCompared | AcomodoFotos/src/organizador.py:174-202 | on a miss both variants give the same label on success and their own sentinel on failure; only English.py remembers the failure |
| Organizador.FinalMetadata | AcomodoFotos/src/organizador.py:236-254 | an image gets what its EXIF tags give; any other file gets (None, None) |
| Organizador.Bucket | AcomodoFotos/src/organizador.py:270-280 | no coordinate gives `Sin_Ubicacion` and leaves the table alone; a coordinate gives the label and table of `Resolve`; a date gives its `DD-MM-YY` folder, no date gives `Sin_Fecha`; rows are kept and new rows are geocoder successes |
| Organizador.Step | AcomodoFotos/src/organizador.py:266-287 | an unsupported file changes nothing; nothing already in the output folder changes; a raise leaves the folder as it was |
| Organizador.Organized | AcomodoFotos/src/organizador.py:263-287 | the walk never changes an entry already in the output folder |
| Organizador.BucketAgreesWithLaterRows | AcomodoFotos/src/organizador.py:272-274 | the label a bucket gets is the one the table still gives later in the walk |
| Organizador.OrganizeOnlyAdds | AcomodoFotos/src/organizador.py:282-290 | the walk keeps every existing entry unchanged, keeps the tree well formed, and adds only successes to the table |
| Organizador.OrganizePlacesOnlySupported | AcomodoFotos/src/organizador.py:263-287 | every new entry is a supported file of the walk, copied from its path into the folder of its metadata: "city - state" of the final table's row for its coordinate (`Sin_Ubicacion` without a coordinate or a row) and its date's `DD-MM-YY` name or `Sin_Fecha` |
| Organizador.OrganizeAddsOnlyFiles | AcomodoFotos/src/organizador.py:285-287 | the walk adds regular files only |
| Organizador.OrganizeCallsOnlyForImages | AcomodoFotos/src/organizador.py:270-275 | calls are only appended, and each is for a coordinate carried by an image of the walk |
| Organizador.SettledStaysSettled | AcomodoFotos/src/organizador.py:270-280 | within one walk, a file's bucket is stable while the tree grows and only successes are stored, failed coordinates included |
| Organizador.StepSettles | AcomodoFotos/src/organizador.py:270-287 | within one walk, a handled file stores no new row when met again, and its destination is present |
| Organizador.SettledStepKeepsTree | AcomodoFotos/src/organizador.py:282-290 | meeting a settled file again leaves the tree and rows as they are |
| Organizador.OrganizeSettles | AcomodoFotos/src/organizador.py:263-290 | after a walk that did not raise, every file met is settled |
| Organizador.SettledWalkKeepsTree | AcomodoFotos/src/organizador.py:263-290 | a walk over settled files leaves the tree and rows as they are |
| Organizador.OrganizeTreeIdempotent | AcomodoFotos/src/organizador.py:256-290 | walking the same files again changes neither the tree nor the table, provided every image coordinate left without a row fails again on the second walk; failed coordinates are asked again |
| Organizador.RecoveredStepCopiesAgain | AcomodoFotos/src/organizador.py:270-287 | meeting an image whose unstored coordinate now resolves stores the row and copies the file into its "city - state" folder |
| Organizador.RecoveredFailureCopiesAgain | AcomodoFotos/src/organizador.py:256-290 | without that proviso placement is not idempotent: a file first copied into `Sin_Ubicacion` is copied again into "city - state" when the next walk's call succeeds |
| Organizador.SettledUnderRetry | AcomodoFotos/src/organizador.py:270-280 | a settled file stays settled on a later walk whose geocoder also fails on its unstored coordinate |
| Organizador.PhotoVideoOrganizer.constructor | AcomodoFotos/src/organizador.py:32-50 | the geocoder is kept and the rows of earlier runs are kept, with no calls |
| Organizador.PhotoVideoOrganizer.LocationFromCache | AcomodoFotos/src/organizador.py:116-129 | a row comes back exactly when the coordinate is stored, and it is the stored (city, state) |
| Organizador.PhotoVideoOrganizer.SaveLocationToCache | AcomodoFotos/src/organizador.py:102-114 | a lookup afterwards finds the earlier row, if any, or the new one; nothing else changes |
| Organizador.PhotoVideoOrganizer.GetCityStateName | AcomodoFotos/src/organizador.py:174-202 | the label and the new table and calls are exactly `Resolve` of the old ones |
| Organizador.PhotoVideoOrganizer.OrganizeFiles | AcomodoFotos/src/organizador.py:256-290 | the loop's tree, cache and raised flag are exactly those of the walk function |
| Organizador.PhotoVideoOrganizer.UnirSinUbicacion | AcomodoFotos/src/organizador.py:292-330 | `Unify` with `Sin_Ubicacion` |
| Organizador.PhotoVideoOrganizer.Organize | AcomodoFotos/src/organizador.py:54-62 | placement first; unification of `Sin_Ubicacion` only when placement did not raise, on the placed tree |

## Left out

- Logging, the GUI files and the language dictionaries: presentation only.
- `progress_callback`: the GUI passes it, but neither engine accepts it.
- `organizador.main` is not modelled. It only builds the object and calls `organize`.
- The OpenCage network call is not modelled. The geocoder is an oracle, and an exception, an empty result or a missing `components` all become `None`. Within one walk the oracle is a fixed function of the coordinate. A later walk may use a different oracle, so a retried failure can succeed there.
- SettledStaysSettled: within one walk a coordinate whose call failed fails again when it is met again, because the oracle is fixed for the walk. An answer that changes between two calls of the same walk (a timeout, then a success) is not modelled. Such a file would be copied into both `Sin_Ubicacion` and its "city - state" folder in one walk.
- StepSettles: "no new row when met again" rests on the same fixed oracle within one walk.
- OrganizeTreeIdempotent: idempotence holds only when every coordinate left without a row fails again on the second walk. RecoveredFailureCopiesAgain shows the duplicate copy when a retried call succeeds. Like OrganizeIdempotent, it is about the placement walk alone; see the next line.
- OrganizeIdempotent: idempotence is proved for the placement walk run twice with nothing in between, not for two runs of `main` or `organize`. Those always unify after placing, so a rerun walks over the unified tree. It recreates every sentinel date folder that unification removed and copies each file unification moved out of it back there (logged as a copy, not a skip), and the rerun's unification moves it again. RerunRecopiesMovedFile shows the re-copy on the unification example. That two full runs end in the same tree is not proved.
- The EXIF and JSON libraries are not modelled. `exifread` decoding, the tag-name mapping, `json.load`, `fromtimestamp` and `strptime` are inputs: the model takes their decoded results.
- `English.LocationCache.keyOf`: the `"%.6f,%.6f"` float formatting of the cache key is an opaque function of the coordinate.
- Python floats are reals, with no rounding. The SQLite lookup compares coordinates exactly.
- Persistence of both caches is not modelled: the JSON file write, the SQLite connection and table creation. A failure while saving is not modelled either.
- `Organizador.PhotoVideoOrganizer.SaveLocationToCache`: the table is a map from coordinate to row. An insert for a stored coordinate keeps the earlier row, because the lookup returns the first match. The class only inserts on a miss, so this never happens in a run.
- JSON `null` coordinates are not modelled. Python compares `None` with 0.0 as unequal, so a `null` would yield a `(None, x)` pair.
- Unicode digits in `\d` are not modelled: only ASCII digits count. `str.lower()` is modelled on ASCII only.
- Path joining and separators are not modelled. A bucket is the triple (location, date folder, file name).
- Creating the output root is not modelled: the output tree is given.
- The order of `os.walk` is the order of the given sequence of source files. The order of `os.listdir` of the output root is the given `listing` (or `listingOf`). Inner listings are sets, because their order does not change the result.
- Entries deeper than `output/location/date/name` are not modelled.
- `English.Organize` and `Organizador.PhotoVideoOrganizer.Organize` require every `output/location/date` to hold regular files only (true of an output folder this engine built). They also require `os.listdir` to list every top-level entry.
- `Unification.Unify`: requires that no regular file of a sentinel date folder has a directory as namesake in another folder of the same date. `shutil.move` would put the file inside that directory, a level the model does not hold. A namesake regular file is modelled: it is replaced, as `shutil.move` does.
- Errors from `shutil.copy`, `shutil.move` and `os.rmdir` (permissions, a full disk) are not modelled. The one raising case that is modelled is a file in the way of a directory the engine creates or lists.
