/**
 * What the metadata resolver produces for one file, and the embedded-tag (EXIF) reader that both
 * variants share (`get_metadata_from_exif` / `_get_metadata_from_exif`).  Opening the file and
 * decoding its tags are outside the model: the reader's input is the decoded tags.
 */
module MediaMetadata {

  import opened Wrappers
  import opened Dates
  import opened Coordinates

  /**
   * A date field as found in a metadata source: absent, converted to a date, or present but
   * impossible to convert (the conversion raised).
   */
  datatype Stamp = Missing | Parsed(date: CalendarDate) | Malformed

  /** The (date, coordinates) pair a resolver returns; `None` stands for Python's `None`. */
  datatype Metadata = Metadata(date: Option<CalendarDate>, coords: Option<Coord>)

  const NoMetadata := Metadata(None, None)

  /**
   * An image's embedded tags: `Unreadable` when opening or decoding the file raises; otherwise
   * `EXIF DateTimeOriginal` (converted with the pattern `%Y:%m:%d %H:%M:%S`) and the GPS tags.
   */
  datatype ExifFile = Unreadable | Tags(dateTimeOriginal: Stamp, gps: GpsTags)

  /** The stamp's date, if it has one. */
  function StampDate(s: Stamp): Option<CalendarDate> {
    if s.Parsed? then Some(s.date) else None
  }

  /**
   * `get_metadata_from_exif`: the date tag, then the GPS pair.  An unreadable file gives
   * (None, None); so does a date tag that does not parse, because the exception is raised
   * before the GPS tags are read.
   */
  function MetadataFromExif(exif: ExifFile): (m: Metadata)
    ensures exif.Unreadable? ==> m == NoMetadata
    ensures exif.Tags? && exif.dateTimeOriginal.Malformed? ==> m == NoMetadata
    ensures exif.Tags? && !exif.dateTimeOriginal.Malformed? ==>
              m.date == StampDate(exif.dateTimeOriginal) && m.coords == ParseGpsInfo(exif.gps)
  {
    match exif
    case Unreadable => NoMetadata
    case Tags(Malformed, _) => NoMetadata
    case Tags(stamp, gps) => Metadata(StampDate(stamp), ParseGpsInfo(gps))
  }

  /** A bad date tag hides even a perfectly good GPS pair. */
  lemma MalformedDateHidesGps(gps: GpsTags)
    ensures MetadataFromExif(Tags(Malformed, gps)).coords.None?
  {
  }
}
