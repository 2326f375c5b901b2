/**
 * Which files the placement engine takes: `os.path.splitext(name)[1].lower()` must be one of
 * the image extensions `.jpg .jpeg .png` or the video extensions `.mp4 .mov .mkv .avi`.
 */
module FileNames {

  const ImageExtensions: seq<string> := [".jpg", ".jpeg", ".png"]
  const VideoExtensions: seq<string> := [".mp4", ".mov", ".mkv", ".avi"]

  /** Index of the last '.' in `s`, or -1 when there is none. */
  function LastDot(s: string): (i: int)
    ensures -1 <= i < |s|
    ensures i >= 0 ==> s[i] == '.'
    ensures forall j :: i < j < |s| ==> s[j] != '.'
  {
    if s == [] then -1
    else if s[|s| - 1] == '.' then |s| - 1
    else LastDot(s[..|s| - 1])
  }

  /** True when some character of `s` before position `end` is not a dot. */
  predicate HasNonDotBefore(s: string, end: int)
    requires 0 <= end <= |s|
  {
    exists j :: 0 <= j < end && s[j] != '.'
  }

  /**
   * `os.path.splitext(name)[1]` for a bare file name: from the last dot to the end, unless every
   * character before that dot is a dot itself (leading dots of a name do not start an extension).
   */
  function Extension(name: string): (ext: string)
    ensures ext == "" || (ext[0] == '.' && |ext| <= |name| && ext == name[|name| - |ext|..])
    ensures forall j :: 1 <= j < |ext| ==> ext[j] != '.'
    ensures ext != "" ==> HasNonDotBefore(name, |name| - |ext|)
    ensures ext == "" ==> forall j :: 0 <= j < |name| && name[j] == '.' ==> !HasNonDotBefore(name, j)
  {
    var i := LastDot(name);
    if i >= 0 && HasNonDotBefore(name, i) then name[i..] else ""
  }

  /** ASCII lower case of one character. */
  function LowerChar(c: char): char {
    if 'A' <= c <= 'Z' then (c as int + 32) as char else c
  }

  /** `s.lower()` on ASCII text. */
  function Lower(s: string): string {
    if s == [] then [] else [LowerChar(s[0])] + Lower(s[1..])
  }

  predicate IsImage(name: string) {
    Lower(Extension(name)) in ImageExtensions
  }

  predicate IsVideo(name: string) {
    Lower(Extension(name)) in VideoExtensions
  }

  /** `ext in IMAGE_EXTENSIONS or ext in VIDEO_EXTENSIONS`: the files the engine places. */
  predicate IsSupported(name: string) {
    IsImage(name) || IsVideo(name)
  }

  /** Lower-casing keeps the length and never turns another character into a dot. */
  lemma {:induction false} LowerKeepsDots(s: string)
    ensures |Lower(s)| == |s|
    ensures forall j :: 0 <= j < |s| ==> (Lower(s)[j] == '.' <==> s[j] == '.')
  {
    if s != [] {
      LowerKeepsDots(s[1..]);
    }
  }

  /**
   * A sidecar `<name>.json` is never placed itself: its extension is ".json" (or empty, for a
   * name made only of dots), which is neither an image nor a video extension.
   */
  lemma SidecarIsNeverPlaced(name: string)
    ensures Extension(name + ".json") in {".json", ""}
    ensures !IsSupported(name + ".json")
  {
    var s := name + ".json";
    var i := LastDot(s);
    assert s[|name|] == '.';
    assert i == |name|;
    var ext := Extension(s);
    if ext != "" {
      assert ext == s[|name|..] == ".json";
    }
    assert Lower(".json") == ".json";
    assert Lower("") == "";
  }

  /** An image is never also a video: the two extension sets are disjoint. */
  lemma ImageAndVideoDisjoint(name: string)
    ensures !(IsImage(name) && IsVideo(name))
  {
  }

  /** The extension of a name whose last dot is at `i`, with a non-dot character before it. */
  lemma ExtensionFromDot(name: string, i: nat, j: nat)
    requires j < i < |name| && name[i] == '.' && name[j] != '.'
    requires forall k :: i < k < |name| ==> name[k] != '.'
    ensures Extension(name) == name[i..]
  {
    assert LastDot(name) == i;
  }

  /** The extension test ignores case. */
  lemma ExtensionCaseIgnored()
    ensures IsImage("IMG_0001.JPG") && IsVideo("clip.MOV")
  {
    ExtensionFromDot("IMG_0001.JPG", 8, 0);
    assert "IMG_0001.JPG"[8..] == ".JPG" && Lower(".JPG") == ".jpg";
    ExtensionFromDot("clip.MOV", 4, 0);
    assert "clip.MOV"[4..] == ".MOV" && Lower(".MOV") == ".mov";
  }

  /** Extensions outside the two sets are not placed. */
  lemma UnsupportedExamples()
    ensures !IsSupported("notes.txt") && !IsSupported("anim.gif")
  {
    ExtensionFromDot("notes.txt", 5, 0);
    assert "notes.txt"[5..] == ".txt" && Lower(".txt") == ".txt";
    ExtensionFromDot("anim.gif", 4, 0);
    assert "anim.gif"[4..] == ".gif" && Lower(".gif") == ".gif";
  }

  /** Only the part after the last dot counts. */
  lemma LastDotOnly()
    ensures Extension("archive.tar.gz") == ".gz"
  {
    ExtensionFromDot("archive.tar.gz", 11, 0);
  }

  /** A plain JPEG name is an image. */
  lemma JpegIsImage()
    ensures IsImage("a.jpg")
  {
    ExtensionFromDot("a.jpg", 1, 0);
    assert Lower(".jpg") == ".jpg";
  }

  /** A name that is only an extension, such as ".jpg", has none and is not placed. */
  lemma DotNameIsUnsupported()
    ensures Extension(".jpg") == "" && !IsSupported(".jpg")
  {
    var s := ".jpg";
    assert s[0] == '.' && s[1] != '.' && s[2] != '.' && s[3] != '.';
    assert Lower("") == "";
  }
}
