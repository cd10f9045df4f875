/**
  The image folder scan of the slideshow: which directory entries become
  slides. An entry is a slide when it is a regular file whose extension,
  lower-cased, is jpg, jpeg or png; the slides keep the listing order.
 */
module Images {

  /** A directory entry as the loader sees it: its file name and whether it is a regular file. */
  datatype FileEntry = FileEntry(name: string, isFile: bool)

  /** What asking the image folder for its entries yields. */
  datatype Listing =
    | Missing                              // the folder does not exist
    | Unlistable                           // it exists, but listing it gives no array (not a directory, I/O error)
    | Entries(entries: seq<FileEntry>)     // its entries, in listing order

  const ImageExtensions: set<string> := {"jpg", "jpeg", "png"}

  /** Position of the last '.' in `s`, or -1 when there is none. */
  function LastDot(s: string): (k: int)
    ensures -1 <= k < |s|
    ensures k >= 0 ==> s[k] == '.'
    ensures forall j :: k < j < |s| ==> s[j] != '.'
  {
    if |s| == 0 then -1
    else if s[|s| - 1] == '.' then |s| - 1
    else LastDot(s[..|s| - 1])
  }

  /** The file extension: what follows the last '.' of the name, or "" when the name has no '.'. */
  function Extension(name: string): (ext: string)
    ensures '.' !in ext
    ensures |ext| <= |name| && name[|name| - |ext|..] == ext
    ensures '.' !in name ==> ext == ""
    ensures '.' in name ==> |ext| < |name| && name[|name| - |ext| - 1] == '.'
  {
    var k := LastDot(name);
    if k < 0 then "" else name[k + 1..]
  }

  /** Lower-casing of one character; only the ASCII letters A-Z change. */
  function LowerChar(ch: char): char
  {
    if 'A' <= ch <= 'Z' then (ch as int + 32) as char else ch
  }

  function Lower(s: string): (r: string)
    ensures |r| == |s|
    ensures forall i :: 0 <= i < |s| ==> r[i] == LowerChar(s[i])
  {
    seq(|s|, i requires 0 <= i < |s| => LowerChar(s[i]))
  }

  /** The slideshow's test for one entry. */
  predicate IsImage(e: FileEntry)
  {
    e.isFile && Lower(Extension(e.name)) in ImageExtensions
  }

  /** The entries of a listing that become slides. */
  function FilterImages(entries: seq<FileEntry>): (slides: seq<FileEntry>)
    ensures forall e :: e in slides <==> e in entries && IsImage(e)
    ensures |slides| <= |entries|
  {
    if entries == [] then []
    else (if IsImage(entries[0]) then [entries[0]] else []) + FilterImages(entries[1..])
  }

  /** Filtering distributes over concatenation, so the slides keep the listing order. */
  lemma {:induction false} FilterImagesAppend(a: seq<FileEntry>, b: seq<FileEntry>)
    ensures FilterImages(a + b) == FilterImages(a) + FilterImages(b)
    decreases |a|
  {
    if a == [] {
      assert a + b == b;
    } else {
      assert (a + b)[0] == a[0];
      assert (a + b)[1..] == a[1..] + b;
      FilterImagesAppend(a[1..], b);
    }
  }

  /** Scanning an already filtered list again keeps every entry. */
  lemma {:induction false} FilterImagesIdempotent(entries: seq<FileEntry>)
    ensures FilterImages(FilterImages(entries)) == FilterImages(entries)
    decreases |entries|
  {
    if entries != [] {
      var head := if IsImage(entries[0]) then [entries[0]] else [];
      FilterImagesAppend(head, FilterImages(entries[1..]));
      FilterImagesIdempotent(entries[1..]);
      assert FilterImages(head) == head by {
        if head != [] {
          assert head[1..] == [];
        }
      }
    }
  }

  /** Every entry of a listing is either a slide or dropped, and slides appear as often as in the listing. */
  lemma {:induction false} FilterImagesCounts(entries: seq<FileEntry>, e: FileEntry)
    ensures multiset(FilterImages(entries))[e] == (if IsImage(e) then multiset(entries)[e] else 0)
    decreases |entries|
  {
    if entries != [] {
      FilterImagesCounts(entries[1..], e);
      assert entries == [entries[0]] + entries[1..];
    }
  }

  /** The extension of `prefix.ext` is `ext` whenever `ext` holds no dot, whatever dots `prefix` holds. */
  lemma ExtensionAfterLastDot(prefix: string, ext: string)
    requires '.' !in ext
    ensures Extension(prefix + "." + ext) == ext
  {
    var s := prefix + "." + ext;
    var k := LastDot(s);
    assert s[|prefix|] == '.';
    assert k == |prefix|;
    assert s[k + 1..] == ext;
  }

  /** The extension test is case-blind. */
  lemma UpperCaseExtensionIsImage()
    ensures IsImage(FileEntry("hall.JPG", true))
  {
    ExtensionAfterLastDot("hall", "JPG");
    assert "hall" + "." + "JPG" == "hall.JPG";
    assert Lower("JPG") == "jpg";
  }

  /** Only the text after the last dot is looked at. */
  lemma InnerExtensionIsIgnored()
    ensures !IsImage(FileEntry("scan.png.txt", true))
  {
    ExtensionAfterLastDot("scan.png", "txt");
    assert "scan.png" + "." + "txt" == "scan.png.txt";
    assert Lower("txt") == "txt";
  }

  /** A name without a dot has no extension, and a directory is never a slide. */
  lemma NoDotOrNoFileIsNoImage()
    ensures !IsImage(FileEntry("png", true))
    ensures !IsImage(FileEntry("hall.jpg", false))
  {
    assert "png"[0] != '.' && "png"[1] != '.' && "png"[2] != '.';
    assert '.' !in "png";
    assert Lower("") == "";
  }
}
