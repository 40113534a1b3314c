/**
 * The public ID of a Cloudinary asset, read back from its delivery URL
 * `https://res.cloudinary.com/<cloud>/<type>/upload/<version>/<folder...>/<name>.<ext>`:
 * the '/'-segments after the seventh, then the file name without its extension.
 */
module PublicId {
  import opened Text

  /** The last '/'-segment of the URL (what `parts.pop()` removes). */
  function LastSegment(url: string): string
  {
    var parts := Split(url, '/');
    parts[|parts| - 1]
  }

  /** The '/'-segments from index 7 up to the last one, joined again with '/'. */
  function Folder(url: string): string
  {
    var parts := Split(url, '/');
    var rest := parts[..|parts| - 1];
    if |rest| <= 7 then "" else Join(rest[7..], '/')
  }

  /** The last segment up to its first '.'. */
  function FileName(url: string): (r: string)
    ensures '.' !in r && '/' !in r
  {
    var name := Split(LastSegment(url), '.')[0];
    assert '.' !in name;
    assert forall i :: 0 <= i < |name| ==> name[i] in LastSegment(url) by {
      if '.' in LastSegment(url) {
        var j := IndexOf(LastSegment(url), '.');
        assert name == LastSegment(url)[..j];
        assert forall i :: 0 <= i < |name| ==> name[i] == LastSegment(url)[i];
      }
    }
    name
  }

  /** `extractCloudinaryPublicId(url)`. */
  function ExtractPublicId(url: string): (r: string)
    ensures Folder(url) == "" ==> r == FileName(url)
    ensures Folder(url) != "" ==> r == Folder(url) + "/" + FileName(url)
  {
    var folder := Folder(url);
    var filename := FileName(url);
    if folder != "" then folder + "/" + filename else filename
  }

  /** The file name is the last segment's text before its first '.', so "a.b.jpg" gives "a". */
  lemma FileNameIsStem(url: string)
    ensures StartsWith(LastSegment(url), FileName(url))
    ensures '.' in LastSegment(url) ==> LastSegment(url)[|FileName(url)|] == '.'
    ensures '.' !in LastSegment(url) ==> FileName(url) == LastSegment(url)
  {
  }

  /** A URL with at most eight '/'-segments has no folder part. */
  lemma ShortUrl(url: string)
    requires |Split(url, '/')| <= 8
    ensures ExtractPublicId(url) == FileName(url)
  {
  }

  /** The last '/'-segment of the public ID is the file name, which holds no '.'. */
  lemma NoDotInLastSegment(url: string)
    ensures var parts := Split(ExtractPublicId(url), '/');
      parts[|parts| - 1] == FileName(url) && '.' !in parts[|parts| - 1]
  {
    var folder := Folder(url);
    var filename := FileName(url);
    if folder != "" {
      assert folder + "/" + filename == folder + ['/'] + filename;
      SplitLast(folder, filename, '/');
    }
  }

  /** Segments that hold no '/'. */
  predicate Segments(parts: seq<string>)
  {
    forall i :: 0 <= i < |parts| ==> '/' !in parts[i]
  }

  /**
   * Round trip: the URL Cloudinary builds from a base of seven segments, a
   * folder and a file `name.ext` gives back `folder/name`.
   */
  lemma {:induction false} UrlRoundTrip(base: seq<string>, folder: seq<string>, name: string, ext: string)
    requires |base| == 7 && Segments(base) && Segments(folder)
    requires Join(folder, '/') != ""
    requires '/' !in name && '.' !in name && '/' !in ext
    ensures ExtractPublicId(Join(base + folder + [name + "." + ext], '/')) == Join(folder, '/') + "/" + name
  {
    var file := name + "." + ext;
    var parts := base + folder + [file];
    FileSegment(name, ext);
    PartsSegments(base, folder, file);
    SplitJoin(parts, '/');
    var url := Join(parts, '/');
    assert LastSegment(url) == file;
    assert parts[..|parts| - 1] == base + folder;
    assert (base + folder)[7..] == folder;
    assert Folder(url) == Join(folder, '/');
  }

  /** A file `name.ext` holds no '/', and its text before the first '.' is the name. */
  lemma FileSegment(name: string, ext: string)
    requires '/' !in name && '.' !in name && '/' !in ext
    ensures '/' !in name + "." + ext
    ensures Split(name + "." + ext, '.')[0] == name
  {
    var file := name + "." + ext;
    assert forall i :: 0 <= i < |file| ==> file[i] == (if i < |name| then name[i] else if i == |name| then '.' else ext[i - |name| - 1]);
    assert file[|name|] == '.' && file[..|name|] == name;
    IndexOfUnique(file, '.', |name|);
  }

  /** The segments of a URL: the base, the folder, then the file. */
  lemma PartsSegments(base: seq<string>, folder: seq<string>, file: string)
    requires Segments(base) && Segments(folder) && '/' !in file
    ensures Segments(base + folder + [file])
  {
    var parts := base + folder + [file];
    assert forall i :: 0 <= i < |parts| ==> parts[i] == (if i < |base| then base[i] else if i < |base| + |folder| then folder[i - |base|] else file);
  }

  /**
   * The worked example: behind the seven prefix segments of a delivery URL
   * (such as "https:", "", "res.cloudinary.com", "c", "image", "upload", "v1"),
   * the image "products/abc.jpg" has the public ID "products/abc".
   */
  lemma Example(base: seq<string>)
    requires |base| == 7 && Segments(base)
    ensures ExtractPublicId(Join(base + ["products"] + ["abc.jpg"], '/')) == "products/abc"
  {
    assert "abc" + "." + "jpg" == "abc.jpg";
    assert Join(["products"], '/') == "products";
    UrlRoundTrip(base, ["products"], "abc", "jpg");
  }
}
