/**
 * The multer upload middleware: the file filter that admits images and
 * videos, the 50 MB size limit and the name a file is stored under.
 *
 * The filter tests the regular expression `/jpeg|jpg|png|webp|mp4|mov|avi/`,
 * which is unanchored: it holds of any string that contains one of the seven
 * words.  It is applied to the lower-cased extension of the original name
 * and to the MIME type, whose type and subtype busboy lower-cases when it
 * parses the part's Content-Type header.
 */
module Uploads {
  import opened Api
  import opened Text

  /** The alternatives of the file-type pattern. */
  const FILE_TYPES: seq<string> := ["jpeg", "jpg", "png", "webp", "mp4", "mov", "avi"]

  const FILTER_MESSAGE: string := "Only images and videos are allowed"

  /** multer's message for a file over `limits.fileSize`. */
  const TOO_LARGE_MESSAGE: string := "File too large"

  /** `limits.fileSize`: 1024 * 1024 * 50 bytes. */
  const FILE_SIZE_LIMIT: nat := 1024 * 1024 * 50

  /** `fileTypes.test(s)`: one of the words occurs somewhere in s. */
  predicate FileTypeTest(s: string)
  {
    exists w :: w in FILE_TYPES && Contains(s, w)
  }

  /** Index of the last occurrence of c in s. */
  function LastIndexOf(s: string, c: char): (r: Option<nat>)
    ensures r.None? <==> c !in s
    ensures r.Some? ==> r.value < |s| && s[r.value] == c && c !in s[r.value + 1..]
  {
    if s == [] then None
    else if s[|s| - 1] == c then Some(|s| - 1)
    else
      var r := LastIndexOf(s[..|s| - 1], c);
      assert r.Some? ==> s[r.value + 1..] == s[..|s| - 1][r.value + 1..] + [s[|s| - 1]];
      r
  }

  /** `path.basename(name)` for a name without a trailing '/': what follows the last '/'. */
  function BaseName(name: string): (r: string)
    ensures '/' !in r
    ensures |r| <= |name| && r == name[|name| - |r|..]
  {
    match LastIndexOf(name, '/')
    case None => name
    case Some(j) => name[j + 1..]
  }

  /**
   * `path.extname(name)` (POSIX): from the last dot of the base name to its
   * end; empty when the base name has no dot, starts with its only dot, or
   * is "..".
   */
  function ExtName(name: string): (r: string)
    ensures r == [] || (r[0] == '.' && '.' !in r[1..] && '/' !in r)
    ensures |r| <= |name| && r == name[|name| - |r|..]
  {
    var base := BaseName(name);
    match LastIndexOf(base, '.')
    case None => []
    case Some(i) =>
      if i == 0 || base == ".." then []
      else
        SuffixOfSuffix(name, base, i);
        base[i..]
  }

  /** A suffix of a suffix of name is a suffix of name, and holds no character the outer suffix lacks. */
  lemma SuffixOfSuffix(name: string, base: string, i: nat)
    requires |base| <= |name| && base == name[|name| - |base|..]
    requires i < |base| && '/' !in base && '.' !in base[i + 1..]
    ensures base[i..] != [] && base[i..][0] == base[i]
    ensures '/' !in base[i..] && '.' !in base[i..][1..]
    ensures base[i..] == name[|name| - |base[i..]|..]
  {
    assert base[i..][1..] == base[i + 1..];
    assert forall k :: 0 <= k < |base[i..]| ==> base[i..][k] == base[i + k];
  }

  /** The last occurrence is the only position with c and no c after it. */
  lemma LastIndexOfAt(s: string, c: char, j: nat)
    requires j < |s| && s[j] == c && c !in s[j + 1..]
    ensures LastIndexOf(s, c) == Some(j)
  {
    var r := LastIndexOf(s, c);
    assert s[j] in s;
    forall k | j < k < |s|
      ensures s[k] != c
    {
      assert s[k] == s[j + 1..][k - j - 1];
    }
    forall k | r.value < k < |s|
      ensures s[k] != c
    {
      assert s[k] == s[r.value + 1..][k - r.value - 1];
    }
  }

  /** A name made of a stem, one dot and an extension, with no directory, has that extension. */
  lemma ExtNameOfStem(stem: string, ext: string)
    requires stem != [] && '.' !in stem && '/' !in stem && '.' !in ext && '/' !in ext
    ensures ExtName(stem + "." + ext) == "." + ext
  {
    var s := stem + "." + ext;
    assert '/' !in s;
    assert BaseName(s) == s;
    assert s[|stem| + 1..] == ext;
    LastIndexOfAt(s, '.', |stem|);
    assert s[0] == stem[0] && stem[0] in stem;
    assert s[|stem|..] == "." + ext;
  }

  /** A word occurs in any string that has it between two others. */
  lemma ContainsInfix(a: string, w: string, b: string)
    ensures Contains(a + w + b, w)
  {
    assert OccursAt(a + w + b, w, |a|) by {
      assert (a + w + b)[|a|..|a| + |w|] == w;
    }
  }

  /** The test is unanchored: any string with one of the words inside it passes, whatever surrounds the word. */
  lemma WordInsidePasses(a: string, w: string, b: string)
    requires w in FILE_TYPES
    ensures FileTypeTest(a + w + b)
  {
    ContainsInfix(a, w, b);
  }

  /**
   * The `fileFilter` callback: accepted exactly when both the MIME type, as
   * busboy lower-cases it, and the lower-cased extension pass the test.
   * `mimeType` is the type as the client sent it.
   */
  predicate Accepts(originalName: string, mimeType: string)
    ensures Accepts(originalName, mimeType) ==> |mimeType| >= 3 && |ExtName(originalName)| >= 4
  {
    PassingLength(ToLower(mimeType));
    PassingLength(ToLower(ExtName(originalName)));
    FileTypeTest(ToLower(mimeType)) && FileTypeTest(ToLower(ExtName(originalName)))
  }

  /**
   * Text that passes holds a whole word, at least three letters; after a
   * leading dot, as an extension has, at least four characters.
   */
  lemma PassingLength(s: string)
    ensures FileTypeTest(s) ==> |s| >= 3
    ensures FileTypeTest(s) && s != [] && s[0] == '.' ==> |s| >= 4
  {
    if FileTypeTest(s) {
      var w :| w in FILE_TYPES && Contains(s, w);
      assert |w| >= 3 && IsLower(w[0]);
      var i :| 0 <= i <= |s| - |w| && OccursAt(s, w, i);
      assert s[i] == s[i..i + |w|][0] == w[0];
    }
  }

  /**
   * The name `diskStorage` gives a file: `${Date.now()}-${file.originalname}`.
   * The clock reading is written in decimal up to the first '-', and the
   * original name follows it unchanged.
   */
  function StoredName(now: nat, originalName: string): (r: string)
    ensures var k := |r| - |originalName| - 1;
      0 < k < |r| && r[k] == '-' && r[k + 1..] == originalName &&
      AllDigits(r[..k]) && '-' !in r[..k] && DecimalValue(r[..k]) == now
  {
    var d := NatToDecimal(now);
    var r := d + "-" + originalName;
    DecimalRoundTrip(now);
    assert r[..|d|] == d && r[|d| + 1..] == originalName;
    r
  }

  /** Two stored names are equal only for the same clock reading and the same original name. */
  lemma StoredNameInjective(n1: nat, a: string, n2: nat, b: string)
    requires StoredName(n1, a) == StoredName(n2, b)
    ensures n1 == n2 && a == b
  {
    var d1, d2 := NatToDecimal(n1), NatToDecimal(n2);
    var s := StoredName(n1, a);
    assert s == d1 + "-" + a;
    assert s == d2 + "-" + b;
    assert s[|d1|] == '-' && '-' !in s[..|d1|] by {
      assert s[..|d1|] == d1;
    }
    assert s[|d2|] == '-' && '-' !in s[..|d2|] by {
      assert s[..|d2|] == d2;
    }
    IndexOfUnique(s, '-', |d1|);
    IndexOfUnique(s, '-', |d2|);
    assert d1 == s[..|d1|] == d2;
    DecimalRoundTrip(n1);
    DecimalRoundTrip(n2);
    assert a == s[|d1| + 1..] == b;
  }

  /** A file as multer sees it. */
  datatype UploadFile = UploadFile(originalName: string, mimeType: string, size: nat)

  /** What happens to one uploaded file: stored under a name, or refused with an error. */
  datatype Received = Stored(fileName: string) | Refused(message: string)

  /** `upload` on one file at clock reading `now`: the filter first, then the size limit. */
  function Receive(file: UploadFile, now: nat): (r: Received)
    ensures r.Stored? <==> Accepts(file.originalName, file.mimeType) && file.size <= FILE_SIZE_LIMIT
    ensures r.Stored? ==> r.fileName == StoredName(now, file.originalName)
    ensures !Accepts(file.originalName, file.mimeType) ==> r == Refused(FILTER_MESSAGE)
  {
    if !Accepts(file.originalName, file.mimeType) then Refused(FILTER_MESSAGE)
    else if file.size > FILE_SIZE_LIMIT then Refused(TOO_LARGE_MESSAGE)
    else Stored(StoredName(now, file.originalName))
  }

  /** The limit is 50 MiB: 52428800 bytes, that size itself allowed. */
  lemma SizeLimit(file: UploadFile, now: nat)
    requires Accepts(file.originalName, file.mimeType)
    ensures Receive(file, now).Stored? <==> file.size <= 52428800
  {
  }

  /** A string without lower-case letters passes no test: every word starts with one. */
  lemma {:induction false} NoLowerCaseFails(s: string)
    requires forall i :: 0 <= i < |s| ==> !IsLower(s[i])
    ensures !FileTypeTest(s)
  {
    forall w | w in FILE_TYPES
      ensures !Contains(s, w)
    {
      assert IsLower(w[0]);
      forall i | 0 <= i <= |s| - |w|
        ensures !OccursAt(s, w, i)
      {
        assert s[i..i + |w|][0] == s[i];
      }
    }
  }

  /** The case of the MIME type does not matter: it is lower-cased before the test. */
  lemma AcceptsIgnoresMimeCase(originalName: string, mimeType: string)
    ensures Accepts(originalName, mimeType) <==> Accepts(originalName, ToLower(mimeType))
    ensures Accepts(originalName, mimeType) <==> Accepts(originalName, ToUpper(mimeType))
  {
    ToLowerTwice(mimeType);
    LowerOfUpper(mimeType);
  }

  /** A name written with its extension's dot is the stem, the dot and the extension. */
  lemma DottedName(stem: string, dotExt: string, ext: string)
    requires dotExt == "." + ext
    ensures stem + dotExt == stem + "." + ext
  {
  }

  /** The lower-cased extension of a stem, a dot and an extension is the dot and the lower-cased extension. */
  lemma LowerExtNameOfStem(stem: string, ext: string)
    requires stem != [] && '.' !in stem && '/' !in stem && '.' !in ext && '/' !in ext
    ensures ToLower(ExtName(stem + "." + ext)) == "." + ToLower(ext)
  {
    ExtNameOfStem(stem, ext);
    ToLowerAppend(".", ext);
    assert ToLower(".") == ".";
  }

  /**
   * For a name of a stem, one dot and an extension, the filter tests the
   * lower-cased MIME type and the dot followed by the lower-cased extension.
   */
  lemma AcceptsStem(stem: string, ext: string, mimeType: string)
    requires stem != [] && '.' !in stem && '/' !in stem && '.' !in ext && '/' !in ext
    ensures Accepts(stem + "." + ext, mimeType) <==> FileTypeTest(ToLower(mimeType)) && FileTypeTest("." + ToLower(ext))
  {
    LowerExtNameOfStem(stem, ext);
  }

  /** The MIME type is lower-cased first: a ".png" file sent as "IMAGE/PNG" is accepted. */
  lemma UpperCaseMimeTypeAccepted(stem: string)
    requires stem != [] && '.' !in stem && '/' !in stem
    ensures Accepts(stem + ".png", "IMAGE/PNG")
  {
    UpperPngPasses();
    PngFileAccepted(stem, "IMAGE/PNG");
  }

  /** The MIME type "IMAGE/PNG" passes once lower-cased. */
  lemma UpperPngPasses()
    ensures FileTypeTest(ToLower("IMAGE/PNG"))
  {
    LowerOf("IMAGE/PNG", "image/png");
    assert "image/png" == "image/" + "png" + "";
    WordInsidePasses("image/", "png", "");
  }

  /** A ".png" file is accepted with any MIME type that passes the test. */
  lemma PngFileAccepted(stem: string, mimeType: string)
    requires stem != [] && '.' !in stem && '/' !in stem
    requires FileTypeTest(ToLower(mimeType))
    ensures Accepts(stem + ".png", mimeType)
  {
    assert ToLower("png") == "png" + "" by {
      LowerOf("png", "png");
    }
    DottedName(stem, ".png", "png");
    StemAccepted(stem, "png", "png", "", mimeType);
  }

  /** An extension that lower-cases to one of the words followed by a tail passes the test. */
  lemma DottedExtensionPasses(ext: string, w: string, tail: string)
    requires w in FILE_TYPES && ToLower(ext) == w + tail
    ensures FileTypeTest("." + ToLower(ext))
  {
    assert "." + ToLower(ext) == "." + w + tail;
    WordInsidePasses(".", w, tail);
  }

  /** A stem, a dot and an extension that lower-cases to a word and a tail, sent with a passing MIME type, is accepted. */
  lemma StemAccepted(stem: string, ext: string, w: string, tail: string, mimeType: string)
    requires stem != [] && '.' !in stem && '/' !in stem && '.' !in ext && '/' !in ext
    requires w in FILE_TYPES && ToLower(ext) == w + tail
    requires FileTypeTest(ToLower(mimeType))
    ensures Accepts(stem + "." + ext, mimeType)
  {
    DottedExtensionPasses(ext, w, tail);
    AcceptsStem(stem, ext, mimeType);
  }

  /** The extension is lower-cased first: a ".JPG" file sent with a passing MIME type, such as "image/jpeg", is accepted. */
  lemma UpperCaseExtensionAccepted(stem: string, mimeType: string)
    requires stem != [] && '.' !in stem && '/' !in stem
    requires FileTypeTest(ToLower(mimeType))
    ensures ExtName(stem + ".JPG") == ".JPG"
    ensures Accepts(stem + ".JPG", mimeType)
  {
    assert ToLower("JPG") == "jpg" + "" by {
      LowerOf("JPG", "jpg");
    }
    DottedName(stem, ".JPG", "JPG");
    ExtNameOfStem(stem, "JPG");
    StemAccepted(stem, "JPG", "jpg", "", mimeType);
  }

  /** The pattern is unanchored: an extension that merely contains a word, such as ".jpgx", passes. */
  lemma LongerExtensionAccepted(stem: string, mimeType: string)
    requires stem != [] && '.' !in stem && '/' !in stem
    requires FileTypeTest(ToLower(mimeType))
    ensures ExtName(stem + ".jpgx") == ".jpgx"
    ensures Accepts(stem + ".jpgx", mimeType)
  {
    assert ToLower("jpgx") == "jpg" + "x" by {
      LowerOf("jpgx", "jpgx");
    }
    DottedName(stem, ".jpgx", "jpgx");
    ExtNameOfStem(stem, "jpgx");
    StemAccepted(stem, "jpgx", "jpg", "x", mimeType);
  }

  /** A name whose only dot starts it, such as ".png", has no extension and is refused. */
  lemma DotFileRefused(mimeType: string)
    ensures ExtName(".png") == ""
    ensures !Accepts(".png", mimeType)
  {
    assert LastIndexOf(".png", '/') == None;
    assert LastIndexOf(".png", '.') == Some(0);
    assert ToLower("") == "";
    NoLowerCaseFails("");
  }

  /**
   * A QuickTime video is sent with its registered MIME type
   * "video/quicktime".  The type contains none of the words, so the filter
   * refuses every such file, the `mov` files it lists among them.
   */
  lemma QuickTimeRefused(originalName: string)
    ensures !FileTypeTest("video/quicktime")
    ensures !Accepts(originalName, "video/quicktime")
  {
    var s := "video/quicktime";
    assert !FileTypeTest(s) by {
      forall w | w in FILE_TYPES
        ensures !Contains(s, w)
      {
        forall i | 0 <= i <= |s| - |w|
          ensures !OccursAt(s, w, i)
        {
          assert s[i..i + |w|][0] == s[i];
          assert s[i..i + |w|][1] == s[i + 1];
        }
      }
    }
    LowerOf(s, s);
  }

  /** The QuickTime type names "quicktime". */
  lemma QuickTimeContained()
    ensures Contains("video/quicktime", "quicktime")
  {
    assert "video/quicktime" == "video/" + "quicktime" + "";
    ContainsInfix("video/", "quicktime", "");
  }

  /** The QuickTime type is already lower case. */
  lemma QuickTimeLowerCase()
    ensures ToLower("video/quicktime") == "video/quicktime"
  {
    LowerOf("video/quicktime", "video/quicktime");
  }

  /** The MIME test as evidently intended: the words, or the QuickTime type of `mov` files. */
  predicate MimeTypeTestIntended(mimeType: string)
  {
    FileTypeTest(mimeType) || Contains(mimeType, "quicktime")
  }

  predicate AcceptsIntended(originalName: string, mimeType: string)
  {
    MimeTypeTestIntended(ToLower(mimeType)) && FileTypeTest(ToLower(ExtName(originalName)))
  }

  /**
   * The intended filter admits a ".mov" file sent with a type naming
   * QuickTime, such as "video/quicktime", and differs from the written one
   * only on such types.
   */
  lemma QuickTimeAcceptedIntended(stem: string, originalName: string, mimeType: string)
    requires stem != [] && '.' !in stem && '/' !in stem
    ensures Contains(ToLower(mimeType), "quicktime") ==> AcceptsIntended(stem + ".mov", mimeType)
    ensures Accepts(originalName, mimeType) ==> AcceptsIntended(originalName, mimeType)
    ensures AcceptsIntended(originalName, mimeType) && !Accepts(originalName, mimeType) ==> Contains(ToLower(mimeType), "quicktime")
  {
    assert ToLower("mov") == "mov" + "" by {
      LowerOf("mov", "mov");
    }
    DottedName(stem, ".mov", "mov");
    LowerExtNameOfStem(stem, "mov");
    DottedExtensionPasses("mov", "mov", "");
  }

  /** In particular "video/quicktime" itself is admitted by the intended filter and refused by the written one. */
  lemma QuickTimeTypeIntended(stem: string)
    requires stem != [] && '.' !in stem && '/' !in stem
    ensures AcceptsIntended(stem + ".mov", "video/quicktime")
    ensures !Accepts(stem + ".mov", "video/quicktime")
  {
    QuickTimeLowerCase();
    QuickTimeContained();
    QuickTimeRefused(stem + ".mov");
    QuickTimeAcceptedIntended(stem, stem + ".mov", "video/quicktime");
  }
}
