/** The upload endpoint `POST /api/upload` of backend/server.js: multer's file
    filter and size limit, the stored file name, and the JSON reply. Writing
    the file to disk is left out. */
module Upload {
  import opened JsValues

  /** What multer reports of the file in the form field `file`. */
  datatype UploadedFile = UploadedFile(originalName: string, mimeType: string, size: nat)

  /** The reply `{ url, filename, size }`. */
  datatype UploadReply = UploadReply(url: string, filename: string, size: nat)

  datatype UploadError = NoFileUploaded | UnsupportedType | FileTooLarge

  datatype Result<+T, +E> = Ok(value: T) | Err(error: E)

  /** `limits.fileSize`: 5 MiB. */
  const MaxFileSize: nat := 5 * 1024 * 1024

  /** The alternatives of `/jpeg|jpg|png|gif|pdf|doc|docx/`. */
  const FileTypes: seq<string> := ["jpeg", "jpg", "png", "gif", "pdf", "doc", "docx"]

  /** `filetypes.test(s)`: the regular expression has no anchors, so it matches
      wherever one alternative occurs inside `s`. */
  predicate MatchesFileType(s: string)
  {
    exists k :: 0 <= k < |FileTypes| && Contains(s, FileTypes[k])
  }

  /** `path.extname(name)`: from the last '.' to the end, or "" without a '.'. */
  function ExtName(name: string): (ext: string)
    ensures |ext| <= |name| && ext == name[|name| - |ext|..]
    ensures ext == [] || ext[0] == '.'
    ensures forall i :: 0 < i < |ext| ==> ext[i] != '.'
    ensures ext == [] ==> forall i :: 0 <= i < |name| ==> name[i] != '.'
    decreases |name|
  {
    if name == [] then []
    else if name[|name| - 1] == '.' then ['.']
    else
      var ext := ExtName(name[..|name| - 1]);
      if ext == [] then [] else ext + [name[|name| - 1]]
  }

  /** Every allowed word has at least three characters. */
  lemma MatchNeedsThree(s: string)
    requires MatchesFileType(s)
    ensures |s| >= 3
  {
    var k :| 0 <= k < |FileTypes| && Contains(s, FileTypes[k]);
    ContainsLength(s, FileTypes[k]);
  }

  /** The `fileFilter`: the lower-cased extension and the MIME type must both
      match. A name without a '.' has the empty extension and is refused. */
  function FileFilter(file: UploadedFile): (ok: bool)
    ensures ok ==> '.' in file.originalName && |ExtName(file.originalName)| >= 3
    ensures ok ==> |file.mimeType| >= 3
  {
    var ext := ExtName(file.originalName);
    var ok := MatchesFileType(Lower(ext)) && MatchesFileType(file.mimeType);
    if ok then
      MatchNeedsThree(Lower(ext));
      MatchNeedsThree(file.mimeType);
      assert file.originalName[|file.originalName| - |ext|] == ext[0];
      ok
    else ok
  }

  /** `Date.now() + path.extname(file.originalname)`: the stored name keeps the
      original extension, and what stands before it reads back as the clock. */
  function StoredName(file: UploadedFile, now: nat): (name: string)
    ensures |ExtName(file.originalName)| < |name|
    ensures ExtName(name) == ExtName(file.originalName)
    ensures var stamp := name[..|name| - |ExtName(file.originalName)|];
            && (forall i :: 0 <= i < |stamp| ==> '0' <= stamp[i] <= '9')
            && (now > 0 ==> stamp[0] != '0')
            && DecimalValue(stamp) == now
  {
    var digits := DecimalString(now);
    var ext := ExtName(file.originalName);
    var name := digits + ext;
    assert name[..|name| - |ext|] == digits;
    DecimalRoundTrip(now);
    StoredExt(digits, file.originalName);
    name
  }

  /** Digits followed by the extension of `original` have that extension. */
  lemma StoredExt(digits: string, original: string)
    requires forall i :: 0 <= i < |digits| ==> '0' <= digits[i] <= '9'
    ensures ExtName(digits + ExtName(original)) == ExtName(original)
  {
    var ext := ExtName(original);
    if ext != [] {
      ExtNameOfSuffix(digits, ext);
    } else {
      assert digits + ext == digits;
    }
  }

  /** The whole request: the filter runs before the file is read, the size limit
      while it is read, and the handler answers 400 when no file came. */
  function HandleUpload(file: Option<UploadedFile>, now: nat): (r: Result<UploadReply, UploadError>)
    ensures r.Ok? <==> file.Some? && FileFilter(file.value) && file.value.size <= MaxFileSize
    ensures r == Err(NoFileUploaded) <==> file.None?
    ensures file.Some? && !FileFilter(file.value) ==> r == Err(UnsupportedType)
    ensures file.Some? && FileFilter(file.value) && file.value.size > MaxFileSize ==> r == Err(FileTooLarge)
    ensures r.Ok? ==> r.value == UploadReply("/uploads/" + StoredName(file.value, now), file.value.originalName, file.value.size)
  {
    match file
    case None => Err(NoFileUploaded)
    case Some(f) =>
      if !FileFilter(f) then Err(UnsupportedType)
      else if f.size > MaxFileSize then Err(FileTooLarge)
      else Ok(UploadReply("/uploads/" + StoredName(f, now), f.originalName, f.size))
  }

  /** The HTTP status. The filter's and the limit's errors go to Express's error
      handler, which answers 500. */
  function Status(r: Result<UploadReply, UploadError>): (code: nat)
    ensures code == 200 <==> r.Ok?
    ensures code == 400 <==> r == Err(NoFileUploaded)
    ensures code == 500 <==> r.Err? && r.error != NoFileUploaded
  {
    match r
    case Ok(_) => 200
    case Err(NoFileUploaded) => 400
    case Err(_) => 500
  }

  /** A file passes the filter exactly when some allowed word occurs inside its
      lower-cased extension and some occurs inside its MIME type. */
  lemma FilterIsUnanchored(file: UploadedFile)
    ensures FileFilter(file) <==>
      (exists k, i :: 0 <= k < |FileTypes| && 0 <= i <= |Lower(ExtName(file.originalName))| - |FileTypes[k]| &&
         FileTypes[k] <= Lower(ExtName(file.originalName))[i..]) &&
      (exists k, i :: 0 <= k < |FileTypes| && 0 <= i <= |file.mimeType| - |FileTypes[k]| &&
         FileTypes[k] <= file.mimeType[i..])
  {
    var ext := Lower(ExtName(file.originalName));
    forall k | 0 <= k < |FileTypes| ensures Contains(ext, FileTypes[k]) <==> exists i :: 0 <= i <= |ext| - |FileTypes[k]| && FileTypes[k] <= ext[i..] {
      ContainsAt(ext, FileTypes[k]);
    }
    forall k | 0 <= k < |FileTypes| ensures Contains(file.mimeType, FileTypes[k]) <==> exists i :: 0 <= i <= |file.mimeType| - |FileTypes[k]| && FileTypes[k] <= file.mimeType[i..] {
      ContainsAt(file.mimeType, FileTypes[k]);
    }
  }

  /** The extension of a name that ends in '.' followed by no other '.'. */
  lemma {:induction false} ExtNameOfSuffix(base: string, ext: string)
    requires ext != [] && ext[0] == '.' && forall i :: 0 < i < |ext| ==> ext[i] != '.'
    ensures ExtName(base + ext) == ext
    decreases |ext|
  {
    var name := base + ext;
    if |ext| > 1 {
      assert name[..|name| - 1] == base + ext[..|ext| - 1];
      ExtNameOfSuffix(base, ext[..|ext| - 1]);
    }
  }

  lemma PdfExtensionMatches()
    ensures MatchesFileType(Lower(ExtName("report.pdf")))
  {
    ExtNameOfSuffix("report", ".pdf");
    assert "report" + ".pdf" == "report.pdf";
    assert Lower(".pdf") == ".pdf";
    assert Contains(".pdf", FileTypes[4]) by {
      assert ".pdf"[1..] == "pdf";
    }
  }

  lemma PdfMimeMatches()
    ensures MatchesFileType("application/pdf")
  {
    var mime := "application/pdf";
    assert "pdf" <= mime[12..];
    ContainsAt(mime, "pdf");
    assert FileTypes[4] == "pdf";
  }

  lemma PdfPassesFilter(size: nat)
    ensures FileFilter(UploadedFile("report.pdf", "application/pdf", size))
  {
    PdfExtensionMatches();
    PdfMimeMatches();
  }

  /** Exactly 5 MiB of PDF is stored; one byte more is refused. */
  lemma SizeLimitIsInclusive(now: nat)
    ensures HandleUpload(Some(UploadedFile("report.pdf", "application/pdf", MaxFileSize)), now).Ok?
    ensures HandleUpload(Some(UploadedFile("report.pdf", "application/pdf", MaxFileSize + 1)), now) == Err(FileTooLarge)
  {
    PdfPassesFilter(MaxFileSize);
    PdfPassesFilter(MaxFileSize + 1);
  }

  lemma ExeExtensionRefused()
    ensures !MatchesFileType(Lower(ExtName("setup.exe")))
  {
    ExtNameOfSuffix("setup", ".exe");
    assert "setup" + ".exe" == "setup.exe";
    assert Lower(".exe") == ".exe";
    forall k | 0 <= k < |FileTypes| ensures !Contains(".exe", FileTypes[k]) {
      if Contains(".exe", FileTypes[k]) {
        ContainsHead(".exe", FileTypes[k]);
      }
    }
  }

  /** An executable is refused whatever MIME type it claims. */
  lemma ExecutableRefused(mimeType: string, size: nat, now: nat)
    ensures HandleUpload(Some(UploadedFile("setup.exe", mimeType, size)), now) == Err(UnsupportedType)
  {
    ExeExtensionRefused();
  }

  lemma PhpngExtensionMatches()
    ensures MatchesFileType(Lower(ExtName("shell.phpng")))
  {
    ExtNameOfSuffix("shell", ".phpng");
    assert "shell" + ".phpng" == "shell.phpng";
    assert Lower(".phpng") == ".phpng";
    assert Contains(".phpng", FileTypes[2]) by {
      assert ".phpng"[1..] == "phpng" && "phpng"[1..] == "hpng" && "hpng"[1..] == "png";
    }
  }

  /** An extension that merely contains an allowed word passes too. */
  lemma UnanchoredExtensionPasses(size: nat)
    ensures FileFilter(UploadedFile("shell.phpng", "image/png", size))
  {
    PhpngExtensionMatches();
    assert Contains("image/png", FileTypes[2]) by {
      ContainsAt("image/png", "png");
      assert "png" <= "image/png"[6..];
    }
  }

  /** Every allowed word starts with a small letter, so a string without one
      matches nothing. */
  lemma NoSmallLetterMatchesNothing(s: string)
    requires forall i :: 0 <= i < |s| ==> !('a' <= s[i] <= 'z')
    ensures !MatchesFileType(s)
  {
    forall k | 0 <= k < |FileTypes| ensures !Contains(s, FileTypes[k]) {
      if Contains(s, FileTypes[k]) {
        ContainsHead(s, FileTypes[k]);
      }
    }
  }

  lemma UpperCaseMimeMatchesNothing()
    ensures !MatchesFileType("APPLICATION/PDF")
  {
    NoSmallLetterMatchesNothing("APPLICATION/PDF");
  }

  /** The MIME type is not lower-cased. */
  lemma UpperCaseMimeRefused(size: nat, now: nat)
    ensures HandleUpload(Some(UploadedFile("report.pdf", "APPLICATION/PDF", size)), now) == Err(UnsupportedType)
  {
    UpperCaseMimeMatchesNothing();
  }
}
