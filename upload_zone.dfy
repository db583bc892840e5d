/**
 * The file drop zone of the new-submission form: which dropped files are kept and which
 * error each rejected one produces, the type label of a file and the unit its size is
 * shown in.
 */
module UploadZone {
  import opened Wrappers
  import opened Seqs
  import opened Text

  datatype FileInfo = FileInfo(name: string, mimeType: string, size: nat)

  /** The zone's settings; the defaults are `DEFAULT_CONFIG`. `maxFileSize` is in MB. */
  datatype Config = Config(maxFiles: int, maxFileSize: int, acceptedTypes: seq<string>)

  const ACCEPTED_TYPES: seq<string> := [
    "application/pdf",
    "application/msword",
    "application/vnd.openxmlformats-officedocument.wordprocessingml.document",
    "application/vnd.ms-excel",
    "application/vnd.openxmlformats-officedocument.spreadsheetml.sheet",
    "image/jpeg",
    "image/png",
    "image/gif",
    "text/plain",
    "application/vnd.ms-outlook",
    "application/octet-stream"
  ]

  const DEFAULT_CONFIG: Config := Config(10, 50, ACCEPTED_TYPES)

  /** The name ends in ".msg", ignoring case. */
  predicate IsMsgFile(f: FileInfo) {
    EndsWith(ToLower(f.name), ".msg")
  }

  predicate IsAcceptedType(f: FileInfo, cfg: Config) {
    f.mimeType in cfg.acceptedTypes || IsMsgFile(f)
  }

  predicate WithinSize(f: FileInfo, cfg: Config) {
    f.size <= cfg.maxFileSize * 1024 * 1024
  }

  /** A file that passes the type and size checks; only the count can still reject it. */
  predicate Acceptable(f: FileInfo, cfg: Config) {
    IsAcceptedType(f, cfg) && WithinSize(f, cfg)
  }

  function TypeError(f: FileInfo): string {
    f.name + ": File type not supported"
  }

  function SizeError(f: FileInfo, cfg: Config): string {
    f.name + ": File size exceeds " + IntToString(cfg.maxFileSize) + "MB limit"
  }

  function CountError(cfg: Config): string {
    "Maximum " + IntToString(cfg.maxFiles) + " files allowed"
  }

  datatype Validation = Validation(validFiles: seq<FileInfo>, errors: seq<string>)

  /** One iteration of the loop: the type check, then the size check, then the count check. */
  function Step(v: Validation, f: FileInfo, cfg: Config): Validation {
    if !IsAcceptedType(f, cfg) then v.(errors := v.errors + [TypeError(f)])
    else if !WithinSize(f, cfg) then v.(errors := v.errors + [SizeError(f, cfg)])
    else if |v.validFiles| >= cfg.maxFiles then v.(errors := v.errors + [CountError(cfg)])
    else v.(validFiles := v.validFiles + [f])
  }

  /** What the loop has produced after the given files. */
  function Validated(files: seq<FileInfo>, cfg: Config): Validation
    decreases |files|
  {
    if files == [] then Validation([], [])
    else Step(Validated(files[..|files| - 1], cfg), files[|files| - 1], cfg)
  }

  /** `validateFiles`. */
  method ValidateFiles(files: seq<FileInfo>, cfg: Config) returns (validFiles: seq<FileInfo>, errors: seq<string>)
    ensures Validation(validFiles, errors) == Validated(files, cfg)
  {
    validFiles := [];
    errors := [];
    for i := 0 to |files|
      invariant Validation(validFiles, errors) == Validated(files[..i], cfg)
    {
      var file := files[i];
      assert files[..i + 1][..i] == files[..i];
      if !(file.mimeType in cfg.acceptedTypes || IsMsgFile(file)) {
        errors := errors + [file.name + ": File type not supported"];
        continue;
      }
      if file.size > cfg.maxFileSize * 1024 * 1024 {
        errors := errors + [file.name + ": File size exceeds " + IntToString(cfg.maxFileSize) + "MB limit"];
        continue;
      }
      if |validFiles| >= cfg.maxFiles {
        errors := errors + ["Maximum " + IntToString(cfg.maxFiles) + " files allowed"];
        continue;
      }
      validFiles := validFiles + [file];
    }
    assert files[..|files|] == files;
  }

  function Cap(n: int): nat {
    if n < 0 then 0 else n
  }

  function AcceptableIn(cfg: Config): FileInfo -> bool {
    (f: FileInfo) => Acceptable(f, cfg)
  }

  lemma TakeAppend(a: seq<FileInfo>, x: FileInfo, m: nat)
    ensures SliceTo(a + [x], m) == if |a| < m then SliceTo(a, m) + [x] else SliceTo(a, m)
  {
    if |a| >= m {
      assert (a + [x])[..m] == a[..m];
    }
  }

  lemma ValidatedSnoc(files: seq<FileInfo>, f: FileInfo, cfg: Config)
    ensures Validated(files + [f], cfg) == Step(Validated(files, cfg), f, cfg)
  {
    assert (files + [f])[..|files + [f]| - 1] == files;
  }

  lemma FilterSnoc(s: seq<FileInfo>, f: FileInfo, cfg: Config)
    ensures Filter(s + [f], AcceptableIn(cfg)) == Filter(s, AcceptableIn(cfg)) + (if Acceptable(f, cfg) then [f] else [])
  {
    FilterAppend(s, [f], AcceptableIn(cfg));
    if Acceptable(f, cfg) {
      assert Filter([f], AcceptableIn(cfg)) == [f];
    } else {
      assert Filter([f], AcceptableIn(cfg)) == [];
      assert Filter(s, AcceptableIn(cfg)) + [] == Filter(s, AcceptableIn(cfg));
    }
  }

  /** Every dropped file is either kept or produces exactly one error. */
  lemma {:induction false} ValidatedCount(files: seq<FileInfo>, cfg: Config)
    ensures |Validated(files, cfg).validFiles| + |Validated(files, cfg).errors| == |files|
    decreases |files|
  {
    if files != [] {
      ValidatedCount(files[..|files| - 1], cfg);
    }
  }

  /**
   * The kept files are the first `maxFiles` of the files passing the type and size
   * checks, in their original order.
   */
  lemma {:induction false} ValidatedIsCappedFilter(files: seq<FileInfo>, cfg: Config)
    ensures Validated(files, cfg).validFiles == SliceTo(Filter(files, AcceptableIn(cfg)), Cap(cfg.maxFiles))
    decreases |files|
  {
    if files != [] {
      var init := files[..|files| - 1];
      assert files == init + [files[|files| - 1]];
      ValidatedIsCappedFilter(init, cfg);
      CappedStep(init, files[|files| - 1], cfg);
    }
  }

  /** The kept files after one more file: it is appended when it passes every check. */
  lemma StepKeeps(v: Validation, f: FileInfo, cfg: Config)
    ensures Step(v, f, cfg).validFiles ==
      if Acceptable(f, cfg) && |v.validFiles| < cfg.maxFiles then v.validFiles + [f] else v.validFiles
  {
  }

  lemma CappedStep(init: seq<FileInfo>, last: FileInfo, cfg: Config)
    requires Validated(init, cfg).validFiles == SliceTo(Filter(init, AcceptableIn(cfg)), Cap(cfg.maxFiles))
    ensures Validated(init + [last], cfg).validFiles == SliceTo(Filter(init + [last], AcceptableIn(cfg)), Cap(cfg.maxFiles))
  {
    var v := Validated(init, cfg);
    var passing := Filter(init, AcceptableIn(cfg));
    var m := Cap(cfg.maxFiles);
    ValidatedSnoc(init, last, cfg);
    StepKeeps(v, last, cfg);
    FilterSnoc(init, last, cfg);
    if !Acceptable(last, cfg) {
      assert Filter(init + [last], AcceptableIn(cfg)) == passing;
    } else if |v.validFiles| < cfg.maxFiles {
      assert |passing| < m;
      TakeAppend(passing, last, m);
      assert SliceTo(passing + [last], m) == v.validFiles + [last];
    } else {
      assert |passing| >= m;
      TakeAppend(passing, last, m);
      assert SliceTo(passing + [last], m) == v.validFiles;
    }
  }

  lemma {:induction false} PrefixIsSubsequence<T>(s: seq<T>, k: nat)
    requires k <= |s|
    ensures IsSubsequence(s[..k], s)
  {
    if k == 0 {
    } else {
      PrefixIsSubsequence(s[1..], k - 1);
      assert s[..k][1..] == s[1..][..k - 1];
    }
  }

  /**
   * The kept files are a subsequence of the dropped ones, at most `maxFiles` of them, each
   * of an accepted type (or named *.msg in any case) and within the size limit.
   */
  lemma ValidatedFacts(files: seq<FileInfo>, cfg: Config)
    ensures var v := Validated(files, cfg).validFiles;
      && IsSubsequence(v, files)
      && |v| <= Cap(cfg.maxFiles)
      && (forall f | f in v :: IsAcceptedType(f, cfg) && f.size <= cfg.maxFileSize * 1024 * 1024)
  {
    ValidatedIsCappedFilter(files, cfg);
    var passing := Filter(files, AcceptableIn(cfg));
    var v := SliceTo(passing, Cap(cfg.maxFiles));
    PrefixIsSubsequence(passing, |v|);
    SubsequenceTransitive(v, passing, files);
    forall f | f in v ensures Acceptable(f, cfg) {
      assert f in passing;
    }
  }

  /** Once `maxFiles` files are kept, each further acceptable file adds the same count error. */
  lemma FullZoneRejects(files: seq<FileInfo>, f: FileInfo, cfg: Config)
    requires |Validated(files, cfg).validFiles| >= cfg.maxFiles && Acceptable(f, cfg)
    ensures Validated(files + [f], cfg).validFiles == Validated(files, cfg).validFiles
    ensures Validated(files + [f], cfg).errors == Validated(files, cfg).errors + ["Maximum " + IntToString(cfg.maxFiles) + " files allowed"]
  {
    assert (files + [f])[..|files + [f]| - 1] == files;
  }

  /** `getFileTypeLabel`: the first matching test decides; the ".msg" test here is case-sensitive. */
  function FileTypeLabel(mimeType: string, fileName: Option<string>): (r: string)
    ensures r == "PDF" <==> Contains(mimeType, "pdf")
    ensures r == "MSG" ==> Contains(mimeType, "outlook") || (fileName.Some? && EndsWith(fileName.value, ".msg"))
  {
    if Contains(mimeType, "pdf") then "PDF"
    else if Contains(mimeType, "image") then "Image"
    else if Contains(mimeType, "spreadsheet") || Contains(mimeType, "excel") then "Excel"
    else if Contains(mimeType, "document") || Contains(mimeType, "word") then "Word"
    else if Contains(mimeType, "text") then "Text"
    else if Contains(mimeType, "outlook") || (fileName.Some? && EndsWith(fileName.value, ".msg")) then "MSG"
    else "Document"
  }

  lemma MissingChar(s: string, sub: string, c: char)
    requires c in sub && c !in s
    ensures !Contains(s, sub)
  {
    if Contains(s, sub) {
      ContainsChars(s, sub);
    }
  }

  /** A MIME type lacking these letters matches none of the label tests but the file-name one. */
  lemma NoLabelMatch(t: string, name: string)
    requires 'f' !in t && 'g' !in t && 'h' !in t && 'x' !in t && 'd' !in t && 'w' !in t && 'k' !in t
    requires !EndsWith(name, ".msg")
    ensures FileTypeLabel(t, Some(name)) == "Document"
  {
    MissingChar(t, "pdf", 'f');
    MissingChar(t, "image", 'g');
    MissingChar(t, "spreadsheet", 'h');
    MissingChar(t, "excel", 'x');
    MissingChar(t, "document", 'd');
    MissingChar(t, "word", 'w');
    MissingChar(t, "text", 'x');
    MissingChar(t, "outlook", 'k');
  }

  /**
   * An Outlook message named in upper case with the generic MIME type is kept by the
   * validation, which ignores case, but labelled "Document", since the label test does not.
   */
  lemma UpperCaseMsgLabelledDocument(f: FileInfo)
    requires f == FileInfo("MAIL.MSG", "application/octet-stream", 1)
    ensures Acceptable(f, DEFAULT_CONFIG) && FileTypeLabel(f.mimeType, Some(f.name)) == "Document"
  {
    UpperCaseMsgAccepted(f);
    UpperCaseNameLacksSuffix(f.name);
    OctetStreamLacksLetters(f.mimeType);
    NoLabelMatch(f.mimeType, f.name);
  }

  lemma UpperCaseNameLacksSuffix(name: string)
    requires name == "MAIL.MSG"
    ensures !EndsWith(name, ".msg")
  {
    assert name[5] == 'M';
  }

  lemma OctetStreamLacksLetters(t: string)
    requires t == "application/octet-stream"
    ensures 'f' !in t && 'g' !in t && 'h' !in t && 'x' !in t && 'd' !in t && 'w' !in t && 'k' !in t
  {
    assert t == "appli" + "catio" + "n/oct" + "et-st" + "ream";
    LacksLabelLetters("appli");
    LacksLabelLetters("catio");
    LacksLabelLetters("n/oct");
    LacksLabelLetters("et-st");
    LacksLabelLetters("ream");
  }

  /** None of the letters that tell the label keywords apart occurs in `t`. */
  predicate NoLabelLetter(t: string) {
    'f' !in t && 'g' !in t && 'h' !in t && 'x' !in t && 'd' !in t && 'w' !in t && 'k' !in t
  }

  lemma LacksLabelLetters(t: string)
    requires forall i | 0 <= i < |t| :: t[i] in "abceilmnoprst/-"
    ensures NoLabelLetter(t)
  {
  }

  lemma UpperCaseMsgAccepted(f: FileInfo)
    requires f == FileInfo("MAIL.MSG", "application/octet-stream", 1)
    ensures IsMsgFile(f) && Acceptable(f, DEFAULT_CONFIG)
  {
    UpperSuffixIsMsg(f.name);
  }

  /** A name ending in ".MSG" ends in ".msg" once lower-cased. */
  lemma UpperSuffixIsMsg(name: string)
    requires var n := |name|;
      n >= 4 && name[n - 4] == '.' && name[n - 3] == 'M' && name[n - 2] == 'S' && name[n - 1] == 'G'
    ensures EndsWith(ToLower(name), ".msg")
  {
    LoweredSuffix(ToLower(name), name);
  }

  /** Any pointwise lower-casing of a name ending in ".MSG" ends in ".msg". */
  lemma LoweredSuffix(low: string, name: string)
    requires var n := |name|;
      n >= 4 && name[n - 4] == '.' && name[n - 3] == 'M' && name[n - 2] == 'S' && name[n - 1] == 'G'
    requires |low| == |name| && forall i | 0 <= i < |name| :: low[i] == Lower(name[i])
    ensures EndsWith(low, ".msg")
  {
    var n := |name|;
    assert low[n - 4] == Lower('.') == '.';
    assert low[n - 3] == Lower('M') == 'm';
    assert low[n - 2] == Lower('S') == 's';
    assert low[n - 1] == Lower('G') == 'g';
    assert low[n - 4..] == ".msg";
  }

  function Pow1024(k: nat): nat {
    if k == 0 then 1 else 1024 * Pow1024(k - 1)
  }

  /** `Math.floor(Math.log(bytes) / Math.log(1024))` for a positive whole number of bytes. */
  function UnitIndex(bytes: nat): (i: nat)
    requires bytes > 0
    ensures Pow1024(i) <= bytes < Pow1024(i + 1)
  {
    if bytes < 1024 then 0 else 1 + UnitIndex(bytes / 1024)
  }

  const SIZE_UNITS: seq<string> := ["Bytes", "KB", "MB", "GB"]

  /**
   * The unit `formatFileSize` prints: "Bytes" for 0, otherwise the unit table entry at the
   * unit index, which is missing, and so printed as "undefined", from 1024^4 bytes on.
   */
  function SizeUnit(bytes: nat): (unit: string)
    ensures bytes < 1024 ==> unit == "Bytes"
    ensures unit == "undefined" <==> bytes >= Pow1024(4)
  {
    if bytes == 0 then "Bytes"
    else
      var i := UnitIndex(bytes);
      if i < |SIZE_UNITS| then
        assert i <= 3;
        assert Pow1024(i) <= Pow1024(3) < Pow1024(4) by { PowMonotone(i, 3); }
        SIZE_UNITS[i]
      else
        PowMonotone(4, i);
        "undefined"
  }

  lemma {:induction false} PowMonotone(a: nat, b: nat)
    requires a <= b
    ensures Pow1024(a) <= Pow1024(b)
    decreases b
  {
    if a < b {
      PowMonotone(a, b - 1);
    }
  }

  lemma UnitIndexUnique(bytes: nat, a: nat)
    requires Pow1024(a) <= bytes < Pow1024(a + 1)
    ensures UnitIndex(bytes) == a
  {
    var i := UnitIndex(bytes);
    if i < a {
      PowMonotone(i + 1, a);
    } else if i > a {
      PowMonotone(a + 1, i);
    }
  }

  /** Each unit covers the sizes from its power of 1024 up to the next. */
  lemma SizeUnitBands(bytes: nat)
    ensures 1024 <= bytes < 1024 * 1024 ==> SizeUnit(bytes) == "KB"
    ensures 1024 * 1024 <= bytes < 1024 * 1024 * 1024 ==> SizeUnit(bytes) == "MB"
    ensures 1024 * 1024 * 1024 <= bytes < 1024 * 1024 * 1024 * 1024 ==> SizeUnit(bytes) == "GB"
  {
    assert Pow1024(1) == 1024 && Pow1024(2) == 1024 * 1024 && Pow1024(3) == 1024 * 1024 * 1024;
    assert Pow1024(4) == 1024 * 1024 * 1024 * 1024;
    if 1024 <= bytes < 1024 * 1024 {
      UnitIndexUnique(bytes, 1);
    } else if 1024 * 1024 <= bytes < 1024 * 1024 * 1024 {
      UnitIndexUnique(bytes, 2);
    } else if 1024 * 1024 * 1024 <= bytes < 1024 * 1024 * 1024 * 1024 {
      UnitIndexUnique(bytes, 3);
    }
  }
}
