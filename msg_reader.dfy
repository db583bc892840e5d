/**
 * The Outlook message reader of the analysis backend: the e-mail record it keeps, the
 * attachment records it appends, the summary it reports and the sanitisers for the file
 * and directory names derived from a message.
 */
module MsgReader {
  import opened Wrappers
  import opened Seqs
  import opened Text

  /** The characters Windows refuses in file and directory names. */
  const INVALID_CHARS: seq<char> := ['<', '>', ':', '"', '/', '\\', '|', '?', '*']

  /** The characters Python's argument-less `strip()` removes. */
  const PY_WHITESPACE: set<char> := {
    '\t', '\n', '\U{000B}', '\U{000C}', '\r', '\U{001C}', '\U{001D}', '\U{001E}', '\U{001F}', ' ',
    '\U{0085}', '\U{00A0}', '\U{1680}', '\U{2000}', '\U{2001}', '\U{2002}', '\U{2003}', '\U{2004}',
    '\U{2005}', '\U{2006}', '\U{2007}', '\U{2008}', '\U{2009}', '\U{200A}', '\U{2028}', '\U{2029}',
    '\U{202F}', '\U{205F}', '\U{3000}'}

  const DOTS_AND_SPACES: set<char> := {'.', ' '}

  const MAX_NAME_LENGTH := 100

  /** `s.replace(c, sub)` for one character: every `c` becomes `sub`. */
  function ReplaceChar(s: string, c: char, sub: char): (r: string)
    ensures |r| == |s|
    ensures forall i | 0 <= i < |s| :: r[i] == if s[i] == c then sub else s[i]
  {
    if s == [] then [] else [if s[0] == c then sub else s[0]] + ReplaceChar(s[1..], c, sub)
  }

  /** `s` after the loop `for char in cs: s = s.replace(char, '_')`. */
  function Masked(s: string, cs: seq<char>): (r: string)
    ensures |r| == |s|
    ensures forall i | 0 <= i < |s| :: r[i] == if s[i] in cs then '_' else s[i]
    decreases |cs|
  {
    if cs == [] then s
    else
      var prev := Masked(s, cs[..|cs| - 1]);
      assert forall x :: x in cs <==> x in cs[..|cs| - 1] || x == cs[|cs| - 1];
      ReplaceChar(prev, cs[|cs| - 1], '_')
  }

  /** Masking twice with the same characters changes nothing the second time. */
  lemma MaskedTwice(s: string, cs: seq<char>)
    requires '_' !in cs
    ensures Masked(Masked(s, cs), cs) == Masked(s, cs)
  {
  }

  /** Python `s[:n]`. */
  function Truncate(s: string, n: nat): (r: string)
    ensures |r| <= n && |r| <= |s| && r == s[..|r|]
    ensures |s| <= n ==> r == s
  {
    if |s| > n then s[..n] else s
  }

  /** The name `_sanitize_filename` produces from a non-empty name. */
  function SafeFileName(s: string): string {
    Strip(Truncate(Strip(Masked(s, INVALID_CHARS), DOTS_AND_SPACES), MAX_NAME_LENGTH), PY_WHITESPACE)
  }

  /** The name `sanitize_directory_name` produces from a non-empty name. */
  function SafeDirectoryName(s: string): string {
    var r := Truncate(Strip(Masked(s, INVALID_CHARS), DOTS_AND_SPACES), MAX_NAME_LENGTH);
    if r == "" then "unnamed" else r
  }

  /** `for char in invalid_chars: s = s.replace(char, '_')`, one character at a time. */
  method ReplaceInvalid(s: string) returns (r: string)
    ensures r == Masked(s, INVALID_CHARS)
  {
    r := s;
    for k := 0 to |INVALID_CHARS|
      invariant r == Masked(s, INVALID_CHARS[..k])
    {
      assert INVALID_CHARS[..k + 1][..k] == INVALID_CHARS[..k];
      r := ReplaceChar(r, INVALID_CHARS[k], '_');
    }
    assert INVALID_CHARS[..|INVALID_CHARS|] == INVALID_CHARS;
  }

  /**
   * `MSGFileReader._sanitize_filename`: `None` for a missing or empty name; otherwise the
   * name with each invalid character replaced by '_' (twice over, as the source does),
   * stripped of dots and spaces, cut to 100 characters and stripped of whitespace.
   */
  method SanitizeFileName(filename: Option<string>) returns (r: Option<string>)
    ensures r.None? <==> filename.None? || filename.value == ""
    ensures r.Some? ==> r.value == SafeFileName(filename.value)
  {
    if filename.None? || filename.value == "" {
      return None;
    }
    var name := ReplaceInvalid(filename.value);
    name := ReplaceInvalid(name);
    MaskedTwice(filename.value, INVALID_CHARS);
    name := Strip(name, DOTS_AND_SPACES);
    if |name| > MAX_NAME_LENGTH {
      name := name[..MAX_NAME_LENGTH];
    }
    return Some(Strip(name, PY_WHITESPACE));
  }

  /** `sanitize_directory_name`: never empty; "unnamed" stands in for an empty result. */
  method SanitizeDirectoryName(name: Option<string>) returns (r: string)
    ensures name.None? || name.value == "" ==> r == "unnamed"
    ensures name.Some? && name.value != "" ==> r == SafeDirectoryName(name.value)
  {
    if name.None? || name.value == "" {
      return "unnamed";
    }
    var n := ReplaceInvalid(name.value);
    n := Strip(n, DOTS_AND_SPACES);
    if |n| > MAX_NAME_LENGTH {
      n := n[..MAX_NAME_LENGTH];
    }
    if n == "" {
      n := "unnamed";
    }
    return n;
  }

  /** Some contiguous run of `m`, starting at `i`. */
  predicate RunOf(r: string, m: string, i: int) {
    0 <= i && i + |r| <= |m| && forall k | 0 <= k < |r| :: r[k] == m[i + k]
  }

  lemma RunChars(r: string, m: string, i: int)
    requires RunOf(r, m, i)
    ensures forall c | c in r :: c in m
  {
    forall c | c in r ensures c in m {
      var k :| 0 <= k < |r| && r[k] == c;
      assert m[i + k] == c;
    }
  }

  /** No masked character is left in a masked string. */
  lemma MaskedClean(s: string, cs: seq<char>)
    requires '_' !in cs
    ensures forall c | c in Masked(s, cs) :: c !in cs
  {
    var m := Masked(s, cs);
    forall c | c in m ensures c !in cs {
      var k :| 0 <= k < |m| && m[k] == c;
    }
  }

  lemma StripIsRun(s: string, drop: set<char>) returns (i: nat)
    ensures RunOf(Strip(s, drop), s, i)
  {
    var left := StripLeft(s, drop);
    i := |s| - |left|;
    var r := StripRight(left, drop);
    assert r == left[..|r|];
    assert left == s[i..];
  }

  lemma TruncateIsRun(s: string, n: nat)
    ensures RunOf(Truncate(s, n), s, 0)
  {
  }

  lemma RunOfRun(r: string, m: string, i: int, w: string, j: int)
    requires RunOf(r, m, i) && RunOf(w, r, j)
    ensures RunOf(w, m, i + j)
  {
    forall k | 0 <= k < |w| ensures w[k] == m[i + j + k] {
      assert w[k] == r[j + k];
      assert r[j + k] == m[i + j + k];
    }
  }

  /** Stripping a run of `m` leaves a run of `m`. */
  lemma StripRunIsRun(x: string, m: string, a: nat, drop: set<char>) returns (i: nat)
    requires RunOf(x, m, a)
    ensures RunOf(Strip(x, drop), m, i)
  {
    var b := StripIsRun(x, drop);
    RunOfRun(x, m, a, Strip(x, drop), b);
    i := a + b;
  }

  /** Cutting a run of `m` leaves a run of `m`. */
  lemma TruncateRunIsRun(x: string, m: string, a: nat, n: nat)
    requires RunOf(x, m, a)
    ensures RunOf(Truncate(x, n), m, a)
  {
    TruncateIsRun(x, n);
    RunOfRun(x, m, a, Truncate(x, n), 0);
  }

  /** Stripping, cutting and stripping again leaves a contiguous run of the input. */
  lemma CutIsRun(m: string, first: set<char>, n: nat, second: set<char>) returns (i: nat)
    ensures RunOf(Strip(Truncate(Strip(m, first), n), second), m, i)
  {
    assert RunOf(m, m, 0);
    var a := StripRunIsRun(m, m, 0, first);
    TruncateRunIsRun(Strip(m, first), m, a, n);
    i := StripRunIsRun(Truncate(Strip(m, first), n), m, a, second);
  }

  /**
   * The file name is a run of the masked name: replacement is one character for one, and
   * the later steps only cut characters off the ends.
   */
  lemma FileNameIsRunOfMasked(s: string) returns (i: nat)
    ensures RunOf(SafeFileName(s), Masked(s, INVALID_CHARS), i)
  {
    i := CutIsRun(Masked(s, INVALID_CHARS), DOTS_AND_SPACES, MAX_NAME_LENGTH, PY_WHITESPACE);
  }

  /**
   * A sanitised file name has no invalid character, at most 100 characters and no
   * whitespace at either end; every kept character is the original one or the '_' that
   * replaced an invalid one.
   */
  lemma FileNameFacts(s: string)
    ensures var r := SafeFileName(s);
      && |r| <= MAX_NAME_LENGTH
      && (forall c | c in r :: c !in INVALID_CHARS)
      && Trimmed(r, PY_WHITESPACE)
      && (exists i :: RunOf(r, Masked(s, INVALID_CHARS), i))
  {
    var i := FileNameIsRunOfMasked(s);
    RunOfMaskedIsClean(SafeFileName(s), s, i);
    StrippedEnds(Truncate(Strip(Masked(s, INVALID_CHARS), DOTS_AND_SPACES), MAX_NAME_LENGTH), PY_WHITESPACE);
  }

  /** Neither end of `r` is in `drop`. */
  predicate Trimmed(r: string, drop: set<char>) {
    r != "" ==> r[0] !in drop && r[|r| - 1] !in drop
  }

  lemma StrippedEnds(x: string, drop: set<char>)
    ensures Trimmed(Strip(x, drop), drop)
  {
  }

  /** A run of a masked name holds no invalid character. */
  lemma RunOfMaskedIsClean(r: string, s: string, i: int)
    requires RunOf(r, Masked(s, INVALID_CHARS), i)
    ensures forall c | c in r :: c !in INVALID_CHARS
  {
    RunChars(r, Masked(s, INVALID_CHARS), i);
    UnderscoreIsValid();
    MaskedClean(s, INVALID_CHARS);
  }

  /** A name of dots and spaces alone is left alone by the masking and then stripped away. */
  lemma DotsAndSpacesStripAway(s: string)
    requires forall c | c in s :: c in DOTS_AND_SPACES
    ensures Strip(Masked(s, INVALID_CHARS), DOTS_AND_SPACES) == ""
  {
    var m := Masked(s, INVALID_CHARS);
    forall i | 0 <= i < |s| ensures m[i] == s[i] {
      assert s[i] in DOTS_AND_SPACES;
    }
    assert m == s;
  }

  /** A name of dots and spaces alone sanitises to the empty string, not to `None`. */
  lemma DotsAndSpacesFileName(s: string)
    requires s != "" && forall c | c in s :: c in DOTS_AND_SPACES
    ensures SafeFileName(s) == ""
  {
    DotsAndSpacesStripAway(s);
  }

  /** Stripping and cutting keeps only characters of the input. */
  lemma CutChars(m: string, first: set<char>, n: nat)
    ensures forall c | c in Truncate(Strip(m, first), n) :: c in m
  {
    assert RunOf(m, m, 0);
    var a := StripRunIsRun(m, m, 0, first);
    TruncateRunIsRun(Strip(m, first), m, a, n);
    RunChars(Truncate(Strip(m, first), n), m, a);
  }

  lemma UnderscoreIsValid()
    ensures '_' !in INVALID_CHARS
  {
  }

  lemma DirectoryNameClean(s: string)
    ensures forall c | c in SafeDirectoryName(s) :: c !in INVALID_CHARS
  {
    var m := Masked(s, INVALID_CHARS);
    assert RunOf(m, m, 0);
    var a := StripRunIsRun(m, m, 0, DOTS_AND_SPACES);
    TruncateRunIsRun(Strip(m, DOTS_AND_SPACES), m, a, MAX_NAME_LENGTH);
    RunOfMaskedIsClean(Truncate(Strip(m, DOTS_AND_SPACES), MAX_NAME_LENGTH), s, a);
  }

  /**
   * A directory name is never empty, has at most 100 characters and no invalid character;
   * a name of dots and spaces alone becomes "unnamed".
   */
  lemma DirectoryNameFacts(s: string)
    ensures var r := SafeDirectoryName(s);
      && r != "" && |r| <= MAX_NAME_LENGTH
      && (forall c | c in r :: c !in INVALID_CHARS)
      && ((forall c | c in s :: c in DOTS_AND_SPACES) ==> r == "unnamed")
  {
    DirectoryNameClean(s);
    if forall c | c in s :: c in DOTS_AND_SPACES {
      DotsAndSpacesStripAway(s);
    }
  }

  // ---- The e-mail record and its attachments

  /** What the attachment's `data` attribute holds, as far as the reader can use it. */
  datatype RawData =
    | NoData                         // the attribute is missing or None
    | Bytes(bytes: seq<bv8>)         // already bytes
    | Convertible(bytes: seq<bv8>)   // `bytes(...)` of it succeeds, giving these bytes
    | Unconvertible                  // `bytes(...)` raises TypeError or AttributeError

  datatype RawAttachment = RawAttachment(
    data: RawData, longFilename: Option<string>, shortFilename: Option<string>, mimeType: Option<string>)

  /**
   * An attachment record; `data` holds the bytes whose base64 text the reader stores, or
   * `None`.
   */
  datatype Attachment = Attachment(filename: string, size: nat, contentType: string, data: Option<seq<bv8>>)

  /** What the message parser hands over; `None` is an attribute that is None. */
  datatype ParsedMessage = ParsedMessage(
    subject: Option<string>, sender: Option<string>, to: Option<string>, cc: Option<string>,
    bcc: Option<string>, date: Option<string>, body: Option<string>, htmlBody: Option<string>,
    attachments: seq<RawAttachment>)

  datatype EmailData = EmailData(
    filePath: string, subject: string, sender: string, to: string, cc: string, bcc: string,
    date: string, body: string, htmlBody: string, attachments: seq<Attachment>)

  /** Python `a or b` on an optional string: a missing or empty `a` gives `b`. */
  function Or(a: Option<string>, b: string): (r: string)
    ensures a.Some? && a.value != "" ==> r == a.value
    ensures a.None? || a.value == "" ==> r == b
  {
    if a.Some? && a.value != "" then a.value else b
  }

  /** One attachment record, with each field's fallback. */
  function AttachmentRecord(raw: RawAttachment): (a: Attachment)
    ensures a.filename == Or(raw.longFilename, Or(raw.shortFilename, "unknown"))
    ensures a.contentType == Or(raw.mimeType, "application/octet-stream")
    ensures (raw.data.NoData? || raw.data.Unconvertible?) ==> a.size == 0 && a.data.None?
    ensures a.data.Some? ==> a.size == |a.data.value|
  {
    var fileName := Or(raw.longFilename, Or(raw.shortFilename, "unknown"));
    var contentType := Or(raw.mimeType, "application/octet-stream");
    match raw.data
    case NoData => Attachment(fileName, 0, contentType, None)
    case Unconvertible => Attachment(fileName, 0, contentType, None)
    case Bytes(b) => Attachment(fileName, |b|, contentType, Some(b))
    case Convertible(b) => Attachment(fileName, |b|, contentType, Some(b))
  }

  /** The summary `get_email_summary` returns. */
  datatype Summary = Summary(
    subject: string, sender: string, date: string, bodyPreview: string,
    attachmentCount: nat, attachmentNames: seq<string>)

  const PREVIEW_LENGTH := 200

  function AttachmentNames(atts: seq<Attachment>): (r: seq<string>)
    ensures |r| == |atts|
    ensures forall i | 0 <= i < |atts| :: r[i] == atts[i].filename
  {
    if atts == [] then [] else [atts[0].filename] + AttachmentNames(atts[1..])
  }

  /** `body[:200] + '...'` for a body longer than 200 characters, else the body itself. */
  function BodyPreview(body: string): (p: string)
    ensures |body| <= PREVIEW_LENGTH ==> p == body
    ensures |body| > PREVIEW_LENGTH ==> |p| == PREVIEW_LENGTH + 3 && p[..PREVIEW_LENGTH] == body[..PREVIEW_LENGTH] && p[PREVIEW_LENGTH..] == "..."
  {
    if |body| > PREVIEW_LENGTH then body[..PREVIEW_LENGTH] + "..." else body
  }

  /** `get_email_summary`: `None` until a message has been read. */
  function EmailSummary(data: Option<EmailData>): (s: Option<Summary>)
    ensures s.Some? <==> data.Some?
    ensures s.Some? ==> s.value.attachmentCount == |data.value.attachments| == |s.value.attachmentNames|
    ensures s.Some? ==> |s.value.bodyPreview| <= PREVIEW_LENGTH + 3
  {
    if data.None? then None
    else
      var d := data.value;
      Some(Summary(d.subject, d.sender, d.date, BodyPreview(d.body), |d.attachments|, AttachmentNames(d.attachments)))
  }

  /** `if attachment['data']`: the base64 text is truthy exactly when there are bytes. */
  predicate HasData(a: Attachment) {
    a.data.Some? && a.data.value != []
  }

  /**
   * `get_attachments_for_cloudinary`: the read attachments that carry data, in order;
   * nothing before a read.
   */
  function UploadableAttachments(data: Option<EmailData>): (r: seq<Attachment>)
    ensures data.None? ==> r == []
    ensures data.Some? ==> IsSubsequence(r, data.value.attachments)
    ensures forall a | a in r :: HasData(a)
    ensures data.Some? ==> forall a | a in data.value.attachments && HasData(a) :: a in r
  {
    if data.None? then [] else Filter(data.value.attachments, HasData)
  }

  /** `MSGFileReader`: the file path it was made for and the e-mail record it has read. */
  class Reader {
    const filePath: string
    var emailData: Option<EmailData>

    constructor(path: string)
      ensures filePath == path && emailData.None?
    {
      filePath := path;
      emailData := None;
    }

    /**
     * `_extract_attachments`: appends one record per attachment, in order. Before a read
     * there is no record to append to, and nothing changes.
     */
    method ExtractAttachments(raws: seq<RawAttachment>)
      modifies this
      ensures old(emailData).None? ==> emailData == old(emailData)
      ensures old(emailData).Some? ==>
        (emailData.Some? &&
         emailData.value == old(emailData).value.(attachments := old(emailData).value.attachments + Records(raws)))
    {
      if emailData.None? || raws == [] {
        return;
      }
      var before := emailData.value;
      for k := 0 to |raws|
        invariant emailData.Some?
        invariant emailData.value == before.(attachments := before.attachments + Records(raws[..k]))
      {
        var d := emailData.value;
        AppendRecord(d, before, raws[..k], raws[k]);
        assert raws[..k + 1] == raws[..k] + [raws[k]];
        emailData := Some(d.(attachments := d.attachments + [AttachmentRecord(raws[k])]));
      }
      assert raws[..|raws|] == raws;
    }

    /**
     * `read_msg_file`, given what the parser produced: `None` when parsing failed (the
     * record is kept as it was), otherwise the new record with each missing text as "".
     */
    method ReadMsgFile(parsed: Option<ParsedMessage>) returns (r: Option<EmailData>)
      modifies this
      ensures parsed.None? ==> r.None? && emailData == old(emailData)
      ensures parsed.Some? ==> r == emailData && r == Some(Read(filePath, parsed.value))
    {
      if parsed.None? {
        return None;
      }
      var m := parsed.value;
      emailData := Some(EmailData(
        filePath, Or(m.subject, ""), Or(m.sender, ""), Or(m.to, ""), Or(m.cc, ""), Or(m.bcc, ""),
        Or(m.date, ""), Or(m.body, ""), Or(m.htmlBody, ""), []));
      assert [] + Records(m.attachments) == Records(m.attachments);
      ExtractAttachments(m.attachments);
      return emailData;
    }
  }

  function Records(raws: seq<RawAttachment>): (r: seq<Attachment>)
    ensures |r| == |raws|
    ensures forall i | 0 <= i < |raws| :: r[i] == AttachmentRecord(raws[i])
  {
    if raws == [] then [] else [AttachmentRecord(raws[0])] + Records(raws[1..])
  }

  lemma RecordsSnoc(raws: seq<RawAttachment>, x: RawAttachment)
    ensures Records(raws + [x]) == Records(raws) + [AttachmentRecord(x)]
  {
  }

  /** Appending the record of `x` to a record extended by `prefix` extends it by `prefix + [x]`. */
  lemma AppendRecord(d: EmailData, before: EmailData, prefix: seq<RawAttachment>, x: RawAttachment)
    requires d == before.(attachments := before.attachments + Records(prefix))
    ensures d.(attachments := d.attachments + [AttachmentRecord(x)])
      == before.(attachments := before.attachments + Records(prefix + [x]))
  {
    RecordsSnoc(prefix, x);
  }

  /** The record a successful read produces. */
  function Read(path: string, m: ParsedMessage): (d: EmailData)
    ensures d.filePath == path && |d.attachments| == |m.attachments|
    ensures d.body == Or(m.body, "") && d.subject == Or(m.subject, "")
  {
    EmailData(
      path, Or(m.subject, ""), Or(m.sender, ""), Or(m.to, ""), Or(m.cc, ""), Or(m.bcc, ""),
      Or(m.date, ""), Or(m.body, ""), Or(m.htmlBody, ""), Records(m.attachments))
  }

  /** After a read, the summary lists the attachment names in the message's order. */
  lemma SummaryAfterRead(path: string, m: ParsedMessage)
    ensures var s := EmailSummary(Some(Read(path, m)));
      && s.Some? && s.value.attachmentCount == |m.attachments|
      && forall i | 0 <= i < |m.attachments| ::
           s.value.attachmentNames[i] == Or(m.attachments[i].longFilename, Or(m.attachments[i].shortFilename, "unknown"))
  {
  }
}
