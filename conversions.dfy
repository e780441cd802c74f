/** The pure parts of the conversion helpers: choosing a download's file
    extension, telling a direct file link from a web page, normalising
    scraped text, assembling spreadsheet and slide text, and choosing how a
    thumbnail is made. Library and network results are parameters. */
module Conversions {
  import opened Wrappers
  import opened Text
  import Urls

  // ---------------------------------------------------------------------
  // Download extension

  /** The extensions accepted from a link's last path segment. */
  const DOWNLOAD_EXTENSIONS: set<string> := {
    ".pdf", ".png", ".jpg", ".jpeg", ".gif", ".webp", ".mp4", ".mov",
    ".avi", ".mp3", ".wav", ".doc", ".docx", ".xlsx", ".pptx", ".csv", ".txt", ".zip"
  }

  /** The extension read from a file name: from its last '.', lower-cased,
      and only when it is one of the accepted ones; otherwise empty. */
  function UrlExtension(filename: string): (ext: string)
    ensures ext != [] ==> ext in DOWNLOAD_EXTENSIONS && ext[0] == '.' && '.' !in ext[1..]
    ensures ext != [] ==> EndsWith(Lower(filename), ext)
    ensures ext == [] ==> forall k :: 0 <= k < |filename| && filename[k] == '.' && '.' !in filename[k + 1..] ==>
                            Lower(filename[k..]) !in DOWNLOAD_EXTENSIONS
  {
    if '.' in filename then
      var d := RFind(filename, '.');
      var p := Lower(filename[d..]);
      LowerSlice(filename, d, |filename|);
      assert filename[d..|filename|] == filename[d..];
      assert Lower(filename)[d..|filename|] == Lower(filename)[d..];
      assert p[1..] == Lower(filename[d + 1..]);
      if p in DOWNLOAD_EXTENSIONS then p else ""
    else ""
  }

  /** The media type of a `Content-Type` header: the part before the
      first ';', stripped. */
  function MediaType(header: string): (r: string)
    ensures ';' !in r
    ensures r == [] || (!IsSpace(r[0]) && !IsSpace(r[|r| - 1]))
  {
    var i := Find(header, ';');
    var head := if i < 0 then header else header[..i];
    StripSubset(head);
    Strip(head)
  }

  /** `guess or default` for an optional guessed extension. */
  function OrDefault(guessed: Option<string>, default: string): (r: string)
    ensures guessed.Some? && guessed.value != [] ==> r == guessed.value
    ensures guessed.None? || guessed.value == [] ==> r == default
  {
    if guessed.Some? && guessed.value != [] then guessed.value else default
  }

  /** The extension chosen from the media type when the link gave none;
      `guessed` is the platform's guess for the media type. */
  function FallbackExtension(media: string, guessed: Option<string>): (ext: string)
    ensures ext != []
    ensures media == "application/pdf" ==> ext == ".pdf"
    ensures media != "application/pdf" && StartsWith(media, "image/") ==> ext == OrDefault(guessed, ".jpg")
    ensures media != "application/pdf" && !StartsWith(media, "image/") && StartsWith(media, "video/") ==> ext == OrDefault(guessed, ".mp4")
    ensures media != "application/pdf" && !StartsWith(media, "image/") && !StartsWith(media, "video/") ==> ext == OrDefault(guessed, ".bin")
  {
    if media == "application/pdf" then ".pdf"
    else if StartsWith(media, "image/") then OrDefault(guessed, ".jpg")
    else if StartsWith(media, "video/") then OrDefault(guessed, ".mp4")
    else OrDefault(guessed, ".bin")
  }

  /** The suffix of the temporary file a download is saved to. It fails
      only where parsing the link fails; the extension is never empty. */
  function DownloadExtension(url: string, contentType: string, guessed: Option<string>): (r: Result<string, string>)
    ensures r.Ok? <==> Urls.UrlParsePath(url).Ok?
    ensures r.Ok? ==> r.value != []
    ensures r.Ok? && UrlExtension(Urls.LastSegment(Urls.UrlParsePath(url).value)) != [] ==>
              r.value == UrlExtension(Urls.LastSegment(Urls.UrlParsePath(url).value))
    ensures r.Ok? && UrlExtension(Urls.LastSegment(Urls.UrlParsePath(url).value)) == [] ==>
              r.value == FallbackExtension(MediaType(contentType), guessed)
  {
    match Urls.UrlParsePath(url)
    case Err(e) => Err(e)
    case Ok(path) =>
      var ext := UrlExtension(Urls.LastSegment(path));
      if ext != [] then Ok(ext) else Ok(FallbackExtension(MediaType(contentType), guessed))
  }

  /** Once the link names an accepted extension, the server's headers and
      the platform's guesses play no part. */
  lemma LinkExtensionWins(url: string, ct1: string, g1: Option<string>, ct2: string, g2: Option<string>)
    requires Urls.UrlParsePath(url).Ok?
    requires UrlExtension(Urls.LastSegment(Urls.UrlParsePath(url).value)) != []
    ensures DownloadExtension(url, ct1, g1) == DownloadExtension(url, ct2, g2)
  {
  }

  /** Media-type parameters after the first ';' are ignored. */
  lemma MediaTypeIgnoresParameters(media: string, params: string)
    requires ';' !in media
    ensures MediaType(media + ";" + params) == Strip(media)
  {
    var h := media + ";" + params;
    assert h[|media|] == ';';
    assert forall k :: 0 <= k < |media| ==> h[k] == media[k];
    assert Find(h, ';') == |media|;
    assert h[..|media|] == media;
  }

  // ---------------------------------------------------------------------
  // Direct file links

  /** Media-type substrings that mark a file rather than a page. */
  const FILE_TYPES: seq<string> := [
    "application/pdf", "image/", "video/", "audio/", "application/vnd.ms-excel",
    "application/vnd.openxmlformats", "application/vnd.oasis.opendocument",
    "application/msword", "text/plain", "text/csv"
  ]

  /** Link suffixes that mark a file. */
  const DIRECT_EXTENSIONS: seq<string> := [
    ".pdf", ".jpg", ".jpeg", ".png", ".gif", ".webp", ".mp4", ".mov",
    ".avi", ".mp3", ".wav", ".xlsx", ".docx", ".pptx", ".csv", ".txt"
  ]

  /** A link is a direct file when its lower-cased media type contains one
      of the file types, or else its lower-cased text ends in a file suffix. */
  predicate DirectFile(url: string, contentType: string) {
    (exists k :: 0 <= k < |FILE_TYPES| && Contains(Lower(contentType), FILE_TYPES[k]))
    || (exists k :: 0 <= k < |DIRECT_EXTENSIONS| && EndsWith(Lower(url), DIRECT_EXTENSIONS[k]))
  }

  /** `is_direct_file_url`: `head` is the `Content-Type` of the HEAD reply
      ("" when absent), None when the request raised. */
  method IsDirectFileUrl(url: string, head: Option<string>) returns (direct: bool)
    ensures direct <==> head.Some? && DirectFile(url, head.value)
  {
    if head.None? {
      return false;
    }
    var contentType := Lower(head.value);
    var i := 0;
    while i < |FILE_TYPES|
      invariant 0 <= i <= |FILE_TYPES|
      invariant forall k :: 0 <= k < i ==> !Contains(contentType, FILE_TYPES[k])
    {
      if Contains(contentType, FILE_TYPES[i]) {
        return true;
      }
      i := i + 1;
    }
    var urlLower := Lower(url);
    direct := exists k :: 0 <= k < |DIRECT_EXTENSIONS| && EndsWith(urlLower, DIRECT_EXTENSIONS[k]);
  }

  /** The classification ignores letter case in both the link and the
      header. */
  lemma DirectFileIgnoresCase(url: string, contentType: string)
    ensures DirectFile(Lower(url), Lower(contentType)) == DirectFile(url, contentType)
  {
    LowerIdempotent(url);
    LowerIdempotent(contentType);
  }

  // ---------------------------------------------------------------------
  // Scraped text

  /** Python's line boundaries for `str.splitlines`. */
  predicate IsLineBreak(c: char) {
    || c == '\n' || c == '\r' || c == '\U{B}' || c == '\U{C}'
    || ('\U{1C}' <= c <= '\U{1E}')
    || c == '\U{85}' || c == '\U{2028}' || c == '\U{2029}'
  }

  /** No line boundary anywhere in `s`. */
  predicate BreakFree(s: string) {
    forall k :: 0 <= k < |s| ==> !IsLineBreak(s[k])
  }

  /** Position of the first line boundary, or `|s|`. */
  function FirstBreak(s: string): (i: nat)
    ensures i <= |s|
    ensures i < |s| ==> IsLineBreak(s[i])
    ensures BreakFree(s[..i])
  {
    if s == [] || IsLineBreak(s[0]) then 0
    else
      var j := FirstBreak(s[1..]);
      assert s[..1 + j] == [s[0]] + s[1..][..j];
      1 + j
  }

  /** The length of the boundary at `i`: two for "\r\n", else one. */
  function BoundaryLength(s: string, i: nat): (n: nat)
    requires i < |s|
    ensures 1 <= n <= 2 && i + n <= |s|
    ensures n == 2 <==> s[i] == '\r' && i + 1 < |s| && s[i + 1] == '\n'
  {
    if s[i] == '\r' && i + 1 < |s| && s[i + 1] == '\n' then 2 else 1
  }

  /** `str.splitlines()`: "\r\n" is one boundary and a final boundary does
      not start an empty line. */
  function SplitLines(s: string): (lines: seq<string>)
    ensures forall k :: 0 <= k < |lines| ==> BreakFree(lines[k])
    decreases |s|
  {
    var i := FirstBreak(s);
    if i == |s| then
      assert s[..i] == s;
      if s == [] then [] else [s]
    else
      [s[..i]] + SplitLines(s[i + BoundaryLength(s, i)..])
  }

  /** The lines laid end to end. */
  function Concat(lines: seq<string>): string {
    if lines == [] then [] else lines[0] + Concat(lines[1..])
  }

  /** The string without its line-boundary characters. */
  function NoBreaks(s: string): string {
    if s == [] then []
    else (if IsLineBreak(s[0]) then [] else [s[0]]) + NoBreaks(s[1..])
  }

  lemma {:induction false} NoBreaksAppend(a: string, b: string)
    ensures NoBreaks(a + b) == NoBreaks(a) + NoBreaks(b)
    decreases |a|
  {
    if a == [] {
      assert a + b == b;
    } else {
      assert (a + b)[0] == a[0] && (a + b)[1..] == a[1..] + b;
      NoBreaksAppend(a[1..], b);
    }
  }

  lemma {:induction false} NoBreaksFree(s: string)
    requires BreakFree(s)
    ensures NoBreaks(s) == s
    decreases |s|
  {
    if s != [] {
      NoBreaksFree(s[1..]);
      assert s == [s[0]] + s[1..];
    }
  }

  /** `splitlines()` keeps every character that is not a line boundary,
      in order: the lines laid end to end are the text without its
      boundaries. */
  lemma {:induction false} SplitLinesKeepsText(s: string)
    ensures Concat(SplitLines(s)) == NoBreaks(s)
    decreases |s|
  {
    var i := FirstBreak(s);
    if i == |s| {
      NoBreaksFree(s);
      if s != [] {
        assert SplitLines(s) == [s];
        assert Concat([s]) == s + Concat([]);
      }
    } else {
      var skip := BoundaryLength(s, i);
      var line, boundary, rest := s[..i], s[i..i + skip], s[i + skip..];
      SplitLinesKeepsText(rest);
      SplitLinesUnfold(s, i, skip);
      ConcatCons(line, SplitLines(rest));
      NoBreaksFree(line);
      BreaksOnly(boundary);
      ThreeParts(s, i, i + skip);
      NoBreaksAround(line, boundary, rest);
    }
  }

  /** One boundary of `splitlines()`: the line before it and the rest. */
  lemma SplitLinesUnfold(s: string, i: nat, skip: nat)
    requires i == FirstBreak(s) && i < |s|
    requires skip == BoundaryLength(s, i)
    ensures SplitLines(s) == [s[..i]] + SplitLines(s[i + skip..])
  {
  }

  lemma ConcatCons(line: string, lines: seq<string>)
    ensures Concat([line] + lines) == line + Concat(lines)
  {
    assert ([line] + lines)[1..] == lines;
  }

  lemma ThreeParts(s: string, i: nat, j: nat)
    requires i <= j <= |s|
    ensures s == s[..i] + s[i..j] + s[j..]
  {
  }

  /** A break-free line, then boundaries only, then the rest. */
  lemma NoBreaksAround(line: string, boundary: string, rest: string)
    requires NoBreaks(line) == line && NoBreaks(boundary) == []
    ensures NoBreaks(line + boundary + rest) == line + NoBreaks(rest)
  {
    NoBreaksAppend(line + boundary, rest);
    NoBreaksAppend(line, boundary);
  }

  /** A boundary, or "\r\n", leaves nothing behind. */
  lemma BreaksOnly(b: string)
    requires 1 <= |b| <= 2 && forall j :: 0 <= j < |b| ==> IsLineBreak(b[j])
    ensures NoBreaks(b) == []
  {
    if |b| == 2 {
      assert b[1..][1..] == [];
    }
  }

  /** No two blanks in a row. */
  predicate NoDoubleSpace(s: string) {
    forall j :: 0 <= j < |s| - 1 ==> !(s[j] == ' ' && s[j + 1] == ' ')
  }

  /** Position of the first "  ", or `|s|`. */
  function FirstDoubleSpace(s: string): (i: nat)
    ensures i <= |s|
    ensures i < |s| ==> i + 1 < |s| && s[i] == ' ' && s[i + 1] == ' '
    ensures NoDoubleSpace(s[..if i < |s| then i + 1 else i])
  {
    if |s| < 2 then |s|
    else if s[0] == ' ' && s[1] == ' ' then 0
    else
      var j := FirstDoubleSpace(s[1..]);
      assert s[..if j + 1 < |s| then j + 2 else j + 1] == s[..1] + s[1..][..if j < |s| - 1 then j + 1 else j];
      j + 1
  }

  /** `s.split("  ")`: the pieces between non-overlapping double blanks,
      left to right. */
  function SplitDoubleSpace(s: string): (parts: seq<string>)
    ensures |parts| >= 1
    ensures forall k :: 0 <= k < |parts| ==> NoDoubleSpace(parts[k]) && forall x :: x in parts[k] ==> x in s
    decreases |s|
  {
    var i := FirstDoubleSpace(s);
    if i == |s| then
      assert s[..|s|] == s;
      [s]
    else
      assert s[..i] == s[..i + 1][..i];
      var rest := SplitDoubleSpace(s[i + 2..]);
      [s[..i]] + rest
  }

  /** Joining the pieces of `split("  ")` with "  " gives the string
      back, so the split keeps all of the text, in order. */
  lemma {:induction false} SplitDoubleSpaceJoin(s: string)
    ensures Join(SplitDoubleSpace(s), "  ") == s
    decreases |s|
  {
    var i := FirstDoubleSpace(s);
    if i == |s| {
      assert SplitDoubleSpace(s) == [s];
    } else {
      var rest := SplitDoubleSpace(s[i + 2..]);
      SplitDoubleSpaceJoin(s[i + 2..]);
      SplitDoubleSpaceUnfold(s, i);
      JoinCons(s[..i], rest, "  ");
      PairAt(s, i, "  ");
    }
  }

  /** One double blank of the split: the piece before it and the rest. */
  lemma SplitDoubleSpaceUnfold(s: string, i: nat)
    requires i == FirstDoubleSpace(s) && i < |s|
    ensures SplitDoubleSpace(s) == [s[..i]] + SplitDoubleSpace(s[i + 2..])
  {
  }

  /** A string around a two-character separator at `i`. */
  lemma PairAt(s: string, i: nat, sep: string)
    requires |sep| == 2 && i + 2 <= |s| && s[i..i + 2] == sep
    ensures s == s[..i] + sep + s[i + 2..]
  {
    assert s == s[..i] + s[i..i + 2] + s[i + 2..];
  }

  /** Stripping keeps a string free of double blanks. */
  lemma StripNoDoubleSpace(s: string)
    requires NoDoubleSpace(s)
    ensures NoDoubleSpace(Strip(s))
  {
    var lo, hi := StripBounds(s);
    var r := Strip(s);
    forall j | 0 <= j < |r| - 1 ensures !(r[j] == ' ' && r[j + 1] == ' ') {
      assert r[j] == s[lo + j] && r[j + 1] == s[lo + j + 1];
    }
  }

  /** The stripped pieces of one stripped line. */
  function LinePhrases(line: string): seq<string> {
    var parts := SplitDoubleSpace(Strip(line));
    seq(|parts|, k requires 0 <= k < |parts| => Strip(parts[k]))
  }

  /** The phrases of all lines, in order, before empty ones are dropped. */
  function Phrases(lines: seq<string>): seq<string> {
    if lines == [] then [] else LinePhrases(lines[0]) + Phrases(lines[1..])
  }

  /** The non-empty strings of a list, in order. */
  function NonEmpty(xs: seq<string>): (ys: seq<string>)
    ensures forall k :: 0 <= k < |ys| ==> ys[k] != [] && ys[k] in xs
    ensures multiset(ys) == multiset(xs)[[] := 0]
  {
    if xs == [] then []
    else
      assert xs == [xs[0]] + xs[1..];
      (if xs[0] == [] then [] else [xs[0]]) + NonEmpty(xs[1..])
  }

  /** The filter works member by member, so the kept members stay in
      their order. */
  lemma {:induction false} NonEmptyAppend(xs: seq<string>, zs: seq<string>)
    ensures NonEmpty(xs + zs) == NonEmpty(xs) + NonEmpty(zs)
    decreases |xs|
  {
    if xs == [] {
      assert xs + zs == zs;
    } else {
      assert (xs + zs)[1..] == xs[1..] + zs;
      NonEmptyAppend(xs[1..], zs);
    }
  }

  /** The text kept from a scraped page: its lines stripped, split at
      double blanks, the pieces stripped, empty pieces dropped, joined by
      newlines. */
  function NormalizeScraped(text: string): string {
    Join(NonEmpty(Phrases(SplitLines(text))), "\n")
  }

  /** What is saved for a scraped page: a header naming the page, then
      the kept text, whose lines are exactly the clean phrases of the page
      in order (empty when the page has none). */
  function ScrapedDocument(url: string, text: string): (doc: string)
    ensures StartsWith(doc, "URL: " + url + "\n\n")
    ensures var body := doc[|"URL: " + url + "\n\n"|..];
            var kept := NonEmpty(Phrases(SplitLines(text)));
            && (kept == [] ==> body == [])
            && (kept != [] ==> SplitOn(body, '\n') == kept)
            && forall k :: 0 <= k < |kept| ==> CleanLine(kept[k])
  {
    ScrapedLinesClean(text);
    "URL: " + url + "\n\n" + NormalizeScraped(text)
  }

  /** A good phrase: non-empty, stripped, without line breaks or double blanks. */
  predicate CleanLine(p: string) {
    p != [] && !IsSpace(p[0]) && !IsSpace(p[|p| - 1]) && '\n' !in p && NoDoubleSpace(p)
  }

  lemma LinePhrasesClean(line: string)
    requires '\n' !in line
    ensures forall k :: 0 <= k < |LinePhrases(line)| ==> LinePhrases(line)[k] == [] || CleanLine(LinePhrases(line)[k])
  {
    var s := Strip(line);
    StripSubset(line);
    var parts := SplitDoubleSpace(s);
    forall k | 0 <= k < |parts| ensures Strip(parts[k]) == [] || CleanLine(Strip(parts[k])) {
      StripSubset(parts[k]);
      StripNoDoubleSpace(parts[k]);
    }
  }

  lemma {:induction false} PhrasesClean(lines: seq<string>)
    requires forall k :: 0 <= k < |lines| ==> '\n' !in lines[k]
    ensures forall k :: 0 <= k < |Phrases(lines)| ==> Phrases(lines)[k] == [] || CleanLine(Phrases(lines)[k])
    decreases |lines|
  {
    if lines != [] {
      LinePhrasesClean(lines[0]);
      PhrasesClean(lines[1..]);
    }
  }

  /** Every line of the kept text is non-empty, has no blank at either end
      and no double blank; an empty page gives the empty text, whose one
      line is empty. */
  lemma ScrapedLinesClean(text: string)
    ensures var kept := NonEmpty(Phrases(SplitLines(text)));
            (kept == [] ==> NormalizeScraped(text) == [])
            && (kept != [] ==> SplitOn(NormalizeScraped(text), '\n') == kept)
            && forall k :: 0 <= k < |kept| ==> CleanLine(kept[k])
  {
    var lines := SplitLines(text);
    forall k | 0 <= k < |lines| ensures '\n' !in lines[k] {
      assert forall j :: 0 <= j < |lines[k]| ==> lines[k][j] != '\n';
    }
    PhrasesClean(lines);
    var kept := NonEmpty(Phrases(lines));
    if kept != [] {
      SplitOnJoin(kept, '\n');
    }
  }

  // ---------------------------------------------------------------------
  // Spreadsheet and slide text

  /** The text one sheet contributes: a marker line, its CSV, a blank line. */
  function SheetBlock(name: string, csv: string): string {
    "# Sheet: " + name + "\n" + csv + "\n\n"
  }

  /** The blocks of the sheets, in sheet order. */
  function SheetsText(sheets: seq<(string, string)>): string {
    if sheets == [] then ""
    else SheetsText(sheets[..|sheets| - 1]) + SheetBlock(sheets[|sheets| - 1].0, sheets[|sheets| - 1].1)
  }

  /** The CSV text of a workbook, given each sheet's name and CSV in order;
      the same loop serves both spreadsheet formats. */
  method AssembleSheets(sheets: seq<(string, string)>) returns (content: string)
    ensures content == SheetsText(sheets)
  {
    content := "";
    for i := 0 to |sheets|
      invariant content == SheetsText(sheets[..i])
    {
      assert sheets[..i + 1][..i] == sheets[..i];
      content := content + "# Sheet: " + sheets[i].0 + "\n";
      content := content + sheets[i].1;
      content := content + "\n\n";
    }
    assert sheets[..|sheets|] == sheets;
  }

  /** The text of consecutive workbooks' sheets is the concatenation. */
  lemma {:induction false} SheetsTextAppend(a: seq<(string, string)>, b: seq<(string, string)>)
    ensures SheetsText(a + b) == SheetsText(a) + SheetsText(b)
    decreases |b|
  {
    if b != [] {
      var b' := b[..|b| - 1];
      assert (a + b)[..|a + b| - 1] == a + b';
      SheetsTextAppend(a, b');
    } else {
      assert a + b == a;
    }
  }

  /** The text starts with the first sheet's marker and content. */
  lemma SheetsTextStartsWithFirst(sheets: seq<(string, string)>)
    requires sheets != []
    ensures StartsWith(SheetsText(sheets), SheetBlock(sheets[0].0, sheets[0].1))
  {
    assert sheets == [sheets[0]] + sheets[1..];
    SheetsTextAppend([sheets[0]], sheets[1..]);
    assert SheetsText([sheets[0]]) == SheetBlock(sheets[0].0, sheets[0].1) by {
      assert [sheets[0]][..0] == [];
    }
  }

  /** The first-child texts of the paragraphs that have one, in order. */
  function Present(paragraphs: seq<Option<string>>): (texts: seq<string>)
    ensures |texts| <= |paragraphs|
  {
    if paragraphs == [] then []
    else
      var last := paragraphs[|paragraphs| - 1];
      Present(paragraphs[..|paragraphs| - 1]) + (if last.Some? then [last.value] else [])
  }

  /** Each text followed by a newline. */
  function LinesText(texts: seq<string>): string {
    if texts == [] then "" else texts[0] + "\n" + LinesText(texts[1..])
  }

  lemma {:induction false} LinesTextAppend(a: seq<string>, b: seq<string>)
    ensures LinesText(a + b) == LinesText(a) + LinesText(b)
    decreases |a|
  {
    if a == [] {
      assert a + b == b;
    } else {
      assert (a + b)[1..] == a[1..] + b;
      LinesTextAppend(a[1..], b);
    }
  }

  /** The text of a presentation or document: `paragraphs` holds, for each
      paragraph, the text of its first child or None when it has none. */
  method AssembleParagraphs(paragraphs: seq<Option<string>>) returns (content: string)
    ensures content == LinesText(Present(paragraphs))
  {
    content := "";
    for i := 0 to |paragraphs|
      invariant content == LinesText(Present(paragraphs[..i]))
    {
      assert paragraphs[..i + 1][..i] == paragraphs[..i];
      assert Present(paragraphs[..i + 1]) ==
        Present(paragraphs[..i]) + (if paragraphs[i].Some? then [paragraphs[i].value] else []);
      if paragraphs[i].Some? {
        LinesTextAppend(Present(paragraphs[..i]), [paragraphs[i].value]);
        assert LinesText([paragraphs[i].value]) == paragraphs[i].value + "\n";
        content := content + paragraphs[i].value + "\n";
      } else {
        assert Present(paragraphs[..i + 1]) == Present(paragraphs[..i]);
      }
    }
    assert paragraphs[..|paragraphs|] == paragraphs;
  }

  /** Each paragraph with a first child becomes exactly one line, in
      order, when the texts hold no newline themselves. */
  lemma {:induction false} ParagraphLines(texts: seq<string>)
    requires forall k :: 0 <= k < |texts| ==> '\n' !in texts[k]
    ensures SplitOn(LinesText(texts), '\n') == texts + [""]
  {
    LinesTextIsJoin(texts);
    var parts := texts + [""];
    assert forall k :: 0 <= k < |parts| ==> '\n' !in parts[k] by {
      forall k | 0 <= k < |parts| ensures '\n' !in parts[k] {
        if k < |texts| { assert parts[k] == texts[k]; }
      }
    }
    SplitOnJoin(parts, '\n');
  }

  /** Each paragraph ends with a newline, so the text is the paragraphs
      joined with newlines after an extra empty one. */
  lemma {:induction false} LinesTextIsJoin(texts: seq<string>)
    ensures LinesText(texts) == Join(texts + [""], "\n")
    decreases |texts|
  {
    if texts != [] {
      LinesTextIsJoin(texts[1..]);
      assert (texts + [""])[1..] == texts[1..] + [""];
    }
  }

  // ---------------------------------------------------------------------
  // Thumbnails

  /** `generate_thumbnail`: the PNG text made for a file. The results of
      the imaging libraries are parameters, None where they fail or are
      missing: the picture itself, the first PDF page, and frames 100 and
      30 of a video. */
  function Thumbnail(mime: string, picture: Option<string>, firstPage: Option<string>,
                     frame100: Option<string>, frame30: Option<string>): (r: Option<string>)
    ensures Contains(mime, "image") ==> r == picture
    ensures !Contains(mime, "image") && Contains(mime, "pdf") ==> r == firstPage
    ensures !Contains(mime, "image") && !Contains(mime, "pdf") && Contains(mime, "video") ==>
              r == (if frame100.Some? then frame100 else frame30)
    ensures !Contains(mime, "image") && !Contains(mime, "pdf") && !Contains(mime, "video") ==> r == None
  {
    if Contains(mime, "image") then picture
    else if Contains(mime, "pdf") then firstPage
    else if Contains(mime, "video") then (if frame100.Some? then frame100 else frame30)
    else None
  }

  /** A thumbnail is only ever one the libraries produced, and frame 30 is
      used only when frame 100 could not be read. */
  lemma ThumbnailFromSources(mime: string, picture: Option<string>, firstPage: Option<string>,
                             frame100: Option<string>, frame30: Option<string>)
    ensures var r := Thumbnail(mime, picture, firstPage, frame100, frame30);
            r.Some? ==> r == picture || r == firstPage || r == frame100 || r == frame30
    ensures var r := Thumbnail(mime, picture, firstPage, frame100, frame30);
            r.Some? && r != picture && r != firstPage && r != frame100 ==> frame100.None?
  {
  }
}
