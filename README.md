# gemdesk in Dafny

A model of the core of gemdesk, an interactive desktop client for the Gemini
model. It covers its flows and proves properties about them.

## What is modelled

- **The file shelf.** Records of the uploaded files, their six folders and
  icons, and the shelf's controls.
- **Uploading.** Uploading a picked or downloaded file, with format
  conversion, the PROCESSING poll, the FAILED refusal and token counting.
- **Adding a link.** A direct file link is downloaded; any other page is
  scraped as text.
- **The context cache.** The cache that holds the whole shelf and its rebuild.
- **The context meter.** What it counts and which colour band it shows.
- **The chat turn.** Both the window's own one-shot turn and the streaming
  turn, with:
  - slash-command presets that override the prompt and the thinking level
    for one turn;
  - the stream demultiplexed into text and the last function call;
  - the chart the model may ask for.
- **Chart generation.** Its argument checks, branch selection and the tool
  declaration.
- **The validators.** The input validators.
- **The pure conversion helpers.**
  - the choice of a download's extension;
  - the direct-file test;
  - the normalisation of scraped text;
  - spreadsheet and presentation text assembly;
  - the thumbnail dispatch.
- **The stand-alone handler module.** It duplicates the window's upload
  flows with small differences. The model proves where the two agree.

### Module layout

One module per file:
- `Wrappers` (Option/Result);
- `Text` (the Python `str` operations used: `strip`, ASCII `lower`, `split`, `splitext`, `basename`);
- `Urls` (the part of `urlsplit` used);
- `Json` (argument values);
- `Validation`, `Presets`, `Charting`, `Mime`, `Shelf`, `Conversions`, `Meter`;
- `Gemini` (the service);
- `Registry` (poll and count, shared by every upload path);
- `Session` (the window, `gem.py`);
- `Streaming` (the streaming turn);
- `FileOps` (the handler module).

### The service and the local libraries

The service is a `Gemini.Client` object with two fields:
- a `script` of replies for each kind of call, where an `Err` reply is a call that raises;
- a `log` of the calls received.

Every property holds for every script. A script is finite, so a file that
stays PROCESSING longer than its `files.get` replies last ends the wait
with an error where the source keeps asking (see "Left out").

The window's state is the class `Session.Session`, which models the nonlocal
variables of `gem.py`:
- the shelf;
- the text-only history;
- the cache handle;
- the thinking level and the active preset.

Its ghost field `cacheHolds` records the shelf as it was when the held cache
was created. Two predicates describe the state:
- `Valid()`: the history is text-only and the shelf holds at most 50 files;
- `CacheCurrent()`: the held cache holds exactly the current shelf.

Local library results are parameters of the operations:
- the converters' temporary files;
- the `mimetypes` guesses;
- the HEAD reply's content type;
- the download and scrape results;
- the thumbnails;
- the chart drawing.

The list `unlinked` that the handlers return records which local files they
delete.

## Model

| member | source | states |
|---|---|---|
| Text.Strip | validation.py:82 | `str.strip()`: the result is no longer than the input and has no whitespace at either end |
| Text.StripBounds | validation.py:82 | strip removes nothing but whitespace: the result is a slice of the input and everything outside it is whitespace |
| Text.StripIdempotent | validation.py:124 | stripping twice is stripping once |
| Text.LowerStripCommute | presets.py:13 | `lower().strip()` equals `strip().lower()` |
| Text.NormalizeIdempotent | presets.py:13 | the command normalisation is idempotent |
| Text.SplitOnce | send_chat_streaming.py:69 | `split(maxsplit=1)` gives at most two parts, none of them empty |
| Text.SplitOnceParts | send_chat_streaming.py:69 | the parts are the first non-blank run after the leading whitespace and, when anything non-blank follows the whitespace after it, the whole rest of the string from there |
| Text.SplitOnceFirst | send_chat_streaming.py:19 | for an input starting with '/', `split()[0]` exists, is the leading non-blank run and contains no whitespace |
| Text.RFind | conversions.py:363 | `rfind`: the index of the last occurrence, or -1; nothing after it matches |
| Text.Find | conversions.py:351 | `find`: the index of the first occurrence, or -1 when the character is absent |
| Text.Basename | validation.py:181 | `basename`: contains no '/', is a suffix of the path and is the whole path or the part after its last '/' |
| Text.SplitExt | validation.py:61 | `splitext`: the halves rejoin to the path; the extension is empty or starts with its only '.' and holds no '/' |
| Text.SplitExtLower | gem.py:238 | `splitext(lower(p))` is the lower-casing of `splitext(p)`, so the extension can be taken before or after lower-casing |
| Text.RemoveChar | validation.py:133 | `replace(c, '')` keeps every other character with its multiplicity and removes every `c`; the identity when `c` is absent |
| Text.RemoveCharAppend | validation.py:133 | the removal distributes over concatenation |
| Text.RemoveDotDot | validation.py:184 | `replace('..', '')` never lengthens, adds no character and leaves no two dots in a row |
| Text.Take | gem.py:642 | `s[:n]` is the prefix of length `min(n, len(s))` |
| Text.SplitOn | gem.py:607 | `split(sep)` gives at least one part, none containing `sep` |
| Text.JoinSplitOn | gem.py:607 | joining the parts with `sep` gives the string back |
| Text.SplitOnJoin | conversions.py:443 | splitting a `'\n'.join` of newline-free parts gives the parts back |
| Text.NatToString | gem.py:230 | `str(n)` is a non-empty string of decimal digits |
| Text.NatToStringValue | gem.py:230 | the digits of `str(n)` read back as `n` |
| Urls.UrlSplit | validation.py:88 | `urlsplit` either raises or yields a scheme no longer than the input |
| Urls.LastSegment | gem.py:607 | `path.split('/')[-1]` contains no '/', ends the path and is the whole path or the part after its last '/' |
| Json.Length | charting.py:73 | `len(v)` exists exactly for strings, lists and dicts, and is 0 exactly when the value is falsy |
| Json.Get | charting.py:56-59 | `dict.get(key, default)` |
| Validation.ValidateFileSize | validation.py:27-48 | accepted exactly when the size is known and 1..100 MiB, returning it; an unreadable file and an oversized file each get their own error |
| Validation.LoweredExtension | validation.py:61 | the lower-cased `splitext` extension is empty or starts with '.' and holds no '/' |
| Validation.ValidateFileExtension | validation.py:51-63 | refused exactly when the lower-cased extension is one of the eight dangerous ones; the error names the extension |
| Validation.ExtensionOfSuffix | validation.py:61-63 | a name ending in an extension after an ordinary character is judged by that extension, whatever its case |
| Validation.HiddenExecutableNameAccepted | validation.py:61-63 | a file named just ".exe" is accepted: `splitext` gives it no extension |
| Validation.CheckParsedUrl | validation.py:87-105 | the parse step accepts exactly when `urlsplit` succeeds, the scheme is http or https and the host has no private prefix; the URL is returned unchanged |
| Validation.ValidateUrl | validation.py:66-105 | accepted exactly when it is non-empty, its stripped length is ≤ 2048 and the parse check passes; returns the stripped URL; the missing and too-long cases have their own errors |
| Validation.ValidateUrlIdempotent | validation.py:82-102 | an accepted URL validates again to itself |
| Validation.ValidateMessage | validation.py:108-135 | accepted exactly when the stripped message is non-empty and ≤ 50000 characters; the result is the stripped message with every NUL removed |
| Validation.ValidateMessageNotIdempotent | validation.py:124-133 | NULs go after the strip: "\0 a" gives " a", which validates to "a" |
| Validation.NulRemovedAfterStrip | validation.py:124-133 | "\0 a" validates to " a" |
| Validation.SpaceStripped | validation.py:124 | " a" validates to "a" |
| Validation.ValidateApiKey | validation.py:138-167 | accepted exactly when the stripped key starts with "AIza", has ≥ 30 characters and only letters, digits, '_' and '-' |
| Validation.StrippedKeyPattern | validation.py:164 | on a stripped key the anchored regex means "non-empty and only key characters" |
| Validation.CleanedFilename | validation.py:181-187 | after `basename` and the removals, no '/', '\\' or NUL remains |
| Validation.SanitizeFilename | validation.py:170-194 | no separator or NUL; a name of ≤ 255 characters is kept and a longer one becomes its stem cut to 250 characters plus its extension |
| Validation.SanitizeKeepsLongExtension | validation.py:190-192 | a name with a 300-character extension stays 302 characters long |
| Validation.NoDotDotUnchanged | validation.py:184 | a name without two dots in a row goes through the '..' removal unchanged |
| Validation.SanitizeCanYieldDotDot | validation.py:181-187 | as written, ".\\." sanitises to "..": removing the backslash after the '..' pass joins two dots |
| Validation.SafeCleanedFilename | validation.py:181-187 | with '..' removed last, the cleaned name has no separator, no NUL and no two dots in a row |
| Validation.SafeSanitizeFilename | validation.py:170-194 | with that order, no separator or NUL and never "..": a short name is its cleaned name, a long one keeps at least 250 characters |
| Validation.ValidateThinkingLevel | validation.py:197-220 | accepted exactly when `lower().strip()` is minimal, low, medium or high, returning that normal form |
| Validation.ValidateThinkingLevelIdempotent | validation.py:215-220 | an accepted level validates again to itself |
| Validation.ValidateChartType | validation.py:223-246 | accepted exactly when `lower().strip()` is one of the four chart types, returning it |
| Validation.ValidateChartTypeIdempotent | validation.py:241-246 | an accepted chart type validates again to itself |
| Validation.CheckRateLimit | validation.py:249-269 | refused exactly when a truthy last time lies less than the interval before now |
| Presets.GetPreset | presets.py:7-24 | a prompt and a level come back together, exactly for the nine aliases after `lower().strip()`; report gives medium, synthesis and error-check give high |
| Presets.GetPresetIndicator | presets.py:126-137 | a label exists exactly when `get_preset` finds a preset |
| Presets.AliasGroupsDisjoint | presets.py:15-22 | the three alias groups are disjoint, so the order of the tests is immaterial |
| Presets.GetPresetNormalized | presets.py:13 | both lookups ignore case and surrounding whitespace |
| Presets.PresetLevelsValid | presets.py:16-22 | every preset level passes the thinking-level validator unchanged |
| Charting.ParseChartType | charting.py:52-54 | a type is recognised exactly for the four names |
| Charting.SelectLayout | charting.py:65-116 | the drawing branch per type: pie ignores `series`; bar, line and scatter use it when present; line uses x/y only without series |
| Charting.TruthyOrNone | charting.py:120-123 | an axis label is set exactly when it is truthy |
| Charting.PrepareChart | charting.py:38-127 | the pre-drawing checks in source order (dictionary, chart_type, data, lower-cased type, layout; for grouped bars `len(labels)`, then `len(series)` and its division) with the defaults for title and labels; grid off only for pie; accepted grouped bars have sized labels and a non-empty sized series |
| Charting.GenerateChart | charting.py:14-140 | succeeds exactly when the checks of `PrepareChart` pass (labels included) and drawing succeeds; every failure is re-raised with the "Failed to generate chart: " prefix and the text of the check that failed |
| Charting.AcceptedTypeValidates | charting.py:49-54 | every type the generator accepts is accepted by `validate_chart_type` |
| Charting.PaddedTypeRefused | charting.py:49-54 | the converse fails: " bar" validates, yet the generator refuses it |
| Charting.EmptyBarSeriesFails | charting.py:66-73 | grouped bars with sized (or absent) labels and an empty series list fail with a division by zero |
| Charting.UnsizedLabelsFail | charting.py:66-72 | grouped bars whose labels have no length fail on `len(labels)` with Python's text for that type, whatever the series |
| Charting.NullLabelsBeforeEmptySeries | charting.py:66-73 | `null` labels beside an empty series list fail on the labels, not on the division |
| Charting.NullHasNoLength | charting.py:72 | `len(None)` reads "object of type 'NoneType' has no len()" |
| Charting.ChartTypeParameter | charting.py:151-155 | the declared `chart_type` enum is the four types in order |
| Charting.Properties | charting.py:150-217 | the declared properties include that `chart_type` parameter |
| Charting.DeclaredParameters | charting.py:148-220 | the parameters hold the properties and the required fields |
| Charting.ToolDeclaration | charting.py:143-221 | the declaration is named `generate_chart` and carries those parameters |
| Charting.DeclarationMatchesGenerator | charting.py:153 | the declared enum is exactly the generator's accepted set, each enum entry parses, and the required fields are chart_type, title, data |
| Charting.DeclaredTypesPrepare | charting.py:40-59 | a call with a declared type and dictionary data passes every check |
| Mime.MimeFromTable | gem.py:233-381 | a truthy platform guess wins; otherwise the table entry of the lower-cased extension; otherwise octet-stream (the handler module's table, file_ops.py:17-78, goes through the same function) |
| Mime.MimeIgnoresCase | gem.py:238 | the table lookup ignores the case of the name |
| Mime.WindowConversion | gem.py:477-503 | the window converts xlsx/ods to CSV and pptx/odp/odt to text, by lower-cased suffix, and never converts docx |
| Mime.HandlerConversion | file_ops.py:92-118 | the handlers convert docx to PDF and xlsx/ods/odp/odt, and never pptx |
| Mime.ConversionVariantsAgree | file_ops.py:92-118 | outside docx and pptx names the two dispatches agree |
| Mime.WindowUploadMime | gem.py:477-503 | a converted file goes up with the converter's type, any other file with `get_mime_type` |
| Mime.HandlerUploadMime | file_ops.py:92-118 | as the window's, but a truthy override type comes before the table |
| Mime.SpreadsheetsUploadAsCsv | file_ops.py:97-106 | xlsx and ods files go up as text/csv in both variants, whatever their case |
| Shelf.FileCategory | ui_components.py:9-24 | the folder, each as an iff: link mark gives Links; microphone mark or audio gives Audio; then images, videos, documents (pdf, text, case-sensitive .xlsx/.pptx) and Other |
| Shelf.IconFor | ui_components.py:34-51 | the icon, each as an iff, by priority image > video > pdf > table > slides > link > mic > file |
| Shelf.PreviewFor | ui_components.py:53-63 | a truthy thumbnail replaces the icon |
| Shelf.IconMatchesCategory | ui_components.py:15-18 | outside marked names, icon and folder agree on images and videos |
| Shelf.SpreadsheetCaseMismatch | ui_components.py:44 | "BUDGET.XLSX" gets the table icon but the Other folder |
| Shelf.GroupIndices | ui_components.py:124-126 | a folder's list holds exactly the indices of that category's entries, increasing |
| Shelf.Items | ui_components.py:153-154 | one item control per listed entry |
| Shelf.GroupIndicesStep | ui_components.py:124-126 | a new entry joins only its own folder's list, at the end |
| Shelf.Categorize | ui_components.py:115-126 | the grouping loop gives every folder exactly its `GroupIndices` list |
| Shelf.AppendItems | ui_components.py:152-154 | appends the folder's items in order |
| Shelf.AppendSection | ui_components.py:140-154 | appends nothing for an empty folder; otherwise the header with its count, then the items unless collapsed |
| Shelf.BuildShelfUi | ui_components.py:106-156 | the controls are the folders in fixed order (`ShelfLayout`) |
| Shelf.GroupsPartition | ui_components.py:124-126 | every entry is in exactly one folder |
| Shelf.GroupSizeSumStep | ui_components.py:124-126 | adding an entry grows exactly its own folder by one |
| Shelf.EmptyShelfSizes | ui_components.py:115-122 | an empty shelf has empty folders |
| Shelf.GroupSizesSum | ui_components.py:124-126 | the folder sizes add up to the number of entries |
| Shelf.SectionLength | ui_components.py:141-154 | a folder contributes a header when non-empty, plus its entries when expanded |
| Shelf.LayoutLength | ui_components.py:139-154 | the shelf's length is the sum of the folders' contributions |
| Shelf.ExpandedSize | ui_components.py:139-154 | with nothing collapsed, the contributions are the entries plus one header per non-empty folder |
| Shelf.ExpandedShowsAll | ui_components.py:139-154 | with nothing collapsed, every entry is shown once, plus one header per non-empty folder |
| Conversions.UrlExtension | conversions.py:354-365 | the extension from the last '.' of the last segment, lower-cased, only when it is one of the 18 accepted; otherwise none of the segment's final extensions is accepted |
| Conversions.MediaType | conversions.py:351 | the part before the first ';', stripped |
| Conversions.OrDefault | conversions.py:375-379 | `guess or default` |
| Conversions.FallbackExtension | conversions.py:369-379 | pdf gives ".pdf"; image, video and others use the guess or ".jpg", ".mp4", ".bin"; never empty |
| Conversions.DownloadExtension | conversions.py:339-392 | fails only where parsing the link fails; otherwise the link's accepted extension, else the fallback from the media type |
| Conversions.LinkExtensionWins | conversions.py:358-379 | once the link names an accepted extension, headers and guesses do not matter |
| Conversions.MediaTypeIgnoresParameters | conversions.py:351 | parameters after ';' are ignored |
| Conversions.IsDirectFileUrl | conversions.py:395-426 | direct exactly when the HEAD succeeded and either the lower-cased type contains a file type or the lower-cased link ends in a file suffix |
| Conversions.DirectFileIgnoresCase | conversions.py:400-424 | the test ignores letter case |
| Conversions.SplitLines | conversions.py:440 | `splitlines()` gives lines without line boundaries |
| Conversions.SplitLinesKeepsText | conversions.py:440 | the lines laid end to end are the text with its line boundaries removed, so nothing else is lost or reordered |
| Conversions.SplitDoubleSpace | conversions.py:441 | `split("  ")` gives pieces without a double blank, made of the input's characters |
| Conversions.SplitDoubleSpaceJoin | conversions.py:441 | joining the pieces with "  " gives the line back |
| Conversions.StripNoDoubleSpace | conversions.py:442 | stripping keeps a piece free of double blanks |
| Conversions.NonEmpty | conversions.py:443 | the filter keeps exactly the non-empty members, each as often as it occurs |
| Conversions.NonEmptyAppend | conversions.py:443 | the filter distributes over concatenation, so it keeps the order |
| Conversions.LinePhrasesClean | conversions.py:441-442 | the phrases of one line are empty or clean |
| Conversions.PhrasesClean | conversions.py:441-442 | the same, over all lines |
| Conversions.ScrapedLinesClean | conversions.py:440-443 | every line of the kept page text is non-empty, without blanks at either end and without double blanks; the text splits back into those lines |
| Conversions.ScrapedDocument | conversions.py:440-446 | the saved file is "URL: <url>", a blank line, then the kept phrases one per line (nothing when none is kept), each non-empty and without blanks at either end or doubled |
| Conversions.AssembleSheets | conversions.py:18-23 | the loop builds each sheet's marker, CSV and blank line, in sheet order |
| Conversions.SheetsTextAppend | conversions.py:19-23 | the text of two runs of sheets is their concatenation |
| Conversions.SheetsTextStartsWithFirst | conversions.py:21-23 | the text opens with the first sheet's block |
| Conversions.Present | conversions.py:306-307 | only paragraphs with a first child contribute |
| Conversions.LinesTextAppend | conversions.py:306-308 | the text of two runs of paragraphs is their concatenation |
| Conversions.AssembleParagraphs | conversions.py:303-308 | the loop emits, in order, each present paragraph's text and a newline |
| Conversions.LinesTextIsJoin | conversions.py:308 | newline-terminated lines are a `'\n'.join` with an empty tail |
| Conversions.ParagraphLines | conversions.py:306-308 | each present paragraph becomes exactly one line of the output |
| Conversions.Thumbnail | conversions.py:453-520 | dispatch by substring, image before pdf before video; frame 100, then frame 30; otherwise none |
| Conversions.ThumbnailFromSources | conversions.py:486-512 | a thumbnail is only ever one the libraries produced, and frame 30 only when frame 100 failed |
| Meter.Percentage | gem.py:215 | the exact percentage, capped at 100 |
| Meter.BandOf | gem.py:220-225 | green below 50, red from 80 on, yellow between |
| Meter.BandByTokens | gem.py:215-225 | the bands in whole numbers: green iff 2·tokens < 1 000 000, red iff 5·tokens ≥ 4 000 000 |
| Meter.BandMonotone | gem.py:220-225 | more tokens never give a lower band |
| Meter.Reading | gem.py:213-230 | a count gives the gauge whose fraction times 1 000 000 is the count, capped at 1, with the band of its percentage (green and red as iffs on the count); a failed count shows "<n> files loaded" |
| Gemini.Client.Upload | gem.py:505-506 | `files.upload` takes the next upload reply and logs the call |
| Gemini.Client.GetFile | gem.py:515 | `files.get` takes the next reply and logs the call |
| Gemini.Client.CountTokens | gem.py:523-528 | `count_tokens` takes the next reply and logs the contents |
| Gemini.Client.CreateCache | gem.py:96-100 | `caches.create` takes the next reply and logs the contents |
| Gemini.Client.DeleteCache | gem.py:79 | `caches.delete` takes the next reply and logs the name |
| Gemini.Client.Generate | gem.py:717-734 | `generate_content` takes the next reply and logs the request |
| Gemini.Client.GenerateStream | send_chat_streaming.py:150-173 | `generate_content_stream` takes the next stream and logs the request |
| Registry.PollResult | gem.py:511-515 | the file after the wait is no longer PROCESSING; a file that is not PROCESSING is returned as is |
| Registry.PollCalls | gem.py:511-515 | `files.get` is called exactly when the file is PROCESSING |
| Registry.PollRest | gem.py:511-515 | the wait consumes only `files.get` replies |
| Registry.WaitForFile | gem.py:511-515 | the poll loop yields `PollResult`, consuming `PollRest` and logging `PollCalls` |
| Registry.Settled | gem.py:511-528 | a registered file is neither PROCESSING nor FAILED and is the poll's result |
| Registry.Settle | gem.py:511-528 | the wait, the FAILED refusal and the count yield `Settled`; the count is called only when the file neither failed nor raised |
| Registry.ReadyFileNotPolled | gem.py:511-528 | a file that is ready at once is not polled and is counted directly |
| Registry.PollSucceeds | gem.py:511-515 | the wait succeeds once every reply up to one that is not PROCESSING is answered |
| Registry.PollStillProcessing | gem.py:511-515 | a file PROCESSING through every scripted reply is polled once per reply and once more, and the wait ends with the no-reply error |
| Registry.Registered | gem.py:505-528 | the replies left after one registration: one upload reply fewer |
| Registry.SettledSameReplies | gem.py:511-528 | registration reads only the upload, get and count replies |
| Session.FileParts | gem.py:91-94 | one file part per entry, in shelf order |
| Session.ChatMessages | gem.py:700-732 | the request: preamble, history, query; without a cache and with files, the last message carries every file before the text |
| Session.CachedRequestIsTextOnly | gem.py:706-716 | with a cache or an empty shelf, a request on a text-only history has no files |
| Session.RebuildDropsOldHandle | gem.py:76-108 | after a rebuild the handle is the new cache's or cleared, whether or not deletion succeeded; an empty shelf ends with none |
| Session.UploadTarget | gem.py:474-503 | the converted file when a conversion applies, else the picked file |
| Session.Registration | gem.py:505-536 | the record of an upload, or the first error of the local file, the upload, the wait (FAILED gives the caller's message) and the count; it exists exactly when the file settles |
| Session.RegistrationSameReplies | gem.py:505-536 | registration reads only the upload, get and count replies |
| Session.UploadBatch | gem.py:561-566 | a batch adds at most one record per pick, named after the picks in order, and ends without error exactly when every pick is shelved |
| Session.UploadBatchSingle | gem.py:561-566 | a batch of one file is that file's upload |
| Session.UploadBatchStep | gem.py:561-566 | one pick of a batch: a failure ends it with that error, a success adds the record and the rest is read after that upload's replies |
| Session.BatchAtStart | gem.py:561 | a batch starts with nothing shelved |
| Session.BatchAtNext | gem.py:561-566 | one more pick moves the batch one step forward |
| Session.BatchAtEnd | gem.py:561-566 | a batch that has run out of picks or hit an error is `UploadBatch` |
| Session.UploadedRecord | gem.py:530-536 | the record of a successful upload: the picked name and thumbnail with the uri, type and token count of the settled file |
| Session.ScrapedName | gem.py:642 | the name is the link mark and a blank, the first 30 characters of the URL (all of it when shorter), then "..." |
| Session.ScrapedPageIsALink | gem.py:642 | a scraped page is shelved under Links |
| Session.DownloadName | gem.py:606-607 | the last path segment, which is the whole path or the part after its last '/', or "downloaded_file" when the path is empty |
| Session.DownloadedPick | gem.py:602-610 | the download's file named after the URL path; errors when the download or the parse raises |
| Session.Session.constructor | gem.py:58-60 | an empty shelf and history and no cache |
| Session.Session.UpdateShelfCache | gem.py:72-108 | deletes a held cache, caches the whole shelf when it is not empty; leaves the cache current; logs exactly those calls |
| Session.Session.UpdateContextMeter | gem.py:198-231 | counts preamble, history and one message of all files; shows `Reading` of the count |
| Session.Session.RemoveFile | gem.py:383-391 | an index outside the shelf changes nothing; otherwise that entry is removed, the cache rebuilt and current, and the meter refreshed |
| Session.Session.ProcessFileUpload | gem.py:472-539 | succeeds exactly when conversion, upload, wait and count succeed; then the `UploadedRecord` is appended, the cache is rebuilt and current, and the first call is the upload with the window's type; an error is the `Registration` error and leaves the shelf |
| Session.Session.UploadFile | gem.py:541-574 | ignores an empty pick; refuses a batch over 50 without any call; otherwise the shelf gains exactly the `UploadBatch` records and the first error is raised; a full batch leaves the cache current |
| Session.Session.UploadOne | gem.py:562-563 | one pass: a success appends the record and advances the batch past its replies, an error ends the batch with that message and leaves the shelf |
| Session.Session.UploadPicks | gem.py:561-566 | the shelf gains exactly the `UploadBatch` records and the error is the first failing pick's; at most one upload reply is used past the records, so no later pick is uploaded |
| Session.Session.AddUrl | gem.py:576-658 | a blank link does nothing and a full shelf refuses; a direct link appends the `UploadedRecord` of the downloaded pick exactly when its upload succeeds and leaves the cache current; a scraped page appends its `Registration` record without rebuilding the cache, so a held cache is no longer current |
| Session.Session.AddDirectFile | gem.py:597-614 | the downloaded file goes through the upload, which succeeds exactly when `UploadSucceeds`, then the download is removed; an error is the registration error |
| Session.Session.AddScrapedPage | gem.py:615-651 | the page's file is uploaded as text/plain; it is shelved exactly when its `Registration` succeeds, as the link-named record without a thumbnail; the cache is untouched |
| Session.Session.SendChat | gem.py:660-767 | empty input does nothing; otherwise sends `ChatMessages`, through the cache when held; success appends the text pair to the history, an error leaves it |
| Streaming.Dispatch | send_chat_streaming.py:17-85 | plain input unless it starts with '/'; help words matched exactly; preset by normalised lookup, with the rest of the input or the default query; anything else unknown |
| Streaming.StreamConfig | send_chat_streaming.py:143-173 | both branches pass the thinking level and the chart tool, and the cache exactly when held |
| Streaming.Parts | send_chat_streaming.py:179-181 | the parts of all chunks in order |
| Streaming.CallOfIsLast | send_chat_streaming.py:179-183 | the call acted on is the last present one, and none exactly when no part has a call |
| Streaming.CallsCarryNoText | send_chat_streaming.py:182-185 | parts that carry calls contribute no text |
| Streaming.TextOfAppend | send_chat_streaming.py:179-187 | the text of a stream is the text of its halves, concatenated |
| Streaming.CallOfAppend | send_chat_streaming.py:179-183 | a later call overrides every earlier one |
| Streaming.PartStep | send_chat_streaming.py:181-185 | one part appends its text unless it carries a call, which replaces the one seen so far |
| Streaming.ChunkStep | send_chat_streaming.py:179-181 | one chunk appends its parts |
| Streaming.ReadStream | send_chat_streaming.py:176-187 | the nested loops give the stream's text and its last call |
| Streaming.ReadChunk | send_chat_streaming.py:181-187 | the inner loop over one chunk |
| Streaming.ChartBanner | send_chat_streaming.py:222 | the banner is the chart heading, `str(title)` (or "Chart" when no title is given), "**" and a blank line |
| Streaming.WithChart | send_chat_streaming.py:189-228 | the reply ends with the streamed text; a chart call prefixes the banner, or the failure message when generation raises |
| Streaming.SendChatStreaming | send_chat_streaming.py:4-246 | empty input, help and unknown commands change nothing and call nothing; other inputs run `TurnRan` |
| Streaming.RunTurn | send_chat_streaming.py:124-246 | one streamed request; an error keeps the history and leaves the preset and its level set; success records query and reply and resets the preset and level |
| Streaming.SendTurn | send_chat_streaming.py:47-173 | sets the preset and level, then sends the turn's preamble, history and query |
| Streaming.StreamedReply | send_chat_streaming.py:175-228 | the reply is the stream's text after the chart step |
| Streaming.CommitTurn | send_chat_streaming.py:232-241 | records the exchange, undoes the preset override and refreshes the meter |
| FileOps.HandlerTarget | file_ops.py:88-116 | the converted copy when the handlers convert, else the file |
| FileOps.HandlerUploaded | file_ops.py:81-155 | the `Registration` of the handler's target: the record or the first error of conversion, upload, wait and count; name and thumbnail come from the pick, uri, mime and tokens from the service |
| FileOps.ProcessFileUpload | file_ops.py:81-155 | returns `HandlerUploaded`, appends nothing; the first call is the upload with the handler type; only a converted copy is deleted |
| FileOps.HandleFileUpload | file_ops.py:158-199 | empty pick ignored; over capacity the handler crashes on the undefined `ft` without any call; otherwise the list gains exactly the `UploadBatch` records, an error stops and skips the callbacks, a full batch runs rebuild, cache, meter |
| FileOps.UploadAll | file_ops.py:180-186 | the list gains exactly the `UploadBatch` records of the handler's targets, and the error is the first failing pick's; at most one upload reply is used past the records |
| FileOps.UploadStep | file_ops.py:180-186 | one pass: a success appends the record and advances the batch, an error ends it and leaves the list |
| FileOps.HandleUrlAdd | file_ops.py:202-293 | blank link ignored; full list crashes as above; a direct link appends `HandlerUploaded` of the download exactly when it succeeds; a scraped page appends its `HandlerScrapedUploaded` record; both branches end with the callbacks |
| FileOps.AddDownloaded | file_ops.py:226-248 | the download goes up with its own table type as the override, is appended, then removed |
| FileOps.AddScraped | file_ops.py:249-285 | the page's file is uploaded as text/plain and appended exactly when its `HandlerScrapedUploaded` registration succeeds, under the name as written and without a thumbnail; the callbacks (cache included) run |
| FileOps.HandlerScrapedName | file_ops.py:275-276 | the name as written: the misdecoded prefix, the first 30 characters of the URL, then "..." |
| FileOps.HandlerScrapedPageIsNoLink | file_ops.py:276 | so spelled, a scraped page is never shelved under Links |
| FileOps.TargetsAgree | file_ops.py:88-118 | outside docx and pptx names, window and handlers upload the same file |

## Findings

| source | as written | input that shows it | evidently intended | confidence | as-written member | corrected member |
|---|---|---|---|---|---|---|
| file_ops.py:276 | the scraped page's name starts with U+00F0 U+0178 U+201D U+2014, the UTF-8 bytes of the link mark read back as Windows-1252 | any page URL that is not a direct file, e.g. "https://example.com/article" | the name starts with the link mark U+1F517, as gem.py:642 writes it, so the page files under Links (ui_components.py:11) | high, not executed | FileOps.HandlerScrapedPageIsNoLink | Session.ScrapedPageIsALink |
| validation.py:184-187 | ".." is removed before the backslashes and NUL bytes, so their removal can join two dots into a new ".." | ".\\." (dot, backslash, dot) gives ".." | the sanitised name is never ".." and, up to 255 characters, holds no ".." | medium, not executed | Validation.SanitizeCanYieldDotDot | Validation.SafeSanitizeFilename |

`FileOps.HandlerScrapedName` and `FileOps.HandlerScrapedPageIsNoLink`
model the name as written, and `FileOps.AddScraped` and
`FileOps.HandleUrlAdd` record scraped pages under it. The window
(`Session.Session.AddScrapedPage`) uses the intended `Session.ScrapedName`.

`sanitize_filename` is called nowhere in the repository, so the corrected
`Validation.SafeSanitizeFilename` replaces no caller; it states the
intended guarantee.

## Left out

### User interface
- The Flet interface is left out: widget trees, colours, status text,
  progress rings, disabled buttons, dialogs and `page.update`. A handler's
  end state is an outcome value.
- The help text, the preset indicator label and the chart dialog are left
  out. `Dispatch` decides that help is shown, not what it says.
- The export and theme toggle of the window and the PDF export with
  reportlab are left out (gem.py:110-196).
- The `print` diagnostics are not modelled.

### Time, floats and library internals
- `time.sleep` in the poll loops and after a refusal is left out.
- Registry.WaitForFile / Registry.PollResult: the source polls without
  bound while a file is PROCESSING (gem.py:511-515, file_ops.py:129-133,
  file_ops.py:260-262). The model reads a finite script of `files.get`
  replies and ends the wait with the no-reply error when they run out
  (`Registry.PollStillProcessing`), so a wait that never ends is not
  modelled.
- `check_rate_limit` takes integer timestamps and an integer interval in
  place of `time.time()` floats.
- The meter's percentage is exact (a `real`), not a float.
- The meter's label and its number formatting are not modelled; the
  gauge's fraction and band are.
- `Text.Lower` lower-cases ASCII letters only. Python lower-cases all of
  Unicode.
- `urlsplit` is modelled only as far as the scheme, the network location,
  the IPv6 bracket check, `;params` and the hostname. Its other details are
  not modelled.
- Urls.UrlSplit: its contract states only that the scheme is no longer than
  the input. The validators' contracts are stated over its result.
- `Validation.ValidateApiKey` and the other validators take a `string`: the
  `isinstance` checks have no counterpart.
- `Json.Str`: numbers are integers only (`JNum` has no fractional part),
  so a value such as 2.5 cannot be represented; an integer prints with
  ".0", as Python prints the float the protocol carries. Lists and
  dictionaries print as "[...]" and "{...}" instead of Python's `repr`, so
  the banner of a chart whose title is a list or a dictionary differs from
  the source's.
- `Charting.DataNotDictionary` carries an approximate text: Python's
  message depends on which operation first meets the non-dictionary.
- `Charting.PyTypeName` names every number "float", as function-call
  arguments carry numbers; an integer given some other way would read "int".
- The `InvalidChartType` message lists the types in one fixed order. Python
  prints a set in an order that may differ.
- matplotlib's drawing, bar offsets and PNG encoding are the `draw`
  parameter of `GenerateChart`.

### Local libraries
Each of these is a parameter. Their internals are not modelled.
- PIL, PyMuPDF and OpenCV results are the parameters of `Thumbnail`.
- Conversions.Thumbnail: its contract states no more than its branches,
  because the imaging work is all in the parameters.
  `Conversions.ThumbnailFromSources` is its partner.
- Thumbnails for uploads pass in as `Pick.thumbnail`. The catch-all
  exception handler of `generate_thumbnail` is covered only because a
  failure is a `None` parameter.
- The converters' temporary files pass in as `Pick.converted`, including
  their ImportError messages.
- pandas' CSV, the sheet names and the odf paragraphs are the inputs of
  `AssembleSheets` and `AssembleParagraphs`.
- Writing temporary files and `os.unlink` are not modelled. The `unlinked`
  lists record the deletions.
- requests and BeautifulSoup pass in their results as parameters:
  - `head` is the HEAD content type, or None when the request raised;
  - `downloaded` is the download's temporary file;
  - `scraped` is the scraped page's file.
- `NormalizeScraped` and `ScrapedDocument` model what happens to the text
  BeautifulSoup extracts.
- `DownloadExtension` is the pure part of the download, given the content
  type and the `mimetypes.guess_extension` result.
- `mimetypes.guess_type` is the `guess` parameter. It may be None.
- The two extension-to-type tables are written out in full in `Mime`. No
  lemma compares them entry by entry.
- The docx and pptx to PDF converters (conversions.py:50-294) are left out.
  Their results are the `converted` parameter.

### The service
- Gemini is the scripted `Gemini.Client`. The model identifiers, the
  cache's one-hour lifetime and the request schemas are not modelled.
- A stream that fails part-way is an `Err` of the whole call. Its chunks
  are read only after a successful call.
- A function call is modelled as a name with an argument dictionary. A
  call whose `args` is None is not modelled.
- A chunk whose candidate list is empty (the `IndexError` at
  send_chat_streaming.py:181) is not modelled.

### Modelling choices
- System and preset prompts are abbreviated to their first sentences.
  They are distinct constants.
- The thinking level and the active preset do not appear in gem.py. The
  streaming file refers to them as nonlocal state of the window. So
  `Session.Session.constructor` takes the starting level as a parameter.
- gem.py:11-15 imports `convert_pptx_to_text`, which conversions.py does not
  define (it has `convert_pptx_to_pdf`). As written, importing gem.py raises
  ImportError and the window never starts. The model assumes a converter
  exists: the window's pptx conversion is its `converted` parameter, which
  may be an error.
- The stand-alone handlers refer to `ft` without importing it (file_ops.py:167
  and 213). The model makes each capacity refusal a `Crashed` outcome with
  Python's NameError text.
- `FileOps.HandleUrlAdd` and `FileOps.AddScraped` name a scraped page as
  the handler module spells it (`FileOps.HandlerScrapedName`, see
  Findings).
