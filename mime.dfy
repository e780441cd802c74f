/** MIME types of local files and the format conversions applied before
    upload, in the two variants the application carries: the one inside the
    desktop window and the stand-alone file handlers. */
module Mime {
  import opened Wrappers
  import opened Text

  const OCTET_STREAM: string := "application/octet-stream"

  /** The extension table of the desktop window's `get_mime_type`. */
  const WINDOW_TABLE: map<string, string> := map[
    ".pdf" := "application/pdf", ".txt" := "text/plain", ".md" := "text/markdown",
    ".docx" := "application/vnd.openxmlformats-officedocument.wordprocessingml.document",
    ".rtf" := "application/rtf", ".html" := "text/html", ".htm" := "text/html",
    ".json" := "application/json", ".xml" := "application/xml", ".csv" := "text/csv", ".jpg" := "image/jpeg",
    ".jpeg" := "image/jpeg", ".png" := "image/png", ".gif" := "image/gif", ".webp" := "image/webp",
    ".heic" := "image/heic", ".heif" := "image/heif", ".svg" := "image/svg+xml", ".mp4" := "video/mp4",
    ".mov" := "video/quicktime", ".avi" := "video/x-msvideo", ".mpeg" := "video/mpeg",
    ".mpg" := "video/mpeg", ".flv" := "video/x-flv", ".webm" := "video/webm", ".wmv" := "video/wmv",
    ".3gp" := "video/3gpp", ".mp3" := "audio/mpeg", ".wav" := "audio/wav", ".aiff" := "audio/aiff",
    ".aif" := "audio/aiff", ".aac" := "audio/aac", ".ogg" := "audio/ogg", ".flac" := "audio/flac",
    ".ods" := "application/vnd.oasis.opendocument.spreadsheet",
    ".odp" := "application/vnd.oasis.opendocument.presentation",
    ".odt" := "application/vnd.oasis.opendocument.text", ".yaml" := "text/plain", ".yml" := "text/plain",
    ".toml" := "text/plain", ".ini" := "text/plain", ".cfg" := "text/plain", ".conf" := "text/plain",
    ".config" := "text/plain", ".log" := "text/plain", ".sh" := "text/plain", ".bash" := "text/plain",
    ".zsh" := "text/plain", ".fish" := "text/plain", ".bat" := "text/plain", ".cmd" := "text/plain",
    ".ps1" := "text/plain", ".py" := "text/plain", ".js" := "text/plain", ".ts" := "text/plain",
    ".jsx" := "text/plain", ".tsx" := "text/plain", ".css" := "text/plain", ".scss" := "text/plain",
    ".sass" := "text/plain", ".less" := "text/plain", ".php" := "text/plain", ".rb" := "text/plain",
    ".pl" := "text/plain", ".lua" := "text/plain", ".java" := "text/plain", ".c" := "text/plain",
    ".cc" := "text/plain", ".cpp" := "text/plain", ".cxx" := "text/plain", ".h" := "text/plain",
    ".hpp" := "text/plain", ".hxx" := "text/plain", ".cs" := "text/plain", ".go" := "text/plain",
    ".rs" := "text/plain", ".swift" := "text/plain", ".kt" := "text/plain", ".kts" := "text/plain",
    ".scala" := "text/plain", ".m" := "text/plain", ".mm" := "text/plain", ".bas" := "text/plain",
    ".vb" := "text/plain", ".vbs" := "text/plain", ".asm" := "text/plain", ".s" := "text/plain",
    ".f" := "text/plain", ".f90" := "text/plain", ".pas" := "text/plain", ".ada" := "text/plain",
    ".cob" := "text/plain", ".for" := "text/plain", ".hs" := "text/plain", ".ml" := "text/plain",
    ".fs" := "text/plain", ".clj" := "text/plain", ".lisp" := "text/plain", ".scm" := "text/plain",
    ".erl" := "text/plain", ".ex" := "text/plain", ".exs" := "text/plain", ".r" := "text/plain",
    ".jl" := "text/plain", ".ipynb" := "text/plain", ".sql" := "text/plain", ".vue" := "text/plain",
    ".svelte" := "text/plain", ".ejs" := "text/plain", ".hbs" := "text/plain", ".jade" := "text/plain",
    ".pug" := "text/plain", ".gradle" := "text/plain", ".make" := "text/plain", ".cmake" := "text/plain",
    ".dockerfile" := "text/plain", ".dockerignore" := "text/plain", ".gitignore" := "text/plain",
    ".gitattributes" := "text/plain", ".editorconfig" := "text/plain", ".env" := "text/plain",
    ".rst" := "text/plain", ".asciidoc" := "text/plain", ".adoc" := "text/plain", ".textile" := "text/plain"
  ]

  /** The extension table of the file handlers' `get_mime_type`. */
  const HANDLER_TABLE: map<string, string> := map[
    ".pdf" := "application/pdf", ".txt" := "text/plain", ".md" := "text/markdown",
    ".rtf" := "application/rtf", ".html" := "text/html", ".htm" := "text/html",
    ".json" := "application/json", ".xml" := "application/xml", ".csv" := "text/csv", ".jpg" := "image/jpeg",
    ".jpeg" := "image/jpeg", ".png" := "image/png", ".gif" := "image/gif", ".webp" := "image/webp",
    ".heic" := "image/heic", ".heif" := "image/heif", ".svg" := "image/svg+xml", ".mp4" := "video/mp4",
    ".mov" := "video/quicktime", ".avi" := "video/x-msvideo", ".mpeg" := "video/mpeg",
    ".mpg" := "video/mpeg", ".flv" := "video/x-flv", ".webm" := "video/webm", ".wmv" := "video/wmv",
    ".3gp" := "video/3gpp", ".mp3" := "audio/mpeg", ".wav" := "audio/wav", ".aiff" := "audio/aiff",
    ".aif" := "audio/aiff", ".aac" := "audio/aac", ".ogg" := "audio/ogg", ".flac" := "audio/flac",
    ".ods" := "application/vnd.oasis.opendocument.spreadsheet",
    ".odp" := "application/vnd.oasis.opendocument.presentation",
    ".odt" := "application/vnd.oasis.opendocument.text", ".py" := "text/plain", ".js" := "text/plain",
    ".ts" := "text/plain", ".jsx" := "text/plain", ".tsx" := "text/plain", ".java" := "text/plain",
    ".c" := "text/plain", ".cpp" := "text/plain", ".h" := "text/plain", ".hpp" := "text/plain",
    ".cs" := "text/plain", ".go" := "text/plain", ".rs" := "text/plain", ".swift" := "text/plain",
    ".kt" := "text/plain", ".scala" := "text/plain", ".rb" := "text/plain", ".php" := "text/plain",
    ".yaml" := "text/plain", ".yml" := "text/plain", ".toml" := "text/plain", ".ini" := "text/plain",
    ".cfg" := "text/plain", ".conf" := "text/plain", ".sh" := "text/plain", ".bash" := "text/plain",
    ".sql" := "text/plain", ".r" := "text/plain", ".jl" := "text/plain", ".ipynb" := "text/plain"
  ]

  /** The lower-cased `splitext` extension the tables are keyed by. */
  function TableKey(filename: string): string {
    Lower(SplitExt(filename).1)
  }

  /** `get_mime_type` over a table: the platform guess when it is truthy,
      otherwise the table entry for the extension, otherwise the generic
      binary type. */
  function MimeFromTable(table: map<string, string>, filename: string, guess: Option<string>): (m: string)
    ensures guess.Some? && guess.value != [] ==> m == guess.value
    ensures (guess.None? || guess.value == []) && TableKey(filename) in table ==> m == table[TableKey(filename)]
    ensures (guess.None? || guess.value == []) && TableKey(filename) !in table ==> m == OCTET_STREAM
  {
    if guess.Some? && guess.value != [] then guess.value
    else
      var ext := TableKey(filename);
      if ext in table then table[ext] else OCTET_STREAM
  }

  function WindowMimeType(filename: string, guess: Option<string>): string {
    MimeFromTable(WINDOW_TABLE, filename, guess)
  }

  function HandlerMimeType(filename: string, guess: Option<string>): string {
    MimeFromTable(HANDLER_TABLE, filename, guess)
  }

  /** The table lookup ignores the case of the file name: a name and its
      lower-cased form get the same type from either table. */
  lemma MimeIgnoresCase(table: map<string, string>, filename: string, guess: Option<string>)
    ensures MimeFromTable(table, Lower(filename), guess) == MimeFromTable(table, filename, guess)
  {
    SplitExtLower(filename);
    LowerIdempotent(SplitExt(filename).1);
  }

  /** The conversions applied before upload. */
  datatype Conversion = NoConversion | DocxToPdf | XlsxToCsv | OdsToCsv | PptxToText | OdpToText | OdtToText

  /** The type the converted file is uploaded as. */
  function ConvertedMime(c: Conversion): string
    requires c != NoConversion
  {
    match c
    case DocxToPdf => "application/pdf"
    case XlsxToCsv => "text/csv"
    case OdsToCsv => "text/csv"
    case PptxToText => "text/plain"
    case OdpToText => "text/plain"
    case OdtToText => "text/plain"
  }

  /** The conversion dispatch of the desktop window's
      `process_file_upload`, by lower-cased name suffix. */
  function WindowConversion(fileName: string): (c: Conversion)
    ensures c != DocxToPdf
    ensures c == NoConversion <==>
              (!EndsWith(Lower(fileName), ".xlsx") && !EndsWith(Lower(fileName), ".ods")
               && !EndsWith(Lower(fileName), ".pptx") && !EndsWith(Lower(fileName), ".odp") && !EndsWith(Lower(fileName), ".odt"))
  {
    var n := Lower(fileName);
    if EndsWith(n, ".xlsx") then XlsxToCsv
    else if EndsWith(n, ".ods") then OdsToCsv
    else if EndsWith(n, ".pptx") then PptxToText
    else if EndsWith(n, ".odp") then OdpToText
    else if EndsWith(n, ".odt") then OdtToText
    else NoConversion
  }

  /** The conversion dispatch of the file handlers' `process_file_upload`. */
  function HandlerConversion(fileName: string): (c: Conversion)
    ensures c != PptxToText
    ensures c == NoConversion <==>
              (!EndsWith(Lower(fileName), ".docx") && !EndsWith(Lower(fileName), ".xlsx")
               && !EndsWith(Lower(fileName), ".ods") && !EndsWith(Lower(fileName), ".odp") && !EndsWith(Lower(fileName), ".odt"))
  {
    var n := Lower(fileName);
    if EndsWith(n, ".docx") then DocxToPdf
    else if EndsWith(n, ".xlsx") then XlsxToCsv
    else if EndsWith(n, ".ods") then OdsToCsv
    else if EndsWith(n, ".odp") then OdpToText
    else if EndsWith(n, ".odt") then OdtToText
    else NoConversion
  }

  /** The two dispatches differ only on Word documents, which only the
      handlers convert, and PowerPoint decks, which only the window does. */
  lemma ConversionVariantsAgree(fileName: string)
    requires !EndsWith(Lower(fileName), ".docx") && !EndsWith(Lower(fileName), ".pptx")
    ensures WindowConversion(fileName) == HandlerConversion(fileName)
  {
  }

  /** The MIME type the window's `process_file_upload` uploads with. */
  function WindowUploadMime(fileName: string, guess: Option<string>): (m: string)
    ensures WindowConversion(fileName) != NoConversion ==> m == ConvertedMime(WindowConversion(fileName))
    ensures WindowConversion(fileName) == NoConversion ==> m == WindowMimeType(fileName, guess)
  {
    var c := WindowConversion(fileName);
    if c != NoConversion then ConvertedMime(c) else WindowMimeType(fileName, guess)
  }

  /** The MIME type the handlers' `process_file_upload` uploads with; a
      truthy `overrideMime` is used only when no conversion applies. */
  function HandlerUploadMime(fileName: string, overrideMime: Option<string>, guess: Option<string>): (m: string)
    ensures HandlerConversion(fileName) != NoConversion ==> m == ConvertedMime(HandlerConversion(fileName))
    ensures HandlerConversion(fileName) == NoConversion && overrideMime.Some? && overrideMime.value != [] ==> m == overrideMime.value
    ensures HandlerConversion(fileName) == NoConversion && (overrideMime.None? || overrideMime.value == []) ==> m == HandlerMimeType(fileName, guess)
  {
    var c := HandlerConversion(fileName);
    if c != NoConversion then ConvertedMime(c)
    else if overrideMime.Some? && overrideMime.value != [] then overrideMime.value
    else HandlerMimeType(fileName, guess)
  }

  /** A spreadsheet is uploaded as CSV by both variants, whatever its case
      and whatever the platform guesses. */
  lemma SpreadsheetsUploadAsCsv(fileName: string, overrideMime: Option<string>, guess: Option<string>)
    requires EndsWith(Lower(fileName), ".xlsx") || EndsWith(Lower(fileName), ".ods")
    requires !EndsWith(Lower(fileName), ".docx")
    ensures WindowUploadMime(fileName, guess) == "text/csv"
    ensures HandlerUploadMime(fileName, overrideMime, guess) == "text/csv"
  {
  }
}
