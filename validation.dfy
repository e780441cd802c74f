/** Input validators: bound and format checks that either return the
    (normalised) input or reject it with a `ValidationError`. */
module Validation {
  import opened Wrappers
  import opened Text
  import Urls

  const MAX_FILE_SIZE: nat := 100 * 1024 * 1024
  const MAX_URL_LENGTH: nat := 2048
  const MAX_MESSAGE_LENGTH: nat := 50000
  const ALLOWED_URL_SCHEMES: set<string> := {"http", "https"}
  const DANGEROUS_EXTENSIONS: set<string> := {".exe", ".bat", ".cmd", ".com", ".scr", ".vbs", ".msi", ".dll"}
  /** Host-name prefixes refused as local or private addresses. */
  const PRIVATE_PREFIXES: seq<string> := ["localhost", "127.", "10.", "172.16.", "192.168.", "169.254."]
  const VALID_THINKING_LEVELS: set<string> := {"minimal", "low", "medium", "high"}
  const VALID_CHART_TYPES: set<string> := {"line", "bar", "pie", "scatter"}

  /** One constructor per distinct message the validators raise. */
  datatype ValidationError =
    | FileTooLarge                        // "File exceeds 100MB limit"
    | FileEmpty                           // "File is empty"
    | FileInaccessible                    // "Cannot access file: ..."
    | ExtensionNotAllowed(ext: string)    // "File type <ext> not allowed ..."
    | UrlMissing                          // "URL must be a non-empty string"
    | UrlTooLong                          // "URL exceeds 2048 character limit"
    | SchemeNotAllowed(scheme: string)    // "URL scheme must be http or https, got: <scheme>"
    | PrivateAddress                      // "Cannot access local or private IP addresses"
    | MalformedUrl(reason: string)        // "Malformed URL: <reason>"
    | MessageMissing                      // "Message must be a non-empty string"
    | MessageBlank                        // "Message cannot be empty"
    | MessageTooLong                      // "Message exceeds 50000 character limit"
    | ApiKeyMissing                       // "API key must be a non-empty string"
    | ApiKeyFormat                        // "API key format appears invalid"
    | ApiKeyTooShort                      // "API key too short"
    | ApiKeyCharacters                    // "API key contains invalid characters"
    | ThinkingLevelInvalid                // "Thinking level must be one of: ..."
    | ChartTypeInvalid                    // "Chart type must be one of: ..."
    | RateLimited                         // "Rate limit exceeded. ..."

  /** `validate_file_size`; `size` is the result of `os.path.getsize`, None
      when that raised `OSError`. */
  function ValidateFileSize(size: Option<nat>): (r: Result<nat, ValidationError>)
    ensures r.Ok? <==> size.Some? && 0 < size.value <= MAX_FILE_SIZE
    ensures r.Ok? ==> r.value == size.value
    ensures size.None? ==> r == Err(FileInaccessible)
    ensures size.Some? && size.value > MAX_FILE_SIZE ==> r == Err(FileTooLarge)
  {
    if size.None? then Err(FileInaccessible)
    else if size.value > MAX_FILE_SIZE then Err(FileTooLarge)
    else if size.value == 0 then Err(FileEmpty)
    else Ok(size.value)
  }

  /** The lower-cased `splitext` extension the extension check looks at. */
  function LoweredExtension(filename: string): (ext: string)
    ensures ext == [] || (ext[0] == '.' && '/' !in ext)
  {
    Lower(SplitExt(filename).1)
  }

  /** `validate_file_extension`. */
  function ValidateFileExtension(filename: string): (r: Result<(), ValidationError>)
    ensures r.Err? <==> LoweredExtension(filename) in DANGEROUS_EXTENSIONS
    ensures r.Err? ==> r.error == ExtensionNotAllowed(LoweredExtension(filename))
  {
    var ext := LoweredExtension(filename);
    if ext in DANGEROUS_EXTENSIONS then Err(ExtensionNotAllowed(ext)) else Ok(())
  }

  /** A name ending in `ext` after a character that is neither '.' nor '/'
      has exactly `ext`, lower-cased, checked: so ".EXE" is refused like
      ".exe". */
  lemma ExtensionOfSuffix(stem: string, ext: string)
    requires |stem| > 0 && stem[|stem| - 1] != '.' && stem[|stem| - 1] != '/'
    requires |ext| > 0 && ext[0] == '.' && '/' !in ext && '.' !in ext[1..]
    ensures LoweredExtension(stem + ext) == Lower(ext)
    ensures ValidateFileExtension(stem + ext).Err? <==> Lower(ext) in DANGEROUS_EXTENSIONS
  {
    var p := stem + ext;
    forall k | |stem| < k < |p| ensures p[k] != '.' {
      assert p[k] == ext[1..][k - |stem| - 1];
    }
    forall k | |stem| - 1 <= k < |p| ensures p[k] != '/' {
      if k >= |stem| {
        assert p[k] == ext[k - |stem|];
      }
    }
    var dot := RFind(p, '.');
    assert p[|stem|] == '.';
    assert dot == |stem|;
    var sep := RFind(p, '/');
    assert sep < |stem| - 1;
    assert p[|stem| - 1] != '.';
    assert SplitExt(p) == (stem, ext);
  }

  /** `splitext` gives a hidden file such as ".exe" no extension, so a file
      named just that is accepted. */
  lemma HiddenExecutableNameAccepted()
    ensures ValidateFileExtension(".exe").Ok?
  {
    assert SplitExt(".exe") == (".exe", "");
  }

  predicate HasPrivatePrefix(host: string) {
    exists p :: p in PRIVATE_PREFIXES && StartsWith(host, p)
  }

  /** What `validate_url` demands of the parsed URL: an allowed scheme and
      no host name in the private ranges. */
  predicate AllowedTarget(p: Urls.SplitResult) {
    && p.scheme in ALLOWED_URL_SCHEMES
    && (Urls.Hostname(p).Some? ==> !HasPrivatePrefix(Lower(Urls.Hostname(p).value)))
  }

  /** The checks `validate_url` makes on the stripped URL inside its
      `try`: a parse error becomes `MalformedUrl`. */
  function CheckParsedUrl(u: string): (r: Result<string, ValidationError>)
    ensures r.Ok? ==> r.value == u && u != []
    ensures r.Ok? <==> Urls.UrlSplit(u).Ok? && AllowedTarget(Urls.UrlSplit(u).value)
  {
    var parsed := Urls.UrlSplit(u);
    if parsed.Err? then Err(MalformedUrl(parsed.error))
    else if parsed.value.scheme !in ALLOWED_URL_SCHEMES then Err(SchemeNotAllowed(parsed.value.scheme))
    else
      var host := Urls.Hostname(parsed.value);
      if host.Some? && HasPrivatePrefix(Lower(host.value)) then Err(PrivateAddress)
      else
        AllowedSchemeNonEmpty(u);
        Ok(u)
  }

  lemma AllowedSchemeNonEmpty(u: string)
    requires Urls.UrlSplit(u).Ok? && Urls.UrlSplit(u).value.scheme in ALLOWED_URL_SCHEMES
    ensures u != []
  {
    var p := Urls.UrlSplit(u);
    assert |p.value.scheme| <= |u|;
    assert |p.value.scheme| >= 4;
  }

  /** `validate_url`: returns the stripped URL. */
  function ValidateUrl(url: string): (r: Result<string, ValidationError>)
    ensures r.Ok? ==> r.value == Strip(url) && |r.value| <= MAX_URL_LENGTH
    ensures r.Ok? <==> url != [] && |Strip(url)| <= MAX_URL_LENGTH && CheckParsedUrl(Strip(url)).Ok?
    ensures url == [] ==> r == Err(UrlMissing)
    ensures url != [] && |Strip(url)| > MAX_URL_LENGTH ==> r == Err(UrlTooLong)
  {
    if url == [] then Err(UrlMissing)
    else
      var u := Strip(url);
      if |u| > MAX_URL_LENGTH then Err(UrlTooLong)
      else CheckParsedUrl(u)
  }

  /** Validating an accepted URL accepts it again, unchanged. */
  lemma ValidateUrlIdempotent(url: string)
    requires ValidateUrl(url).Ok?
    ensures ValidateUrl(ValidateUrl(url).value) == ValidateUrl(url)
  {
    var u := Strip(url);
    StripIdempotent(url);
    assert ValidateUrl(u) == CheckParsedUrl(u);
  }

  /** `validate_message`: strip, bound the length, then drop NULs. */
  function ValidateMessage(message: string): (r: Result<string, ValidationError>)
    ensures r.Ok? <==> Strip(message) != [] && |Strip(message)| <= MAX_MESSAGE_LENGTH
    ensures r.Ok? ==> '\0' !in r.value && |r.value| <= MAX_MESSAGE_LENGTH
    ensures r.Ok? ==> r.value == RemoveChar(Strip(message), '\0')
  {
    if message == [] then Err(MessageMissing)
    else
      var m := Strip(message);
      if m == [] then Err(MessageBlank)
      else if |m| > MAX_MESSAGE_LENGTH then Err(MessageTooLong)
      else Ok(RemoveChar(m, '\0'))
  }

  /** NUL removal happens after the strip, so the result may itself have
      whitespace at its ends and is not a fixed point. */
  lemma ValidateMessageNotIdempotent()
    ensures ValidateMessage("\0 a") == Ok(" a")
    ensures ValidateMessage(" a") == Ok("a")
  {
    NulRemovedAfterStrip();
    SpaceStripped();
  }

  lemma NulRemovedAfterStrip()
    ensures ValidateMessage("\0 a") == Ok(" a")
  {
    StripUnchanged("\0 a");
    NulDropped();
  }

  lemma NulDropped()
    ensures RemoveChar("\0 a", '\0') == " a"
  {
    assert "\0 a"[0] == '\0' && "\0 a"[1..] == " a";
    assert RemoveChar(" a", '\0') == " a";
  }

  lemma SpaceStripped()
    ensures ValidateMessage(" a") == Ok("a")
  {
    assert LeadingSpaces(" a") == 1;
    assert StripLeft(" a") == "a";
    StripUnchanged("a");
  }

  predicate IsKeyChar(c: char) {
    ('A' <= c <= 'Z') || ('a' <= c <= 'z') || ('0' <= c <= '9') || c == '_' || c == '-'
  }

  predicate AllKeyChars(s: string) {
    forall k :: 0 <= k < |s| ==> IsKeyChar(s[k])
  }

  /** `re.match(r'^[A-Za-z0-9_-]+$', s)`: one or more key characters, where
      `$` may also match just before a final newline. */
  predicate KeyPatternMatches(s: string) {
    (|s| >= 1 && AllKeyChars(s))
    || (|s| >= 2 && s[|s| - 1] == '\n' && AllKeyChars(s[..|s| - 1]))
  }

  /** `validate_api_key`. */
  function ValidateApiKey(apiKey: string): (r: Result<bool, ValidationError>)
    ensures r.Ok? ==> r.value
    ensures r.Ok? <==> StartsWith(Strip(apiKey), "AIza") && |Strip(apiKey)| >= 30 && AllKeyChars(Strip(apiKey))
  {
    if apiKey == [] then Err(ApiKeyMissing)
    else
      var k := Strip(apiKey);
      if !StartsWith(k, "AIza") then Err(ApiKeyFormat)
      else if |k| < 30 then Err(ApiKeyTooShort)
      else if !KeyPatternMatches(k) then Err(ApiKeyCharacters)
      else Ok(true)
  }

  /** The stripped string `validate_api_key` matches never ends in a newline,
      so the newline alternative of `$` never applies there. */
  lemma StrippedKeyPattern(s: string)
    ensures KeyPatternMatches(Strip(s)) <==> |Strip(s)| >= 1 && AllKeyChars(Strip(s))
  {
  }

  /** The name after `basename` and the removal of "..", '/', '\\' and NUL. */
  function CleanedFilename(filename: string): (f: string)
    ensures '/' !in f && '\\' !in f && '\0' !in f
  {
    RemoveChar(RemoveChar(RemoveChar(RemoveDotDot(Basename(filename)), '/'), '\\'), '\0')
  }

  /** `sanitize_filename`. */
  function SanitizeFilename(filename: string): (r: string)
    ensures '/' !in r && '\\' !in r && '\0' !in r
    ensures |CleanedFilename(filename)| <= 255 ==> r == CleanedFilename(filename)
    ensures |CleanedFilename(filename)| > 255 ==>
              var (stem, ext) := SplitExt(CleanedFilename(filename));
              && EndsWith(r, ext)
              && StartsWith(stem, r[..|r| - |ext|])
              && |r| - |ext| == if |stem| < 250 then |stem| else 250
  {
    var f := CleanedFilename(filename);
    if |f| > 255 then
      var (stem, ext) := SplitExt(f);
      assert forall x :: x in stem ==> x in f;
      Take(stem, 250) + ext
    else f
  }

  /** As written, ".." is removed before the backslashes, so removing a
      backslash can join two dots into a fresh "..": ".\\." comes out as
      the parent-directory name. */
  lemma SanitizeCanYieldDotDot(n: string)
    requires n == ['.', '\\', '.']
    ensures SanitizeFilename(n) == ".."
  {
    var dots := ['.', '.'];
    BackslashExampleCleaned(n);
    assert |dots| <= 255;
    assert SanitizeFilename(n) == dots;
  }

  lemma BackslashExampleCleaned(n: string)
    requires n == ['.', '\\', '.']
    ensures CleanedFilename(n) == ['.', '.']
  {
    BasenameWithoutSlash(n);
    DotBackslashDotHasNoPair(n);
    NoDotDotUnchanged(n);
    CleanedSteps(n, n, n);
    RemoveMiddle('.', '.', '/', '\\');
    NulFree(['.', '.']);
  }

  /** `CleanedFilename` one removal at a time. */
  lemma CleanedSteps(filename: string, base: string, kept: string)
    requires Basename(filename) == base && RemoveDotDot(base) == kept
    ensures CleanedFilename(filename) == RemoveChar(RemoveChar(RemoveChar(kept, '/'), '\\'), '\0')
  {
  }

  lemma DotBackslashDotHasNoPair(n: string)
    requires n == ['.', '\\', '.']
    ensures NoDotPair(n)
  {
  }

  lemma NulFree(s: string)
    requires '\0' !in s
    ensures RemoveChar(s, '\0') == s
  {
  }

  /** A name without '/' is its own base name. */
  lemma BasenameWithoutSlash(n: string)
    requires '/' !in n
    ensures Basename(n) == n
  {
  }

  /** Removing the middle character of three joins its neighbours; a
      character that is absent changes nothing. */
  lemma RemoveMiddle(x: char, y: char, absent: char, c: char)
    requires x != c && y != c && x != absent && y != absent && c != absent
    ensures RemoveChar(RemoveChar([x, c, y], absent), c) == [x, y]
  {
    var s := [x, c, y];
    assert absent !in s;
    assert RemoveChar(s, absent) == s;
    RemoveCharSplit(x, c, y);
  }

  lemma RemoveCharSplit(x: char, c: char, y: char)
    requires x != c && y != c
    ensures RemoveChar([x, c, y], c) == [x, y]
  {
    var s := [x, c, y];
    assert s[1..] == [c, y] && s[1..][1..] == [y] && [y][1..] == [];
    assert RemoveChar([y], c) == [y] + RemoveChar([], c);
    assert RemoveChar([c, y], c) == [] + RemoveChar([y], c);
    assert RemoveChar(s, c) == [x] + RemoveChar([c, y], c);
  }

  /** The removals with ".." taken out last, once no separator or NUL is
      left to join two dots. */
  function SafeCleanedFilename(filename: string): (f: string)
    ensures '/' !in f && '\\' !in f && '\0' !in f
    ensures NoDotPair(f)
  {
    RemoveDotDot(RemoveChar(RemoveChar(RemoveChar(Basename(filename), '/'), '\\'), '\0'))
  }

  /** `sanitize_filename` with that order: the result is never "..",
      whatever the input. */
  function SafeSanitizeFilename(filename: string): (r: string)
    ensures '/' !in r && '\\' !in r && '\0' !in r
    ensures r != ".."
    ensures |SafeCleanedFilename(filename)| <= 255 ==> r == SafeCleanedFilename(filename) && NoDotPair(r)
    ensures |SafeCleanedFilename(filename)| > 255 ==> |r| >= 250
  {
    var f := SafeCleanedFilename(filename);
    if |f| > 255 then
      var (stem, ext) := SplitExt(f);
      assert forall x :: x in stem ==> x in f;
      LongCutStaysLong(stem, ext);
      Take(stem, 250) + ext
    else
      PairFreeNotDotDot(f);
      f
  }

  lemma PairFreeNotDotDot(f: string)
    requires NoDotPair(f)
    ensures f != ".."
  {
    if |f| >= 2 {
      assert !(f[0] == '.' && f[1] == '.');
    }
  }

  /** "a." and a dot-free tail hold a single dot. */
  lemma OneDotHasNoPair(ext: string)
    requires '.' !in ext
    ensures NoDotPair("a." + ext)
  {
    var n := "a." + ext;
    forall i | 0 <= i < |n| - 1
      ensures !(n[i] == '.' && n[i + 1] == '.')
    {
      if i >= 1 {
        assert n[i + 1] == ext[i - 1];
      }
    }
  }

  /** Cutting the stem of a name of more than 255 characters to 250 leaves
      at least 250 characters. */
  lemma LongCutStaysLong(stem: string, ext: string)
    requires |stem| + |ext| > 255
    ensures |Take(stem, 250) + ext| >= 250
  {
  }

  /** A long name whose extension is itself long stays longer than 255
      characters: only the stem is cut. */
  lemma SanitizeKeepsLongExtension(ext: string)
    requires |ext| == 300 && forall k :: 0 <= k < |ext| ==> ext[k] == 'x'
    ensures |SanitizeFilename("a." + ext)| == 302
  {
    var n := "a." + ext;
    assert '.' !in ext && '/' !in n && '\\' !in n && '\0' !in n;
    assert Basename(n) == n;
    OneDotHasNoPair(ext);
    NoDotDotUnchanged(n);
    assert CleanedFilename(n) == n;
    DotNameSplit(ext);
  }

  /** "a." followed by a dot-free extension splits after the "a". */
  lemma DotNameSplit(ext: string)
    requires '.' !in ext && '/' !in ext
    ensures SplitExt("a." + ext) == ("a", "." + ext)
  {
    var n := "a." + ext;
    assert forall k :: 1 < k < |n| ==> n[k] == ext[k - 2];
    RFindUnique(n, '.', 1);
    RFindUnique(n, '/', -1);
    assert n[0] != '.';
    assert n[..1] == "a" && n[1..] == "." + ext;
  }

  lemma {:induction false} NoDotDotUnchanged(s: string)
    requires NoDotPair(s)
    ensures RemoveDotDot(s) == s
    decreases |s|
  {
    if s != [] {
      assert NoDotPair(s[1..]) by {
        forall i | 0 <= i < |s[1..]| - 1
          ensures !(s[1..][i] == '.' && s[1..][i + 1] == '.')
        {
          assert s[1..][i] == s[i + 1] && s[1..][i + 1] == s[i + 2];
        }
      }
      NoDotDotUnchanged(s[1..]);
    }
  }

  /** `validate_thinking_level`: the normalised level when it is one of the
      four known ones. */
  function ValidateThinkingLevel(level: string): (r: Result<string, ValidationError>)
    ensures r.Ok? <==> Strip(Lower(level)) in VALID_THINKING_LEVELS
    ensures r.Ok? ==> r.value == Strip(Lower(level))
    ensures r.Err? ==> r.error == ThinkingLevelInvalid
  {
    var l := Strip(Lower(level));
    if l in VALID_THINKING_LEVELS then Ok(l) else Err(ThinkingLevelInvalid)
  }

  lemma ValidateThinkingLevelIdempotent(level: string)
    requires ValidateThinkingLevel(level).Ok?
    ensures ValidateThinkingLevel(ValidateThinkingLevel(level).value) == ValidateThinkingLevel(level)
  {
    NormalizeIdempotent(level);
  }

  /** `validate_chart_type`, the same check over the four chart types. */
  function ValidateChartType(chartType: string): (r: Result<string, ValidationError>)
    ensures r.Ok? <==> Strip(Lower(chartType)) in VALID_CHART_TYPES
    ensures r.Ok? ==> r.value == Strip(Lower(chartType))
    ensures r.Err? ==> r.error == ChartTypeInvalid
  {
    var t := Strip(Lower(chartType));
    if t in VALID_CHART_TYPES then Ok(t) else Err(ChartTypeInvalid)
  }

  lemma ValidateChartTypeIdempotent(chartType: string)
    requires ValidateChartType(chartType).Ok?
    ensures ValidateChartType(ValidateChartType(chartType).value) == ValidateChartType(chartType)
  {
    NormalizeIdempotent(chartType);
  }

  /** `check_rate_limit` over integer timestamps: a falsy last time (None or
      0) never limits. */
  function CheckRateLimit(lastRequestTime: Option<int>, now: int, minInterval: int): (r: Result<bool, ValidationError>)
    ensures r.Ok? ==> r.value
    ensures r.Err? <==> lastRequestTime.Some? && lastRequestTime.value != 0 && now - lastRequestTime.value < minInterval
  {
    if lastRequestTime.Some? && lastRequestTime.value != 0 && now - lastRequestTime.value < minInterval then Err(RateLimited)
    else Ok(true)
  }
}
