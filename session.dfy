/** The state of one desktop window: the shelf of uploaded files, the
    text-only conversation, the handle of the context cache that holds the
    shelf, and the thinking level and preset of the streaming chat. The
    operations are the window's handlers; every service call goes through
    the `Gemini.Client` oracle, and every local library result is a
    parameter. */
module Session {
  import opened Wrappers
  import opened Text
  import opened Gemini
  import opened Shelf
  import Mime
  import Meter
  import Registry
  import Conversions
  import Urls

  const MAX_FILES: nat := 50

  /** The default system prompt, abbreviated to its opening sentence. */
  const SYSTEM_PROMPT: string := "You are an expert analyst assistant running on Gemini 3 Flash with advanced multimodal capabilities."

  /** The model turn that acknowledges the default system prompt. */
  const DEFAULT_ACK: string := "Understood. I will provide expert analysis with specific references to page numbers, timestamps (in MM:SS format with seconds), and data locations as appropriate."

  /** The name prefix of a scraped page: the link mark and a blank. */
  const LINK_NAME_PREFIX: string := LINK_MARK + " "

  function UserText(t: string): Content {
    Content(User, [TextPart(t)])
  }

  function ModelText(t: string): Content {
    Content(Model, [TextPart(t)])
  }

  /** One file part per shelf entry, in shelf order. */
  function FileParts(files: seq<FileRecord>): (parts: seq<Part>)
    ensures |parts| == |files|
    ensures forall k :: 0 <= k < |files| ==> parts[k] == FilePart(files[k].uri, files[k].mime)
  {
    seq(|files|, k requires 0 <= k < |files| => FilePart(files[k].uri, files[k].mime))
  }

  /** The contents a cache is created with: one user message of all files. */
  function CacheContents(files: seq<FileRecord>): seq<Content> {
    [Content(User, FileParts(files))]
  }

  /** The opening pair of every request: the system prompt and its ack. */
  function Preamble(prompt: string, ack: string): seq<Content> {
    [UserText(prompt), ModelText(ack)]
  }

  /** Every part of every message is text. */
  predicate TextOnly(messages: seq<Content>) {
    forall k, j :: 0 <= k < |messages| && 0 <= j < |messages[k].parts| ==> messages[k].parts[j].TextPart?
  }

  /** The request of one chat turn: preamble, history, then the query;
      without a cache and with files on the shelf the query message also
      carries every file, before the text. */
  function ChatMessages(prompt: string, ack: string, history: seq<Content>, query: string,
                        files: seq<FileRecord>, cached: bool): (m: seq<Content>)
    ensures |m| == |history| + 3
    ensures m[..2] == Preamble(prompt, ack) && m[2..|m| - 1] == history
    ensures cached || files == [] ==> m[|m| - 1] == UserText(query)
    ensures !cached && files != [] ==> m[|m| - 1] == Content(User, FileParts(files) + [TextPart(query)])
  {
    var last := if cached || files == [] then UserText(query) else Content(User, FileParts(files) + [TextPart(query)]);
    Preamble(prompt, ack) + history + [last]
  }

  /** With a cache, or with an empty shelf, a request built on a text-only
      history carries no file at all. */
  lemma CachedRequestIsTextOnly(prompt: string, ack: string, history: seq<Content>, query: string,
                                files: seq<FileRecord>, cached: bool)
    requires TextOnly(history)
    requires cached || files == []
    ensures TextOnly(ChatMessages(prompt, ack, history, query, files, cached))
  {
    var m := ChatMessages(prompt, ack, history, query, files, cached);
    forall k, j | 0 <= k < |m| && 0 <= j < |m[k].parts| ensures m[k].parts[j].TextPart? {
      if 2 <= k < |m| - 1 {
        assert m[k] == m[2..|m| - 1][k - 2] == history[k - 2];
      }
    }
  }

  /** What the context meter counts: the default preamble, the history
      and, when the shelf is not empty, one message with all files. */
  function MeterContents(history: seq<Content>, files: seq<FileRecord>): seq<Content> {
    Preamble(SYSTEM_PROMPT, DEFAULT_ACK) + history + (if files == [] then [] else CacheContents(files))
  }

  /** A cache handle is used only when it is truthy. */
  predicate Held(name: Option<string>) {
    name.Some? && name.value != []
  }

  /** The service calls of a cache rebuild. */
  function RebuildCalls(name: Option<string>, files: seq<FileRecord>): seq<Call> {
    (if Held(name) then [DeleteCacheCall(name.value)] else [])
    + (if files == [] then [] else [CreateCacheCall(CacheContents(files))])
  }

  /** The handle after a rebuild: the new cache's name when the shelf is
      not empty and creation succeeds; otherwise cleared, unless the old
      handle was already falsy. */
  function RebuiltName(name: Option<string>, files: seq<FileRecord>, creates: seq<Result<string, string>>): Option<string> {
    if files != [] && Next(creates).Ok? then Some(Next(creates).value)
    else if Held(name) then None
    else name
  }

  /** The replies a rebuild consumes. */
  function RebuiltScript(name: Option<string>, files: seq<FileRecord>, script: Script): Script {
    script.(deletes := if Held(name) then Rest(script.deletes) else script.deletes,
            creates := if files != [] then Rest(script.creates) else script.creates)
  }

  /** A rebuild never keeps the old handle: afterwards the window holds
      the new cache's name or nothing, whether or not the deletion
      succeeded; an empty shelf ends with no cache. */
  lemma RebuildDropsOldHandle(name: Option<string>, files: seq<FileRecord>, creates: seq<Result<string, string>>)
    ensures Held(RebuiltName(name, files, creates)) ==>
              files != [] && Next(creates).Ok? && RebuiltName(name, files, creates) == Some(Next(creates).value)
    ensures files == [] ==> !Held(RebuiltName(name, files, creates))
    ensures (files == [] || Next(creates).Err?) && Held(name) ==> RebuiltName(name, files, creates) == None
  {
  }

  /** How a handler ended: nothing to do, refused at the capacity check,
      stopped by an exception (its message), or done, with the meter. */
  datatype Outcome = Ignored | Rejected | Raised(message: string) | Completed(meter: Meter.Display)

  /** One picked file and the local results its upload needs: the
      converter's temporary file (or its exception), the platform's MIME
      guess for the name, and the thumbnail. */
  datatype Pick = Pick(path: string, name: string, converted: Result<string, string>,
                       guess: Option<string>, thumbnail: Option<string>)

  /** The file the window uploads for a pick: the converted file when a
      conversion applies, the picked file otherwise. */
  function UploadTarget(p: Pick): (r: Result<string, string>)
    ensures Mime.WindowConversion(p.name) == Mime.NoConversion ==> r == Ok(p.path)
    ensures Mime.WindowConversion(p.name) != Mime.NoConversion ==> r == p.converted
  {
    if Mime.WindowConversion(p.name) == Mime.NoConversion then Ok(p.path) else p.converted
  }

  /** The message of a file that ends FAILED. */
  function FailedMessage(name: string): string {
    "Failed to process " + name
  }

  /** What uploading a file and registering it yields, on every upload
      path: the record, named and illustrated by the caller and carrying
      the uri, type and token count the service gave back, or the first
      error among the local file, the upload, the wait and the count. */
  function Registration(name: string, thumbnail: Option<string>, target: Result<string, string>,
                        failMessage: string, script: Script): (r: Result<FileRecord, string>)
    ensures target.Err? ==> r == Err(target.error)
    ensures target.Ok? && Next(script.uploads).Err? ==> r == Err(Next(script.uploads).error)
    ensures target.Ok? && Next(script.uploads).Ok? ==>
              var settled := Registry.Settled(Next(script.uploads).value, script, failMessage);
              && (r.Ok? <==> settled.Ok?)
              && (settled.Err? ==> r == Err(settled.error))
              && (settled.Ok? ==> r.value == FileRecord(name, settled.value.0.uri, settled.value.0.mime, settled.value.1, thumbnail))
  {
    match target
    case Err(e) => Err(e)
    case Ok(_) =>
      match Next(script.uploads)
      case Err(e) => Err(e)
      case Ok(uploaded) =>
        match Registry.Settled(uploaded, script, failMessage)
        case Err(e) => Err(e)
        case Ok(settled) => Ok(FileRecord(name, settled.0.uri, settled.0.mime, settled.1, thumbnail))
  }

  /** Registration reads only the upload, get and count replies. */
  lemma RegistrationSameReplies(name: string, thumbnail: Option<string>, target: Result<string, string>,
                                failMessage: string, a: Script, b: Script)
    requires Registry.SameReplies(a, b)
    ensures Registration(name, thumbnail, target, failMessage, a) == Registration(name, thumbnail, target, failMessage, b)
  {
    if target.Ok? && Next(a.uploads).Ok? {
      Registry.SettledSameReplies(Next(a.uploads).value, a, b, failMessage);
    }
  }

  /** The upload of a picked file, which uploads `target`. */
  function PickUploaded(p: Pick, target: Result<string, string>, script: Script): Result<FileRecord, string> {
    Registration(p.name, p.thumbnail, target, FailedMessage(p.name), script)
  }

  /** Whether the window's upload of a pick gets as far as the shelf. */
  predicate UploadSucceeds(p: Pick, script: Script) {
    PickUploaded(p, UploadTarget(p), script).Ok?
  }

  /** The record a successful upload adds: the pick's name and thumbnail,
      with the uri, type and token count of the registered file. */
  function UploadedRecord(p: Pick, script: Script): (f: FileRecord)
    requires UploadSucceeds(p, script)
    ensures UploadTarget(p).Ok? && Next(script.uploads).Ok?
    ensures var settled := Registry.Settled(Next(script.uploads).value, script, FailedMessage(p.name));
            && settled.Ok?
            && f == FileRecord(p.name, settled.value.0.uri, settled.value.0.mime, settled.value.1, p.thumbnail)
  {
    PickUploaded(p, UploadTarget(p), script).value
  }

  /** The records a batch of picks adds and the error that ends it: the
      picks are uploaded in order against the replies still to come, and
      the first failure stops the batch with its message. `target` is the
      file the variant uploads for a pick. */
  function UploadBatch(picks: seq<Pick>, target: Pick -> Result<string, string>, script: Script)
    : (b: (seq<FileRecord>, Option<string>))
    ensures |b.0| <= |picks| && (b.1.None? <==> |b.0| == |picks|)
    ensures forall k :: 0 <= k < |b.0| ==> b.0[k].name == picks[k].name && b.0[k].thumbnail == picks[k].thumbnail
    decreases |picks|
  {
    if picks == [] then ([], None)
    else
      match PickUploaded(picks[0], target(picks[0]), script)
      case Err(e) => ([], Some(e))
      case Ok(f) =>
        var rest := UploadBatch(picks[1..], target, Registry.Registered(script));
        ([f] + rest.0, rest.1)
  }

  /** A batch of one file is that file's upload. */
  lemma UploadBatchSingle(p: Pick, target: Pick -> Result<string, string>, script: Script)
    ensures PickUploaded(p, target(p), script).Ok? ==>
              UploadBatch([p], target, script) == ([PickUploaded(p, target(p), script).value], None)
    ensures PickUploaded(p, target(p), script).Err? ==>
              UploadBatch([p], target, script) == ([], Some(PickUploaded(p, target(p), script).error))
  {
    assert [p][0] == p && [p][1..] == [];
    var rest := UploadBatch([], target, script);
    assert rest == ([], None);
    if PickUploaded(p, target(p), script).Ok? {
      assert [PickUploaded(p, target(p), script).value] + rest.0 == [PickUploaded(p, target(p), script).value];
    }
  }

  /** One step of a batch, read against replies that agree with the
      client's on uploads, gets and counts. */
  lemma UploadBatchStep(picks: seq<Pick>, i: nat, target: Pick -> Result<string, string>, current: Script, replies: Script)
    requires i < |picks| && Registry.SameReplies(current, replies)
    ensures var up := PickUploaded(picks[i], target(picks[i]), current);
            && up == PickUploaded(picks[i], target(picks[i]), replies)
            && (up.Err? ==> UploadBatch(picks[i..], target, replies) == ([], Some(up.error)))
            && (up.Ok? ==>
                  && Next(current.uploads).Ok?
                  && Registry.SameReplies(Registry.Registered(current), Registry.Registered(replies))
                  && UploadBatch(picks[i..], target, replies) ==
                       ([up.value] + UploadBatch(picks[i + 1..], target, Registry.Registered(replies)).0,
                        UploadBatch(picks[i + 1..], target, Registry.Registered(replies)).1))
  {
    var p := picks[i];
    RegistrationSameReplies(p.name, p.thumbnail, target(p), FailedMessage(p.name), current, replies);
    assert picks[i..][0] == p && picks[i..][1..] == picks[i + 1..];
    if PickUploaded(p, target(p), current).Ok? {
      Registry.SettledSameReplies(Next(current.uploads).value, current, replies, FailedMessage(p.name));
    }
  }

  /** Appending one record after a prefix. */
  lemma AppendRecord(files0: seq<FileRecord>, done: seq<FileRecord>, record: FileRecord)
    ensures (files0 + done) + [record] == files0 + (done + [record])
  {
  }

  /** Where a batch stands after its first `i` picks: `done` holds the
      records so far and, while no error has ended it, the rest of the
      batch is read against `replies`. */
  predicate BatchAt(picks: seq<Pick>, target: Pick -> Result<string, string>, script0: Script,
                    i: nat, done: seq<FileRecord>, replies: Script, error: Option<string>) {
    && i <= |picks|
    && (error.None? ==>
          UploadBatch(picks, target, script0) ==
            (done + UploadBatch(picks[i..], target, replies).0, UploadBatch(picks[i..], target, replies).1))
    && (error.Some? ==> UploadBatch(picks, target, script0) == (done, error))
  }

  /** A batch starts with nothing done. */
  lemma BatchAtStart(picks: seq<Pick>, target: Pick -> Result<string, string>, script0: Script)
    ensures BatchAt(picks, target, script0, 0, [], script0, None)
  {
    assert picks[0..] == picks;
    assert [] + UploadBatch(picks, target, script0).0 == UploadBatch(picks, target, script0).0;
  }

  /** A batch that has run out of picks or stopped at an error is done. */
  lemma BatchAtEnd(picks: seq<Pick>, target: Pick -> Result<string, string>, script0: Script,
                   i: nat, done: seq<FileRecord>, replies: Script, error: Option<string>)
    requires BatchAt(picks, target, script0, i, done, replies, error)
    requires i == |picks| || error.Some?
    ensures UploadBatch(picks, target, script0) == (done, error)
  {
    if error.None? {
      assert picks[i..] == [];
      assert done + [] == done;
    }
  }

  /** One more pick: a failure ends the batch with its message, a success
      moves its record into `done` and the replies past its upload. */
  lemma BatchAtNext(picks: seq<Pick>, target: Pick -> Result<string, string>, script0: Script,
                    i: nat, done: seq<FileRecord>, replies: Script)
    requires i < |picks| && BatchAt(picks, target, script0, i, done, replies, None)
    ensures var up := PickUploaded(picks[i], target(picks[i]), replies);
            && (up.Err? ==> BatchAt(picks, target, script0, i + 1, done, replies, Some(up.error)))
            && (up.Ok? ==>
                  && Next(replies.uploads).Ok?
                  && BatchAt(picks, target, script0, i + 1, done + [up.value], Registry.Registered(replies), None))
  {
    UploadBatchStep(picks, i, target, replies, replies);
    var up := PickUploaded(picks[i], target(picks[i]), replies);
    if up.Ok? {
      var rest := UploadBatch(picks[i + 1..], target, Registry.Registered(replies)).0;
      assert done + ([up.value] + rest) == (done + [up.value]) + rest;
    } else {
      assert done + [] == done;
    }
  }

  /** The message of a scraped page that ends FAILED. */
  const URL_FAILED_MESSAGE: string := "Failed to process URL content"

  /** The scraping branch's upload: the page's text file under the link
      name, without a thumbnail. */
  function ScrapedUploaded(url: string, scraped: Result<string, string>, script: Script): Result<FileRecord, string> {
    Registration(ScrapedName(url), None, scraped, URL_FAILED_MESSAGE, script)
  }

  /** The record of a scraped page. */
  function ScrapedName(url: string): (name: string)
    ensures StartsWith(name, LINK_MARK) && StartsWith(name, LINK_NAME_PREFIX) && EndsWith(name, "...")
    ensures |name| == |LINK_NAME_PREFIX| + (if |url| < 30 then |url| else 30) + 3
    ensures StartsWith(url, name[|LINK_NAME_PREFIX|..|name| - 3])
  {
    LINK_NAME_PREFIX + Take(url, 30) + "..."
  }

  /** A scraped page always lands in the links folder. */
  lemma ScrapedPageIsALink(url: string, mime: string)
    ensures FileCategory(ScrapedName(url), mime) == Links
  {
  }

  /** The name a downloaded file is processed under: the last segment of
      the link's path, or a fixed name when the path is empty. */
  function DownloadName(path: string): (name: string)
    ensures path == [] ==> name == "downloaded_file"
    ensures path != [] ==> '/' !in name && EndsWith(path, name)
    ensures path != [] && |name| < |path| ==> path[|path| - |name| - 1] == '/'
  {
    if path != [] then Urls.LastSegment(path) else "downloaded_file"
  }

  /** The pick `add_url` hands to `process_file_upload` for a downloaded
      file: its temporary path, named after the URL's path; an error when
      the download or the URL parse raised. */
  function DownloadedPick(url: string, downloaded: Result<string, string>, converted: Result<string, string>,
                          guess: Option<string>, thumbnail: Option<string>): (r: Result<Pick, string>)
    ensures downloaded.Err? ==> r == Err(downloaded.error)
    ensures downloaded.Ok? ==> (r.Ok? <==> Urls.UrlParsePath(url).Ok?)
    ensures r.Ok? ==> r.value.path == downloaded.value && r.value.name == DownloadName(Urls.UrlParsePath(url).value)
    ensures r.Ok? ==> r.value.converted == converted && r.value.guess == guess && r.value.thumbnail == thumbnail
  {
    if downloaded.Err? then Err(downloaded.error)
    else
      match Urls.UrlParsePath(url)
      case Err(e) => Err(e)
      case Ok(path) => Ok(Pick(downloaded.value, DownloadName(path), converted, guess, thumbnail))
  }

  class Session {
    var files: seq<FileRecord>
    var history: seq<Content>
    var cacheName: Option<string>
    var thinkingLevel: string
    var activePreset: Option<string>
    /** The shelf as it was when the held cache was created. */
    ghost var cacheHolds: seq<FileRecord>

    /** The conversation keeps only text, and the shelf stays within its
        capacity. */
    ghost predicate Valid()
      reads this
    {
      TextOnly(history) && |files| <= MAX_FILES
    }

    /** The held cache, if any, holds exactly the current shelf. */
    ghost predicate CacheCurrent()
      reads this
    {
      Held(cacheName) ==> cacheHolds == files
    }

    /** A new window; the thinking level's starting value is not fixed by
        the window's own code. */
    constructor(level: string)
      ensures files == [] && history == [] && cacheName == None
      ensures thinkingLevel == level && activePreset == None
      ensures Valid() && CacheCurrent()
    {
      files := [];
      history := [];
      cacheName := None;
      thinkingLevel := level;
      activePreset := None;
      cacheHolds := [];
    }

    /** `update_shelf_cache`: drop the held cache, then cache the whole
        shelf when it is not empty. */
    method UpdateShelfCache(client: Client)
      modifies this, client
      ensures files == old(files) && history == old(history)
      ensures thinkingLevel == old(thinkingLevel) && activePreset == old(activePreset)
      ensures cacheName == RebuiltName(old(cacheName), files, old(client.script.creates))
      ensures client.script == RebuiltScript(old(cacheName), files, old(client.script))
      ensures client.log == old(client.log) + RebuildCalls(old(cacheName), files)
      ensures CacheCurrent()
    {
      if Held(cacheName) {
        var deleted := client.DeleteCache(cacheName.value);
        cacheName := None;
      }
      if files == [] {
        return;
      }
      var created := client.CreateCache(CacheContents(files));
      if created.Ok? {
        cacheName := Some(created.value);
        cacheHolds := files;
      }
    }

    /** `update_context_meter`: count the tokens of what each request
        carries and show the result. */
    method UpdateContextMeter(client: Client) returns (meter: Meter.Display)
      modifies client
      ensures meter == Meter.Reading(Next(old(client.script.counts)), |files|)
      ensures client.script == old(client.script).(counts := Rest(old(client.script.counts)))
      ensures client.log == old(client.log) + [CountCall(MeterContents(history, files))]
    {
      var count := client.CountTokens(MeterContents(history, files));
      meter := Meter.Reading(count, |files|);
    }

    /** `remove_file`: drop one entry, then rebuild the cache and the
        meter; an index outside the shelf changes nothing. */
    method RemoveFile(client: Client, index: int) returns (meter: Option<Meter.Display>)
      requires Valid()
      modifies this, client
      ensures Valid()
      ensures !(0 <= index < |old(files)|) ==> unchanged(this) && unchanged(client) && meter == None
      ensures 0 <= index < |old(files)| ==>
                && files == old(files)[..index] + old(files)[index + 1..]
                && history == old(history)
                && thinkingLevel == old(thinkingLevel) && activePreset == old(activePreset)
                && cacheName == RebuiltName(old(cacheName), files, old(client.script.creates))
                && client.log == old(client.log) + RebuildCalls(old(cacheName), files) + [CountCall(MeterContents(history, files))]
                && meter == Some(Meter.Reading(Next(old(client.script.counts)), |files|))
                && CacheCurrent()
    {
      if 0 <= index < |files| {
        files := files[..index] + files[index + 1..];
        UpdateShelfCache(client);
        var m := UpdateContextMeter(client);
        meter := Some(m);
      } else {
        meter := None;
      }
    }

    /** The window's `process_file_upload`: convert when the name calls for
        it, upload, delete the converted file, wait, count, add the record
        and rebuild the cache. `unlinked` lists the local files deleted. */
    method ProcessFileUpload(client: Client, p: Pick) returns (r: Result<(), string>, unlinked: seq<string>)
      requires Valid() && |files| < MAX_FILES
      modifies this, client
      ensures Valid()
      ensures history == old(history) && thinkingLevel == old(thinkingLevel) && activePreset == old(activePreset)
      ensures r.Ok? <==> UploadSucceeds(p, old(client.script))
      ensures r.Ok? ==> files == old(files) + [UploadedRecord(p, old(client.script))] && CacheCurrent()
      ensures r.Ok? ==> |client.log| > 0 && client.log[|client.log| - 1] == CreateCacheCall(CacheContents(files))
      ensures r.Err? ==> files == old(files) && cacheName == old(cacheName) && cacheHolds == old(cacheHolds)
      ensures UploadTarget(p).Ok? ==>
                |client.log| > |old(client.log)| &&
                client.log[|old(client.log)|] == UploadCall(UploadTarget(p).value, Mime.WindowUploadMime(p.name, p.guess))
      ensures UploadTarget(p).Err? ==> unchanged(client) && r == Err(UploadTarget(p).error)
      ensures unlinked == if UploadTarget(p).Ok? && Next(old(client.script.uploads)).Ok? && UploadTarget(p).value != p.path
                          then [UploadTarget(p).value] else []
      ensures r.Err? ==> r.error == PickUploaded(p, UploadTarget(p), old(client.script)).error
      ensures r.Ok? ==> Registry.SameReplies(client.script, Registry.Registered(old(client.script)))
      ensures |client.script.uploads| + 1 >= |old(client.script.uploads)|
    {
      unlinked := [];
      var target := UploadTarget(p);
      if target.Err? {
        return Err(target.error), [];
      }
      var mime := Mime.WindowUploadMime(p.name, p.guess);
      ghost var script0 := client.script;
      ghost var log0 := client.log;
      var uploaded := client.Upload(target.value, mime);
      if uploaded.Err? {
        return Err(uploaded.error), [];
      }
      if target.value != p.path {
        unlinked := [target.value];
      }
      var settled := Registry.Settle(client, uploaded.value, FailedMessage(p.name));
      assert settled == Registry.Settled(Next(script0.uploads).value, script0, FailedMessage(p.name));
      if settled.Err? {
        return Err(settled.error), unlinked;
      }
      files := files + [FileRecord(p.name, settled.value.0.uri, settled.value.0.mime, settled.value.1, p.thumbnail)];
      UpdateShelfCache(client);
      r := Ok(());
    }

    /** `upload_file`: refuse a batch that would overfill the shelf;
        otherwise upload the picks in order, stopping at the first
        exception, and refresh the meter after a complete batch. */
    method UploadFile(client: Client, picks: seq<Pick>) returns (outcome: Outcome, unlinked: seq<string>)
      requires Valid()
      modifies this, client
      ensures Valid()
      ensures history == old(history) && thinkingLevel == old(thinkingLevel) && activePreset == old(activePreset)
      ensures outcome.Ignored? <==> picks == []
      ensures outcome.Rejected? <==> picks != [] && |old(files)| + |picks| > MAX_FILES
      ensures outcome.Ignored? || outcome.Rejected? ==> unchanged(this) && unchanged(client) && unlinked == []
      ensures outcome.Raised? || outcome.Completed? ==>
                var batch := UploadBatch(picks, UploadTarget, old(client.script));
                && files == old(files) + batch.0
                && (outcome.Completed? <==> batch.1.None?)
                && (outcome.Raised? ==> outcome.message == batch.1.value)
      ensures outcome.Completed? ==> CacheCurrent()
      ensures outcome.Raised? || outcome.Completed? ==>
                |old(client.script.uploads)| <= |client.script.uploads| + |files| - |old(files)| + (if outcome.Raised? then 1 else 0)
    {
      if picks == [] {
        return Ignored, [];
      }
      if |files| + |picks| > MAX_FILES {
        return Rejected, [];
      }
      var error;
      error, unlinked := UploadPicks(client, picks);
      if error.Some? {
        return Raised(error.value), unlinked;
      }
      var meter := UpdateContextMeter(client);
      outcome := Completed(meter);
    }

    /** One pass of the loop in `upload_file`, with the batch's ghost
        bookkeeping: on success the record is appended to the shelf and to
        `done`, the cache is current and the upload, get and count replies
        it used are gone; an error leaves the shelf unchanged and ends the
        batch with its message. At most one upload reply is used. */
    method UploadOne(client: Client, picks: seq<Pick>, i: nat, ghost script0: Script,
                     ghost done: seq<FileRecord>, ghost replies: Script)
      returns (r: Result<(), string>, unlinked: seq<string>, ghost record: FileRecord,
               ghost done': seq<FileRecord>, ghost replies': Script)
      requires Valid() && |files| < MAX_FILES && i < |picks|
      requires BatchAt(picks, UploadTarget, script0, i, done, replies, None)
      requires Registry.SameReplies(client.script, replies)
      modifies this, client
      ensures Valid()
      ensures history == old(history) && thinkingLevel == old(thinkingLevel) && activePreset == old(activePreset)
      ensures BatchAt(picks, UploadTarget, script0, i + 1, done', replies', if r.Err? then Some(r.error) else None)
      ensures r.Ok? ==> && done' == done + [record] && files == old(files) + [record]
                        && CacheCurrent() && Registry.SameReplies(client.script, replies')
      ensures r.Err? ==> files == old(files) && done' == done
      ensures |client.script.uploads| + 1 >= |old(client.script.uploads)|
    {
      var p := picks[i];
      UploadBatchStep(picks, i, UploadTarget, client.script, replies);
      BatchAtNext(picks, UploadTarget, script0, i, done, replies);
      ghost var up := PickUploaded(p, UploadTarget(p), replies);
      r, unlinked := ProcessFileUpload(client, p);
      if r.Err? {
        record, done', replies' := FileRecord(p.name, "", "", 0, p.thumbnail), done, replies;
      } else {
        record := up.value;
        done', replies' := done + [record], Registry.Registered(replies);
      }
    }

    /** The loop of `upload_file`: `process_file_upload` for each pick in
        turn; the first exception ends it with its message. The shelf
        gains exactly the records of `UploadBatch`, and no upload is made
        after the failing one. */
    method UploadPicks(client: Client, picks: seq<Pick>) returns (error: Option<string>, unlinked: seq<string>)
      requires Valid() && |files| + |picks| <= MAX_FILES
      modifies this, client
      ensures Valid()
      ensures history == old(history) && thinkingLevel == old(thinkingLevel) && activePreset == old(activePreset)
      ensures var batch := UploadBatch(picks, UploadTarget, old(client.script));
              files == old(files) + batch.0 && error == batch.1
      ensures error.None? && picks != [] ==> CacheCurrent()
      ensures |old(client.script.uploads)| <= |client.script.uploads| + |files| - |old(files)| + (if error.Some? then 1 else 0)
    {
      unlinked, error := [], None;
      ghost var files0, script0 := files, client.script;
      ghost var replies := client.script;
      ghost var done: seq<FileRecord> := [];
      var i := 0;
      BatchAtStart(picks, UploadTarget, script0);
      while i < |picks| && error.None?
        invariant 0 <= i <= |picks|
        invariant Valid()
        invariant files == files0 + done && |done| <= i
        invariant history == old(history) && thinkingLevel == old(thinkingLevel) && activePreset == old(activePreset)
        invariant error.None? ==> Registry.SameReplies(client.script, replies)
        invariant error.None? ==> |done| == i && (i > 0 ==> CacheCurrent())
        invariant BatchAt(picks, UploadTarget, script0, i, done, replies, error)
        invariant |script0.uploads| <= |client.script.uploads| + |done| + (if error.Some? then 1 else 0)
      {
        var r, u;
        ghost var done0, record;
        done0 := done;
        r, u, record, done, replies := UploadOne(client, picks, i, script0, done, replies);
        unlinked := unlinked + u;
        if r.Err? {
          error := Some(r.error);
        } else {
          AppendRecord(files0, done0, record);
        }
        i := i + 1;
      }
      BatchAtEnd(picks, UploadTarget, script0, i, done, replies, error);
    }

    /** `add_url`: a blank link does nothing and a full shelf refuses it.
        A direct file link is downloaded and uploaded like a picked file;
        any other page is scraped and its text uploaded, and that record is
        added WITHOUT rebuilding the cache. The parameters are the local
        results: the HEAD reply's content type (None when the request
        raised), the download's temporary file, the converter's result,
        the MIME guess and thumbnail of the downloaded file, and the
        scraped page's temporary file. */
    method AddUrl(client: Client, input: string, head: Option<string>, downloaded: Result<string, string>,
                  converted: Result<string, string>, guess: Option<string>, thumbnail: Option<string>,
                  scraped: Result<string, string>) returns (outcome: Outcome, unlinked: seq<string>)
      requires Valid()
      modifies this, client
      ensures Valid()
      ensures history == old(history) && thinkingLevel == old(thinkingLevel) && activePreset == old(activePreset)
      ensures outcome.Ignored? <==> Strip(input) == []
      ensures outcome.Rejected? <==> Strip(input) != [] && |old(files)| >= MAX_FILES
      ensures outcome.Ignored? || outcome.Rejected? ==> unchanged(this) && unchanged(client) && unlinked == []
      ensures outcome.Raised? ==> files == old(files) && cacheName == old(cacheName)
      ensures outcome.Completed? ==> |files| == |old(files)| + 1 && files[..|old(files)|] == old(files)
      ensures Strip(input) != [] && |old(files)| < MAX_FILES && head.Some? && Conversions.DirectFile(Strip(input), head.value) ==>
                var pick := DownloadedPick(Strip(input), downloaded, converted, guess, thumbnail);
                && (pick.Err? ==> outcome == Raised(pick.error) && unchanged(client))
                && (pick.Ok? ==>
                      && (outcome.Completed? <==> UploadSucceeds(pick.value, old(client.script)))
                      && (outcome.Completed? ==> files == old(files) + [UploadedRecord(pick.value, old(client.script))] && CacheCurrent())
                      && (outcome.Raised? ==> outcome.message == PickUploaded(pick.value, UploadTarget(pick.value), old(client.script)).error))
      ensures Strip(input) != [] && |old(files)| < MAX_FILES && !(head.Some? && Conversions.DirectFile(Strip(input), head.value)) ==>
                var page := ScrapedUploaded(Strip(input), scraped, old(client.script));
                && (outcome.Completed? <==> page.Ok?)
                && (outcome.Raised? ==> outcome.message == page.error)
                && (outcome.Completed? ==>
                      && files == old(files) + [page.value]
                      && cacheName == old(cacheName) && cacheHolds == old(cacheHolds)
                      && (old(CacheCurrent()) && Held(old(cacheName)) ==> !CacheCurrent()))
    {
      var url := Strip(input);
      if url == [] {
        return Ignored, [];
      }
      if |files| >= MAX_FILES {
        return Rejected, [];
      }
      var direct := Conversions.IsDirectFileUrl(url, head);
      if direct {
        var pick := DownloadedPick(url, downloaded, converted, guess, thumbnail);
        if pick.Err? {
          return Raised(pick.error), [];
        }
        outcome, unlinked := AddDirectFile(client, pick.value);
      } else {
        outcome, unlinked := AddScrapedPage(client, url, scraped);
      }
    }

    /** The direct-file branch of `add_url` once the file is downloaded:
        it goes through `process_file_upload`, then the meter is refreshed
        and the download removed. */
    method AddDirectFile(client: Client, p: Pick) returns (outcome: Outcome, unlinked: seq<string>)
      requires Valid() && |files| < MAX_FILES
      modifies this, client
      ensures Valid()
      ensures history == old(history) && thinkingLevel == old(thinkingLevel) && activePreset == old(activePreset)
      ensures outcome.Raised? || outcome.Completed?
      ensures outcome.Raised? ==> files == old(files) && cacheName == old(cacheName)
      ensures outcome.Completed? <==> UploadSucceeds(p, old(client.script))
      ensures outcome.Completed? ==> files == old(files) + [UploadedRecord(p, old(client.script))] && CacheCurrent()
      ensures outcome.Completed? ==> |unlinked| > 0 && unlinked[|unlinked| - 1] == p.path
      ensures outcome.Raised? ==> outcome.message == PickUploaded(p, UploadTarget(p), old(client.script)).error
    {
      var r, u := ProcessFileUpload(client, p);
      if r.Err? {
        return Raised(r.error), u;
      }
      unlinked := u + [p.path];
      var meter := UpdateContextMeter(client);
      outcome := Completed(meter);
    }

    /** The scraping branch of `add_url`: the page's text is uploaded as
        plain text and shelved as a link record; the cache is left as it
        was, so a held cache no longer holds the whole shelf. */
    method AddScrapedPage(client: Client, url: string, scraped: Result<string, string>)
      returns (outcome: Outcome, unlinked: seq<string>)
      requires Valid() && |files| < MAX_FILES
      modifies this, client
      ensures Valid()
      ensures history == old(history) && thinkingLevel == old(thinkingLevel) && activePreset == old(activePreset)
      ensures cacheName == old(cacheName) && cacheHolds == old(cacheHolds)
      ensures outcome.Raised? || outcome.Completed?
      ensures outcome.Completed? <==> ScrapedUploaded(url, scraped, old(client.script)).Ok?
      ensures outcome.Raised? ==> files == old(files) && outcome.message == ScrapedUploaded(url, scraped, old(client.script)).error
      ensures outcome.Completed? ==>
                && files == old(files) + [ScrapedUploaded(url, scraped, old(client.script)).value]
                && (old(CacheCurrent()) && Held(old(cacheName)) ==> !CacheCurrent())
      ensures outcome.Completed? ==> scraped.Ok? && unlinked == [scraped.value]
      ensures scraped.Ok? ==> |client.log| > |old(client.log)| && client.log[|old(client.log)|] == UploadCall(scraped.value, "text/plain")
      ensures scraped.Err? ==> unchanged(client)
    {
      if scraped.Err? {
        return Raised(scraped.error), [];
      }
      ghost var script0 := client.script;
      var uploaded := client.Upload(scraped.value, "text/plain");
      if uploaded.Err? {
        return Raised(uploaded.error), [];
      }
      unlinked := [scraped.value];
      var settled := Registry.Settle(client, uploaded.value, URL_FAILED_MESSAGE);
      assert settled == Registry.Settled(Next(script0.uploads).value, script0, URL_FAILED_MESSAGE);
      if settled.Err? {
        return Raised(settled.error), unlinked;
      }
      files := files + [FileRecord(ScrapedName(url), settled.value.0.uri, settled.value.0.mime, settled.value.1, None)];
      var meter := UpdateContextMeter(client);
      outcome := Completed(meter);
    }

    /** The window's own `send_chat`: send preamble, history and query,
        through the cache when one is held and with the shelf's files
        otherwise; on success keep the text pair in the history. */
    method SendChat(client: Client, input: string) returns (outcome: Outcome, reply: string)
      requires Valid()
      modifies this, client
      ensures Valid()
      ensures files == old(files) && cacheName == old(cacheName) && cacheHolds == old(cacheHolds)
      ensures thinkingLevel == old(thinkingLevel) && activePreset == old(activePreset)
      ensures input == [] ==> outcome == Ignored && unchanged(client) && history == old(history)
      ensures input != [] ==>
                |client.log| > |old(client.log)| &&
                client.log[|old(client.log)|] ==
                  GenerateCall(ChatMessages(SYSTEM_PROMPT, DEFAULT_ACK, old(history), input, files, Held(cacheName)),
                               GenerateConfig(if Held(cacheName) then cacheName else None, None, []))
      ensures input != [] && Next(old(client.script.replies)).Err? ==>
                outcome == Raised(Next(old(client.script.replies)).error) && history == old(history)
      ensures input != [] && Next(old(client.script.replies)).Ok? ==>
                outcome.Completed? && reply == Next(old(client.script.replies)).value &&
                history == old(history) + [UserText(input), ModelText(reply)]
    {
      reply := "";
      if input == [] {
        return Ignored, reply;
      }
      var messages := ChatMessages(SYSTEM_PROMPT, DEFAULT_ACK, history, input, files, Held(cacheName));
      var config := GenerateConfig(if Held(cacheName) then cacheName else None, None, []);
      var answer := client.Generate(messages, config);
      if answer.Err? {
        return Raised(answer.error), reply;
      }
      reply := answer.value;
      history := history + [UserText(input), ModelText(reply)];
      var meter := UpdateContextMeter(client);
      outcome := Completed(meter);
    }
  }
}
