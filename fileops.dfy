/** The stand-alone upload handlers: the same work as the window's own
    handlers, written against a list of records passed in and three
    refresh callbacks run after a success. */
module FileOps {
  import opened Wrappers
  import opened Text
  import opened Gemini
  import opened Shelf
  import Mime
  import Registry
  import Conversions
  import Session

  /** What the capacity refusal raises: the handler module sets the
      status colour through a UI module it never imports. */
  const FT_NAME_ERROR: string := "name 'ft' is not defined"

  /** The scraped-page prefix as the handler module spells it: the UTF-8
      bytes of the link mark read back as Windows-1252 text, then a blank. */
  const HANDLER_LINK_PREFIX: string := "\U{F0}\U{178}\U{201D}\U{2014} "

  /** The callbacks a handler is given, in the order a success runs them. */
  datatype Callback = RebuildShelf | UpdateCache | UpdateMeter

  const REFRESH: seq<Callback> := [RebuildShelf, UpdateCache, UpdateMeter]

  /** How a handler ended: nothing to do, crashed out of the handler,
      stopped by an exception it caught (with its message), or done. */
  datatype Handled = Ignored | Crashed(error: string) | Raised(message: string) | Done

  /** The list of records the handlers append to. */
  class FileList {
    var files: seq<FileRecord>

    constructor(files: seq<FileRecord>)
      ensures this.files == files
    {
      this.files := files;
    }
  }

  /** The file a handler uploads: the converted copy when a conversion
      applies, otherwise the file itself. */
  function HandlerTarget(p: Session.Pick): (r: Result<string, string>)
    ensures Mime.HandlerConversion(p.name) == Mime.NoConversion ==> r == Ok(p.path)
    ensures Mime.HandlerConversion(p.name) != Mime.NoConversion ==> r == p.converted
  {
    if Mime.HandlerConversion(p.name) == Mime.NoConversion then Ok(p.path) else p.converted
  }

  /** The record `process_file_upload` returns, or the error it raises. */
  function HandlerUploaded(p: Session.Pick, script: Script): (r: Result<FileRecord, string>)
    ensures HandlerTarget(p).Err? ==> r == Err(HandlerTarget(p).error)
    ensures HandlerTarget(p).Ok? && Next(script.uploads).Err? ==> r == Err(Next(script.uploads).error)
    ensures HandlerTarget(p).Ok? && Next(script.uploads).Ok? ==>
              (r.Ok? <==> Registry.Settled(Next(script.uploads).value, script, Session.FailedMessage(p.name)).Ok?)
    ensures r.Ok? ==> r.value.name == p.name && r.value.thumbnail == p.thumbnail
    ensures r.Ok? ==>
              var settled := Registry.Settled(Next(script.uploads).value, script, Session.FailedMessage(p.name)).value;
              r.value.uri == settled.0.uri && r.value.mime == settled.0.mime && r.value.tokens == settled.1
  {
    Session.PickUploaded(p, HandlerTarget(p), script)
  }

  /** The handlers' `process_file_upload`: convert when needed, upload
      with the variant's MIME type, remove the converted copy, wait, count,
      and return the record without adding it anywhere. */
  method ProcessFileUpload(client: Client, p: Session.Pick, overrideMime: Option<string>)
    returns (r: Result<FileRecord, string>, unlinked: seq<string>)
    modifies client
    ensures r == HandlerUploaded(p, old(client.script))
    ensures HandlerTarget(p).Err? ==> unchanged(client)
    ensures HandlerTarget(p).Ok? ==>
              |client.log| > |old(client.log)| &&
              client.log[|old(client.log)|] == UploadCall(HandlerTarget(p).value, Mime.HandlerUploadMime(p.name, overrideMime, p.guess))
    ensures unlinked == if HandlerTarget(p).Ok? && Next(old(client.script.uploads)).Ok? && HandlerTarget(p).value != p.path
                        then [HandlerTarget(p).value] else []
    ensures r.Ok? ==> Registry.SameReplies(client.script, Registry.Registered(old(client.script)))
    ensures |client.script.uploads| + 1 >= |old(client.script.uploads)|
  {
    unlinked := [];
    var target := HandlerTarget(p);
    if target.Err? {
      return Err(target.error), [];
    }
    ghost var script0 := client.script;
    var uploaded := client.Upload(target.value, Mime.HandlerUploadMime(p.name, overrideMime, p.guess));
    if uploaded.Err? {
      return Err(uploaded.error), [];
    }
    if target.value != p.path {
      unlinked := [target.value];
    }
    var settled := Registry.Settle(client, uploaded.value, Session.FailedMessage(p.name));
    assert settled == Registry.Settled(Next(script0.uploads).value, script0, Session.FailedMessage(p.name));
    if settled.Err? {
      return Err(settled.error), unlinked;
    }
    r := Ok(FileRecord(p.name, settled.value.0.uri, settled.value.0.mime, settled.value.1, p.thumbnail));
  }

  /** `handle_file_upload`. A batch over capacity crashes the handler
      before anything is uploaded. Otherwise the files are uploaded and
      appended in order; an exception stops the batch, keeps what was
      appended and skips the callbacks, which run only after a full batch. */
  method HandleFileUpload(list: FileList, client: Client, picks: seq<Session.Pick>, maxFiles: nat)
    returns (outcome: Handled, callbacks: seq<Callback>, unlinked: seq<string>)
    modifies list, client
    ensures outcome.Ignored? <==> picks == []
    ensures outcome.Crashed? <==> picks != [] && |old(list.files)| + |picks| > maxFiles
    ensures outcome.Crashed? ==> outcome.error == FT_NAME_ERROR
    ensures outcome.Ignored? || outcome.Crashed? ==> unchanged(list) && unchanged(client) && unlinked == []
    ensures outcome.Raised? || outcome.Done? ==>
              var batch := Session.UploadBatch(picks, HandlerTarget, old(client.script));
              && list.files == old(list.files) + batch.0
              && (outcome.Done? <==> batch.1.None?)
              && (outcome.Raised? ==> outcome.message == batch.1.value)
    ensures outcome.Raised? || outcome.Done? ==>
              |old(client.script.uploads)| <= |client.script.uploads| + |list.files| - |old(list.files)| + (if outcome.Raised? then 1 else 0)
    ensures outcome.Done? ==> callbacks == REFRESH
    ensures !outcome.Done? ==> callbacks == []
  {
    callbacks := [];
    if picks == [] {
      return Ignored, [], [];
    }
    if |list.files| + |picks| > maxFiles {
      return Crashed(FT_NAME_ERROR), [], [];
    }
    var error;
    error, unlinked := UploadAll(list, client, picks);
    if error.Some? {
      return Raised(error.value), [], unlinked;
    }
    outcome, callbacks := Done, REFRESH;
  }

  /** One pass of the loop in `handle_file_upload`, with the batch's
      ghost bookkeeping: a success appends the record to the list and to
      `done`; an error leaves the list as it was and ends the batch. */
  method UploadStep(list: FileList, client: Client, picks: seq<Session.Pick>, i: nat, ghost script0: Script,
                    ghost done: seq<FileRecord>, ghost replies: Script)
    returns (r: Result<FileRecord, string>, unlinked: seq<string>, ghost done': seq<FileRecord>, ghost replies': Script)
    requires i < |picks|
    requires Session.BatchAt(picks, HandlerTarget, script0, i, done, replies, None)
    requires Registry.SameReplies(client.script, replies)
    modifies list, client
    ensures Session.BatchAt(picks, HandlerTarget, script0, i + 1, done', replies', if r.Err? then Some(r.error) else None)
    ensures r.Ok? ==> && done' == done + [r.value] && list.files == old(list.files) + [r.value]
                      && Registry.SameReplies(client.script, replies')
    ensures r.Err? ==> list.files == old(list.files) && done' == done
    ensures |client.script.uploads| + 1 >= |old(client.script.uploads)|
  {
    var p := picks[i];
    Session.UploadBatchStep(picks, i, HandlerTarget, client.script, replies);
    Session.BatchAtNext(picks, HandlerTarget, script0, i, done, replies);
    r, unlinked := ProcessFileUpload(client, p, None);
    if r.Err? {
      done', replies' := done, replies;
    } else {
      list.files := list.files + [r.value];
      done', replies' := done + [r.value], Registry.Registered(replies);
    }
  }

  /** The loop of `handle_file_upload`: the list gains exactly the records
      of the batch, and the first error ends it. */
  method UploadAll(list: FileList, client: Client, picks: seq<Session.Pick>) returns (error: Option<string>, unlinked: seq<string>)
    modifies list, client
    ensures var batch := Session.UploadBatch(picks, HandlerTarget, old(client.script));
            list.files == old(list.files) + batch.0 && error == batch.1
    ensures |old(client.script.uploads)| <= |client.script.uploads| + |list.files| - |old(list.files)| + (if error.Some? then 1 else 0)
  {
    unlinked, error := [], None;
    ghost var files0, script0 := list.files, client.script;
    ghost var replies := client.script;
    ghost var done: seq<FileRecord> := [];
    var i := 0;
    Session.BatchAtStart(picks, HandlerTarget, script0);
    while i < |picks| && error.None?
      invariant 0 <= i <= |picks|
      invariant list.files == files0 + done
      invariant error.None? ==> Registry.SameReplies(client.script, replies)
      invariant Session.BatchAt(picks, HandlerTarget, script0, i, done, replies, error)
      invariant |script0.uploads| <= |client.script.uploads| + |done| + (if error.Some? then 1 else 0)
    {
      var r, u;
      ghost var done0 := done;
      r, u, done, replies := UploadStep(list, client, picks, i, script0, done, replies);
      unlinked := unlinked + u;
      if r.Err? {
        error := Some(r.error);
      } else {
        Session.AppendRecord(files0, done0, r.value);
      }
      i := i + 1;
    }
    Session.BatchAtEnd(picks, HandlerTarget, script0, i, done, replies, error);
  }

  /** `handle_url_add`. A full list crashes the handler as in the batch
      upload. A direct file link is downloaded and handed over with the
      MIME type of the downloaded file as the override; any other page is
      scraped and uploaded as plain text. Both branches end with the
      callbacks, the scraped one included. */
  method HandleUrlAdd(list: FileList, client: Client, input: string, head: Option<string>,
                      downloaded: Result<string, string>, tempGuess: Option<string>,
                      converted: Result<string, string>, guess: Option<string>, thumbnail: Option<string>,
                      scraped: Result<string, string>, maxFiles: nat)
    returns (outcome: Handled, callbacks: seq<Callback>, unlinked: seq<string>)
    modifies list, client
    ensures outcome.Ignored? <==> Strip(input) == []
    ensures outcome.Crashed? <==> Strip(input) != [] && |old(list.files)| >= maxFiles
    ensures outcome.Crashed? ==> outcome.error == FT_NAME_ERROR
    ensures outcome.Ignored? || outcome.Crashed? ==> unchanged(list) && unchanged(client) && unlinked == []
    ensures outcome.Raised? ==> list.files == old(list.files)
    ensures outcome.Done? ==> |list.files| == |old(list.files)| + 1 && list.files[..|old(list.files)|] == old(list.files)
    ensures Strip(input) != [] && |old(list.files)| < maxFiles && head.Some? && Conversions.DirectFile(Strip(input), head.value) ==>
              var pick := Session.DownloadedPick(Strip(input), downloaded, converted, guess, thumbnail);
              && (pick.Err? ==> outcome == Raised(pick.error) && unchanged(client))
              && (pick.Ok? ==>
                    && (outcome.Done? <==> HandlerUploaded(pick.value, old(client.script)).Ok?)
                    && (outcome.Done? ==> list.files == old(list.files) + [HandlerUploaded(pick.value, old(client.script)).value])
                    && (outcome.Raised? ==> outcome.message == HandlerUploaded(pick.value, old(client.script)).error))
    ensures Strip(input) != [] && |old(list.files)| < maxFiles && !(head.Some? && Conversions.DirectFile(Strip(input), head.value)) ==>
              var page := HandlerScrapedUploaded(Strip(input), scraped, old(client.script));
              && (outcome.Done? <==> page.Ok?)
              && (outcome.Raised? ==> outcome.message == page.error)
              && (outcome.Done? ==> list.files == old(list.files) + [page.value])
    ensures outcome.Done? <==> callbacks == REFRESH
    ensures !outcome.Done? ==> callbacks == []
  {
    var url := Strip(input);
    if url == [] {
      return Ignored, [], [];
    }
    if |list.files| >= maxFiles {
      return Crashed(FT_NAME_ERROR), [], [];
    }
    var direct := Conversions.IsDirectFileUrl(url, head);
    if direct {
      var pick := Session.DownloadedPick(url, downloaded, converted, guess, thumbnail);
      if pick.Err? {
        return Raised(pick.error), [], [];
      }
      outcome, callbacks, unlinked := AddDownloaded(list, client, pick.value, tempGuess);
    } else {
      outcome, callbacks, unlinked := AddScraped(list, client, url, scraped);
    }
  }

  /** The direct-file branch of `handle_url_add` once the download is
      there: the override type is the table type of the downloaded file. */
  method AddDownloaded(list: FileList, client: Client, p: Session.Pick, tempGuess: Option<string>)
    returns (outcome: Handled, callbacks: seq<Callback>, unlinked: seq<string>)
    modifies list, client
    ensures outcome.Raised? || outcome.Done?
    ensures outcome.Done? <==> HandlerUploaded(p, old(client.script)).Ok?
    ensures outcome.Raised? ==> list.files == old(list.files) && callbacks == []
    ensures outcome.Raised? ==> outcome.message == HandlerUploaded(p, old(client.script)).error
    ensures outcome.Done? ==> list.files == old(list.files) + [HandlerUploaded(p, old(client.script)).value] && callbacks == REFRESH
    ensures outcome.Done? ==> |unlinked| > 0 && unlinked[|unlinked| - 1] == p.path
    ensures HandlerTarget(p).Ok? ==>
              |client.log| > |old(client.log)| &&
              client.log[|old(client.log)|] ==
                UploadCall(HandlerTarget(p).value, Mime.HandlerUploadMime(p.name, Some(Mime.HandlerMimeType(p.path, tempGuess)), p.guess))
  {
    var r, u := ProcessFileUpload(client, p, Some(Mime.HandlerMimeType(p.path, tempGuess)));
    if r.Err? {
      return Raised(r.error), [], u;
    }
    list.files := list.files + [r.value];
    outcome, callbacks, unlinked := Done, REFRESH, u + [p.path];
  }

  /** The scraping branch of `handle_url_add`; unlike the window's, it
      runs the cache callback, and it names the record as spelled here
      (`HandlerScrapedName`). */
  method AddScraped(list: FileList, client: Client, url: string, scraped: Result<string, string>)
    returns (outcome: Handled, callbacks: seq<Callback>, unlinked: seq<string>)
    modifies list, client
    ensures outcome.Raised? || outcome.Done?
    ensures outcome.Done? <==> HandlerScrapedUploaded(url, scraped, old(client.script)).Ok?
    ensures outcome.Raised? ==>
              && list.files == old(list.files) && callbacks == []
              && outcome.message == HandlerScrapedUploaded(url, scraped, old(client.script)).error
    ensures outcome.Done? ==>
              && list.files == old(list.files) + [HandlerScrapedUploaded(url, scraped, old(client.script)).value]
              && callbacks == REFRESH
    ensures outcome.Done? ==> scraped.Ok? && unlinked == [scraped.value]
    ensures scraped.Ok? ==> |client.log| > |old(client.log)| && client.log[|old(client.log)|] == UploadCall(scraped.value, "text/plain")
    ensures scraped.Err? ==> unchanged(client)
  {
    if scraped.Err? {
      return Raised(scraped.error), [], [];
    }
    ghost var script0 := client.script;
    var uploaded := client.Upload(scraped.value, "text/plain");
    if uploaded.Err? {
      return Raised(uploaded.error), [], [];
    }
    unlinked := [scraped.value];
    var settled := Registry.Settle(client, uploaded.value, Session.URL_FAILED_MESSAGE);
    assert settled == Registry.Settled(Next(script0.uploads).value, script0, Session.URL_FAILED_MESSAGE);
    if settled.Err? {
      return Raised(settled.error), [], unlinked;
    }
    list.files := list.files + [FileRecord(HandlerScrapedName(url), settled.value.0.uri, settled.value.0.mime, settled.value.1, None)];
    outcome, callbacks := Done, REFRESH;
  }

  /** The scraping branch's upload: the page's text file under the
      handler's name, without a thumbnail. */
  function HandlerScrapedUploaded(url: string, scraped: Result<string, string>, script: Script): Result<FileRecord, string> {
    Session.Registration(HandlerScrapedName(url), None, scraped, Session.URL_FAILED_MESSAGE, script)
  }

  /** The scraped-page name as the handler module spells it. */
  function HandlerScrapedName(url: string): (name: string)
    ensures StartsWith(name, HANDLER_LINK_PREFIX) && EndsWith(name, "...")
    ensures |name| == |HANDLER_LINK_PREFIX| + (if |url| < 30 then |url| else 30) + 3
    ensures StartsWith(url, name[|HANDLER_LINK_PREFIX|..|name| - 3])
  {
    HANDLER_LINK_PREFIX + Take(url, 30) + "..."
  }

  /** Spelled that way, a scraped page is never shelved under Links. */
  lemma HandlerScrapedPageIsNoLink(url: string, mime: string)
    ensures FileCategory(HandlerScrapedName(url), mime) != Links
  {
    var name := HandlerScrapedName(url);
    assert name[0] == '\U{F0}';
    assert LINK_MARK[0] == '\U{1F517}';
  }

  /** The handlers and the window upload the same file for every name
      that is neither a Word document nor a PowerPoint deck. */
  lemma TargetsAgree(p: Session.Pick)
    requires !EndsWith(Lower(p.name), ".docx") && !EndsWith(Lower(p.name), ".pptx")
    ensures HandlerTarget(p) == Session.UploadTarget(p)
  {
    Mime.ConversionVariantsAgree(p.name);
  }
}
