/** Registering an uploaded file with the service, as every upload path of
    the application does it: wait while the file is PROCESSING, refuse it
    when it ends FAILED, then count its tokens. */
module Registry {
  import opened Wrappers
  import opened Gemini

  /** The file as it is once processing is over, given the replies of the
      successive `files.get` calls; an error when one of them raises. */
  function PollResult(uploaded: FileRef, gets: seq<Result<FileRef, string>>): (r: Result<FileRef, string>)
    ensures r.Ok? ==> r.value.state != Processing
    ensures uploaded.state != Processing ==> r == Ok(uploaded)
    decreases |gets|
  {
    if uploaded.state != Processing then Ok(uploaded)
    else if gets == [] then Err(NO_REPLY)
    else
      match gets[0]
      case Err(e) => Err(e)
      case Ok(next) => PollResult(next, gets[1..])
  }

  /** A file that stays PROCESSING through every scripted `files.get`
      reply is asked about once per reply and once more, and the wait
      ends only because the replies run out. */
  lemma {:induction false} PollStillProcessing(uploaded: FileRef, gets: seq<Result<FileRef, string>>)
    requires uploaded.state == Processing
    requires forall k :: 0 <= k < |gets| ==> gets[k].Ok? && gets[k].value.state == Processing
    ensures PollResult(uploaded, gets) == Err(NO_REPLY)
    ensures |PollCalls(uploaded, gets)| == |gets| + 1
    decreases |gets|
  {
    if gets != [] {
      PollStillProcessing(gets[0].value, gets[1..]);
    }
  }

  /** The `files.get` calls the wait makes. */
  function PollCalls(uploaded: FileRef, gets: seq<Result<FileRef, string>>): (calls: seq<Call>)
    ensures uploaded.state != Processing <==> calls == []
    ensures forall k :: 0 <= k < |calls| ==> calls[k].GetCall?
    decreases |gets|
  {
    if uploaded.state != Processing then []
    else
      [GetCall(uploaded.name)] +
      match Next(gets)
      case Err(_) => []
      case Ok(next) => PollCalls(next, gets[1..])
  }

  /** The `files.get` replies left after the wait. */
  function PollRest(uploaded: FileRef, gets: seq<Result<FileRef, string>>): (rest: seq<Result<FileRef, string>>)
    ensures |rest| <= |gets|
    decreases |gets|
  {
    if uploaded.state != Processing then gets
    else
      match Next(gets)
      case Err(_) => Rest(gets)
      case Ok(next) => PollRest(next, gets[1..])
  }

  /** The poll loop: ask again while the file is PROCESSING. */
  method WaitForFile(client: Client, uploaded: FileRef) returns (r: Result<FileRef, string>)
    modifies client
    ensures r == PollResult(uploaded, old(client.script.gets))
    ensures client.script == old(client.script).(gets := PollRest(uploaded, old(client.script.gets)))
    ensures client.log == old(client.log) + PollCalls(uploaded, old(client.script.gets))
  {
    var current := uploaded;
    while current.state == Processing
      invariant PollResult(current, client.script.gets) == PollResult(uploaded, old(client.script.gets))
      invariant PollRest(current, client.script.gets) == PollRest(uploaded, old(client.script.gets))
      invariant client.script == old(client.script).(gets := client.script.gets)
      invariant client.log + PollCalls(current, client.script.gets) == old(client.log) + PollCalls(uploaded, old(client.script.gets))
      decreases |client.script.gets|
    {
      var reply := client.GetFile(current.name);
      if reply.Err? {
        return reply;
      }
      current := reply.value;
    }
    r := Ok(current);
  }

  /** What registering an uploaded file yields: the processed file and its
      token count, or the error. A file that ends FAILED gives
      `failMessage` and is never counted. */
  function Settled(uploaded: FileRef, script: Script, failMessage: string): (r: Result<(FileRef, nat), string>)
    ensures r.Ok? ==> r.value.0.state != Processing && r.value.0.state != Failed
    ensures r.Ok? ==> Ok(r.value.0) == PollResult(uploaded, script.gets)
  {
    match PollResult(uploaded, script.gets)
    case Err(e) => Err(e)
    case Ok(done) =>
      if done.state == Failed then Err(failMessage)
      else
        match Next(script.counts)
        case Err(e) => Err(e)
        case Ok(n) => Ok((done, n))
  }

  /** Two scripts that answer uploads, `files.get` and token counts alike;
      registration reads nothing else. */
  predicate SameReplies(a: Script, b: Script) {
    a.uploads == b.uploads && a.gets == b.gets && a.counts == b.counts
  }

  /** The replies left once an upload has been answered, waited for and
      counted. */
  function Registered(script: Script): (after: Script)
    requires Next(script.uploads).Ok?
    ensures after.uploads == Rest(script.uploads) && |after.uploads| + 1 == |script.uploads|
  {
    script.(uploads := Rest(script.uploads),
            gets := PollRest(Next(script.uploads).value, script.gets),
            counts := Rest(script.counts))
  }

  /** Registration reads only the upload, get and count replies. */
  lemma SettledSameReplies(uploaded: FileRef, a: Script, b: Script, failMessage: string)
    requires SameReplies(a, b)
    ensures Settled(uploaded, a, failMessage) == Settled(uploaded, b, failMessage)
    ensures Next(a.uploads).Ok? ==> SameReplies(Registered(a), Registered(b))
  {
  }

  /** Whether registration gets as far as counting tokens. */
  predicate Counts(uploaded: FileRef, script: Script) {
    PollResult(uploaded, script.gets).Ok? && PollResult(uploaded, script.gets).value.state != Failed
  }

  /** The one-file request that counts a processed file's tokens. */
  function CountRequest(done: FileRef): seq<Content> {
    [Content(User, [FilePart(done.uri, done.mime)])]
  }

  /** Wait for an uploaded file, refuse it when FAILED, count its tokens. */
  method Settle(client: Client, uploaded: FileRef, failMessage: string) returns (r: Result<(FileRef, nat), string>)
    modifies client
    ensures r == Settled(uploaded, old(client.script), failMessage)
    ensures client.script == old(client.script).(
              gets := PollRest(uploaded, old(client.script.gets)),
              counts := if Counts(uploaded, old(client.script)) then Rest(old(client.script.counts)) else old(client.script.counts))
    ensures client.log == old(client.log) + PollCalls(uploaded, old(client.script.gets)) +
              (if Counts(uploaded, old(client.script)) then [CountCall(CountRequest(PollResult(uploaded, old(client.script.gets)).value))] else [])
  {
    var done := WaitForFile(client, uploaded);
    if done.Err? {
      return Err(done.error);
    }
    if done.value.state == Failed {
      return Err(failMessage);
    }
    var count := client.CountTokens(CountRequest(done.value));
    if count.Err? {
      return Err(count.error);
    }
    r := Ok((done.value, count.value));
  }

  /** A file the service reports ready at once is not polled. */
  lemma ReadyFileNotPolled(uploaded: FileRef, script: Script, failMessage: string)
    requires uploaded.state == Active
    ensures PollCalls(uploaded, script.gets) == []
    ensures Next(script.counts).Ok? ==> Settled(uploaded, script, failMessage) == Ok((uploaded, Next(script.counts).value))
    ensures Next(script.counts).Err? ==> Settled(uploaded, script, failMessage) == Err(Next(script.counts).error)
  {
  }

  /** The wait succeeds once the service answers every `files.get` and
      one of the answers is no longer PROCESSING. */
  lemma {:induction false} PollSucceeds(uploaded: FileRef, gets: seq<Result<FileRef, string>>, j: nat)
    requires j < |gets|
    requires forall k :: 0 <= k <= j ==> gets[k].Ok?
    requires gets[j].value.state != Processing
    ensures PollResult(uploaded, gets).Ok?
    decreases j
  {
    if uploaded.state == Processing && j > 0 {
      PollSucceeds(gets[0].value, gets[1..], j - 1);
    }
  }
}
