/** The Gemini service as the application sees it: every call either
    returns a reply or raises. The client is an oracle that answers from a
    script of replies, one list per kind of call, and records each call it
    receives. Whatever holds for every script holds for every behaviour of
    the service. */
module Gemini {
  import opened Wrappers
  import Json

  /** `file_ref.state.name`: only PROCESSING and FAILED are tested. */
  datatype FileState = Processing | Active | Failed | Unspecified

  /** What `files.upload` and `files.get` return. */
  datatype FileRef = FileRef(name: string, uri: string, mime: string, state: FileState)

  /** One part of a message: an uploaded file or a piece of text. */
  datatype Part = FilePart(uri: string, mime: string) | TextPart(text: string)

  datatype Role = User | Model

  /** `types.Content`. */
  datatype Content = Content(role: Role, parts: seq<Part>)

  /** A function call the model makes while answering. */
  datatype FunctionCall = FunctionCall(name: string, args: map<string, Json.Json>)

  /** One part of a streamed chunk: a function call, or text (empty when
      the part carries none). */
  datatype StreamPart = StreamPart(call: Option<FunctionCall>, text: string)

  /** The parts of one streamed chunk's first candidate. */
  type Chunk = seq<StreamPart>

  /** The generation settings the application passes. */
  datatype GenerateConfig = GenerateConfig(cache: Option<string>, thinkingLevel: Option<string>, tools: seq<string>)

  /** A call received by the service. */
  datatype Call =
    | UploadCall(path: string, mime: string)
    | GetCall(name: string)
    | CountCall(contents: seq<Content>)
    | CreateCacheCall(contents: seq<Content>)
    | DeleteCacheCall(name: string)
    | GenerateCall(contents: seq<Content>, config: GenerateConfig)
    | StreamCall(contents: seq<Content>, config: GenerateConfig)

  /** The replies still to come, per kind of call; an `Err` is a call that
      raises with that message. */
  datatype Script = Script(
    uploads: seq<Result<FileRef, string>>,
    gets: seq<Result<FileRef, string>>,
    counts: seq<Result<nat, string>>,
    creates: seq<Result<string, string>>,
    deletes: seq<Result<(), string>>,
    replies: seq<Result<string, string>>,
    streams: seq<Result<seq<Chunk>, string>>)

  /** The message of a call made after its script ran out. */
  const NO_REPLY: string := "service unavailable"

  /** The reply to the next call of a kind. */
  function Next<T>(replies: seq<Result<T, string>>): (r: Result<T, string>)
    ensures replies == [] ==> r == Err(NO_REPLY)
    ensures replies != [] ==> r == replies[0]
  {
    if replies == [] then Err(NO_REPLY) else replies[0]
  }

  /** The replies left after the next call of a kind. */
  function Rest<T>(replies: seq<Result<T, string>>): (r: seq<Result<T, string>>)
    ensures replies == [] ==> r == []
    ensures replies != [] ==> r == replies[1..]
  {
    if replies == [] then [] else replies[1..]
  }

  class Client {
    var script: Script
    var log: seq<Call>

    constructor(script: Script)
      ensures this.script == script && log == []
    {
      this.script := script;
      log := [];
    }

    /** `files.upload`. */
    method Upload(path: string, mime: string) returns (r: Result<FileRef, string>)
      modifies this
      ensures r == Next(old(script.uploads))
      ensures script == old(script).(uploads := Rest(old(script.uploads)))
      ensures log == old(log) + [UploadCall(path, mime)]
    {
      r := Next(script.uploads);
      script := script.(uploads := Rest(script.uploads));
      log := log + [UploadCall(path, mime)];
    }

    /** `files.get`. */
    method GetFile(name: string) returns (r: Result<FileRef, string>)
      modifies this
      ensures r == Next(old(script.gets))
      ensures script == old(script).(gets := Rest(old(script.gets)))
      ensures log == old(log) + [GetCall(name)]
    {
      r := Next(script.gets);
      script := script.(gets := Rest(script.gets));
      log := log + [GetCall(name)];
    }

    /** `models.count_tokens`. */
    method CountTokens(contents: seq<Content>) returns (r: Result<nat, string>)
      modifies this
      ensures r == Next(old(script.counts))
      ensures script == old(script).(counts := Rest(old(script.counts)))
      ensures log == old(log) + [CountCall(contents)]
    {
      r := Next(script.counts);
      script := script.(counts := Rest(script.counts));
      log := log + [CountCall(contents)];
    }

    /** `caches.create`: the new cache's name. */
    method CreateCache(contents: seq<Content>) returns (r: Result<string, string>)
      modifies this
      ensures r == Next(old(script.creates))
      ensures script == old(script).(creates := Rest(old(script.creates)))
      ensures log == old(log) + [CreateCacheCall(contents)]
    {
      r := Next(script.creates);
      script := script.(creates := Rest(script.creates));
      log := log + [CreateCacheCall(contents)];
    }

    /** `caches.delete`. */
    method DeleteCache(name: string) returns (r: Result<(), string>)
      modifies this
      ensures r == Next(old(script.deletes))
      ensures script == old(script).(deletes := Rest(old(script.deletes)))
      ensures log == old(log) + [DeleteCacheCall(name)]
    {
      r := Next(script.deletes);
      script := script.(deletes := Rest(script.deletes));
      log := log + [DeleteCacheCall(name)];
    }

    /** `models.generate_content`: the reply's text. */
    method Generate(contents: seq<Content>, config: GenerateConfig) returns (r: Result<string, string>)
      modifies this
      ensures r == Next(old(script.replies))
      ensures script == old(script).(replies := Rest(old(script.replies)))
      ensures log == old(log) + [GenerateCall(contents, config)]
    {
      r := Next(script.replies);
      script := script.(replies := Rest(script.replies));
      log := log + [GenerateCall(contents, config)];
    }

    /** `models.generate_content_stream`, with the stream read to its end:
        the chunks, or the error raised while opening or reading it. */
    method GenerateStream(contents: seq<Content>, config: GenerateConfig) returns (r: Result<seq<Chunk>, string>)
      modifies this
      ensures r == Next(old(script.streams))
      ensures script == old(script).(streams := Rest(old(script.streams)))
      ensures log == old(log) + [StreamCall(contents, config)]
    {
      r := Next(script.streams);
      script := script.(streams := Rest(script.streams));
      log := log + [StreamCall(contents, config)];
    }
  }
}
