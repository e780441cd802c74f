/** The streaming chat turn: slash commands, the streamed reply with its
    function calls, the chart the model may ask for, and the one-turn
    preset override of the prompt and the thinking level. */
module Streaming {
  import opened Wrappers
  import opened Text
  import opened Gemini
  import Json
  import Presets
  import Charting
  import Meter
  import opened Session

  /** The commands answered with the help text. */
  const HELP_COMMANDS: seq<string> := ["/help", "/commands"]

  /** The query of a preset command given alone. */
  const DEFAULT_PRESET_QUERY: string := "Analyze the uploaded files according to the specified mode."

  /** The model's half of the preamble when a preset is active. */
  const PRESET_ACK: string := "Understood. I will analyze according to the specified mode."

  const CHART_BANNER_START: string := "\U{1F4CA} **Chart Generated: "
  const CHART_FAILED_START: string := "\U{274C} Chart generation failed: "

  /** What a chat input asks for. A command is the first whitespace
      delimited word of an input starting with '/'. */
  datatype Command =
    | Plain
    | Help(command: string)
    | Unknown(command: string)
    | Preset(command: string, prompt: string, level: string, query: string)

  /** The dispatch on the input: the help words are matched exactly, a
      preset command through its normalised form; the query of a preset
      is what follows the command, or the default query. */
  function Dispatch(input: string): (c: Command)
    ensures c.Plain? <==> !StartsWith(input, "/")
    ensures !c.Plain? ==> |SplitOnce(input)| > 0 && c.command == SplitOnce(input)[0]
    ensures c.Help? <==> StartsWith(input, "/") && SplitOnce(input)[0] in HELP_COMMANDS
    ensures c.Preset? ==> c.command !in HELP_COMMANDS && Presets.GetPreset(c.command) == (Some(c.prompt), Some(c.level))
    ensures c.Unknown? ==> c.command !in HELP_COMMANDS && Presets.GetPreset(c.command).0.None?
    ensures c.Preset? ==> c.query == if |SplitOnce(input)| == 2 then SplitOnce(input)[1] else DEFAULT_PRESET_QUERY
  {
    if !StartsWith(input, "/") then Plain
    else
      SplitOnceFirst(input);
      var words := SplitOnce(input);
      var command := words[0];
      if command in HELP_COMMANDS then Help(command)
      else
        var preset := Presets.GetPreset(command);
        if preset.0.Some? && preset.0.value != [] then
          Preset(command, preset.0.value, preset.1.value, if |words| == 2 then words[1] else DEFAULT_PRESET_QUERY)
        else Unknown(command)
  }

  /** The query the turn sends and records. */
  function TurnQuery(c: Command, input: string): string {
    if c.Preset? then c.query else input
  }

  /** The preamble prompt and its acknowledgement. */
  function TurnPrompt(c: Command): string {
    if c.Preset? then c.prompt else SYSTEM_PROMPT
  }

  function TurnAck(c: Command): string {
    if c.Preset? then PRESET_ACK else DEFAULT_ACK
  }

  /** The thinking level in force while the turn runs. */
  function TurnLevel(c: Command, level: string): string {
    if c.Preset? then c.level else level
  }

  /** The configuration of a streamed request: the held cache, the
      thinking level and the chart tool, in both branches. */
  function StreamConfig(cacheName: Option<string>, level: string): (g: GenerateConfig)
    ensures g.tools == [Charting.CHART_TOOL_NAME] && g.thinkingLevel == Some(level)
    ensures g.cache.Some? <==> Held(cacheName)
  {
    GenerateConfig(if Held(cacheName) then cacheName else None, Some(level), [Charting.CHART_TOOL_NAME])
  }

  /** All parts of all chunks, in stream order. */
  function Parts(chunks: seq<Chunk>): (parts: seq<StreamPart>)
    ensures chunks == [] ==> parts == []
  {
    if chunks == [] then [] else Parts(chunks[..|chunks| - 1]) + chunks[|chunks| - 1]
  }

  /** The reply text: the texts of the parts that carry no function call,
      concatenated. */
  function TextOf(parts: seq<StreamPart>): string {
    if parts == [] then []
    else
      var last := parts[|parts| - 1];
      TextOf(parts[..|parts| - 1]) + (if last.call.None? then last.text else [])
  }

  /** The function call acted upon: the last one in the stream. */
  function CallOf(parts: seq<StreamPart>): Option<FunctionCall> {
    if parts == [] then None
    else if parts[|parts| - 1].call.Some? then parts[|parts| - 1].call
    else CallOf(parts[..|parts| - 1])
  }

  /** The call acted upon is the last part's call that is present, and
      there is none exactly when no part carries one. */
  lemma {:induction false} CallOfIsLast(parts: seq<StreamPart>)
    ensures CallOf(parts).None? <==> forall k :: 0 <= k < |parts| ==> parts[k].call.None?
    ensures CallOf(parts).Some? ==>
              exists k :: 0 <= k < |parts| && parts[k].call == CallOf(parts) &&
                          forall j :: k < j < |parts| ==> parts[j].call.None?
    decreases |parts|
  {
    if parts != [] && parts[|parts| - 1].call.None? {
      var init := parts[..|parts| - 1];
      CallOfIsLast(init);
      assert forall k :: 0 <= k < |init| ==> init[k] == parts[k];
      if CallOf(parts).Some? {
        var k :| 0 <= k < |init| && init[k].call == CallOf(init) && forall j :: k < j < |init| ==> init[j].call.None?;
        assert parts[k].call == CallOf(parts);
      }
    }
  }

  /** The text of parts that all carry calls is empty: a call's text is
      never shown. */
  lemma {:induction false} CallsCarryNoText(parts: seq<StreamPart>)
    requires forall k :: 0 <= k < |parts| ==> parts[k].call.Some?
    ensures TextOf(parts) == []
    decreases |parts|
  {
    if parts != [] {
      CallsCarryNoText(parts[..|parts| - 1]);
    }
  }

  /** The text of a stream is the text of its first half followed by the
      text of its second half. */
  lemma {:induction false} TextOfAppend(a: seq<StreamPart>, b: seq<StreamPart>)
    ensures TextOf(a + b) == TextOf(a) + TextOf(b)
    decreases |b|
  {
    if b == [] {
      assert a + b == a;
    } else {
      var b', last := b[..|b| - 1], b[|b| - 1];
      assert (a + b)[..|a + b| - 1] == a + b';
      assert (a + b)[|a + b| - 1] == last;
      TextOfAppend(a, b');
      calc {
        TextOf(a + b);
        TextOf(a + b') + (if last.call.None? then last.text else []);
        TextOf(a) + TextOf(b') + (if last.call.None? then last.text else []);
        TextOf(a) + TextOf(b);
      }
    }
  }

  /** A call in a later stretch of the stream overrides every earlier one. */
  lemma {:induction false} CallOfAppend(a: seq<StreamPart>, b: seq<StreamPart>)
    ensures CallOf(a + b) == if CallOf(b).Some? then CallOf(b) else CallOf(a)
    decreases |b|
  {
    if b == [] {
      assert a + b == a;
    } else {
      var b' := b[..|b| - 1];
      assert (a + b)[..|a + b| - 1] == a + b';
      CallOfAppend(a, b');
    }
  }

  /** One more part: its text is appended unless it carries a call, and
      its call replaces the one seen so far. */
  lemma PartStep(parts: seq<StreamPart>, part: StreamPart)
    ensures TextOf(parts + [part]) == TextOf(parts) + (if part.call.None? then part.text else [])
    ensures CallOf(parts + [part]) == if part.call.Some? then part.call else CallOf(parts)
  {
    assert (parts + [part])[..|parts|] == parts;
  }

  /** One more chunk: its parts follow those read so far. */
  lemma ChunkStep(chunks: seq<Chunk>, i: nat)
    requires i < |chunks|
    ensures Parts(chunks[..i + 1]) == Parts(chunks[..i]) + chunks[i]
  {
    assert chunks[..i + 1][..i] == chunks[..i];
  }

  /** The reading loop over the stream. */
  method ReadStream(chunks: seq<Chunk>) returns (text: string, call: Option<FunctionCall>)
    ensures text == TextOf(Parts(chunks)) && call == CallOf(Parts(chunks))
  {
    text, call := [], None;
    for i := 0 to |chunks|
      invariant text == TextOf(Parts(chunks[..i])) && call == CallOf(Parts(chunks[..i]))
    {
      ghost var before := Parts(chunks[..i]);
      text, call := ReadChunk(text, call, chunks[i]);
      ChunkStep(chunks, i);
      TextOfAppend(before, chunks[i]);
      CallOfAppend(before, chunks[i]);
    }
    assert chunks[..|chunks|] == chunks;
  }

  /** The loop over the parts of one chunk. */
  method ReadChunk(text0: string, call0: Option<FunctionCall>, chunk: Chunk) returns (text: string, call: Option<FunctionCall>)
    ensures text == text0 + TextOf(chunk)
    ensures call == if CallOf(chunk).Some? then CallOf(chunk) else call0
  {
    text, call := text0, call0;
    for j := 0 to |chunk|
      invariant text == text0 + TextOf(chunk[..j])
      invariant call == if CallOf(chunk[..j]).Some? then CallOf(chunk[..j]) else call0
    {
      var part := chunk[j];
      PartStep(chunk[..j], part);
      assert chunk[..j + 1] == chunk[..j] + [part];
      if part.call.Some? {
        call := part.call;
      } else if part.text != [] {
        text := text + part.text;
      }
    }
    assert chunk[..|chunk|] == chunk;
  }

  /** The heading put before the reply when the chart was drawn: the
      title from the call's arguments, "Chart" when it has none. */
  function ChartBanner(args: map<string, Json.Json>): (banner: string)
    ensures StartsWith(banner, CHART_BANNER_START)
    ensures "title" in args ==> banner == CHART_BANNER_START + Json.Str(args["title"]) + "**\n\n"
    ensures "title" !in args ==> banner == CHART_BANNER_START + "Chart" + "**\n\n"
  {
    CHART_BANNER_START + Json.Str(Json.Get(args, "title", Json.JStr("Chart"))) + "**\n\n"
  }

  /** The reply after the chart step: unchanged unless the model called
      the chart tool; then prefixed with the banner, or with the failure
      message when drawing raised. */
  function WithChart(text: string, call: Option<FunctionCall>, draw: Result<string, string>): (reply: string)
    ensures EndsWith(reply, text)
    ensures call.None? || call.value.name != Charting.CHART_TOOL_NAME ==> reply == text
    ensures call.Some? && call.value.name == Charting.CHART_TOOL_NAME ==>
              var drawn := Charting.GenerateChart(Json.JObj(call.value.args), draw);
              && (drawn.Ok? ==> reply == ChartBanner(call.value.args) + text)
              && (drawn.Err? ==> reply == CHART_FAILED_START + drawn.error + "\n\n" + text)
  {
    if call.Some? && call.value.name == Charting.CHART_TOOL_NAME then
      match Charting.GenerateChart(Json.JObj(call.value.args), draw)
      case Ok(_) => ChartBanner(call.value.args) + text
      case Err(e) => CHART_FAILED_START + e + "\n\n" + text
    else text
  }

  /** How a turn ended, as the window shows it. */
  datatype Turn =
    | NoInput
    | HelpShown
    | UnknownCommand(command: string)
    | Errored(message: string)
    | Answered(reply: string, meter: Meter.Display)

  /** The streaming `send_chat`: an empty input does nothing, the help
      and unknown commands only show a message, and every other input runs
      a turn. */
  method SendChatStreaming(s: Session, client: Client, input: string, draw: Result<string, string>)
    returns (turn: Turn)
    requires s.Valid()
    modifies s, client
    ensures s.Valid()
    ensures s.files == old(s.files) && s.cacheName == old(s.cacheName) && s.cacheHolds == old(s.cacheHolds)
    ensures input == [] ==> turn == NoInput && unchanged(s) && unchanged(client)
    ensures input != [] && Dispatch(input).Help? ==> turn == HelpShown && unchanged(s) && unchanged(client)
    ensures input != [] && Dispatch(input).Unknown? ==>
              turn == UnknownCommand(Dispatch(input).command) && unchanged(s) && unchanged(client)
    ensures input != [] && (Dispatch(input).Plain? || Dispatch(input).Preset?) ==> TurnRan(s, client, Dispatch(input), input, draw, turn)
  {
    if input == [] {
      return NoInput;
    }
    var command := Dispatch(input);
    if command.Help? {
      return HelpShown;
    }
    if command.Unknown? {
      return UnknownCommand(command.command);
    }
    turn := RunTurn(s, client, command, input, draw);
  }

  /** What a turn that sends a request does: one streamed request with the
      turn's preamble, the history, the query and the turn's level; when
      it raises, the history is kept and the preset stays set; otherwise
      the query and the reply are recorded and the preset and its level
      are reset. */
  twostate predicate TurnRan(s: Session, client: Client, c: Command, input: string, draw: Result<string, string>, turn: Turn)
    reads s, client
  {
    && |client.log| > |old(client.log)|
    && client.log[|old(client.log)|] ==
         StreamCall(ChatMessages(TurnPrompt(c), TurnAck(c), old(s.history), TurnQuery(c, input), s.files, Held(s.cacheName)),
                    StreamConfig(s.cacheName, TurnLevel(c, old(s.thinkingLevel))))
    && (Next(old(client.script.streams)).Err? ==>
          && turn == Errored(Next(old(client.script.streams)).error)
          && s.history == old(s.history)
          && s.thinkingLevel == TurnLevel(c, old(s.thinkingLevel))
          && s.activePreset == (if c.Preset? then Some(c.command) else old(s.activePreset)))
    && (Next(old(client.script.streams)).Ok? ==>
          var chunks := Next(old(client.script.streams)).value;
          && turn.Answered?
          && turn.reply == WithChart(TextOf(Parts(chunks)), CallOf(Parts(chunks)), draw)
          && s.history == old(s.history) + [UserText(TurnQuery(c, input)), ModelText(turn.reply)]
          && s.thinkingLevel == old(s.thinkingLevel)
          && s.activePreset == (if c.Preset? then None else old(s.activePreset)))
  }

  /** A turn that sends a request. */
  method RunTurn(s: Session, client: Client, c: Command, input: string, draw: Result<string, string>)
    returns (turn: Turn)
    requires s.Valid() && (c.Plain? || c.Preset?)
    modifies s, client
    ensures s.Valid()
    ensures s.files == old(s.files) && s.cacheName == old(s.cacheName) && s.cacheHolds == old(s.cacheHolds)
    ensures TurnRan(s, client, c, input, draw, turn)
  {
    var originalLevel := s.thinkingLevel;
    var stream := SendTurn(s, client, c, input);
    if stream.Err? {
      return Errored(stream.error);
    }
    var reply := StreamedReply(stream.value, draw);
    var meter := CommitTurn(s, client, c, input, reply, originalLevel);
    turn := Answered(reply, meter);
  }

  /** The request of a turn, after the preset override. */
  method SendTurn(s: Session, client: Client, c: Command, input: string) returns (stream: Result<seq<Chunk>, string>)
    requires c.Plain? || c.Preset?
    modifies s, client
    ensures s.files == old(s.files) && s.history == old(s.history)
    ensures s.cacheName == old(s.cacheName) && s.cacheHolds == old(s.cacheHolds)
    ensures s.thinkingLevel == TurnLevel(c, old(s.thinkingLevel))
    ensures s.activePreset == (if c.Preset? then Some(c.command) else old(s.activePreset))
    ensures stream == Next(old(client.script.streams))
    ensures client.script == old(client.script).(streams := Rest(old(client.script.streams)))
    ensures client.log == old(client.log) + [StreamCall(
              ChatMessages(TurnPrompt(c), TurnAck(c), s.history, TurnQuery(c, input), s.files, Held(s.cacheName)),
              StreamConfig(s.cacheName, s.thinkingLevel))]
  {
    if c.Preset? {
      s.activePreset := Some(c.command);
      s.thinkingLevel := c.level;
    }
    var messages := ChatMessages(TurnPrompt(c), TurnAck(c), s.history, TurnQuery(c, input), s.files, Held(s.cacheName));
    stream := client.GenerateStream(messages, StreamConfig(s.cacheName, s.thinkingLevel));
  }

  /** The reply shown and recorded: the streamed text after the chart step. */
  method StreamedReply(chunks: seq<Chunk>, draw: Result<string, string>) returns (reply: string)
    ensures reply == WithChart(TextOf(Parts(chunks)), CallOf(Parts(chunks)), draw)
  {
    var text, call := ReadStream(chunks);
    reply := WithChart(text, call, draw);
  }

  /** The end of a turn: record the exchange, undo the preset override,
      refresh the meter. */
  method CommitTurn(s: Session, client: Client, c: Command, input: string, reply: string, originalLevel: string)
    returns (meter: Meter.Display)
    requires TextOnly(s.history)
    modifies s, client
    ensures TextOnly(s.history)
    ensures s.files == old(s.files) && s.cacheName == old(s.cacheName) && s.cacheHolds == old(s.cacheHolds)
    ensures s.history == old(s.history) + [UserText(TurnQuery(c, input)), ModelText(reply)]
    ensures s.thinkingLevel == (if c.Preset? then originalLevel else old(s.thinkingLevel))
    ensures s.activePreset == (if c.Preset? then None else old(s.activePreset))
    ensures meter == Meter.Reading(Next(old(client.script.counts)), |s.files|)
    ensures client.log == old(client.log) + [CountCall(MeterContents(s.history, s.files))]
  {
    s.history := s.history + [UserText(TurnQuery(c, input)), ModelText(reply)];
    if c.Preset? {
      s.activePreset := None;
      s.thinkingLevel := originalLevel;
    }
    meter := s.UpdateContextMeter(client);
  }
}
