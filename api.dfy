/**
 * The browser-side client of the council backend: which API key a request carries, and how
 * the streamed reply of the message endpoint is cut into events.
 */
module Api {
  import opened Wrappers
  import opened JsString
  import opened JsValue
  import opened Seqs

  /** A council member as sent to the message endpoint (`{ model, systemPrompt? }`). */
  datatype CouncilMember = CouncilMember(model: string, systemPrompt: Option<string>)

  /** `apiKey || this.getApiKey()`: an explicit non-empty key, otherwise the stored one. */
  function EffectiveApiKey(explicit: Option<string>, stored: Option<string>): (r: Option<string>)
    ensures r == explicit || r == stored
    ensures explicit.Some? && explicit.value != [] ==> r == explicit
    ensures explicit.None? || explicit.value == [] ==> r == stored
  {
    if explicit.Some? && explicit.value != [] then explicit else stored
  }

  const ApiKeyHeader: string := "x-openrouter-api-key"
  const CacheControl: string := "Cache-Control"

  /** The headers of the model-list request. */
  function ListModelsHeaders(explicit: Option<string>, stored: Option<string>): (h: map<string, string>)
    ensures h.Keys <= {CacheControl, ApiKeyHeader}
    ensures CacheControl in h && h[CacheControl] == "no-cache"
    ensures ApiKeyHeader in h <==> EffectiveApiKey(explicit, stored).Some? && EffectiveApiKey(explicit, stored).value != []
    ensures ApiKeyHeader in h ==> Some(h[ApiKeyHeader]) == EffectiveApiKey(explicit, stored)
  {
    var key := EffectiveApiKey(explicit, stored);
    var headers := map[CacheControl := "no-cache"];
    if key.Some? && key.value != [] then headers[ApiKeyHeader := key.value] else headers
  }

  /** An HTTP reply: its status, and its body parsed as JSON (None when it does not parse). */
  datatype HttpReply = HttpReply(ok: bool, body: Option<Json>)

  /**
   * The model-list request: a failed reply becomes its `error` field or a fixed message; a
   * successful one hands on its body (None standing for a body that is not JSON).
   */
  function ListModels(explicit: Option<string>, stored: Option<string>, fetch: map<string, string> -> HttpReply)
    : (r: Result<Option<Json>, Option<Json>>)
    ensures var reply := fetch(ListModelsHeaders(explicit, stored));
      (r.Ok? <==> reply.ok) &&
      (r.Ok? ==> r.value == reply.body) &&
      (r.Err? && Truthy(Prop(reply.body, "error")) ==> r.error == Prop(reply.body, "error")) &&
      (r.Err? && !Truthy(Prop(reply.body, "error")) ==> r.error == Some(JStr("Failed to load models")))
  {
    var reply := fetch(ListModelsHeaders(explicit, stored));
    if !reply.ok then Err(Or(Prop(reply.body, "error"), Some(JStr("Failed to load models"))))
    else Ok(reply.body)
  }

  /** The prefix that marks a server-sent-event data line. */
  const DataPrefix: string := "data: "

  predicate IsDataLine(line: string) {
    StartsWith(line, DataPrefix)
  }

  /**
   * A line reaches the event handler when it is a data line whose payload parses to a value
   * other than null (a null event makes reading its `type` throw, which the loop catches).
   */
  predicate Delivered(line: string, parse: string -> Option<Json>) {
    IsDataLine(line) && parse(line[|DataPrefix|..]).Some? && parse(line[|DataPrefix|..]).value != JNull
  }

  /** The event a delivered line carries. */
  function EventOf(line: string, parse: string -> Option<Json>): Json {
    if Delivered(line, parse) then parse(line[|DataPrefix|..]).value else JNull
  }

  /** The events of a sequence of lines, in line order. */
  function LineEvents(lines: seq<string>, parse: string -> Option<Json>): (r: seq<Json>)
    ensures |r| <= |lines|
  {
    Map((line: string) => EventOf(line, parse), Filter((line: string) => Delivered(line, parse), lines))
  }

  /** The events of one chunk: its lines split on '\n' on their own. */
  function ChunkEvents(chunk: string, parse: string -> Option<Json>): seq<Json> {
    LineEvents(Split(chunk, '\n'), parse)
  }

  /** The events of a whole stream, chunk after chunk. */
  function StreamEvents(chunks: seq<string>, parse: string -> Option<Json>): seq<Json>
    decreases |chunks|
  {
    if chunks == [] then []
    else StreamEvents(chunks[..|chunks| - 1], parse) + ChunkEvents(chunks[|chunks| - 1], parse)
  }

  /** One more line adds its event, if it has one, at the end. */
  lemma LineEventsSnoc(lines: seq<string>, j: nat, parse: string -> Option<Json>)
    requires j < |lines|
    ensures LineEvents(lines[..j + 1], parse) ==
      LineEvents(lines[..j], parse) + (if Delivered(lines[j], parse) then [EventOf(lines[j], parse)] else [])
  {
    var p := (line: string) => Delivered(line, parse);
    var f := (line: string) => EventOf(line, parse);
    assert lines[..j + 1] == lines[..j] + [lines[j]];
    FilterAppend(p, lines[..j], [lines[j]]);
    assert Filter(p, [lines[j]]) == if p(lines[j]) then [lines[j]] else [];
    MapAppend(f, Filter(p, lines[..j]), Filter(p, [lines[j]]));
  }

  /** One more chunk adds its events at the end. */
  lemma StreamEventsSnoc(chunks: seq<string>, i: nat, parse: string -> Option<Json>)
    requires i < |chunks|
    ensures StreamEvents(chunks[..i + 1], parse) == StreamEvents(chunks[..i], parse) + ChunkEvents(chunks[i], parse)
  {
    assert chunks[..i + 1][..i] == chunks[..i];
  }

  /**
   * The loop over the lines of one chunk: each data line's payload (the line without its first
   * six characters) is parsed and, unless parsing fails or gives null, delivered.
   */
  method DeliverLines(lines: seq<string>, parse: string -> Option<Json>) returns (events: seq<Json>)
    ensures events == LineEvents(lines, parse)
  {
    events := [];
    var j := 0;
    while j < |lines|
      invariant 0 <= j <= |lines|
      invariant events == LineEvents(lines[..j], parse)
    {
      var line := lines[j];
      if StartsWith(line, DataPrefix) {
        var data := line[|DataPrefix|..];
        var event := parse(data);
        if event.Some? && event.value != JNull {
          events := events + [event.value];
        }
      }
      LineEventsSnoc(lines, j, parse);
      j := j + 1;
    }
    assert lines[..|lines|] == lines;
  }

  /** The read loop: every chunk read is split into lines, and its events follow the earlier ones. */
  method ReadEvents(chunks: seq<string>, parse: string -> Option<Json>) returns (events: seq<Json>)
    ensures events == StreamEvents(chunks, parse)
  {
    events := [];
    var i := 0;
    while i < |chunks|
      invariant 0 <= i <= |chunks|
      invariant events == StreamEvents(chunks[..i], parse)
    {
      var delivered := DeliverLines(Split(chunks[i], '\n'), parse);
      events := events + delivered;
      StreamEventsSnoc(chunks, i, parse);
      i := i + 1;
    }
    assert chunks[..|chunks|] == chunks;
  }

  /**
   * The events of a line sequence are the payloads of the delivered lines, picked out by
   * strictly increasing line positions: only data lines count, each payload is the line
   * without its prefix, a line that fails to parse is skipped and every later one still counts.
   */
  lemma LineEventsOrder(lines: seq<string>, parse: string -> Option<Json>) returns (idx: seq<nat>)
    ensures var r := LineEvents(lines, parse);
      |idx| == |r| && Increasing(idx) &&
      (forall k :: 0 <= k < |idx| ==>
        idx[k] < |lines| && IsDataLine(lines[idx[k]]) &&
        parse(lines[idx[k]][|DataPrefix|..]) == Some(r[k]) && r[k] != JNull) &&
      (forall j :: 0 <= j < |lines| && Delivered(lines[j], parse) ==> j in idx)
  {
    var p := (line: string) => Delivered(line, parse);
    idx := FilterOrder(p, lines);
  }

  /** Chunks are handled in the order they are read. */
  lemma {:induction false} StreamEventsAppend(a: seq<string>, b: seq<string>, parse: string -> Option<Json>)
    ensures StreamEvents(a + b, parse) == StreamEvents(a, parse) + StreamEvents(b, parse)
    decreases |b|
  {
    if b != [] {
      var c := b[..|b| - 1];
      assert (a + b)[..|a + b| - 1] == a + c;
      assert (a + b)[|a + b| - 1] == b[|b| - 1];
      StreamEventsAppend(a, c, parse);
    } else {
      assert a + b == a;
    }
  }

  /** A chunk without any data line delivers nothing. */
  lemma NoDataLinesNoEvents(chunk: string, parse: string -> Option<Json>)
    requires forall line :: line in Split(chunk, '\n') ==> !IsDataLine(line)
    ensures ChunkEvents(chunk, parse) == []
  {
    var lines := Split(chunk, '\n');
    FilterDropsAll((line: string) => Delivered(line, parse), lines);
  }

  /** What the message endpoint is sent. */
  datatype StreamRequest = StreamRequest(
    content: string,
    councilModels: seq<CouncilMember>,
    chairmanModel: string,
    apiKey: Option<string>,
    generateTitle: Option<bool>)

  /** The endpoint's reply: its status and, when it has a body, the chunks read from it. */
  datatype StreamReply = StreamReply(ok: bool, body: Option<seq<string>>)

  /**
   * Sending a message: the request carries the effective key; a failed status and a missing body
   * are errors raised before any event; otherwise every event of the stream is delivered.
   */
  method SendMessageStream(
    content: string, councilModels: seq<CouncilMember>, chairmanModel: string,
    explicitKey: Option<string>, storedKey: Option<string>, generateTitle: Option<bool>,
    reply: StreamReply, parse: string -> Option<Json>)
    returns (request: StreamRequest, outcome: Result<seq<Json>, string>)
    ensures request.apiKey == EffectiveApiKey(explicitKey, storedKey)
    ensures request.content == content && request.councilModels == councilModels
    ensures request.chairmanModel == chairmanModel && request.generateTitle == generateTitle
    ensures !reply.ok ==> outcome == Err("Failed to send message")
    ensures reply.ok && reply.body.None? ==> outcome == Err("No response body")
    ensures reply.ok && reply.body.Some? ==> outcome == Ok(StreamEvents(reply.body.value, parse))
  {
    var key := EffectiveApiKey(explicitKey, storedKey);
    request := StreamRequest(content, councilModels, chairmanModel, key, generateTitle);
    if !reply.ok {
      return request, Err("Failed to send message");
    }
    if reply.body.None? {
      return request, Err("No response body");
    }
    var events := ReadEvents(reply.body.value, parse);
    outcome := Ok(events);
  }
}
