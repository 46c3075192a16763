/**
 * The streaming chat client (`StreamClient` of src/utils/streamApi.ts).
 *
 * A call POSTs a request with a bearer token, retries once after a 401 when
 * the token refresh succeeds, and reads the body as a sequence of reads.
 * Each read is split on a blank line; pieces starting with `data: ` lose
 * that prefix and are parsed as one `StreamChunk` each. Every chunk is
 * appended to the aggregate and handed to the callback; the first chunk with
 * an `error` ends the call as a failure.
 *
 * The world is given as inputs: `fetch(n)` is what the n-th fetch of the call
 * produces, `refresh` what the token refresh settles to, `parse` what
 * `JSON.parse` makes of a frame (None when it throws). Each read is taken as
 * already-decoded text.
 */
module StreamApi {
  import opened Wrappers
  import opened Text
  import opened ApiTypes
  import opened Seqs

  const DataPrefix: string := "data: "
  const FrameSeparator: string := "\n\n"
  const MaxRetries: nat := 1
  const ParseErrorMessage: string := "stream data parse error"
  const RequestErrorMessage: string := "request error"
  const ParseErrorChunk: StreamChunk := StreamChunk("", None, Some(ChunkError(500, ParseErrorMessage)))

  /** One `reader.read()`: decoded text, or an exception (an abort, a network failure). */
  datatype ReadEvent = Received(text: string) | ReadThrew(thrown: Thrown)

  /** One `fetch`: a status and a body that may be missing, or an exception. */
  datatype FetchOutcome = Responded(status: int, body: Option<seq<ReadEvent>>) | FetchThrew(thrown: Thrown)

  /** How the awaited token refresh settles, and the access token the store holds afterwards. */
  datatype RefreshOutcome = RefreshResolved(refreshed: bool, accessTokenAfter: Option<string>) | RefreshThrew(thrown: Thrown)

  /** The result of reading one body, with every chunk handed to the callback. */
  datatype StreamRun = StreamRun(result: ApiResponse, delivered: seq<StreamChunk>)

  /** The result of a whole `chat` call, the Authorization header of each fetch, and how many refreshes it awaited. */
  datatype ChatRun = ChatRun(result: ApiResponse, delivered: seq<StreamChunk>, authorizations: seq<string>, refreshCalls: nat)

  predicate IsOk(status: int) { 200 <= status <= 299 }

  // ---------------------------------------------------------------
  // Framing and parsing
  // ---------------------------------------------------------------

  /**
   * `pieces.filter(l => l.startsWith('data: '))` followed by
   * `line.replace('data: ', '')` on each kept piece.
   */
  function DataFrames(pieces: seq<string>): (frames: seq<string>)
    ensures |frames| <= |pieces|
    ensures forall i :: 0 <= i < |frames| ==> exists j :: 0 <= j < |pieces| && pieces[j] == DataPrefix + frames[i]
    ensures forall j :: 0 <= j < |pieces| && StartsWith(pieces[j], DataPrefix) ==> pieces[j][|DataPrefix|..] in frames
  {
    if pieces == [] then []
    else
      var rest := DataFrames(pieces[1..]);
      if StartsWith(pieces[0], DataPrefix) then
        ReplaceFirstOfPrefix(pieces[0], DataPrefix);
        assert pieces[0] == DataPrefix + pieces[0][|DataPrefix|..];
        [ReplaceFirst(pieces[0], DataPrefix, "")] + rest
      else rest
  }

  /** A single piece gives its remainder after `data: ` as one frame, or no frame. */
  lemma DataFramesOne(piece: string)
    ensures DataFrames([piece]) == if StartsWith(piece, DataPrefix) then [piece[|DataPrefix|..]] else []
  {
    assert [piece][1..] == [];
    if StartsWith(piece, DataPrefix) {
      ReplaceFirstOfPrefix(piece, DataPrefix);
    }
  }

  /**
   * The frames of concatenated pieces are the frames of each part, in
   * order. With `DataFramesOne`: one frame per `data: ` piece, in piece
   * order, and no other frame.
   */
  lemma {:induction false} DataFramesAppend(a: seq<string>, b: seq<string>)
    ensures DataFrames(a + b) == DataFrames(a) + DataFrames(b)
    decreases |a|
  {
    if a == [] {
      assert a + b == b;
    } else {
      assert (a + b)[0] == a[0];
      assert (a + b)[1..] == a[1..] + b;
      DataFramesAppend(a[1..], b);
    }
  }

  /** The frames of one read: the read alone is split, nothing carries over between reads. */
  function Frames(text: string): seq<string> {
    DataFrames(Split(text, FrameSeparator))
  }

  /** `parseChunk`: a frame that does not parse becomes a synthetic code-500 error chunk. */
  function ParseChunk(parse: string -> Option<StreamChunk>, data: string): StreamChunk {
    match parse(data)
    case Some(chunk) => chunk
    case None => ParseErrorChunk
  }

  /** Each frame parsed in turn. */
  function ParseAll(frames: seq<string>, parse: string -> Option<StreamChunk>): (chunks: seq<StreamChunk>)
    ensures |chunks| == |frames|
  {
    if frames == [] then [] else [ParseChunk(parse, frames[0])] + ParseAll(frames[1..], parse)
  }

  lemma {:induction false} ParseAllAt(frames: seq<string>, parse: string -> Option<StreamChunk>, i: nat)
    requires i < |frames|
    ensures ParseAll(frames, parse)[i] == ParseChunk(parse, frames[i])
    decreases i
  {
    if i > 0 {
      ParseAllAt(frames[1..], parse, i - 1);
    }
  }

  lemma {:induction false} ParseAllAppend(a: seq<string>, b: seq<string>, parse: string -> Option<StreamChunk>)
    ensures ParseAll(a + b, parse) == ParseAll(a, parse) + ParseAll(b, parse)
    decreases |a|
  {
    if a == [] {
      assert a + b == b;
    } else {
      assert (a + b)[1..] == a[1..] + b;
      ParseAllAppend(a[1..], b, parse);
    }
  }

  /** The position of the first chunk that carries an error. */
  function FirstError(chunks: seq<StreamChunk>): (r: Option<nat>)
    ensures r.Some? ==> r.value < |chunks| && chunks[r.value].error.Some?
  {
    if chunks == [] then None
    else if chunks[0].error.Some? then Some(0)
    else match FirstError(chunks[1..])
      case None => None
      case Some(k) => Some(k + 1)
  }

  // ---------------------------------------------------------------
  // Results
  // ---------------------------------------------------------------

  /** `getToken`: the access token, or the literal placeholder when there is none. */
  function GetToken(accessToken: Option<string>): string {
    accessToken.GetOr("unkonow")
  }

  /** `formatError`: a failure whose message gets a `[code] ` prefix only for a truthy code. */
  function FormatError(message: string, code: Option<int>, sessionId: SessionId): (r: ApiResponse)
    ensures !r.isSuccess && r.data == ChatData("", OrEmpty(sessionId))
    ensures code.Some? && code.value != 0 ==> r.message == Some("[" + IntToDecimal(code.value) + "] " + message)
    ensures code.None? || code.value == 0 ==> r.message == Some(message)
  {
    ApiResponse(false, Some(if code.Some? && code.value != 0 then "[" + IntToDecimal(code.value) + "] " + message else message),
      ChatData("", OrEmpty(sessionId)))
  }

  function ErrorMessage(thrown: Thrown): string {
    match thrown
    case ErrorObject(m) => m
    case NonErrorValue => "unkonow error"
  }

  /** `handleError`: an exception becomes a failure carrying its message, never a code. */
  function HandleError(thrown: Thrown, sessionId: SessionId): ApiResponse {
    FormatError(ErrorMessage(thrown), None, sessionId)
  }

  function Succeeded(content: string, sessionId: SessionId): ApiResponse {
    ApiResponse(true, None, ChatData(content, OrEmpty(sessionId)))
  }

  // ---------------------------------------------------------------
  // Reading a body
  // ---------------------------------------------------------------

  /** One step of reading a body, in the order `processStream` meets them: a chunk, or a read that threw. */
  datatype BodyItem = Delivered(chunk: StreamChunk) | Broke(thrown: Thrown)

  function ChunkItems(frames: seq<string>, parse: string -> Option<StreamChunk>): (items: seq<BodyItem>)
    ensures |items| == |frames|
  {
    if frames == [] then [] else [Delivered(ParseChunk(parse, frames[0]))] + ChunkItems(frames[1..], parse)
  }

  /** Everything the reads of a body yield, in order: the chunks of each read, or the exception of a read. */
  function Items(events: seq<ReadEvent>, framing: string -> seq<string>, parse: string -> Option<StreamChunk>): seq<BodyItem> {
    if events == [] then []
    else
      var first := match events[0]
        case Received(text) => ChunkItems(framing(text), parse)
        case ReadThrew(thrown) => [Broke(thrown)];
      first + Items(events[1..], framing, parse)
  }

  /** Why reading a body stopped. */
  datatype StreamEnd = BodyEnded | ErrorChunk(error: ChunkError) | ReadFailed(thrown: Thrown)

  /** How reading a body ended, and every chunk handed to the callback on the way. */
  datatype Drained = Drained(end: StreamEnd, delivered: seq<StreamChunk>)

  /**
   * The rest of `processStream` from the given items on, `delivered` being
   * the chunks already handed out: each chunk is handed out, and a chunk with
   * an error or a read that throws ends the stream.
   */
  function Drain(items: seq<BodyItem>, delivered: seq<StreamChunk>): Drained
    decreases |items|
  {
    if items == [] then Drained(BodyEnded, delivered)
    else match items[0]
      case Broke(thrown) => Drained(ReadFailed(thrown), delivered)
      case Delivered(chunk) =>
        if chunk.error.Some? then Drained(ErrorChunk(chunk.error.value), delivered + [chunk])
        else Drain(items[1..], delivered + [chunk])
  }

  /** Reading a whole body. */
  function ReadBody(events: seq<ReadEvent>, framing: string -> seq<string>, parse: string -> Option<StreamChunk>): Drained {
    Drain(Items(events, framing, parse), [])
  }

  /** The `ApiResponse` `processStream` returns for a body read this way. */
  function StreamResult(drained: Drained, sessionId: SessionId): ApiResponse {
    match drained.end
    case BodyEnded => Succeeded(Contents(drained.delivered), sessionId)
    case ErrorChunk(error) => FormatError(error.message, Some(error.code), sessionId)
    case ReadFailed(thrown) => HandleError(thrown, sessionId)
  }

  lemma DrainCons(item: BodyItem, rest: seq<BodyItem>, delivered: seq<StreamChunk>)
    ensures item.Broke? ==> Drain([item] + rest, delivered) == Drained(ReadFailed(item.thrown), delivered)
    ensures item.Delivered? && item.chunk.error.Some? ==>
      Drain([item] + rest, delivered) == Drained(ErrorChunk(item.chunk.error.value), delivered + [item.chunk])
    ensures item.Delivered? && item.chunk.error.None? ==>
      Drain([item] + rest, delivered) == Drain(rest, delivered + [item.chunk])
  {
    assert ([item] + rest)[1..] == rest;
  }

  lemma ChunkItemsFrom(frames: seq<string>, parse: string -> Option<StreamChunk>, j: nat)
    requires j < |frames|
    ensures ChunkItems(frames[j..], parse) == [Delivered(ParseChunk(parse, frames[j]))] + ChunkItems(frames[j + 1..], parse)
  {
    assert frames[j..][1..] == frames[j + 1..];
  }

  /**
   * `processStream`: reads until the body ends, an error chunk arrives or a
   * read throws. `framing` is how one read is cut into frames; the client
   * always passes `Frames`, and nothing here depends on which framing it is.
   */
  method ProcessStream(events: seq<ReadEvent>, framing: string -> seq<string>, parse: string -> Option<StreamChunk>, sessionId: SessionId)
    returns (result: ApiResponse, delivered: seq<StreamChunk>)
    ensures delivered == ReadBody(events, framing, parse).delivered
    ensures result == StreamResult(ReadBody(events, framing, parse), sessionId)
  {
    var content := "";
    delivered := [];
    for i := 0 to |events|
      invariant content == Contents(delivered)
      invariant ReadBody(events, framing, parse) == Drain(Items(events[i..], framing, parse), delivered)
    {
      DropOne(events, i);
      ghost var later := Items(events[i + 1..], framing, parse);
      match events[i] {
        case ReadThrew(thrown) =>
          DrainCons(Broke(thrown), later, delivered);
          result := HandleError(thrown, sessionId);
          return;
        case Received(text) =>
          var frames := framing(text);
          assert frames[0..] == frames;
          for j := 0 to |frames|
            invariant content == Contents(delivered)
            invariant ReadBody(events, framing, parse) == Drain(ChunkItems(frames[j..], parse) + later, delivered)
          {
            var chunk := ParseChunk(parse, frames[j]);
            ChunkItemsFrom(frames, parse, j);
            AppendAssoc([Delivered(chunk)], ChunkItems(frames[j + 1..], parse), later);
            DrainCons(Delivered(chunk), ChunkItems(frames[j + 1..], parse) + later, delivered);
            content := content + chunk.content;
            ContentsSnoc(delivered, chunk);
            delivered := delivered + [chunk];
            if chunk.error.Some? {
              result := FormatError(chunk.error.value.message, Some(chunk.error.value.code), sessionId);
              return;
            }
          }
          assert frames[|frames|..] == [];
          AppendEmpty(later);
      }
    }
    result := Succeeded(content, sessionId);
  }

  /** Every read succeeds (no abort, no network failure while reading). */
  predicate NoReadFails(events: seq<ReadEvent>) {
    forall i :: 0 <= i < |events| ==> events[i].Received?
  }

  /** The frames of all reads, in order. */
  function AllFrames(events: seq<ReadEvent>, framing: string -> seq<string>): seq<string>
    requires NoReadFails(events)
  {
    if events == [] then [] else framing(events[0].text) + AllFrames(events[1..], framing)
  }

  function AllChunks(events: seq<ReadEvent>, framing: string -> seq<string>, parse: string -> Option<StreamChunk>): seq<StreamChunk>
    requires NoReadFails(events)
  {
    ParseAll(AllFrames(events, framing), parse)
  }

  lemma {:induction false} ChunkItemsAppend(a: seq<string>, b: seq<string>, parse: string -> Option<StreamChunk>)
    ensures ChunkItems(a + b, parse) == ChunkItems(a, parse) + ChunkItems(b, parse)
    decreases |a|
  {
    if a == [] {
      assert a + b == b;
    } else {
      assert (a + b)[1..] == a[1..] + b;
      ChunkItemsAppend(a[1..], b, parse);
    }
  }

  /** Without failing reads, a body is the items of all its frames: read boundaries do not matter. */
  lemma {:induction false} ItemsWithoutFailures(events: seq<ReadEvent>, framing: string -> seq<string>, parse: string -> Option<StreamChunk>)
    requires NoReadFails(events)
    ensures Items(events, framing, parse) == ChunkItems(AllFrames(events, framing), parse)
    decreases |events|
  {
    if events != [] {
      ItemsWithoutFailures(events[1..], framing, parse);
      ChunkItemsAppend(framing(events[0].text), AllFrames(events[1..], framing), parse);
    }
  }

  lemma FirstErrorCons(chunk: StreamChunk, rest: seq<StreamChunk>)
    ensures FirstError([chunk] + rest)
         == if chunk.error.Some? then Some(0)
            else if FirstError(rest).None? then None
            else Some(FirstError(rest).value + 1)
  {
    assert ([chunk] + rest)[1..] == rest;
  }

  lemma {:induction false} DrainCleanFrames(frames: seq<string>, parse: string -> Option<StreamChunk>, delivered: seq<StreamChunk>)
    requires FirstError(ParseAll(frames, parse)).None?
    ensures Drain(ChunkItems(frames, parse), delivered) == Drained(BodyEnded, delivered + ParseAll(frames, parse))
    decreases |frames|
  {
    if frames == [] {
      AppendEmpty(delivered);
    } else {
      var chunk := ParseChunk(parse, frames[0]);
      var rest := ParseAll(frames[1..], parse);
      FirstErrorCons(chunk, rest);
      DrainCons(Delivered(chunk), ChunkItems(frames[1..], parse), delivered);
      DrainCleanFrames(frames[1..], parse, delivered + [chunk]);
      AppendAssoc(delivered, [chunk], rest);
    }
  }

  lemma {:induction false} DrainFramesToError(frames: seq<string>, parse: string -> Option<StreamChunk>,
                                              delivered: seq<StreamChunk>, k: nat)
    requires FirstError(ParseAll(frames, parse)) == Some(k)
    ensures Drain(ChunkItems(frames, parse), delivered)
         == Drained(ErrorChunk(ParseAll(frames, parse)[k].error.value), delivered + ParseAll(frames, parse)[..k + 1])
    decreases |frames|
  {
    var chunk := ParseChunk(parse, frames[0]);
    var rest := ParseAll(frames[1..], parse);
    FirstErrorCons(chunk, rest);
    DrainCons(Delivered(chunk), ChunkItems(frames[1..], parse), delivered);
    if chunk.error.Some? {
      TakeAppend([chunk], rest, 1);
      assert rest[..0] == [];
      AppendEmpty([chunk]);
    } else {
      DrainFramesToError(frames[1..], parse, delivered + [chunk], k - 1);
      TakeAppend([chunk], rest, k + 1);
      AppendAssoc(delivered, [chunk], rest[..k]);
    }
  }

  /**
   * A body without failing reads and without error chunks yields a success
   * whose response is every chunk's content in order, every chunk having been
   * handed to the callback in that order.
   */
  lemma CleanStreamSucceeds(events: seq<ReadEvent>, framing: string -> seq<string>, parse: string -> Option<StreamChunk>, sessionId: SessionId)
    requires NoReadFails(events)
    requires FirstError(AllChunks(events, framing, parse)).None?
    ensures var drained := ReadBody(events, framing, parse);
      var result := StreamResult(drained, sessionId);
      && result.isSuccess && result.message.None?
      && result.data == ChatData(Contents(AllChunks(events, framing, parse)), OrEmpty(sessionId))
      && drained.delivered == AllChunks(events, framing, parse)
  {
    ItemsWithoutFailures(events, framing, parse);
    DrainCleanFrames(AllFrames(events, framing), parse, []);
    AppendEmpty(AllChunks(events, framing, parse));
  }

  /**
   * The first error chunk ends the stream: it and everything before it were
   * handed to the callback, nothing after it was, and the result is the
   * failure `formatError` makes of that chunk's message and code.
   */
  lemma ErrorChunkEndsStream(events: seq<ReadEvent>, framing: string -> seq<string>, parse: string -> Option<StreamChunk>, sessionId: SessionId, k: nat)
    requires NoReadFails(events)
    requires FirstError(AllChunks(events, framing, parse)) == Some(k)
    ensures var drained := ReadBody(events, framing, parse);
      var result := StreamResult(drained, sessionId);
      var err := AllChunks(events, framing, parse)[k].error.value;
      && drained.delivered == AllChunks(events, framing, parse)[..k + 1]
      && result == FormatError(err.message, Some(err.code), sessionId)
  {
    ItemsWithoutFailures(events, framing, parse);
    DrainFramesToError(AllFrames(events, framing), parse, [], k);
    AppendEmpty(AllChunks(events, framing, parse)[..k + 1]);
  }

  /**
   * A read that throws ends the stream: the chunks of the reads before it
   * stay delivered and the result is a failure carrying the exception's message.
   */
  lemma FailedReadEndsStream(events: seq<ReadEvent>, framing: string -> seq<string>, parse: string -> Option<StreamChunk>, sessionId: SessionId, r: nat)
    requires r < |events| && events[r].ReadThrew?
    requires NoReadFails(events[..r])
    requires FirstError(AllChunks(events[..r], framing, parse)).None?
    ensures var drained := ReadBody(events, framing, parse);
      && drained.delivered == AllChunks(events[..r], framing, parse)
      && StreamResult(drained, sessionId) == ApiResponse(false, Some(ErrorMessage(events[r].thrown)), ChatData("", OrEmpty(sessionId)))
  {
    var before := events[..r];
    ItemsAppend(before, events[r..], framing, parse);
    TakeDrop(events, r);
    DropOne(events, r);
    ItemsWithoutFailures(before, framing, parse);
    var tail := Items(events[r + 1..], framing, parse);
    DrainThroughClean(AllFrames(before, framing), [Broke(events[r].thrown)] + tail, parse, []);
    AppendEmpty(AllChunks(before, framing, parse));
    DrainCons(Broke(events[r].thrown), tail, AllChunks(before, framing, parse));
  }

  lemma {:induction false} ItemsAppend(a: seq<ReadEvent>, b: seq<ReadEvent>, framing: string -> seq<string>, parse: string -> Option<StreamChunk>)
    ensures Items(a + b, framing, parse) == Items(a, framing, parse) + Items(b, framing, parse)
    decreases |a|
  {
    if a == [] {
      assert a + b == b;
    } else {
      assert (a + b)[1..] == a[1..] + b;
      ItemsAppend(a[1..], b, framing, parse);
    }
  }

  /** Clean frames followed by anything: the chunks are delivered and draining goes on with what follows. */
  lemma {:induction false} DrainThroughClean(frames: seq<string>, rest: seq<BodyItem>, parse: string -> Option<StreamChunk>,
                                             delivered: seq<StreamChunk>)
    requires FirstError(ParseAll(frames, parse)).None?
    ensures Drain(ChunkItems(frames, parse) + rest, delivered) == Drain(rest, delivered + ParseAll(frames, parse))
    decreases |frames|
  {
    if frames == [] {
      AppendEmpty(rest);
      AppendEmpty(delivered);
    } else {
      var chunk := ParseChunk(parse, frames[0]);
      var chunks := ParseAll(frames[1..], parse);
      FirstErrorCons(chunk, chunks);
      AppendAssoc([Delivered(chunk)], ChunkItems(frames[1..], parse), rest);
      DrainCons(Delivered(chunk), ChunkItems(frames[1..], parse) + rest, delivered);
      DrainThroughClean(frames[1..], rest, parse, delivered + [chunk]);
      AppendAssoc(delivered, [chunk], chunks);
    }
  }

  /** The message `formatError` gives for the two codes this client produces itself. */
  lemma CodedMessage(code: int, message: string, sessionId: SessionId)
    requires code == 500 || code == 401
    ensures FormatError(message, Some(code), sessionId).message
         == Some(if code == 500 then "[500] " + message else "[401] " + message)
  {
    ClientCodes();
    if code == 500 {
      assert "[" + IntToDecimal(500) + "] " + message == "[500] " + message;
    } else {
      assert "[" + IntToDecimal(401) + "] " + message == "[401] " + message;
    }
  }

  lemma ClientCodes()
    ensures IntToDecimal(500) == "500" && IntToDecimal(401) == "401"
  {
    assert NatToDigits(5) == "5";
    assert NatToDigits(50) == "50";
    assert NatToDigits(4) == "4";
    assert NatToDigits(40) == "40";
  }

  /** The first error is the position of an error chunk with none before it, and there is none exactly when no chunk has one. */
  lemma {:induction false} FirstErrorSpec(chunks: seq<StreamChunk>, k: nat)
    ensures FirstError(chunks) == Some(k)
        <==> k < |chunks| && chunks[k].error.Some? && forall j :: 0 <= j < k ==> chunks[j].error.None?
    ensures FirstError(chunks).None? <==> forall j :: 0 <= j < |chunks| ==> chunks[j].error.None?
    decreases |chunks|
  {
    if chunks != [] {
      var rest := chunks[1..];
      FirstErrorSpec(rest, if k == 0 then 0 else k - 1);
      assert forall j :: 0 < j < |chunks| ==> chunks[j] == rest[j - 1];
    }
  }

  /**
   * A frame that does not parse ends the stream with a `[500]` failure; the
   * chunks before it stay delivered and the synthetic chunk is delivered last.
   */
  lemma UnparsableFrameEndsStream(events: seq<ReadEvent>, framing: string -> seq<string>, parse: string -> Option<StreamChunk>, sessionId: SessionId, k: nat)
    requires NoReadFails(events)
    requires k < |AllFrames(events, framing)| && parse(AllFrames(events, framing)[k]).None?
    requires forall j :: 0 <= j < k ==> parse(AllFrames(events, framing)[j]).Some? && parse(AllFrames(events, framing)[j]).value.error.None?
    ensures var drained := ReadBody(events, framing, parse);
      && StreamResult(drained, sessionId) == ApiResponse(false, Some("[500] " + ParseErrorMessage), ChatData("", OrEmpty(sessionId)))
      && |drained.delivered| == k + 1
      && drained.delivered[k] == ParseErrorChunk
      && forall j :: 0 <= j < k ==> drained.delivered[j] == parse(AllFrames(events, framing)[j]).value
  {
    var frames := AllFrames(events, framing);
    var all := AllChunks(events, framing, parse);
    forall j | 0 <= j <= k
      ensures all[j] == ParseChunk(parse, frames[j])
    {
      ParseAllAt(frames, parse, j);
    }
    FirstErrorSpec(all, k);
    ErrorChunkEndsStream(events, framing, parse, sessionId, k);
    CodedMessage(500, ParseErrorMessage, sessionId);
  }

  // ---------------------------------------------------------------
  // A whole call
  // ---------------------------------------------------------------

  /** What happens after a response was received and not retried. */
  function AfterResponse(status: int, body: Option<seq<ReadEvent>>, parse: string -> Option<StreamChunk>,
                         sessionId: SessionId): StreamRun
  {
    if !IsOk(status) then StreamRun(FormatError(RequestErrorMessage, Some(status), Absent), [])
    else match body
      case None => StreamRun(FormatError("empty steam data", None, Absent), [])
      case Some(events) =>
        var drained := ReadBody(events, Frames, parse);
        StreamRun(StreamResult(drained, sessionId), drained.delivered)
  }

  /** `executeRequest` entered with the shared counter at `retryCount`. */
  function Attempt(retryCount: nat, accessToken: Option<string>, fetch: nat -> FetchOutcome, refresh: RefreshOutcome,
                   parse: string -> Option<StreamChunk>, sessionId: SessionId): ChatRun
    requires retryCount <= MaxRetries
    decreases MaxRetries - retryCount
  {
    var header := "Bearer " + GetToken(accessToken);
    match fetch(retryCount)
    case FetchThrew(thrown) => ChatRun(HandleError(thrown, sessionId), [], [header], 0)
    case Responded(status, body) =>
      if status == 401 && retryCount < MaxRetries then
        match refresh
        case RefreshThrew(thrown) => ChatRun(HandleError(thrown, sessionId), [], [header], 1)
        case RefreshResolved(refreshed, tokenAfter) =>
          if refreshed then
            var retry := Attempt(retryCount + 1, tokenAfter, fetch, refresh, parse, sessionId);
            ChatRun(retry.result, retry.delivered, [header] + retry.authorizations, 1 + retry.refreshCalls)
          else
            var run := AfterResponse(status, body, parse, sessionId);
            ChatRun(run.result, run.delivered, [header], 1)
      else
        var run := AfterResponse(status, body, parse, sessionId);
        ChatRun(run.result, run.delivered, [header], 0)
  }

  /** The specification of `chat`. */
  function ChatSpec(accessToken: Option<string>, fetch: nat -> FetchOutcome, refresh: RefreshOutcome,
                    parse: string -> Option<StreamChunk>, sessionId: SessionId): ChatRun
  {
    Attempt(0, accessToken, fetch, refresh, parse, sessionId)
  }

  /** One `chat` call; `retryCount` is shared by the attempts, as the closure shares it. */
  class ChatCall {
    const fetch: nat -> FetchOutcome
    const refresh: RefreshOutcome
    const parse: string -> Option<StreamChunk>
    const sessionId: SessionId
    var retryCount: nat
    var accessToken: Option<string>
    var authorizations: seq<string>
    var refreshCalls: nat

    constructor (accessToken: Option<string>, fetch: nat -> FetchOutcome, refresh: RefreshOutcome,
                 parse: string -> Option<StreamChunk>, sessionId: SessionId)
      ensures this.accessToken == accessToken && this.fetch == fetch && this.refresh == refresh
      ensures this.parse == parse && this.sessionId == sessionId
      ensures retryCount == 0 && authorizations == [] && refreshCalls == 0
    {
      this.fetch := fetch;
      this.refresh := refresh;
      this.parse := parse;
      this.sessionId := sessionId;
      this.accessToken := accessToken;
      retryCount := 0;
      authorizations := [];
      refreshCalls := 0;
    }

    method ExecuteRequest() returns (result: ApiResponse, delivered: seq<StreamChunk>)
      requires retryCount <= MaxRetries
      modifies this
      decreases MaxRetries - retryCount
      ensures var spec := Attempt(old(retryCount), old(accessToken), fetch, refresh, parse, sessionId);
        && result == spec.result && delivered == spec.delivered
        && authorizations == old(authorizations) + spec.authorizations
        && refreshCalls == old(refreshCalls) + spec.refreshCalls
    {
      authorizations := authorizations + ["Bearer " + GetToken(accessToken)];
      delivered := [];
      match fetch(retryCount) {
        case FetchThrew(thrown) =>
          result := HandleError(thrown, sessionId);
        case Responded(status, body) =>
          if status == 401 && retryCount < MaxRetries {
            retryCount := retryCount + 1;
            refreshCalls := refreshCalls + 1;
            match refresh {
              case RefreshThrew(thrown) =>
                result := HandleError(thrown, sessionId);
                return;
              case RefreshResolved(refreshed, tokenAfter) =>
                accessToken := tokenAfter;
                if refreshed {
                  result, delivered := ExecuteRequest();
                  return;
                }
            }
          }
          if !IsOk(status) {
            result := FormatError(RequestErrorMessage, Some(status), Absent);
          } else if body.None? {
            result := FormatError("empty steam data", None, Absent);
          } else {
            result, delivered := ProcessStream(body.value, Frames, parse, sessionId);
          }
      }
    }
  }

  /** `StreamClient.chat`: never throws; every outcome is an `ApiResponse`. */
  method Chat(accessToken: Option<string>, fetch: nat -> FetchOutcome, refresh: RefreshOutcome,
              parse: string -> Option<StreamChunk>, sessionId: SessionId) returns (run: ChatRun)
    ensures run == ChatSpec(accessToken, fetch, refresh, parse, sessionId)
  {
    var call := new ChatCall(accessToken, fetch, refresh, parse, sessionId);
    var result, delivered := call.ExecuteRequest();
    run := ChatRun(result, delivered, call.authorizations, call.refreshCalls);
  }

  // ---------------------------------------------------------------
  // Properties of a call
  // ---------------------------------------------------------------

  /** A call makes one or two fetches and awaits at most one refresh; a second fetch implies a refresh. */
  lemma ChatRetriesAtMostOnce(accessToken: Option<string>, fetch: nat -> FetchOutcome, refresh: RefreshOutcome,
                              parse: string -> Option<StreamChunk>, sessionId: SessionId)
    ensures var run := ChatSpec(accessToken, fetch, refresh, parse, sessionId);
      && 1 <= |run.authorizations| <= 2
      && run.refreshCalls <= 1
      && (|run.authorizations| == 2 ==> run.refreshCalls == 1)
  {
    var second := Attempt(1, None, fetch, refresh, parse, sessionId);
    assert |second.authorizations| == 1 && second.refreshCalls == 0;
  }

  /**
   * After a refreshed 401 the call is exactly the second attempt, made with
   * the token the refresh left behind: nothing of the first body is kept.
   */
  lemma RetryStartsFresh(accessToken: Option<string>, fetch: nat -> FetchOutcome, tokenAfter: Option<string>,
                         parse: string -> Option<StreamChunk>, sessionId: SessionId)
    requires fetch(0).Responded? && fetch(0).status == 401
    ensures var refresh := RefreshResolved(true, tokenAfter);
      var run := ChatSpec(accessToken, fetch, refresh, parse, sessionId);
      var second := fetch(1);
      && run.authorizations == ["Bearer " + GetToken(accessToken), "Bearer " + GetToken(tokenAfter)]
      && run.refreshCalls == 1
      && (second.FetchThrew? ==> run.result == HandleError(second.thrown, sessionId) && run.delivered == [])
      && (second.Responded? ==> StreamRun(run.result, run.delivered) == AfterResponse(second.status, second.body, parse, sessionId))
  {
  }

  /** Two calls whose second fetch agrees give the same result, whatever the first 401 carried. */
  lemma RetryIgnoresFirstAttempt(accessToken: Option<string>, fetch1: nat -> FetchOutcome, fetch2: nat -> FetchOutcome,
                                 tokenAfter: Option<string>, parse: string -> Option<StreamChunk>, sessionId: SessionId)
    requires fetch1(0).Responded? && fetch1(0).status == 401
    requires fetch2(0).Responded? && fetch2(0).status == 401
    requires fetch1(1) == fetch2(1)
    ensures var refresh := RefreshResolved(true, tokenAfter);
      var run1 := ChatSpec(accessToken, fetch1, refresh, parse, sessionId);
      var run2 := ChatSpec(accessToken, fetch2, refresh, parse, sessionId);
      run1.result == run2.result && run1.delivered == run2.delivered
  {
    RetryStartsFresh(accessToken, fetch1, tokenAfter, parse, sessionId);
    RetryStartsFresh(accessToken, fetch2, tokenAfter, parse, sessionId);
  }

  /**
   * A non-ok status that is not retried is reported as `[status] request error`
   * without reading the body; this covers a 401 whose refresh failed and a
   * second 401 after a retry.
   */
  lemma NonOkStatusIsRequestError(accessToken: Option<string>, fetch: nat -> FetchOutcome, refresh: RefreshOutcome,
                                  parse: string -> Option<StreamChunk>, sessionId: SessionId)
    requires fetch(0).Responded? && !IsOk(fetch(0).status)
    requires fetch(0).status == 401 ==> refresh.RefreshResolved? && !refresh.refreshed
    ensures var run := ChatSpec(accessToken, fetch, refresh, parse, sessionId);
      && run.result == FormatError(RequestErrorMessage, Some(fetch(0).status), Absent)
      && run.delivered == []
      && |run.authorizations| == 1
  {
  }

  lemma SecondUnauthorizedIsNotRetried(accessToken: Option<string>, fetch: nat -> FetchOutcome, tokenAfter: Option<string>,
                                       parse: string -> Option<StreamChunk>, sessionId: SessionId)
    requires fetch(0).Responded? && fetch(0).status == 401
    requires fetch(1).Responded? && fetch(1).status == 401
    ensures var run := ChatSpec(accessToken, fetch, RefreshResolved(true, tokenAfter), parse, sessionId);
      && run.result == ApiResponse(false, Some("[401] " + RequestErrorMessage), ChatData("", Text("")))
      && run.refreshCalls == 1 && |run.authorizations| == 2
  {
    CodedMessage(401, RequestErrorMessage, Absent);
    assert ChatSpec(accessToken, fetch, RefreshResolved(true, tokenAfter), parse, sessionId).result
        == FormatError(RequestErrorMessage, Some(401), Absent);
  }

  /** An exception from `fetch` or from the refresh becomes a failure carrying its message, without a code. */
  lemma ExceptionsBecomeFailures(accessToken: Option<string>, fetch: nat -> FetchOutcome, thrown: Thrown,
                                 parse: string -> Option<StreamChunk>, sessionId: SessionId)
    requires fetch(0).FetchThrew? || (fetch(0).Responded? && fetch(0).status == 401)
    ensures var refresh := RefreshThrew(thrown);
      var run := ChatSpec(accessToken, fetch, refresh, parse, sessionId);
      var t := if fetch(0).FetchThrew? then fetch(0).thrown else thrown;
      && run.result == ApiResponse(false, Some(ErrorMessage(t)), ChatData("", OrEmpty(sessionId)))
      && run.delivered == []
  {
  }

  /** A first response that is ok and streams cleanly is a success carrying the whole aggregate. */
  lemma CleanCallSucceeds(accessToken: Option<string>, fetch: nat -> FetchOutcome, refresh: RefreshOutcome,
                          parse: string -> Option<StreamChunk>, sessionId: SessionId)
    requires fetch(0).Responded? && IsOk(fetch(0).status) && fetch(0).body.Some?
    requires NoReadFails(fetch(0).body.value)
    requires FirstError(AllChunks(fetch(0).body.value, Frames, parse)).None?
    ensures var run := ChatSpec(accessToken, fetch, refresh, parse, sessionId);
      && run.result == Succeeded(Contents(AllChunks(fetch(0).body.value, Frames, parse)), sessionId)
      && run.delivered == AllChunks(fetch(0).body.value, Frames, parse)
      && run.refreshCalls == 0
  {
    CleanStreamSucceeds(fetch(0).body.value, Frames, parse, sessionId);
  }
}
