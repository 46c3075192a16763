/**
 * The response shapes shared by the clients and the stores
 * (`StreamChunk` and `ApiResponse` of src/types/api/apiResponse.ts),
 * and the way a store sees one service call.
 */
module ApiTypes {
  import opened Wrappers
  import opened Seqs

  datatype ChunkError = ChunkError(code: int, message: string)

  /** One decoded frame of a streamed body. */
  datatype StreamChunk = StreamChunk(content: string, finished: Option<bool>, error: Option<ChunkError>)

  /** A `chat_session_id`, which callers pass as a string, a number or not at all. */
  datatype SessionId = Absent | Text(text: string) | Number(number: int)

  /** `sessionId || ''`: every falsy identifier becomes the empty string. */
  function OrEmpty(id: SessionId): (r: SessionId)
    ensures r != Absent && r != Number(0)
    ensures id != Absent && id != Number(0) ==> r == id
  {
    match id
    case Absent => Text("")
    case Number(0) => Text("")
    case _ => id
  }

  datatype ChatData = ChatData(response: string, chatSessionId: SessionId)

  /** What the stream client returns; `message` is null on success. */
  datatype ApiResponse = ApiResponse(isSuccess: bool, message: Option<string>, data: ChatData)

  /** A value thrown by a foreign call: an `Error` carries a message, anything else does not. */
  datatype Thrown = ErrorObject(message: string) | NonErrorValue

  /**
   * One awaited service call as a store sees it: either the resolved
   * `ApiResponse<T>` (whose `data` may be null) or a thrown exception.
   */
  datatype Reply<T> = Replied(isSuccess: bool, message: Option<string>, data: Option<T>, code: int) | Raised(thrown: Thrown)

  /** Every chunk's `content`, in arrival order. */
  function Contents(chunks: seq<StreamChunk>): string {
    if chunks == [] then "" else Contents(chunks[..|chunks| - 1]) + chunks[|chunks| - 1].content
  }

  /**
   * What a store's chunk callback accumulates: the `content` of every chunk
   * that carries no `error`, in arrival order.
   */
  function AnswerText(chunks: seq<StreamChunk>): string {
    if chunks == [] then ""
    else
      var last := chunks[|chunks| - 1];
      AnswerText(chunks[..|chunks| - 1]) + (if last.error.None? then last.content else "")
  }

  lemma ContentsSnoc(chunks: seq<StreamChunk>, chunk: StreamChunk)
    ensures Contents(chunks + [chunk]) == Contents(chunks) + chunk.content
  {
    assert (chunks + [chunk])[..|chunks|] == chunks;
  }

  lemma {:induction false} ContentsAppend(a: seq<StreamChunk>, b: seq<StreamChunk>)
    ensures Contents(a + b) == Contents(a) + Contents(b)
    decreases |b|
  {
    if b == [] {
      AppendEmpty(a);
      AppendEmpty(Contents(a));
    } else {
      var init, last := b[..|b| - 1], b[|b| - 1];
      TakeOne(b, |b| - 1);
      assert b[..|b|] == b;
      AppendAssoc(a, init, [last]);
      ContentsSnoc(a + init, last);
      ContentsAppend(a, init);
      ContentsSnoc(init, last);
      AppendAssoc(Contents(a), Contents(init), last.content);
    }
  }

  /** One more chunk reaches the callback. */
  lemma AnswerTextStep(chunks: seq<StreamChunk>, i: nat)
    requires i < |chunks|
    ensures AnswerText(chunks[..i + 1]) == AnswerText(chunks[..i]) + (if chunks[i].error.None? then chunks[i].content else "")
  {
    assert chunks[..i + 1][..i] == chunks[..i];
  }

  /** Without error chunks, the stores' answer is exactly the client's aggregate. */
  lemma {:induction false} AnswerTextWithoutErrors(chunks: seq<StreamChunk>)
    requires forall i :: 0 <= i < |chunks| ==> chunks[i].error.None?
    ensures AnswerText(chunks) == Contents(chunks)
    decreases |chunks|
  {
    if chunks != [] {
      AnswerTextWithoutErrors(chunks[..|chunks| - 1]);
    }
  }
}
