/**
 * The article-question chat store, src/stores/ragStore.ts: the sessions of
 * one article, the selected session, the messages and the streamed answer.
 *
 * Each service reply is an input. A streamed call is the sequence of chunks
 * its callback receives; whether the call then throws leaves this store's
 * state the same, so it is not an input here.
 */
module RagStore {
  import opened Wrappers
  import opened ApiTypes
  import opened ChatTypes

  class RagStore {
    var sessionList: seq<ChatSession>
    var currentSession: seq<int>
    var messages: seq<ChatMessage>
    var inputText: string
    /** `ragStreamingController !== null` */
    var hasController: bool
    /** `abort()` calls made on a controller. */
    var aborts: nat
    var tempAssistantMessage: string
    var isAsyncing: bool

    /** At most one session is selected; between actions nothing streams and no partial answer is held. */
    predicate Valid()
      reads this
    {
      |currentSession| <= 1 && !isAsyncing && !hasController && tempAssistantMessage == ""
    }

    constructor()
      ensures Valid()
      ensures sessionList == [] && currentSession == [] && messages == [] && inputText == "" && aborts == 0
    {
      sessionList := [];
      currentSession := [];
      messages := [];
      inputText := "";
      hasController := false;
      aborts := 0;
      tempAssistantMessage := "";
      isAsyncing := false;
    }

    /** `abortStreaming`: aborts the controller if there is one, and leaves it in place. */
    method AbortStreaming()
      modifies this
      ensures aborts == old(aborts) + (if old(hasController) then 1 else 0)
      ensures hasController == old(hasController)
      ensures sessionList == old(sessionList) && currentSession == old(currentSession) && messages == old(messages)
      ensures inputText == old(inputText) && tempAssistantMessage == old(tempAssistantMessage) && isAsyncing == old(isAsyncing)
    {
      if hasController {
        aborts := aborts + 1;
      }
    }

    /**
     * `setRagCurrentSession(sessionId)`: null clears the selection; an id
     * first aborts a running stream, then becomes the only selected session.
     */
    method SetCurrentSession(sessionId: Option<int>)
      modifies this
      ensures currentSession == Selection(sessionId)
      ensures aborts == old(aborts) + (if sessionId.Some? && old(isAsyncing) && old(hasController) then 1 else 0)
      ensures sessionList == old(sessionList) && messages == old(messages) && inputText == old(inputText)
      ensures hasController == old(hasController) && isAsyncing == old(isAsyncing)
      ensures tempAssistantMessage == old(tempAssistantMessage)
    {
      if sessionId.None? {
        currentSession := [];
        return;
      }
      if isAsyncing {
        AbortStreaming();
      }
      currentSession := [sessionId.value];
    }

    /**
     * `fetchChatHistory`: a successful reply replaces the messages with the
     * history's; with null data the emptied list stays empty.
     */
    method FetchChatHistory(reply: Reply<ChatHistory>)
      requires Valid()
      modifies this
      ensures Valid()
      ensures reply.Replied? && reply.isSuccess ==>
        messages == (if reply.data.Some? then reply.data.value.response else [])
      ensures !(reply.Replied? && reply.isSuccess) ==> messages == old(messages)
      ensures sessionList == old(sessionList) && currentSession == old(currentSession) && aborts == old(aborts) && inputText == old(inputText)
    {
      if reply.Replied? && reply.isSuccess {
        messages := [];
        if reply.data.Some? {
          messages := reply.data.value.response;
        }
      }
    }

    /**
     * `fetchRagChatSessionListByArticleId`: a successful reply replaces the
     * list and selects its first session, or nothing when it is empty.
     */
    method FetchSessionList(reply: Reply<seq<ChatSession>>)
      requires Valid()
      modifies this
      ensures Valid()
      ensures reply.Replied? && reply.isSuccess && reply.data.Some? ==>
        sessionList == reply.data.value
        && currentSession == (if |reply.data.value| > 0 then [reply.data.value[0].sessionId] else [])
      ensures reply.Replied? && reply.isSuccess && reply.data.None? ==>
        sessionList == [] && currentSession == old(currentSession)
      ensures !(reply.Replied? && reply.isSuccess) ==>
        sessionList == old(sessionList) && currentSession == old(currentSession)
      ensures messages == old(messages) && aborts == old(aborts) && inputText == old(inputText)
    {
      if reply.Replied? && reply.isSuccess {
        if reply.data.None? {
          // the list becomes null and reading its length throws
          sessionList := [];
          return;
        }
        var list := reply.data.value;
        sessionList := list;
        if |list| > 0 {
          SetCurrentSession(Some(list[0].sessionId));
        } else {
          SetCurrentSession(None);
        }
      }
    }

    /** `createRagChatSession`: a new session goes to the front of the list and is selected. */
    method CreateSession(reply: Reply<ChatSession>)
      requires Valid()
      modifies this
      ensures Valid()
      ensures reply.Replied? && reply.isSuccess && reply.data.Some? ==>
        sessionList == [reply.data.value] + old(sessionList) && currentSession == [reply.data.value.sessionId]
      ensures !(reply.Replied? && reply.isSuccess && reply.data.Some?) ==>
        sessionList == old(sessionList) && currentSession == old(currentSession)
      ensures messages == old(messages) && aborts == old(aborts) && inputText == old(inputText)
    {
      if reply.Replied? && reply.isSuccess && reply.data.Some? {
        sessionList := [reply.data.value] + sessionList;
        SetCurrentSession(Some(reply.data.value.sessionId));
      }
    }

    method PushUserQuestion(question: string)
      modifies this
      ensures messages == old(messages) + [ChatMessage(UserRole, question)]
      ensures sessionList == old(sessionList) && currentSession == old(currentSession) && aborts == old(aborts)
      ensures inputText == old(inputText) && tempAssistantMessage == old(tempAssistantMessage)
      ensures hasController == old(hasController) && isAsyncing == old(isAsyncing)
    {
      messages := messages + [ChatMessage(UserRole, question)];
    }

    method PushAssistantAnswer(answer: string)
      modifies this
      ensures messages == old(messages) + [ChatMessage(AssistantRole, answer)]
      ensures sessionList == old(sessionList) && currentSession == old(currentSession) && aborts == old(aborts)
      ensures inputText == old(inputText) && tempAssistantMessage == old(tempAssistantMessage)
      ensures hasController == old(hasController) && isAsyncing == old(isAsyncing)
    {
      messages := messages + [ChatMessage(AssistantRole, answer)];
    }

    /** The chunk callback: the content of a chunk without `error` is appended to the answer. */
    method OnChunk(chunk: StreamChunk)
      modifies this
      ensures tempAssistantMessage == old(tempAssistantMessage) + (if chunk.error.None? then chunk.content else "")
      ensures messages == old(messages) && sessionList == old(sessionList) && currentSession == old(currentSession)
      ensures inputText == old(inputText) && hasController == old(hasController) && isAsyncing == old(isAsyncing)
      ensures aborts == old(aborts)
    {
      if chunk.error.None? {
        tempAssistantMessage := tempAssistantMessage + chunk.content;
      }
    }

    /** The chunks of one streamed answer reach the callback, in order. */
    method ReceiveChunks(chunks: seq<StreamChunk>)
      modifies this
      ensures tempAssistantMessage == old(tempAssistantMessage) + AnswerText(chunks)
      ensures messages == old(messages) && sessionList == old(sessionList) && currentSession == old(currentSession)
      ensures inputText == old(inputText) && hasController == old(hasController) && isAsyncing == old(isAsyncing)
      ensures aborts == old(aborts)
    {
      for i := 0 to |chunks|
        invariant tempAssistantMessage == old(tempAssistantMessage) + AnswerText(chunks[..i])
        invariant messages == old(messages) && sessionList == old(sessionList) && currentSession == old(currentSession)
        invariant inputText == old(inputText) && hasController == old(hasController) && isAsyncing == old(isAsyncing)
        invariant aborts == old(aborts)
      {
        AnswerTextStep(chunks, i);
        OnChunk(chunks[i]);
      }
      assert chunks[..|chunks|] == chunks;
    }

    /** The `finally` of both stream actions: the answer is pushed and the transient fields reset. */
    method FinishStream()
      modifies this
      ensures messages == old(messages) + [ChatMessage(AssistantRole, old(tempAssistantMessage))]
      ensures !isAsyncing && inputText == "" && !hasController && tempAssistantMessage == ""
      ensures sessionList == old(sessionList) && currentSession == old(currentSession) && aborts == old(aborts)
    {
      isAsyncing := false;
      PushAssistantAnswer(tempAssistantMessage);
      inputText := "";
      hasController := false;
      tempAssistantMessage := "";
    }

    /**
     * `streamChat`: exactly two messages are appended, the question and
     * then the answer built from the chunks without `error`, whatever the
     * outcome. Returns the session id the request carried.
     */
    method StreamChat(question: string, chunks: seq<StreamChunk>) returns (sentSession: Option<int>)
      requires |currentSession| <= 1
      modifies this
      ensures Valid()
      ensures messages == old(messages) + [ChatMessage(UserRole, question), ChatMessage(AssistantRole, AnswerText(chunks))]
      ensures sentSession == SelectedId(old(currentSession))
      ensures inputText == ""
      ensures sessionList == old(sessionList) && currentSession == old(currentSession) && aborts == old(aborts)
    {
      isAsyncing := true;
      PushUserQuestion(question);
      tempAssistantMessage := "";
      hasController := true;
      sentSession := SelectedId(currentSession);
      ReceiveChunks(chunks);
      assert tempAssistantMessage == AnswerText(chunks);
      FinishStream();
      assert messages == old(messages) + [ChatMessage(UserRole, question)] + [ChatMessage(AssistantRole, AnswerText(chunks))];
    }

    /**
     * `streamSummaryChat`: only the answer is appended. The partial answer
     * is not cleared at the start, so whatever it held comes first.
     */
    method StreamSummaryChat(chunks: seq<StreamChunk>) returns (sentSession: Option<int>)
      requires |currentSession| <= 1
      modifies this
      ensures Valid()
      ensures messages == old(messages) + [ChatMessage(AssistantRole, old(tempAssistantMessage) + AnswerText(chunks))]
      ensures sentSession == SelectedId(old(currentSession))
      ensures inputText == ""
      ensures sessionList == old(sessionList) && currentSession == old(currentSession) && aborts == old(aborts)
    {
      isAsyncing := true;
      hasController := true;
      sentSession := SelectedId(currentSession);
      ReceiveChunks(chunks);
      FinishStream();
    }
  }
}
