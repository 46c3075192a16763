/**
 * The scene-conversation store, src/stores/sceneChatStore.ts: the user's
 * scene chat sessions, the selected one, its messages and the streamed
 * answer.
 *
 * Each service reply is an input; a streamed call is the sequence of chunks
 * its callback receives.
 */
module SceneChatStore {
  import opened Wrappers
  import opened ApiTypes
  import opened ChatTypes

  class SceneChatStore {
    var sessionList: seq<ChatSession>
    var currentSession: seq<int>
    var messages: seq<ChatMessage>
    var inputText: string
    /** `sceneStreamingController !== null` */
    var hasController: bool
    /** `abort()` calls made on a controller. */
    var aborts: nat
    var tempAssistantMessage: string
    var isAsyncing: bool

    /** At most one session is selected; between actions nothing streams and no partial answer is held. */
    predicate Valid()
      reads this
    {
      |currentSession| <= 1 && !isAsyncing && !hasController && tempAssistantMessage == ""
    }

    constructor()
      ensures Valid()
      ensures sessionList == [] && currentSession == [] && messages == [] && inputText == "" && aborts == 0
    {
      sessionList := [];
      currentSession := [];
      messages := [];
      inputText := "";
      hasController := false;
      aborts := 0;
      tempAssistantMessage := "";
      isAsyncing := false;
    }

    /** `reset`: the lists, the input and the partial answer are cleared; the controller and the streaming flag are not touched. */
    method Reset()
      modifies this
      ensures sessionList == [] && currentSession == [] && messages == [] && inputText == "" && tempAssistantMessage == ""
      ensures hasController == old(hasController) && isAsyncing == old(isAsyncing) && aborts == old(aborts)
    {
      sessionList := [];
      currentSession := [];
      messages := [];
      inputText := "";
      tempAssistantMessage := "";
    }

    /** `abortStreaming`: aborts the controller if there is one, and leaves it in place. */
    method AbortStreaming()
      modifies this
      ensures aborts == old(aborts) + (if old(hasController) then 1 else 0)
      ensures hasController == old(hasController)
      ensures sessionList == old(sessionList) && currentSession == old(currentSession) && messages == old(messages)
      ensures inputText == old(inputText) && tempAssistantMessage == old(tempAssistantMessage) && isAsyncing == old(isAsyncing)
    {
      if hasController {
        aborts := aborts + 1;
      }
    }

    /**
     * `setCurrentSession(sessionId)`: null clears the selection; an id first
     * aborts a running stream, then becomes the only selected session.
     */
    method SetCurrentSession(sessionId: Option<int>)
      modifies this
      ensures currentSession == Selection(sessionId)
      ensures aborts == old(aborts) + (if sessionId.Some? && old(isAsyncing) && old(hasController) then 1 else 0)
      ensures sessionList == old(sessionList) && messages == old(messages) && inputText == old(inputText)
      ensures hasController == old(hasController) && isAsyncing == old(isAsyncing)
      ensures tempAssistantMessage == old(tempAssistantMessage)
    {
      if sessionId.None? {
        currentSession := [];
        return;
      }
      if isAsyncing {
        AbortStreaming();
      }
      currentSession := [sessionId.value];
    }

    /**
     * `fetchChatHistory`: a successful reply replaces the messages with the
     * history's; with null data the emptied list stays empty.
     */
    method FetchChatHistory(reply: Reply<ChatHistory>)
      requires Valid()
      modifies this
      ensures Valid()
      ensures reply.Replied? && reply.isSuccess ==>
        messages == (if reply.data.Some? then reply.data.value.response else [])
      ensures !(reply.Replied? && reply.isSuccess) ==> messages == old(messages)
      ensures sessionList == old(sessionList) && currentSession == old(currentSession) && aborts == old(aborts) && inputText == old(inputText)
    {
      if reply.Replied? && reply.isSuccess {
        messages := [];
        if reply.data.Some? {
          messages := reply.data.value.response;
        }
      }
    }

    /**
     * `getSceneChatSessionList`: a successful reply replaces the list and
     * selects its first session, or nothing when it is empty.
     */
    method GetSessionList(reply: Reply<seq<ChatSession>>)
      requires Valid()
      modifies this
      ensures Valid()
      ensures reply.Replied? && reply.isSuccess && reply.data.Some? ==>
        sessionList == reply.data.value
        && currentSession == (if |reply.data.value| > 0 then [reply.data.value[0].sessionId] else [])
      ensures reply.Replied? && reply.isSuccess && reply.data.None? ==>
        sessionList == [] && currentSession == old(currentSession)
      ensures !(reply.Replied? && reply.isSuccess) ==>
        sessionList == old(sessionList) && currentSession == old(currentSession)
      ensures messages == old(messages) && aborts == old(aborts) && inputText == old(inputText)
    {
      if reply.Replied? && reply.isSuccess {
        if reply.data.None? {
          // the list becomes null and reading its length throws
          sessionList := [];
          return;
        }
        var list := reply.data.value;
        sessionList := list;
        if |list| > 0 {
          SetCurrentSession(Some(list[0].sessionId));
        } else {
          SetCurrentSession(None);
        }
      }
    }

    /**
     * `generateSceneChatSession`: a new session goes to the front of the
     * list, is selected and is returned; otherwise null is returned and
     * nothing changes.
     */
    method GenerateSession(reply: Reply<ChatSession>) returns (created: Option<ChatSession>)
      requires Valid()
      modifies this
      ensures Valid()
      ensures created.Some? <==> reply.Replied? && reply.isSuccess && reply.data.Some?
      ensures created.Some? ==>
        created == reply.data && sessionList == [created.value] + old(sessionList)
        && currentSession == [created.value.sessionId]
      ensures created.None? ==> sessionList == old(sessionList) && currentSession == old(currentSession)
      ensures messages == old(messages) && aborts == old(aborts) && inputText == old(inputText)
    {
      if reply.Replied? && reply.isSuccess && reply.data.Some? {
        sessionList := [reply.data.value] + sessionList;
        SetCurrentSession(Some(reply.data.value.sessionId));
        return reply.data;
      }
      created := None;
    }

    method PushUserQuestion(question: string)
      modifies this
      ensures messages == old(messages) + [ChatMessage(UserRole, question)]
      ensures sessionList == old(sessionList) && currentSession == old(currentSession) && aborts == old(aborts)
      ensures inputText == old(inputText) && tempAssistantMessage == old(tempAssistantMessage)
      ensures hasController == old(hasController) && isAsyncing == old(isAsyncing)
    {
      messages := messages + [ChatMessage(UserRole, question)];
    }

    method PushAssistantAnswer(answer: string)
      modifies this
      ensures messages == old(messages) + [ChatMessage(AssistantRole, answer)]
      ensures sessionList == old(sessionList) && currentSession == old(currentSession) && aborts == old(aborts)
      ensures inputText == old(inputText) && tempAssistantMessage == old(tempAssistantMessage)
      ensures hasController == old(hasController) && isAsyncing == old(isAsyncing)
    {
      messages := messages + [ChatMessage(AssistantRole, answer)];
    }

    /** The chunk callback: the content of a chunk without `error` is appended to the answer. */
    method OnChunk(chunk: StreamChunk)
      modifies this
      ensures tempAssistantMessage == old(tempAssistantMessage) + (if chunk.error.None? then chunk.content else "")
      ensures messages == old(messages) && sessionList == old(sessionList) && currentSession == old(currentSession)
      ensures inputText == old(inputText) && hasController == old(hasController) && isAsyncing == old(isAsyncing)
      ensures aborts == old(aborts)
    {
      if chunk.error.None? {
        tempAssistantMessage := tempAssistantMessage + chunk.content;
      }
    }

    /** The chunks of one streamed answer reach the callback, in order. */
    method ReceiveChunks(chunks: seq<StreamChunk>)
      modifies this
      ensures tempAssistantMessage == old(tempAssistantMessage) + AnswerText(chunks)
      ensures messages == old(messages) && sessionList == old(sessionList) && currentSession == old(currentSession)
      ensures inputText == old(inputText) && hasController == old(hasController) && isAsyncing == old(isAsyncing)
      ensures aborts == old(aborts)
    {
      for i := 0 to |chunks|
        invariant tempAssistantMessage == old(tempAssistantMessage) + AnswerText(chunks[..i])
        invariant messages == old(messages) && sessionList == old(sessionList) && currentSession == old(currentSession)
        invariant inputText == old(inputText) && hasController == old(hasController) && isAsyncing == old(isAsyncing)
        invariant aborts == old(aborts)
      {
        AnswerTextStep(chunks, i);
        OnChunk(chunks[i]);
      }
      assert chunks[..|chunks|] == chunks;
    }

    /**
     * `streamSceneChat`: exactly two messages are appended, the question and
     * then the answer built from the chunks without `error`, whatever the
     * outcome. Returns the session id the request carried.
     */
    method StreamSceneChat(question: string, chunks: seq<StreamChunk>) returns (sentSession: Option<int>)
      requires |currentSession| <= 1
      modifies this
      ensures Valid()
      ensures messages == old(messages) + [ChatMessage(UserRole, question), ChatMessage(AssistantRole, AnswerText(chunks))]
      ensures sentSession == SelectedId(old(currentSession))
      ensures inputText == ""
      ensures sessionList == old(sessionList) && currentSession == old(currentSession) && aborts == old(aborts)
    {
      isAsyncing := true;
      PushUserQuestion(question);
      tempAssistantMessage := "";
      hasController := true;
      sentSession := SelectedId(currentSession);
      ReceiveChunks(chunks);
      assert tempAssistantMessage == AnswerText(chunks);
      // the `finally` block
      isAsyncing := false;
      PushAssistantAnswer(tempAssistantMessage);
      inputText := "";
      hasController := false;
      tempAssistantMessage := "";
      assert messages == old(messages) + [ChatMessage(UserRole, question)] + [ChatMessage(AssistantRole, AnswerText(chunks))];
    }

    /** `initSceneChat(message)`: a scene chat turn in the selected session. */
    method InitSceneChat(question: string, chunks: seq<StreamChunk>) returns (sentSession: Option<int>)
      requires |currentSession| <= 1
      modifies this
      ensures Valid()
      ensures messages == old(messages) + [ChatMessage(UserRole, question), ChatMessage(AssistantRole, AnswerText(chunks))]
      ensures sentSession == SelectedId(old(currentSession))
      ensures inputText == ""
      ensures sessionList == old(sessionList) && currentSession == old(currentSession) && aborts == old(aborts)
    {
      sentSession := StreamSceneChat(question, chunks);
    }
  }
}
