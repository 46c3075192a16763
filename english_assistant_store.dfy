/**
 * The English-assistant store, src/stores/englishAssistantStore.ts: one
 * conversation with either of two streamed assistant services.
 *
 * A streamed call is the sequence of chunks its callback receives.
 */
module EnglishAssistantStore {
  import opened ApiTypes
  import opened ChatTypes

  /** The two services the store streams from; they differ only in their endpoint. */
  datatype Assistant = WordAssistant | TextLinguisticAssistant

  class EnglishAssistantStore {
    var text: string
    var messages: seq<ChatMessage>
    var inputText: string
    /** `streamingController !== null` */
    var hasController: bool
    /** `abort()` calls made on a controller. */
    var aborts: nat
    var tempAssistantMessage: string
    var isAsyncing: bool
    /** The service of every streamed call, in order. */
    var calls: seq<Assistant>

    /** Between actions nothing streams and no partial answer is held. */
    predicate Valid()
      reads this
    {
      !isAsyncing && !hasController && tempAssistantMessage == ""
    }

    constructor()
      ensures Valid()
      ensures text == "" && messages == [] && inputText == "" && aborts == 0 && calls == []
    {
      text := "";
      messages := [];
      inputText := "";
      hasController := false;
      aborts := 0;
      tempAssistantMessage := "";
      isAsyncing := false;
      calls := [];
    }

    /** `resetEnglishAssistantStore`: all six state fields go back to their initial values. */
    method Reset()
      modifies this
      ensures Valid()
      ensures text == "" && messages == [] && inputText == ""
      ensures aborts == old(aborts) && calls == old(calls)
    {
      text := "";
      messages := [];
      inputText := "";
      hasController := false;
      tempAssistantMessage := "";
      isAsyncing := false;
    }

    /** `abortStreaming`: aborts the controller if there is one, and leaves it in place. */
    method AbortStreaming()
      modifies this
      ensures aborts == old(aborts) + (if old(hasController) then 1 else 0)
      ensures hasController == old(hasController) && messages == old(messages) && text == old(text)
      ensures inputText == old(inputText) && tempAssistantMessage == old(tempAssistantMessage)
      ensures isAsyncing == old(isAsyncing) && calls == old(calls)
    {
      if hasController {
        aborts := aborts + 1;
      }
    }

    method PushUserQuestion(question: string)
      modifies this
      ensures messages == old(messages) + [ChatMessage(UserRole, question)]
      ensures text == old(text) && inputText == old(inputText) && tempAssistantMessage == old(tempAssistantMessage)
      ensures hasController == old(hasController) && isAsyncing == old(isAsyncing)
      ensures aborts == old(aborts) && calls == old(calls)
    {
      messages := messages + [ChatMessage(UserRole, question)];
    }

    method PushAssistantAnswer(answer: string)
      modifies this
      ensures messages == old(messages) + [ChatMessage(AssistantRole, answer)]
      ensures text == old(text) && inputText == old(inputText) && tempAssistantMessage == old(tempAssistantMessage)
      ensures hasController == old(hasController) && isAsyncing == old(isAsyncing)
      ensures aborts == old(aborts) && calls == old(calls)
    {
      messages := messages + [ChatMessage(AssistantRole, answer)];
    }

    /**
     * `streamEnglishWordAssistant` and `streamEnglishTextLinguisticAssistant`:
     * the chosen service is called once, and exactly two messages are
     * appended, the question and then the answer built from the chunks
     * without `error`, whatever the outcome.
     */
    method StreamAssistant(assistant: Assistant, question: string, chunks: seq<StreamChunk>)
      modifies this
      ensures Valid()
      ensures messages == old(messages) + [ChatMessage(UserRole, question), ChatMessage(AssistantRole, AnswerText(chunks))]
      ensures calls == old(calls) + [assistant]
      ensures inputText == "" && text == old(text) && aborts == old(aborts)
    {
      isAsyncing := true;
      PushUserQuestion(question);
      tempAssistantMessage := "";
      hasController := true;
      calls := calls + [assistant];
      for i := 0 to |chunks|
        invariant tempAssistantMessage == AnswerText(chunks[..i])
        invariant messages == old(messages) + [ChatMessage(UserRole, question)]
        invariant calls == old(calls) + [assistant] && text == old(text) && aborts == old(aborts)
      {
        AnswerTextStep(chunks, i);
        if chunks[i].error.None? {
          tempAssistantMessage := tempAssistantMessage + chunks[i].content;
        }
      }
      assert chunks[..|chunks|] == chunks;
      // the `finally` block
      isAsyncing := false;
      PushAssistantAnswer(tempAssistantMessage);
      inputText := "";
      hasController := false;
      tempAssistantMessage := "";
      assert messages == old(messages) + [ChatMessage(UserRole, question)] + [ChatMessage(AssistantRole, AnswerText(chunks))];
    }
  }
}
