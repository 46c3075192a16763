/**
 * The vocabulary store, src/stores/wordStore.ts: the user's word list and
 * the word last opened. Each service reply is an input; the toasts are
 * left out.
 */
module WordStore {
  import opened Wrappers
  import opened ApiTypes
  import opened Seqs

  /** A saved word (`WordType`). */
  datatype Word = Word(userWordId: int, wordId: int, word: string, nextReviewDate: string,
                       lastReviewed: Option<string>, reviewCount: int)

  /** The test `word => word.wordId !== wordId`. */
  function OtherThan(wordId: int): Word -> bool {
    (w: Word) => w.wordId != wordId
  }

  /** `list.filter(word => word.wordId !== wordId)` */
  function WithoutWord(list: seq<Word>, wordId: int): (r: seq<Word>)
    ensures forall i :: 0 <= i < |r| ==> r[i].wordId != wordId && r[i] in list
    ensures forall i :: 0 <= i < |list| && list[i].wordId != wordId ==> list[i] in r
  {
    Filter(list, OtherThan(wordId))
  }

  /** The entries of two lists are filtered part by part, keeping their order. */
  lemma WithoutWordAppend(a: seq<Word>, b: seq<Word>, wordId: int)
    ensures WithoutWord(a + b, wordId) == WithoutWord(a, wordId) + WithoutWord(b, wordId)
  {
    FilterAppend(a, b, OtherThan(wordId));
  }

  /** One entry is kept exactly when its id differs. */
  lemma WithoutWordOne(x: Word, wordId: int)
    ensures WithoutWord([x], wordId) == if x.wordId != wordId then [x] else []
  {
    FilterOne(x, OtherThan(wordId));
  }

  /** Removing a word that was already removed changes nothing. */
  lemma RemoveTwice(list: seq<Word>, wordId: int)
    ensures WithoutWord(WithoutWord(list, wordId), wordId) == WithoutWord(list, wordId)
  {
    FilterIdempotent(list, OtherThan(wordId));
  }

  /** Removing a word the list does not hold leaves the list as it was. */
  lemma RemoveAbsent(list: seq<Word>, wordId: int)
    requires forall i :: 0 <= i < |list| ==> list[i].wordId != wordId
    ensures WithoutWord(list, wordId) == list
  {
    FilterAll(list, OtherThan(wordId));
  }

  /** The reply of a yes/no service call read as the store reads it: only a successful `true` is true. */
  function Answer(reply: Reply<bool>): (r: bool)
    ensures r <==> reply.Replied? && reply.isSuccess && reply.data == Some(true)
  {
    reply.Replied? && reply.isSuccess && reply.data.GetOr(false)
  }

  /** `addWord`: the saved word on success, otherwise null; the store keeps nothing. */
  function AddWord(reply: Reply<Word>): (r: Option<Word>)
    ensures r.Some? ==> reply.Replied? && reply.isSuccess && r == reply.data
    ensures reply.Replied? && reply.isSuccess ==> r == reply.data
  {
    if reply.Replied? && reply.isSuccess then reply.data else None
  }

  /** `removeWordByText`: true exactly for a successful reply; the store keeps nothing. */
  function RemoveWordByText(reply: Reply<bool>): (removed: bool)
    ensures removed <==> reply.Replied? && reply.isSuccess
  {
    reply.Replied? && reply.isSuccess
  }

  class WordStore {
    var wordList: seq<Word>
    var currentWord: Option<Word>

    constructor()
      ensures wordList == [] && currentWord == None
    {
      wordList := [];
      currentWord := None;
    }

    /**
     * `getWordList`: a successful reply replaces the list with its data, or
     * with the empty list for null data, and returns it; anything else
     * returns the empty list and keeps the list.
     */
    method GetWordList(reply: Reply<seq<Word>>) returns (r: seq<Word>)
      modifies this
      ensures reply.Replied? && reply.isSuccess ==> wordList == reply.data.GetOr([]) && r == wordList
      ensures !(reply.Replied? && reply.isSuccess) ==> r == [] && wordList == old(wordList)
      ensures currentWord == old(currentWord)
    {
      if !(reply.Replied? && reply.isSuccess) {
        return [];
      }
      wordList := reply.data.GetOr([]);
      r := wordList;
    }

    /**
     * `getWordById`: the opened word is returned without a service call
     * when it has the id. Otherwise the service is called (`called`); a
     * successful reply becomes the opened word and is returned, anything
     * else returns null and keeps the opened word.
     */
    method GetWordById(wordId: int, reply: Reply<Word>) returns (r: Option<Word>, called: bool)
      modifies this
      ensures !called <==> old(currentWord).Some? && old(currentWord).value.wordId == wordId
      ensures !called ==> r == old(currentWord) && currentWord == old(currentWord)
      ensures called && reply.Replied? && reply.isSuccess ==> currentWord == reply.data && r == reply.data
      ensures called && !(reply.Replied? && reply.isSuccess) ==> r == None && currentWord == old(currentWord)
      ensures wordList == old(wordList)
    {
      if currentWord.Some? && currentWord.value.wordId == wordId {
        return currentWord, false;
      }
      called := true;
      if !(reply.Replied? && reply.isSuccess) {
        return None, called;
      }
      currentWord := reply.data;
      r := currentWord;
    }

    /**
     * `removeWordById`: on success every entry with the id leaves the list,
     * the opened word is closed only when it has that id, and true is
     * returned; otherwise false is returned and nothing changes.
     */
    method RemoveWordById(wordId: int, reply: Reply<bool>) returns (removed: bool)
      modifies this
      ensures removed <==> reply.Replied? && reply.isSuccess
      ensures removed ==>
        wordList == WithoutWord(old(wordList), wordId)
        && currentWord == (if old(currentWord).Some? && old(currentWord).value.wordId == wordId then None else old(currentWord))
      ensures !removed ==> wordList == old(wordList) && currentWord == old(currentWord)
    {
      if !(reply.Replied? && reply.isSuccess) {
        return false;
      }
      wordList := WithoutWord(wordList, wordId);
      if currentWord.Some? && currentWord.value.wordId == wordId {
        currentWord := None;
      }
      removed := true;
    }

    /** `checkUserWordExistsById` and `checkWordExistsByText`: the store keeps nothing. */
    method CheckWordExists(reply: Reply<bool>) returns (exists_: bool)
      ensures exists_ == Answer(reply)
    {
      exists_ := Answer(reply);
    }

    /**
     * `refreshWordList`: the list is emptied before the reload, so a failed
     * reload leaves it empty rather than as it was.
     */
    method RefreshWordList(reply: Reply<seq<Word>>) returns (r: seq<Word>)
      modifies this
      ensures reply.Replied? && reply.isSuccess ==> wordList == reply.data.GetOr([]) && r == wordList
      ensures !(reply.Replied? && reply.isSuccess) ==> r == [] && wordList == []
      ensures currentWord == old(currentWord)
    {
      wordList := [];
      r := GetWordList(reply);
    }
  }
}
