/**
 * The article store, src/stores/articleStore.ts: the article list, the
 * article and reading-progress caches keyed by article id, and the
 * streamed generation of a new article.
 *
 * Each service reply is an input. A streamed generation is the sequence of
 * chunks its callback receives.
 * A reload the source starts without awaiting it is taken to complete
 * before the action's result is observed.
 */
module ArticleStore {
  import opened Wrappers
  import opened ApiTypes
  import opened Seqs

  /** An entry of the article list (`ArticleList`). */
  datatype ArticleSummary = ArticleSummary(articleId: int, articleTitle: string)

  datatype Article = Article(articleId: int, articleTitle: string, articleContent: string)

  /** The value of one property of a reading-progress record. */
  datatype FieldValue = NumberValue(n: int) | TextValue(s: string)

  /** A reading-progress record, property name to value. */
  type Progress = map<string, FieldValue>

  /** The name of the request property that says which article it is for. */
  const ArticleIdField := "articleId"

  /**
   * An `updateReadingProgressRequest`: the article it is for and its other
   * properties.
   */
  datatype ProgressUpdate = ProgressUpdate(articleId: int, fields: Progress)

  /**
   * The request as the record it spreads into the cache: every property of
   * the request, `articleId` included, and nothing else.
   */
  function RequestRecord(request: ProgressUpdate): (r: Progress)
    ensures ArticleIdField in r && r[ArticleIdField] == NumberValue(request.articleId)
    ensures forall k :: k in request.fields && k != ArticleIdField ==> k in r && r[k] == request.fields[k]
    ensures forall k :: k in r ==> k == ArticleIdField || k in request.fields
  {
    request.fields[ArticleIdField := NumberValue(request.articleId)]
  }

  /** The test `article => article.articleId !== articleId`. */
  function OtherThan(articleId: int): ArticleSummary -> bool {
    (a: ArticleSummary) => a.articleId != articleId
  }

  /** `list.filter(article => article.articleId !== articleId)` */
  function WithoutArticle(list: seq<ArticleSummary>, articleId: int): (r: seq<ArticleSummary>)
    ensures forall i :: 0 <= i < |r| ==> r[i].articleId != articleId && r[i] in list
    ensures forall i :: 0 <= i < |list| && list[i].articleId != articleId ==> list[i] in r
  {
    Filter(list, OtherThan(articleId))
  }

  /** The entries of two lists are filtered part by part, keeping their order. */
  lemma WithoutArticleAppend(a: seq<ArticleSummary>, b: seq<ArticleSummary>, articleId: int)
    ensures WithoutArticle(a + b, articleId) == WithoutArticle(a, articleId) + WithoutArticle(b, articleId)
  {
    FilterAppend(a, b, OtherThan(articleId));
  }

  /** One entry is kept exactly when its id differs. */
  lemma WithoutArticleOne(x: ArticleSummary, articleId: int)
    ensures WithoutArticle([x], articleId) == if x.articleId != articleId then [x] else []
  {
    FilterOne(x, OtherThan(articleId));
  }

  /** Deleting an article the list does not hold leaves the list as it was. */
  lemma DeleteAbsent(list: seq<ArticleSummary>, articleId: int)
    requires forall i :: 0 <= i < |list| ==> list[i].articleId != articleId
    ensures WithoutArticle(list, articleId) == list
  {
    FilterAll(list, OtherThan(articleId));
  }

  /**
   * `{ ...(existing || {}), ...request }`: every property of the request takes
   * its new value, every other field of the cached record is kept, and no
   * field comes from anywhere else.
   */
  function MergeProgress(existing: Option<Progress>, fields: Progress): (r: Progress)
    ensures forall k :: k in fields ==> k in r && r[k] == fields[k]
    ensures existing.Some? ==> forall k :: k in existing.value && k !in fields ==> k in r && r[k] == existing.value[k]
    ensures forall k :: k in r ==> k in fields || (existing.Some? && k in existing.value)
  {
    existing.GetOr(map[]) + fields
  }

  /** Merging the same update twice is merging it once. */
  lemma MergeTwice(existing: Option<Progress>, fields: Progress)
    ensures MergeProgress(Some(MergeProgress(existing, fields)), fields) == MergeProgress(existing, fields)
  {
    var once := MergeProgress(existing, fields);
    var twice := MergeProgress(Some(once), fields);
    assert twice.Keys == once.Keys;
  }

  /** No error chunk arrived: what `hasError` stays false for. */
  predicate NoErrorChunk(chunks: seq<StreamChunk>) {
    forall i :: 0 <= i < |chunks| ==> chunks[i].error.None?
  }

  class ArticleStore {
    var articleList: seq<ArticleSummary>
    var articleCache: map<int, Article>
    var readingProgressCache: map<int, Progress>
    var prompt: string
    /** `streamingController !== null` */
    var hasController: bool
    /** `abort()` calls made on a controller. */
    var aborts: nat
    var assistantMessage: string
    var isArticleCreated: bool

    /** Between actions no generation streams. */
    predicate Valid()
      reads this
    {
      !hasController
    }

    constructor()
      ensures Valid()
      ensures articleList == [] && articleCache == map[] && readingProgressCache == map[]
      ensures prompt == "" && aborts == 0 && assistantMessage == "" && !isArticleCreated
    {
      articleList := [];
      articleCache := map[];
      readingProgressCache := map[];
      prompt := "";
      hasController := false;
      aborts := 0;
      assistantMessage := "";
      isArticleCreated := false;
    }

    method ResetAssistantMessage()
      modifies this
      ensures assistantMessage == ""
      ensures articleList == old(articleList) && articleCache == old(articleCache)
      ensures readingProgressCache == old(readingProgressCache) && prompt == old(prompt)
      ensures hasController == old(hasController) && aborts == old(aborts) && isArticleCreated == old(isArticleCreated)
    {
      assistantMessage := "";
    }

    /** `abortStreaming`: a running generation is aborted, its controller dropped and the article marked not created. */
    method AbortStreaming()
      modifies this
      ensures !hasController
      ensures aborts == old(aborts) + (if old(hasController) then 1 else 0)
      ensures isArticleCreated == (old(isArticleCreated) && !old(hasController))
      ensures articleList == old(articleList) && articleCache == old(articleCache)
      ensures readingProgressCache == old(readingProgressCache) && prompt == old(prompt)
      ensures assistantMessage == old(assistantMessage)
    {
      if hasController {
        aborts := aborts + 1;
        hasController := false;
        isArticleCreated := false;
      }
    }

    /** `reset`: the prompt and the generated text are cleared and any generation is aborted. */
    method Reset()
      modifies this
      ensures Valid()
      ensures prompt == "" && assistantMessage == "" && !isArticleCreated
      ensures aborts == old(aborts) + (if old(hasController) then 1 else 0)
      ensures articleList == old(articleList) && articleCache == old(articleCache)
      ensures readingProgressCache == old(readingProgressCache)
    {
      prompt := "";
      AbortStreaming();
      assistantMessage := "";
      isArticleCreated := false;
    }

    /** `clearCache`: the list and both caches are emptied. */
    method ClearCache()
      modifies this
      ensures articleList == [] && articleCache == map[] && readingProgressCache == map[]
      ensures prompt == old(prompt) && hasController == old(hasController) && aborts == old(aborts)
      ensures assistantMessage == old(assistantMessage) && isArticleCreated == old(isArticleCreated)
    {
      articleList := [];
      articleCache := map[];
      readingProgressCache := map[];
    }

    /**
     * `getArticleList(forceRefresh)`: a non-empty list is returned without
     * a service call unless a refresh is forced. A successful reply replaces
     * the list with its data, or the empty list for null data; anything else
     * keeps it. The list is returned either way.
     */
    method GetArticleList(forceRefresh: bool, reply: Reply<seq<ArticleSummary>>) returns (r: seq<ArticleSummary>, called: bool)
      modifies this
      ensures called <==> forceRefresh || |old(articleList)| == 0
      ensures r == articleList
      ensures called && reply.Replied? && reply.isSuccess ==> articleList == reply.data.GetOr([])
      ensures !(called && reply.Replied? && reply.isSuccess) ==> articleList == old(articleList)
      ensures articleCache == old(articleCache) && readingProgressCache == old(readingProgressCache)
      ensures prompt == old(prompt) && hasController == old(hasController) && aborts == old(aborts)
      ensures assistantMessage == old(assistantMessage) && isArticleCreated == old(isArticleCreated)
    {
      if !forceRefresh && |articleList| > 0 {
        return articleList, false;
      }
      called := true;
      if reply.Replied? && reply.isSuccess {
        articleList := reply.data.GetOr([]);
      }
      r := articleList;
    }

    /**
     * `getArticleById(articleId, forceRefresh)`: a cached article is returned
     * without a service call unless a refresh is forced. A successful reply
     * is cached when it holds an article and is returned; anything else
     * returns the cached entry, if any.
     */
    method GetArticleById(articleId: int, forceRefresh: bool, reply: Reply<Article>) returns (r: Option<Article>, called: bool)
      modifies this
      ensures called <==> forceRefresh || articleId !in old(articleCache)
      ensures !called ==> r == Some(old(articleCache)[articleId]) && articleCache == old(articleCache)
      ensures called && reply.Replied? && reply.isSuccess ==>
        r == reply.data
        && articleCache == (if reply.data.Some? then old(articleCache)[articleId := reply.data.value] else old(articleCache))
      ensures called && !(reply.Replied? && reply.isSuccess) ==>
        r == (if articleId in old(articleCache) then Some(old(articleCache)[articleId]) else None)
        && articleCache == old(articleCache)
      ensures articleList == old(articleList) && readingProgressCache == old(readingProgressCache)
      ensures prompt == old(prompt) && hasController == old(hasController) && aborts == old(aborts)
      ensures assistantMessage == old(assistantMessage) && isArticleCreated == old(isArticleCreated)
    {
      if !forceRefresh && articleId in articleCache {
        return Some(articleCache[articleId]), false;
      }
      called := true;
      if !(reply.Replied? && reply.isSuccess) {
        r := if articleId in articleCache then Some(articleCache[articleId]) else None;
        return;
      }
      if reply.data.Some? {
        articleCache := articleCache[articleId := reply.data.value];
      }
      r := reply.data;
    }

    /** `generateArticle`: on success the list is reloaded, forced, and true is returned. */
    method GenerateArticle(reply: Reply<bool>, listReply: Reply<seq<ArticleSummary>>) returns (ok: bool)
      modifies this
      ensures ok <==> reply.Replied? && reply.isSuccess
      ensures ok && listReply.Replied? && listReply.isSuccess ==> articleList == listReply.data.GetOr([])
      ensures !(ok && listReply.Replied? && listReply.isSuccess) ==> articleList == old(articleList)
      ensures articleCache == old(articleCache) && readingProgressCache == old(readingProgressCache)
      ensures prompt == old(prompt) && hasController == old(hasController) && aborts == old(aborts)
      ensures assistantMessage == old(assistantMessage) && isArticleCreated == old(isArticleCreated)
    {
      if !(reply.Replied? && reply.isSuccess) {
        return false;
      }
      var _, _ := GetArticleList(true, listReply);
      ok := true;
    }

    /**
     * `deleteArticle`: on success every list entry with the id and both
     * cache entries for it are removed and true is returned; otherwise
     * false is returned and nothing changes.
     */
    method DeleteArticle(articleId: int, reply: Reply<bool>) returns (ok: bool)
      modifies this
      ensures ok <==> reply.Replied? && reply.isSuccess
      ensures ok ==>
        articleList == WithoutArticle(old(articleList), articleId)
        && articleCache == old(articleCache) - {articleId}
        && readingProgressCache == old(readingProgressCache) - {articleId}
      ensures !ok ==>
        articleList == old(articleList) && articleCache == old(articleCache)
        && readingProgressCache == old(readingProgressCache)
      ensures prompt == old(prompt) && hasController == old(hasController) && aborts == old(aborts)
      ensures assistantMessage == old(assistantMessage) && isArticleCreated == old(isArticleCreated)
    {
      if !(reply.Replied? && reply.isSuccess) {
        return false;
      }
      articleList := WithoutArticle(articleList, articleId);
      articleCache := articleCache - {articleId};
      readingProgressCache := readingProgressCache - {articleId};
      ok := true;
    }

    /**
     * `vectorizeArticle`: on success an article with a truthy id is fetched
     * again, forced, and true is returned.
     */
    method VectorizeArticle(articleId: int, reply: Reply<bool>, articleReply: Reply<Article>) returns (ok: bool)
      modifies this
      ensures ok <==> reply.Replied? && reply.isSuccess
      ensures ok && articleId != 0 && articleReply.Replied? && articleReply.isSuccess && articleReply.data.Some? ==>
        articleCache == old(articleCache)[articleId := articleReply.data.value]
      ensures !(ok && articleId != 0 && articleReply.Replied? && articleReply.isSuccess && articleReply.data.Some?) ==>
        articleCache == old(articleCache)
      ensures articleList == old(articleList) && readingProgressCache == old(readingProgressCache)
      ensures prompt == old(prompt) && hasController == old(hasController) && aborts == old(aborts)
      ensures assistantMessage == old(assistantMessage) && isArticleCreated == old(isArticleCreated)
    {
      if !(reply.Replied? && reply.isSuccess) {
        return false;
      }
      if articleId != 0 {
        var _, _ := GetArticleById(articleId, true, articleReply);
      }
      ok := true;
    }

    /**
     * `updateArticleReadingProgress`: on success the cached progress of a
     * truthy article id becomes the cached record merged with the update,
     * and true is returned; an id of 0 leaves the cache alone.
     */
    method UpdateArticleReadingProgress(request: ProgressUpdate, reply: Reply<bool>) returns (ok: bool)
      modifies this
      ensures ok <==> reply.Replied? && reply.isSuccess
      ensures ok && request.articleId != 0 ==>
        readingProgressCache == old(readingProgressCache)[request.articleId :=
          MergeProgress(if request.articleId in old(readingProgressCache) then Some(old(readingProgressCache)[request.articleId]) else None,
                        RequestRecord(request))]
      ensures !(ok && request.articleId != 0) ==> readingProgressCache == old(readingProgressCache)
      ensures articleList == old(articleList) && articleCache == old(articleCache)
      ensures prompt == old(prompt) && hasController == old(hasController) && aborts == old(aborts)
      ensures assistantMessage == old(assistantMessage) && isArticleCreated == old(isArticleCreated)
    {
      if !(reply.Replied? && reply.isSuccess) {
        return false;
      }
      if request.articleId != 0 {
        var existing := if request.articleId in readingProgressCache then Some(readingProgressCache[request.articleId]) else None;
        readingProgressCache := readingProgressCache[request.articleId := MergeProgress(existing, RequestRecord(request))];
      }
      ok := true;
    }

    /**
     * `getArticleReadingProgress(articleId, forceRefresh)`: a cached record
     * is returned without a service call unless a refresh is forced. A
     * failure whose code is not 401 returns the cached record; a success,
     * and a failure with code 401 alike, caches the data when there is some
     * and returns it. A thrown call returns the cached record.
     */
    method GetArticleReadingProgress(articleId: int, forceRefresh: bool, reply: Reply<Progress>) returns (r: Option<Progress>, called: bool)
      modifies this
      ensures called <==> forceRefresh || articleId !in old(readingProgressCache)
      ensures !called ==> r == Some(old(readingProgressCache)[articleId]) && readingProgressCache == old(readingProgressCache)
      ensures called && reply.Replied? && (reply.isSuccess || reply.code == 401) ==>
        r == reply.data
        && readingProgressCache == (if reply.data.Some? then old(readingProgressCache)[articleId := reply.data.value] else old(readingProgressCache))
      ensures called && !(reply.Replied? && (reply.isSuccess || reply.code == 401)) ==>
        r == (if articleId in old(readingProgressCache) then Some(old(readingProgressCache)[articleId]) else None)
        && readingProgressCache == old(readingProgressCache)
      ensures articleList == old(articleList) && articleCache == old(articleCache)
      ensures prompt == old(prompt) && hasController == old(hasController) && aborts == old(aborts)
      ensures assistantMessage == old(assistantMessage) && isArticleCreated == old(isArticleCreated)
    {
      if !forceRefresh && articleId in readingProgressCache {
        return Some(readingProgressCache[articleId]), false;
      }
      called := true;
      if reply.Raised? || (!reply.isSuccess && reply.code != 401) {
        r := if articleId in readingProgressCache then Some(readingProgressCache[articleId]) else None;
        return;
      }
      if reply.data.Some? {
        readingProgressCache := readingProgressCache[articleId := reply.data.value];
      }
      r := reply.data;
    }

    /**
     * `streamGenerate`: the generated text is the in-order concatenation of
     * the chunks without `error`. The article counts as created exactly
     * when no error chunk arrived, and only then is the list reloaded,
     * forced. The controller is dropped at the end either way.
     *
     * The streaming call never throws (see `StreamApi.Chat`), so the
     * `catch` cannot run, and the result it returns is not looked at: a
     * call that fails with a non-ok status, a network error or an abort
     * without delivering an error chunk still marks the article created.
     */
    method StreamGenerate(chunks: seq<StreamChunk>, listReply: Reply<seq<ArticleSummary>>) returns (reloaded: bool)
      requires Valid()
      modifies this
      ensures Valid()
      ensures assistantMessage == AnswerText(chunks)
      ensures isArticleCreated <==> NoErrorChunk(chunks)
      ensures reloaded <==> isArticleCreated
      ensures reloaded && listReply.Replied? && listReply.isSuccess ==> articleList == listReply.data.GetOr([])
      ensures !(reloaded && listReply.Replied? && listReply.isSuccess) ==> articleList == old(articleList)
      ensures articleCache == old(articleCache) && readingProgressCache == old(readingProgressCache)
      ensures prompt == old(prompt) && aborts == old(aborts)
    {
      var hasError := false;
      isArticleCreated := false;
      assistantMessage := "";
      AbortStreaming();
      hasController := true;
      for i := 0 to |chunks|
        invariant assistantMessage == AnswerText(chunks[..i])
        invariant hasError <==> !NoErrorChunk(chunks[..i])
        invariant hasController && !isArticleCreated && aborts == old(aborts)
        invariant articleList == old(articleList) && articleCache == old(articleCache)
        invariant readingProgressCache == old(readingProgressCache) && prompt == old(prompt)
      {
        AnswerTextStep(chunks, i);
        assert chunks[..i + 1] == chunks[..i] + [chunks[i]];
        if chunks[i].error.Some? {
          hasError := true;
        } else {
          assistantMessage := assistantMessage + chunks[i].content;
        }
      }
      assert chunks[..|chunks|] == chunks;
      reloaded := false;
      if !hasError {
        isArticleCreated := true;
        var _, _ := GetArticleList(true, listReply);
        reloaded := true;
      }
      // the `finally` block
      hasController := false;
    }
  }
}
