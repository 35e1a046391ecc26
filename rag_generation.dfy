/**
 * Answer generation (`generate_answer_with_llm`): the highest similarity
 * among the retrieved sources chooses one of three answer modes — the
 * retrieved text alone (`rag`), the retrieved text together with the
 * model's own knowledge (`hybrid`), or the model's knowledge alone
 * (`knowledge`) — and with it the prompt and the reported confidence.
 *
 * The language model is the parameter `llm`, from the prompt to its
 * response; the prompt is modelled by its mode and the text it carries,
 * not by its fixed instruction wording.  The elapsed time is not modelled.
 */
module RagGeneration {
  import opened Wrappers

  /** Similarity from which the retrieved text alone answers. */
  const HighSimilarity: real := 0.85
  /** The default `similarity_threshold`. */
  const DefaultThreshold: real := 0.6
  /** Confidence reported for an answer from knowledge alone. */
  const KnowledgeConfidence: real := 0.5

  const NoAnswerText: string := "抱歉，我无法生成回答。"
  const ErrorAnswerText: string := "抱歉，生成回答时出现错误。"

  /** The prompt handed to the model: the joined retrieved text (if the mode uses it) and the query. */
  datatype Prompt =
    | RagPrompt(context: string, query: string)
    | HybridPrompt(context: string, query: string)
    | KnowledgePrompt(query: string)

  /** What the model call gives back. */
  datatype Response =
    | Answered(text: string)   // the first part of the first candidate carries text
    | Empty                    // no candidate, content or part
    | Raised                   // the call raised

  /** The dictionary the function returns, without `processing_time`. */
  datatype Generation = Generation(answer: string, source: string, confidence: real, useRag: bool,
                                   useHybrid: bool, maxSimilarity: real)

  /** `source.get('similarity', 0)`: a source's similarity is `None` when the key is absent. */
  function SimilarityOf(s: Option<real>): real
  {
    s.GetOr(0.0)
  }

  /** `max(source.get('similarity', 0) for source in sources)`. */
  function MaxSimilarity(sources: seq<Option<real>>): (m: real)
    requires |sources| > 0
    ensures forall i :: 0 <= i < |sources| ==> SimilarityOf(sources[i]) <= m
    ensures exists i :: 0 <= i < |sources| && SimilarityOf(sources[i]) == m
    decreases |sources|
  {
    var last := SimilarityOf(sources[|sources| - 1]);
    if |sources| == 1 then last
    else
      var rest := MaxSimilarity(sources[..|sources| - 1]);
      assert forall i :: 0 <= i < |sources| - 1 ==> sources[i] == sources[..|sources| - 1][i];
      if rest < last then last else rest
  }

  /** `"\n\n".join(chunks)`. */
  function JoinParagraphs(chunks: seq<string>): string
    decreases |chunks|
  {
    if |chunks| == 0 then ""
    else if |chunks| == 1 then chunks[0]
    else JoinParagraphs(chunks[..|chunks| - 1]) + "\n\n" + chunks[|chunks| - 1]
  }

  /** The two flags of the tier decision: high similarity, and middle similarity. */
  function UseRag(sources: seq<Option<real>>): bool
  {
    |sources| > 0 && MaxSimilarity(sources) >= HighSimilarity
  }

  function UseHybrid(sources: seq<Option<real>>, threshold: real): bool
  {
    |sources| > 0 && MaxSimilarity(sources) < HighSimilarity && MaxSimilarity(sources) >= threshold
  }

  /** The prompt: a tier's mode is used only when there is retrieved text. */
  function PromptFor(query: string, chunks: seq<string>, sources: seq<Option<real>>, threshold: real): Prompt
  {
    if UseRag(sources) && |chunks| > 0 then RagPrompt(JoinParagraphs(chunks), query)
    else if UseHybrid(sources, threshold) && |chunks| > 0 then HybridPrompt(JoinParagraphs(chunks), query)
    else KnowledgePrompt(query)
  }

  /** The answer source and confidence that go with a prompt. */
  function SourceOf(p: Prompt): string
  {
    match p
    case RagPrompt(_, _) => "rag"
    case HybridPrompt(_, _) => "hybrid"
    case KnowledgePrompt(_) => "knowledge"
  }

  function ConfidenceOf(p: Prompt, sources: seq<Option<real>>): real
  {
    if p.KnowledgePrompt? || |sources| == 0 then KnowledgeConfidence else MaxSimilarity(sources)
  }

  /** `generate_answer_with_llm(query, retrieved_chunks, sources, similarity_threshold)`. */
  function GenerateAnswer(query: string, chunks: seq<string>, sources: seq<Option<real>>, threshold: real,
                          llm: Prompt -> Response): Generation
  {
    var prompt := PromptFor(query, chunks, sources, threshold);
    match llm(prompt)
    case Answered(text) =>
      Generation(text, SourceOf(prompt), ConfidenceOf(prompt, sources),
                 UseRag(sources) || UseHybrid(sources, threshold), UseHybrid(sources, threshold),
                 if |sources| > 0 then MaxSimilarity(sources) else 0.0)
    case Empty => Generation(NoAnswerText, "error", 0.0, false, false, 0.0)
    case Raised => Generation(ErrorAnswerText, "error", 0.0, false, false, 0.0)
  }

  // -------------------------------------------------------------------
  // Properties
  // -------------------------------------------------------------------

  /** With no sources the answer comes from knowledge alone, with confidence 0.5. */
  lemma NoSourcesKnowledge(query: string, chunks: seq<string>, threshold: real, llm: Prompt -> Response)
    ensures PromptFor(query, chunks, [], threshold) == KnowledgePrompt(query)
    ensures var g := GenerateAnswer(query, chunks, [], threshold, llm);
      llm(KnowledgePrompt(query)).Answered? ==>
        g.source == "knowledge" && g.confidence == 0.5 && !g.useRag && !g.useHybrid && g.maxSimilarity == 0.0
  {
  }

  /**
   * With retrieved text, the similarity tiers decide the mode: at least
   * 0.85 answers from the text (`rag`), from the threshold up to 0.85 from
   * text and knowledge (`hybrid`), below the threshold from knowledge; the
   * first two report the highest similarity as confidence.
   */
  lemma Tiers(query: string, chunks: seq<string>, sources: seq<Option<real>>, threshold: real,
              llm: Prompt -> Response)
    requires |chunks| > 0 && |sources| > 0
    ensures var m := MaxSimilarity(sources);
      var p := PromptFor(query, chunks, sources, threshold);
      && (m >= 0.85 ==> p == RagPrompt(JoinParagraphs(chunks), query))
      && (threshold <= m < 0.85 ==> p == HybridPrompt(JoinParagraphs(chunks), query))
      && (m < threshold && m < 0.85 ==> p == KnowledgePrompt(query))
      && (llm(p).Answered? ==>
            var g := GenerateAnswer(query, chunks, sources, threshold, llm);
            && g.maxSimilarity == m
            && (m >= 0.85 ==> g.source == "rag" && !g.useHybrid)
            && (threshold <= m < 0.85 ==> g.source == "hybrid" && g.useHybrid)
            && (m >= threshold || m >= 0.85 ==> g.confidence == m && g.useRag)
            && (m < threshold && m < 0.85 ==> g.source == "knowledge" && g.confidence == 0.5 && !g.useRag))
  {
  }

  /**
   * Without retrieved text the answer always comes from knowledge alone —
   * yet `use_rag` still reports the tier the similarities chose.
   */
  lemma NoChunksKnowledge(query: string, sources: seq<Option<real>>, threshold: real, llm: Prompt -> Response)
    ensures PromptFor(query, [], sources, threshold) == KnowledgePrompt(query)
    ensures var g := GenerateAnswer(query, [], sources, threshold, llm);
      llm(KnowledgePrompt(query)).Answered? ==>
        && g.source == "knowledge" && g.confidence == 0.5
        && (g.useRag <==> |sources| > 0 && (MaxSimilarity(sources) >= 0.85 || MaxSimilarity(sources) >= threshold))
  {
  }

  /**
   * The result's source is `error` exactly when the model gave no text;
   * then confidence and highest similarity are 0 and no retrieval is
   * reported used.
   */
  lemma ErrorResult(query: string, chunks: seq<string>, sources: seq<Option<real>>, threshold: real,
                    llm: Prompt -> Response)
    ensures var g := GenerateAnswer(query, chunks, sources, threshold, llm);
      && (g.source == "error" <==> !llm(PromptFor(query, chunks, sources, threshold)).Answered?)
      && (g.source == "error" ==> g.confidence == 0.0 && !g.useRag && !g.useHybrid && g.maxSimilarity == 0.0)
  {
  }

  /** `use_hybrid` implies `use_rag`, and `use_rag` without `use_hybrid` means the high tier. */
  lemma FlagsAgree(query: string, chunks: seq<string>, sources: seq<Option<real>>, threshold: real,
                   llm: Prompt -> Response)
    ensures var g := GenerateAnswer(query, chunks, sources, threshold, llm);
      && (g.useHybrid ==> g.useRag)
      && (g.useRag && !g.useHybrid ==> g.maxSimilarity >= 0.85)
  {
  }

  /** When every similarity lies in [0, 1], so does the confidence. */
  lemma ConfidenceInUnitRange(query: string, chunks: seq<string>, sources: seq<Option<real>>, threshold: real,
                              llm: Prompt -> Response)
    requires forall i :: 0 <= i < |sources| ==> 0.0 <= SimilarityOf(sources[i]) <= 1.0
    ensures 0.0 <= GenerateAnswer(query, chunks, sources, threshold, llm).confidence <= 1.0
  {
    if |sources| > 0 {
      var m := MaxSimilarity(sources);
      var i :| 0 <= i < |sources| && SimilarityOf(sources[i]) == m;
    }
  }

  /** The joined context is every chunk plus two characters between each pair. */
  lemma {:induction false} JoinParagraphsLength(chunks: seq<string>)
    requires |chunks| > 0
    ensures |JoinParagraphs(chunks)| == SumLengths(chunks) + 2 * (|chunks| - 1)
    decreases |chunks|
  {
    if |chunks| > 1 {
      JoinParagraphsLength(chunks[..|chunks| - 1]);
      assert chunks[..|chunks| - 1][..|chunks| - 2] == chunks[..|chunks| - 2];
    }
  }

  function SumLengths(chunks: seq<string>): nat
    decreases |chunks|
  {
    if |chunks| == 0 then 0 else SumLengths(chunks[..|chunks| - 1]) + |chunks[|chunks| - 1]|
  }
}
