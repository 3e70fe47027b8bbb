/**
 * The offline evaluation (backend/evaluation.py): the context-recall metric,
 * the loop that scores every ground-truth sample, and the aggregation into a report
 * with means and a hallucination rate. Retrieval, the language model, the embedding
 * similarities and the clock are opaque functions bundled in `Services`; the report
 * is returned instead of printed.
 */
module Evaluation {
  import opened Wrappers
  import opened Text
  import Prompt

  /** Declared in the configuration but never read by the evaluation. */
  const SimilarityThreshold: real := 0.75
  /** A sample whose faithfulness is strictly below this counts as a hallucination. */
  const FaithfulnessThreshold: real := 0.6
  /** Chunks retrieved per question by the evaluation's own (similarity) retriever. */
  const TopK: nat := 3
  /** The evaluation joins the retrieved chunks with a single newline. */
  const EvaluationSeparator: string := "\n"

  /** One record of the ground-truth file: a JSON object with string values. */
  type Sample = map<string, string>

  /** The external collaborators, as opaque functions. */
  datatype Services = Services(
    mmrRetrieve: (string, nat, real) -> seq<string>,  // the retriever inside answer_question
    similarityRetrieve: (string, nat) -> seq<string>,  // the evaluation's retriever (default search)
    llm: string -> string,                            // the chat model's completion
    similarity: (string, string) -> real,             // semantic_similarity(answer, ground_truth)
    faithfulness: (string, string) -> real,           // faithfulness_score(answer, context)
    latency: nat -> real)                             // measured duration of the i-th answer call

  /** Why a run produces no report: a KeyError on a sample, or a division by an empty list's length. */
  datatype EvalError = MissingField(index: nat, key: string) | ZeroDivision

  /** The four per-sample score lists built by the loop. */
  datatype Scores = Scores(recall: seq<int>, similarity: seq<real>, faithfulness: seq<real>, latencies: seq<real>)

  /** The aggregate report. */
  datatype Report = Report(
    contextRecallAvg: real,
    answerSimilarityAvg: real,
    faithfulnessAvg: real,
    hallucinationRate: real,
    avgLatency: real)

  // ---------------------------------------------------------------------------
  // Context recall
  // ---------------------------------------------------------------------------

  /** The lowercased ground truth occurs in the lowercased document. */
  predicate Recalls(doc: string, groundTruth: string)
  {
    IsSubstring(Lower(groundTruth), Lower(doc))
  }

  /**
   * `context_recall`: 1 as soon as some retrieved document contains the ground truth,
   * ignoring letter case; 0 if none does.
   */
  function ContextRecall(docs: seq<string>, groundTruth: string): (r: int)
    ensures r == 0 || r == 1
    ensures r == 1 <==> exists i :: 0 <= i < |docs| && Recalls(docs[i], groundTruth)
  {
    if |docs| == 0 then 0
    else if Recalls(docs[0], groundTruth) then 1
    else
      var r := ContextRecall(docs[1..], groundTruth);
      assert forall i :: 1 <= i < |docs| ==> docs[i] == docs[1..][i - 1];
      r
  }

  /** Adding documents, or reordering them, never turns a recall of 1 into 0. */
  lemma ContextRecallMonotone(docs: seq<string>, more: seq<string>, groundTruth: string)
    requires forall d :: d in docs ==> d in more
    ensures ContextRecall(docs, groundTruth) <= ContextRecall(more, groundTruth)
  {
    if ContextRecall(docs, groundTruth) == 1 {
      var i :| 0 <= i < |docs| && Recalls(docs[i], groundTruth);
      assert docs[i] in more;
      var j :| 0 <= j < |more| && more[j] == docs[i];
      assert Recalls(more[j], groundTruth);
    }
  }

  /** No documents means no recall; more documents never lower it. */
  lemma ContextRecallOfMoreDocuments(docs: seq<string>, extra: seq<string>, groundTruth: string)
    ensures ContextRecall([], groundTruth) == 0
    ensures ContextRecall(docs, groundTruth) <= ContextRecall(docs + extra, groundTruth)
  {
    ContextRecallMonotone(docs, docs + extra, groundTruth);
  }

  /** The order of the retrieved documents does not matter. */
  lemma ContextRecallOrderIndependent(docs: seq<string>, reordered: seq<string>, groundTruth: string)
    requires multiset(docs) == multiset(reordered)
    ensures ContextRecall(docs, groundTruth) == ContextRecall(reordered, groundTruth)
  {
    forall d | d in docs ensures d in reordered {
      assert d in multiset(docs);
    }
    forall d | d in reordered ensures d in docs {
      assert d in multiset(reordered);
    }
    ContextRecallMonotone(docs, reordered, groundTruth);
    ContextRecallMonotone(reordered, docs, groundTruth);
  }

  /** Changing the letter case of the ground truth or of any document does not change the recall. */
  lemma ContextRecallIgnoresCase(docs: seq<string>, docs': seq<string>, groundTruth: string, groundTruth': string)
    requires |docs| == |docs'|
    requires forall i :: 0 <= i < |docs| ==> CaseVariant(docs[i], docs'[i])
    requires CaseVariant(groundTruth, groundTruth')
    ensures ContextRecall(docs, groundTruth) == ContextRecall(docs', groundTruth')
  {
    CaseVariantSameLower(groundTruth, groundTruth');
    forall i | 0 <= i < |docs|
      ensures Recalls(docs[i], groundTruth) == Recalls(docs'[i], groundTruth')
    {
      CaseVariantSameLower(docs[i], docs'[i]);
    }
  }

  // ---------------------------------------------------------------------------
  // Aggregation
  // ---------------------------------------------------------------------------

  /** Python's `sum` over floats, as exact reals. */
  function Sum(xs: seq<real>): real
  {
    if |xs| == 0 then 0.0 else xs[0] + Sum(xs[1..])
  }

  /** Python's `sum` over the integer recall scores. */
  function SumInt(xs: seq<int>): int
  {
    if |xs| == 0 then 0 else xs[0] + SumInt(xs[1..])
  }

  /** `sum(xs) / len(xs)`. */
  function Mean(xs: seq<real>): real
    requires |xs| > 0
  {
    Sum(xs) / (|xs| as real)
  }

  /** `sum(1 for s in xs if s < threshold)`: how many scores are strictly below the threshold. */
  function CountBelow(xs: seq<real>, threshold: real): (n: nat)
    ensures n <= |xs|
    ensures n == 0 <==> forall i :: 0 <= i < |xs| ==> xs[i] >= threshold
    ensures n == |xs| <==> forall i :: 0 <= i < |xs| ==> xs[i] < threshold
  {
    if |xs| == 0 then 0
    else
      var rest := CountBelow(xs[1..], threshold);
      assert forall i :: 1 <= i < |xs| ==> xs[i] == xs[1..][i - 1];
      (if xs[0] < threshold then 1 else 0) + rest
  }

  /** A count out of a positive total is a fraction in [0, 1], at the ends exactly for none and all. */
  lemma Fraction(k: nat, total: nat)
    requires 0 < total && k <= total
    ensures 0.0 <= (k as real) / (total as real) <= 1.0
    ensures (k as real) / (total as real) == 0.0 <==> k == 0
    ensures (k as real) / (total as real) == 1.0 <==> k == total
  {
  }

  /** The share of samples whose faithfulness is strictly below the threshold. */
  function HallucinationRate(faithfulness: seq<real>): (rate: real)
    requires |faithfulness| > 0
    ensures 0.0 <= rate <= 1.0
    ensures rate == 0.0 <==> forall i :: 0 <= i < |faithfulness| ==> faithfulness[i] >= FaithfulnessThreshold
    ensures rate == 1.0 <==> forall i :: 0 <= i < |faithfulness| ==> faithfulness[i] < FaithfulnessThreshold
  {
    var n := CountBelow(faithfulness, FaithfulnessThreshold);
    Fraction(n, |faithfulness|);
    (n as real) / (|faithfulness| as real)
  }

  /** The sum of 0/1 scores lies between 0 and their number, at the ends exactly when all agree. */
  lemma {:induction false} SumOfBinaryScores(xs: seq<int>)
    requires forall i :: 0 <= i < |xs| ==> xs[i] == 0 || xs[i] == 1
    ensures 0 <= SumInt(xs) <= |xs|
    ensures SumInt(xs) == 0 <==> forall i :: 0 <= i < |xs| ==> xs[i] == 0
    ensures SumInt(xs) == |xs| <==> forall i :: 0 <= i < |xs| ==> xs[i] == 1
  {
    if |xs| > 0 {
      assert forall i :: 1 <= i < |xs| ==> xs[i] == xs[1..][i - 1];
      SumOfBinaryScores(xs[1..]);
    }
  }

  /** The mean of 0/1 recall scores: in [0, 1], 1 exactly when every sample was recalled, 0 when none was. */
  function RecallAverage(recall: seq<int>): (avg: real)
    requires |recall| > 0
    requires forall i :: 0 <= i < |recall| ==> recall[i] == 0 || recall[i] == 1
    ensures 0.0 <= avg <= 1.0
    ensures avg == 1.0 <==> forall i :: 0 <= i < |recall| ==> recall[i] == 1
    ensures avg == 0.0 <==> forall i :: 0 <= i < |recall| ==> recall[i] == 0
  {
    SumOfBinaryScores(recall);
    Fraction(SumInt(recall), |recall|);
    (SumInt(recall) as real) / (|recall| as real)
  }

  /**
   * The aggregation after the loop: every mean divides by its list's length, so an
   * empty list is a ZeroDivisionError; otherwise the report of means and the
   * hallucination rate.
   */
  function Aggregate(scores: Scores): (r: Result<Report, EvalError>)
    requires forall i :: 0 <= i < |scores.recall| ==> scores.recall[i] == 0 || scores.recall[i] == 1
    ensures r.Failure? <==>
      |scores.recall| == 0 || |scores.similarity| == 0 || |scores.faithfulness| == 0 || |scores.latencies| == 0
    ensures r.Failure? ==> r.error == ZeroDivision
    ensures r.Success? ==>
      && 0.0 <= r.value.contextRecallAvg <= 1.0
      && 0.0 <= r.value.hallucinationRate <= 1.0
      && (r.value.hallucinationRate == 0.0 <==>
            forall i :: 0 <= i < |scores.faithfulness| ==> scores.faithfulness[i] >= FaithfulnessThreshold)
      && (r.value.hallucinationRate == 1.0 <==>
            forall i :: 0 <= i < |scores.faithfulness| ==> scores.faithfulness[i] < FaithfulnessThreshold)
  {
    if |scores.recall| == 0 || |scores.similarity| == 0 || |scores.faithfulness| == 0 || |scores.latencies| == 0 then
      Failure(ZeroDivision)
    else
      Success(Report(
        RecallAverage(scores.recall),
        Mean(scores.similarity),
        Mean(scores.faithfulness),
        HallucinationRate(scores.faithfulness),
        Mean(scores.latencies)))
  }

  /** A score equal to the threshold is not a hallucination; with 0.8 and 0.4 the rate is one half. */
  lemma ThresholdIsStrict()
    ensures HallucinationRate([FaithfulnessThreshold]) == 0.0
    ensures HallucinationRate([0.8, 0.4]) == 0.5
  {
  }

  // ---------------------------------------------------------------------------
  // The evaluation loop
  // ---------------------------------------------------------------------------

  /** The sample has both fields the loop reads. */
  predicate WellFormed(sample: Sample)
  {
    "question" in sample && "ground_truth" in sample
  }

  /** The key whose lookup raises first on a malformed sample: "question" is read before "ground_truth". */
  function MissingKey(sample: Sample): string
  {
    if "question" !in sample then "question" else "ground_truth"
  }

  /** The error names the first malformed sample and the key it lacks. */
  predicate FailsAt(dataset: seq<Sample>, e: EvalError)
  {
    && e.MissingField?
    && e.index < |dataset|
    && !WellFormed(dataset[e.index])
    && e.key == MissingKey(dataset[e.index])
    && forall j :: 0 <= j < e.index ==> WellFormed(dataset[j])
  }

  /** The chunks the evaluation's retriever returns for the sample's question. */
  function RetrievedFor(sample: Sample, services: Services): seq<string>
    requires WellFormed(sample)
  {
    services.similarityRetrieve(sample["question"], TopK)
  }

  /** The answer to the sample's question, asked with an empty history. */
  function AnswerFor(sample: Sample, services: Services): string
    requires WellFormed(sample)
  {
    Prompt.QaAnswer(sample["question"], [], services.mmrRetrieve, services.llm)
  }

  function RecallFor(sample: Sample, services: Services): int
    requires WellFormed(sample)
  {
    ContextRecall(RetrievedFor(sample, services), sample["ground_truth"])
  }

  function SimilarityFor(sample: Sample, services: Services): real
    requires WellFormed(sample)
  {
    services.similarity(AnswerFor(sample, services), sample["ground_truth"])
  }

  /** Faithfulness is measured against the evaluation's context, joined with single newlines. */
  function FaithfulnessFor(sample: Sample, services: Services): real
    requires WellFormed(sample)
  {
    services.faithfulness(AnswerFor(sample, services), Join(RetrievedFor(sample, services), EvaluationSeparator))
  }

  /** The score lists of a well-formed dataset: entry i belongs to sample i. */
  function ScoresFor(dataset: seq<Sample>, services: Services): (scores: Scores)
    requires forall i :: 0 <= i < |dataset| ==> WellFormed(dataset[i])
  {
    Scores(
      seq(|dataset|, i requires 0 <= i < |dataset| => RecallFor(dataset[i], services)),
      seq(|dataset|, i requires 0 <= i < |dataset| => SimilarityFor(dataset[i], services)),
      seq(|dataset|, i requires 0 <= i < |dataset| => FaithfulnessFor(dataset[i], services)),
      seq(|dataset|, i requires 0 <= i < |dataset| => services.latency(i)))
  }

  /**
   * The loop of `evaluate`: for each sample in order, reads the question and the ground
   * truth (a missing key aborts the run), retrieves chunks, records the context recall,
   * asks the question with an empty history, records the latency, the similarity to the
   * ground truth and the faithfulness to the newline-joined context.
   */
  method ScoreSamples(dataset: seq<Sample>, services: Services) returns (r: Result<Scores, EvalError>)
    ensures r.Success? <==> forall i :: 0 <= i < |dataset| ==> WellFormed(dataset[i])
    ensures r.Failure? ==> FailsAt(dataset, r.error)
    ensures r.Success? ==>
      && |r.value.recall| == |r.value.similarity| == |r.value.faithfulness| == |r.value.latencies| == |dataset|
      && forall i :: 0 <= i < |dataset| ==>
           && r.value.recall[i] == RecallFor(dataset[i], services)
           && r.value.similarity[i] == SimilarityFor(dataset[i], services)
           && r.value.faithfulness[i] == FaithfulnessFor(dataset[i], services)
           && r.value.latencies[i] == services.latency(i)
  {
    var recallScores: seq<int> := [];
    var similarityScores: seq<real> := [];
    var faithfulnessScores: seq<real> := [];
    var latencies: seq<real> := [];

    for i := 0 to |dataset|
      invariant forall j :: 0 <= j < i ==> WellFormed(dataset[j])
      invariant |recallScores| == |similarityScores| == |faithfulnessScores| == |latencies| == i
      invariant forall j :: 0 <= j < i ==>
        && recallScores[j] == RecallFor(dataset[j], services)
        && similarityScores[j] == SimilarityFor(dataset[j], services)
        && faithfulnessScores[j] == FaithfulnessFor(dataset[j], services)
        && latencies[j] == services.latency(j)
    {
      var sample := dataset[i];
      if "question" !in sample {
        return Failure(MissingField(i, "question"));
      }
      var question := sample["question"];
      if "ground_truth" !in sample {
        return Failure(MissingField(i, "ground_truth"));
      }
      var groundTruth := sample["ground_truth"];

      var retrievedDocs := services.similarityRetrieve(question, TopK);
      var contextText := Join(retrievedDocs, EvaluationSeparator);
      recallScores := recallScores + [ContextRecall(retrievedDocs, groundTruth)];

      var answer := Prompt.AnswerQuestion(question, [], services.mmrRetrieve, services.llm);
      latencies := latencies + [services.latency(i)];

      similarityScores := similarityScores + [services.similarity(answer, groundTruth)];
      faithfulnessScores := faithfulnessScores + [services.faithfulness(answer, contextText)];
    }
    r := Success(Scores(recallScores, similarityScores, faithfulnessScores, latencies));
  }

  /**
   * `evaluate`: scores every sample, then aggregates. A malformed sample aborts the run
   * with the first missing key; an empty dataset fails on the first division.
   */
  method Evaluate(dataset: seq<Sample>, services: Services) returns (result: Result<Report, EvalError>)
    ensures (forall i :: 0 <= i < |dataset| ==> WellFormed(dataset[i])) ==>
      result == Aggregate(ScoresFor(dataset, services))
    ensures !(forall i :: 0 <= i < |dataset| ==> WellFormed(dataset[i])) ==>
      result.Failure? && FailsAt(dataset, result.error)
    ensures result == Failure(ZeroDivision) <==> |dataset| == 0
    ensures result.Success? ==>
      && 0.0 <= result.value.contextRecallAvg <= 1.0
      && 0.0 <= result.value.hallucinationRate <= 1.0
  {
    var scored := ScoreSamples(dataset, services);
    if scored.Failure? {
      return Failure(scored.error);
    }
    var scores := scored.value;
    assert scores == ScoresFor(dataset, services);
    result := Aggregate(scores);
  }

  /**
   * The evaluation asks every question with an empty history, so the prompt's
   * conversation section is empty and the answer depends on the question alone.
   */
  lemma EvaluationAsksWithoutHistory(sample: Sample, services: Services)
    requires WellFormed(sample)
    ensures AnswerFor(sample, services) == services.llm(Prompt.RenderPrompt(
      "", Prompt.Context(services.mmrRetrieve(sample["question"], Prompt.MmrK, Prompt.MmrLambda)), sample["question"]))
  {
  }

  /**
   * The evaluation's context differs from the one in the prompt whenever two or more
   * chunks are retrieved: one newline instead of a blank line between chunks.
   */
  lemma EvaluationContextDiffersFromPromptContext(docs: seq<string>)
    requires |docs| >= 2
    ensures Join(docs, EvaluationSeparator) != Prompt.Context(docs)
  {
    JoinLength(docs, EvaluationSeparator);
    JoinLength(docs, Prompt.ContextSeparator);
  }
}
