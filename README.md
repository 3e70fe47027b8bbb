# Prompt assembly and evaluation metrics of a PDF question-answering service

This project models two pieces of a retrieval-augmented question-answering backend in Dafny:

- **Answering a question** (`backend/rag/qa.py`). `format_history` renders every turn of
  the conversation except the last one, which is the current question, as
  `"User: …\n"` or `"Assistant: …\n"`. The retrieved chunks are joined with a blank line
  into the context. A fixed prompt template is filled with the transcript, the context and
  the question, and the chat model's completion is returned unchanged.
- **The offline evaluation** (`backend/evaluation.py`). `context_recall` is a
  case-insensitive substring test over the retrieved documents. The loop scores every
  ground-truth sample into four lists: recall, similarity, faithfulness and latency. The
  aggregation computes the means and a hallucination rate. A hallucination is a
  faithfulness score strictly below 0.6.

Files:

- `wrappers.dfy`: `Option` and `Result`, standing in for the exceptions the code raises.
- `text.dfy`: `Join` (Python's `sep.join`), ASCII `Lower` (`str.lower`), `IsSubstring`
  (`needle in hay`), and letter-case variants.
- `prompt.dfy`: module `Prompt`, for `backend/rag/qa.py`. `format_history` is the method
  `FormatHistory`, with the loop of the source. Its specification is `Transcript` of
  `PrecedingTurns` (`history[:-1]`). `answer_question` is the method `AnswerQuestion`.
  `PromptTemplate.format` is `Format` over a template already split into literal pieces
  and `{name}` placeholders.
- `evaluation.dfy`: module `Evaluation`, for `backend/evaluation.py`. The metric and the
  aggregation are functions. The loop of `evaluate` is the method `ScoreSamples`.
  `Evaluate` runs the loop and then the aggregation, and returns the report (or the
  error) instead of printing it.

The retrievers, the chat model, the two embedding similarities and the clock are opaque
functions. The evaluation's are bundled in `Evaluation.Services`. The question-answering
retriever is called with k = 3 and lambda = 0.5 (maximal marginal relevance). The
evaluation's own retriever is the default search, called with `TopK` = 3. The two may
return different chunks, so both are separate parameters.

Worth knowing when reading the model:

- The evaluation joins its context with a single `"\n"`. The prompt joins with `"\n\n"`.
  `EvaluationContextDiffersFromPromptContext` shows the two strings differ whenever two or
  more chunks are retrieved.
- `SIMILARITY_THRESHOLD` (0.75) is declared but never read. It is kept as
  `SimilarityThreshold` and used nowhere.
- The evaluation calls `answer_question` with `history=[]`, so every evaluation prompt
  has an empty conversation section (`EvaluationAsksWithoutHistory`).
- A sample missing `"question"` or `"ground_truth"` raises KeyError only when the loop
  reaches it, after the earlier samples were scored (`MissingField`).
- The code has no empty-index error; an empty retrieval gives an empty context.
- An empty dataset is not rejected up front; it fails at the first division of the
  aggregation (ZeroDivisionError, modelled as `ZeroDivision`).

## Model

| member | source | states |
|---|---|---|
| `Prompt.Label` | backend/rag/qa.py:8 | the label is "User" exactly when the role is "user", and "Assistant" for every other role value |
| `Prompt.PrecedingTurns` | backend/rag/qa.py:7 | `history[:-1]`: empty for histories of length 0 or 1, otherwise the history minus its last element |
| `Prompt.FormatHistory` | backend/rag/qa.py:5-10 | the loop's accumulated string is the transcript of every message but the last |
| `Prompt.TranscriptSnoc` | backend/rag/qa.py:9 | appending a message appends exactly its segment to the transcript |
| `Prompt.TranscriptAppend` | backend/rag/qa.py:7-9 | transcripts of consecutive runs of messages concatenate |
| `Prompt.TranscriptIsConcatenation` | backend/rag/qa.py:7-9 | the transcript is the in-order concatenation of one `Label: content\n` segment per message |
| `Prompt.LastMessageIgnored` | backend/rag/qa.py:7 | the last message never affects the transcript: replacing or removing it leaves it unchanged |
| `Prompt.TranscriptEmptyIff` | backend/rag/qa.py:6-10 | the transcript is empty if and only if the history has at most one message |
| `Prompt.TranscriptGrowsByOneSegment` | backend/rag/qa.py:7-9 | for a non-empty history, adding a message extends the old transcript by the segment of the previous last message, so the old one is a prefix |
| `Prompt.Context` | backend/rag/qa.py:17 | the `"\n\n".join` of the retrieved chunks; a definition without a contract of its own, characterized by `ContextOfFewChunks` and `ContextKeepsChunksInOrder` |
| `Prompt.ContextOfFewChunks` | backend/rag/qa.py:17 | no chunks give an empty context; one chunk is the context unchanged |
| `Prompt.ContextKeepsChunksInOrder` | backend/rag/qa.py:17 | every chunk stands verbatim at its retrieval-order offset in the context, followed by a blank line unless it is last; the context is as long as the chunks plus two characters per separator |
| `Prompt.Format` | backend/rag/qa.py:21-48 | filling a template succeeds exactly when every placeholder has a value |
| `Prompt.RenderPrompt` | backend/rag/qa.py:21-48 | the prompt is the question-answering template filled with the transcript, the context and the question |
| `Prompt.FillQaTemplate` | backend/rag/qa.py:22-37 | filling the template gives the preamble, transcript, context heading, context, question heading, question and answer cue, in that order |
| `Prompt.PromptLayout` | backend/rag/qa.py:22-37 | transcript, context and question stand verbatim in the prompt, in that order, each right after its heading |
| `Prompt.AnswerQuestion` | backend/rag/qa.py:12-49 | the answer is the model's completion of exactly the prompt built from the transcript, the blank-line-joined retrieved chunks and the query, unmodified |
| `Text.Join` | backend/rag/qa.py:17 | Python's `sep.join` (also used at backend/evaluation.py:67); a definition without a contract of its own, characterized by `JoinLength`, `JoinPartAt`, `JoinSeparatorAfter` and `JoinSnoc` |
| `Text.JoinLength` | backend/rag/qa.py:17 | a join is as long as its parts plus one separator between each pair of neighbours |
| `Text.JoinPartAt` | backend/rag/qa.py:17 | each part appears verbatim at its offset in a join |
| `Text.JoinSeparatorAfter` | backend/rag/qa.py:17 | in a join, every part but the last is followed by the separator |
| `Text.JoinSnoc` | backend/rag/qa.py:17 | appending a part extends a non-empty join by the separator and that part |
| `Text.Lower` | backend/evaluation.py:29 | lowercasing keeps the length and lowercases each character independently |
| `Text.IsSubstring` | backend/evaluation.py:29 | Python's `needle in hay` on strings: some start index where the needle occurs (the empty needle occurs everywhere); a definition without a contract of its own, used by `ContextRecall`, whose `ensures` states the recall through it |
| `Text.CaseVariantSameLower` | backend/evaluation.py:29 | changing the letter case of a string does not change its lowercase form |
| `Evaluation.ContextRecall` | backend/evaluation.py:27-31 | the recall is 0 or 1, and it is 1 if and only if some document's lowercased content contains the lowercased ground truth |
| `Evaluation.ContextRecallMonotone` | backend/evaluation.py:27-31 | if every document of one list is in another, the recall of the first is at most the recall of the second |
| `Evaluation.ContextRecallOfMoreDocuments` | backend/evaluation.py:27-31 | no documents give recall 0; appending documents never lowers the recall |
| `Evaluation.ContextRecallOrderIndependent` | backend/evaluation.py:27-31 | reordering the documents does not change the recall |
| `Evaluation.ContextRecallIgnoresCase` | backend/evaluation.py:29 | changing the letter case of the ground truth or of any document does not change the recall |
| `Evaluation.CountBelow` | backend/evaluation.py:92-94 | the number of scores strictly below the threshold is at most the number of scores, 0 exactly when all are at or above it, and all exactly when all are below it |
| `Evaluation.HallucinationRate` | backend/evaluation.py:92-95 | the rate lies in [0, 1]; it is 0 if and only if every faithfulness score is at least 0.6, and 1 if and only if every score is below 0.6 |
| `Evaluation.ThresholdIsStrict` | backend/evaluation.py:92-95 | a score equal to 0.6 is not a hallucination; scores 0.8 and 0.4 give a rate of one half |
| `Evaluation.SumOfBinaryScores` | backend/evaluation.py:88 | a sum of 0/1 scores lies between 0 and their number, equal to 0 exactly when all are 0 and to the number exactly when all are 1 |
| `Evaluation.RecallAverage` | backend/evaluation.py:88 | the mean recall lies in [0, 1]; it is 1 exactly when every sample was recalled and 0 exactly when none was |
| `Evaluation.Mean` | backend/evaluation.py:89-97 | `sum(xs) / len(xs)`, giving the similarity, faithfulness and latency averages (lines 89, 90, 97); a definition without a contract of its own, used by `Aggregate` |
| `Evaluation.Aggregate` | backend/evaluation.py:88-97 | an empty score list is a division by zero; otherwise recall mean and hallucination rate lie in [0, 1], and the rate is 0 or 1 exactly in the all-faithful or all-unfaithful cases |
| `Evaluation.ScoreSamples` | backend/evaluation.py:56-85 | the loop fails exactly when some sample lacks a key, reporting the first such sample and key; otherwise the four lists hold exactly one entry per sample, in dataset order, each the metric of that sample |
| `Evaluation.Evaluate` | backend/evaluation.py:49-97 | a well-formed dataset gives the aggregation of its per-sample scores; a malformed one fails at its first missing key; the run fails with a division by zero exactly when the dataset is empty; a report's recall mean and hallucination rate lie in [0, 1] |
| `Evaluation.EvaluationAsksWithoutHistory` | backend/evaluation.py:75 | each evaluation answer is the model's completion of a prompt with an empty conversation section |
| `Evaluation.EvaluationContextDiffersFromPromptContext` | backend/evaluation.py:67 | with two or more chunks, the newline-joined evaluation context differs from the blank-line-joined prompt context |

## Left out

- Retrieval: the vector store, embeddings and maximal-marginal-relevance ranking happen
  inside the vector database and are not visible. The retrievers are opaque functions of
  the query and their parameters.
- The chat model call is an opaque function of the prompt. Its failures (network, quota)
  are not modelled.
- The embedding-based similarity and faithfulness scores are opaque real-valued functions.
  Latencies are the values of an opaque clock function indexed by sample, not
  `time.time()` differences.
- Floating point: all scores, sums and means are exact reals. Rounding in Python's float
  `sum` and division is not modelled.
- Text.Lower: Python's `str.lower()` folds all of Unicode; the model lowercases ASCII
  letters only.
- Prompt.FormatHistory: history turns are typed records with a role and a content. A
  turn dict lacking `"role"` or `"content"` would raise a KeyError in the source; that
  failure is not modelled. The frontend always sends both keys.
- Prompt.Format: the template string is taken as already split into literal text and
  placeholders. Parsing of `{…}` in the template text is not modelled.
- Reading the ground-truth JSON file and printing the report: file I/O and output
  formatting. The dataset is a parameter and the report is returned.
- A ground-truth record is a map from strings to strings. Non-string JSON values are not
  modelled.
- Chunking, PDF loading, the HTTP routes and the React frontend are not part of this
  model.
