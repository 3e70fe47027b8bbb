/**
 * Prompt assembly for question answering (backend/rag/qa.py): the conversation
 * transcript built from the history, the context joined from the retrieved
 * chunks, the fixed prompt template and the call to the language model.
 * The retriever and the language model are opaque functions given as parameters.
 */
module Prompt {
  import opened Wrappers
  import opened Text

  /** One conversation turn as the frontend sends it: `{"role": ..., "content": ...}`. */
  datatype Message = Message(role: string, content: string)

  /** The retriever used to answer questions: maximal marginal relevance with k = 3, lambda = 0.5. */
  const MmrK: nat := 3
  const MmrLambda: real := 0.5

  /** Retrieved chunks are separated by a blank line in the context. */
  const ContextSeparator: string := "\n\n"

  // ---------------------------------------------------------------------------
  // Conversation history
  // ---------------------------------------------------------------------------

  /** The speaker label: "User" for role "user", "Assistant" for every other role value. */
  function Label(role: string): (speaker: string)
    ensures speaker == "User" <==> role == "user"
    ensures speaker == "Assistant" <==> role != "user"
  {
    if role == "user" then "User" else "Assistant"
  }

  /** The transcript line of one message. */
  function Segment(m: Message): string
  {
    Label(m.role) + ": " + m.content + "\n"
  }

  /** The messages before the current question: every element but the last (`history[:-1]`). */
  function PrecedingTurns(history: seq<Message>): (turns: seq<Message>)
    ensures |history| <= 1 ==> turns == []
    ensures |history| >= 1 ==> history == turns + [history[|history| - 1]]
  {
    if |history| == 0 then [] else history[..|history| - 1]
  }

  /** The transcript of some messages: their segments, concatenated in order. */
  function Transcript(msgs: seq<Message>): string
  {
    if |msgs| == 0 then "" else Transcript(msgs[..|msgs| - 1]) + Segment(msgs[|msgs| - 1])
  }

  /** The segments of some messages, one per message, in order. */
  function Segments(msgs: seq<Message>): seq<string>
  {
    seq(|msgs|, i requires 0 <= i < |msgs| => Segment(msgs[i]))
  }

  /**
   * `format_history`: renders every message but the last, each as
   * "User: <content>\n" or "Assistant: <content>\n", accumulating the result.
   */
  method FormatHistory(history: seq<Message>) returns (conversation: string)
    ensures conversation == Transcript(PrecedingTurns(history))
  {
    conversation := "";
    var turns := PrecedingTurns(history);
    for i := 0 to |turns|
      invariant conversation == Transcript(turns[..i])
    {
      var msg := turns[i];
      var role := Label(msg.role);
      ghost var before := conversation;
      conversation := conversation + role + ": " + msg.content + "\n";
      assert conversation == before + Segment(msg);
      assert turns[..i + 1] == turns[..i] + [msg];
      TranscriptSnoc(turns[..i], msg);
    }
    assert turns[..|turns|] == turns;
  }

  /** Appending a message appends its segment to the transcript. */
  lemma TranscriptSnoc(msgs: seq<Message>, m: Message)
    ensures Transcript(msgs + [m]) == Transcript(msgs) + Segment(m)
  {
    assert (msgs + [m])[..|msgs|] == msgs;
  }

  /** Transcripts of consecutive message runs concatenate. */
  lemma {:induction false} TranscriptAppend(a: seq<Message>, b: seq<Message>)
    ensures Transcript(a + b) == Transcript(a) + Transcript(b)
  {
    if |b| == 0 {
      assert a + b == a;
    } else {
      var b', m := b[..|b| - 1], b[|b| - 1];
      assert b == b' + [m];
      assert a + b == (a + b') + [m];
      calc {
        Transcript(a + b);
        { TranscriptSnoc(a + b', m); }
        Transcript(a + b') + Segment(m);
        { TranscriptAppend(a, b'); }
        Transcript(a) + Transcript(b') + Segment(m);
        { TranscriptSnoc(b', m); }
        Transcript(a) + Transcript(b);
      }
    }
  }

  /** The transcript is the segments joined with nothing between them. */
  lemma {:induction false} TranscriptIsConcatenation(msgs: seq<Message>)
    ensures Transcript(msgs) == Join(Segments(msgs), "")
  {
    if |msgs| > 1 {
      var init := msgs[..|msgs| - 1];
      TranscriptIsConcatenation(init);
      assert Segments(msgs) == Segments(init) + [Segment(msgs[|msgs| - 1])];
      JoinSnoc(Segments(init), "", Segment(msgs[|msgs| - 1]));
    } else if |msgs| == 1 {
      assert msgs[..0] == [];
    }
  }

  /** The last message (the current question) never shows in the transcript. */
  lemma LastMessageIgnored(earlier: seq<Message>, last: Message, last': Message)
    ensures Transcript(PrecedingTurns(earlier + [last])) == Transcript(earlier)
    ensures Transcript(PrecedingTurns(earlier + [last])) == Transcript(PrecedingTurns(earlier + [last']))
  {
  }

  /** The transcript is empty exactly when the history has at most one message. */
  lemma TranscriptEmptyIff(history: seq<Message>)
    ensures Transcript(PrecedingTurns(history)) == "" <==> |history| <= 1
  {
  }

  /**
   * Prefix property: once the history is non-empty, a further message only extends
   * the transcript, by the segment of the message that used to be last.
   */
  lemma TranscriptGrowsByOneSegment(history: seq<Message>, next: Message)
    requires |history| > 0
    ensures Transcript(PrecedingTurns(history + [next]))
         == Transcript(PrecedingTurns(history)) + Segment(history[|history| - 1])
  {
  }

  // ---------------------------------------------------------------------------
  // Context
  // ---------------------------------------------------------------------------

  /** The context: the retrieved chunk contents in retrieval order, separated by a blank line. */
  function Context(docs: seq<string>): string
  {
    Join(docs, ContextSeparator)
  }

  /** No chunks give an empty context; a single chunk is the context, unchanged. */
  lemma ContextOfFewChunks(docs: seq<string>)
    ensures |docs| == 0 ==> Context(docs) == ""
    ensures |docs| == 1 ==> Context(docs) == docs[0]
  {
  }

  /**
   * Each retrieved chunk appears verbatim in the context, at its place in retrieval
   * order, followed by a blank line unless it is the last.
   */
  lemma ContextKeepsChunksInOrder(docs: seq<string>, i: nat)
    requires i < |docs|
    ensures Offset(docs, ContextSeparator, i) + |docs[i]| <= |Context(docs)|
    ensures Context(docs)[Offset(docs, ContextSeparator, i)..Offset(docs, ContextSeparator, i) + |docs[i]|] == docs[i]
    ensures i + 1 < |docs| ==>
      Offset(docs, ContextSeparator, i) + |docs[i]| + 2 <= |Context(docs)| &&
      Context(docs)[Offset(docs, ContextSeparator, i) + |docs[i]|..Offset(docs, ContextSeparator, i) + |docs[i]| + 2] == "\n\n"
    ensures |Context(docs)| == TotalLength(docs) + 2 * (|docs| - 1)
  {
    JoinPartAt(docs, ContextSeparator, i);
    if i + 1 < |docs| {
      JoinSeparatorAfter(docs, ContextSeparator, i);
    }
    JoinLength(docs, ContextSeparator);
  }

  // ---------------------------------------------------------------------------
  // Prompt template
  // ---------------------------------------------------------------------------

  /** A prompt template, already split into literal text and `{name}` placeholders. */
  datatype Piece = Lit(text: string) | Slot(name: string)

  /** Every placeholder of the template has a value. */
  predicate Bound(template: seq<Piece>, values: map<string, string>)
  {
    forall i :: 0 <= i < |template| && template[i].Slot? ==> template[i].name in values
  }

  /**
   * `PromptTemplate.format`: literals are copied and each placeholder is replaced
   * by its value, verbatim. A placeholder without a value is a KeyError (None).
   */
  function Format(template: seq<Piece>, values: map<string, string>): (r: Option<string>)
    ensures r.Some? <==> Bound(template, values)
  {
    if |template| == 0 then Some("")
    else
      var head := match template[0]
        case Lit(text) => Some(text)
        case Slot(name) => if name in values then Some(values[name]) else None;
      var tail := Format(template[1..], values);
      if head.None? || tail.None? then None else Some(head.value + tail.value)
  }

  const Preamble: string :=
    "\nYou are a helpful assistant that answers questions using the PDF context\n"
    + "and the previous conversation. if the context is not sufficient to give \n"
    + "answers then simply response i do not know based on the given context\n"
    + "\nConversation History:\n"
  const AfterHistory: string := "\n\nContext:\n"
  const AfterContext: string := "\n\nCurrent Question:\n"
  const AfterQuestion: string := "\n\nAnswer:\n"

  /** The question-answering template, with placeholders history, context and question. */
  const QaTemplate: seq<Piece> := [
    Lit(Preamble), Slot("history"), Lit(AfterHistory), Slot("context"),
    Lit(AfterContext), Slot("question"), Lit(AfterQuestion)
  ]

  /** The question-answering template filled with the transcript, the context and the question. */
  function RenderPrompt(history: string, context: string, question: string): (prompt: string)
    ensures Format(QaTemplate, map["history" := history, "context" := context, "question" := question]) == Some(prompt)
  {
    FillQaTemplate(history, context, question);
    Preamble + history + AfterHistory + context + AfterContext + question + AfterQuestion
  }

  /** Filling the template piece by piece, from the last piece back to the first. */
  lemma FillQaTemplate(history: string, context: string, question: string)
    ensures Format(QaTemplate, map["history" := history, "context" := context, "question" := question])
         == Some(Preamble + history + AfterHistory + context + AfterContext + question + AfterQuestion)
  {
    var v := map["history" := history, "context" := context, "question" := question];
    var t := QaTemplate;
    var s6 := AfterQuestion;
    var s5 := question + s6;
    var s4 := AfterContext + s5;
    var s3 := context + s4;
    var s2 := AfterHistory + s3;
    var s1 := history + s2;
    assert t[6..][1..] == t[7..] && t[5..][1..] == t[6..] && t[4..][1..] == t[5..];
    assert t[3..][1..] == t[4..] && t[2..][1..] == t[3..] && t[1..][1..] == t[2..];
    assert Format(t[7..], v) == Some("");
    assert s6 + "" == s6;
    assert Format(t[6..], v) == Some(s6);
    assert Format(t[5..], v) == Some(s5);
    assert Format(t[4..], v) == Some(s4);
    assert Format(t[3..], v) == Some(s3);
    assert Format(t[2..], v) == Some(s2);
    assert Format(t[1..], v) == Some(s1);
    assert Format(t, v) == Some(Preamble + s1);
    assert Preamble + s1 == Preamble + history + AfterHistory + context + AfterContext + question + AfterQuestion;
  }

  /**
   * The three values stand in the prompt verbatim, in the order transcript, context,
   * question, each directly after its heading, and the prompt ends with the answer cue.
   */
  lemma PromptLayout(history: string, context: string, question: string)
    ensures var p := RenderPrompt(history, context, question);
      var h := |Preamble|;
      var c := h + |history| + |AfterHistory|;
      var q := c + |context| + |AfterContext|;
      && |p| == q + |question| + |AfterQuestion|
      && p[..h] == Preamble
      && p[h..h + |history|] == history
      && p[h + |history|..c] == AfterHistory
      && p[c..c + |context|] == context
      && p[c + |context|..q] == AfterContext
      && p[q..q + |question|] == question
      && p[q + |question|..] == AfterQuestion
  {
  }

  // ---------------------------------------------------------------------------
  // Answering
  // ---------------------------------------------------------------------------

  /** The prompt sent to the model for a question, a history and the retrieved chunks. */
  function QaPrompt(query: string, history: seq<Message>, docs: seq<string>): string
  {
    RenderPrompt(Transcript(PrecedingTurns(history)), Context(docs), query)
  }

  /** What `answer_question` returns: the model's completion of that prompt. */
  function QaAnswer(query: string, history: seq<Message>,
                    retrieve: (string, nat, real) -> seq<string>, llm: string -> string): string
  {
    llm(QaPrompt(query, history, retrieve(query, MmrK, MmrLambda)))
  }

  /**
   * `answer_question`: retrieves chunks for the query, joins them into the context,
   * renders the history, fills the template and returns the model's completion unchanged.
   */
  method AnswerQuestion(query: string, history: seq<Message>,
                        retrieve: (string, nat, real) -> seq<string>, llm: string -> string)
    returns (answer: string)
    ensures answer == llm(QaPrompt(query, history, retrieve(query, MmrK, MmrLambda)))
  {
    var docs := retrieve(query, MmrK, MmrLambda);
    var context := Join(docs, ContextSeparator);
    var conversationHistory := FormatHistory(history);
    answer := llm(RenderPrompt(conversationHistory, context, query));
  }
}
