/**
  The question-answering entry points: `call_llm`, which guards on the API key
  and turns a failed completion into a diagnostic text, and `answer_question`,
  which retrieves chunks, builds the prompt, asks the model once and returns
  the three results together.  The retriever and the completion endpoint are
  collaborators fixed when a `Services` object is made; the object keeps the
  log of the calls made to them.
 */
module Agent {
  import opened Wrappers
  import opened Text
  import opened Context
  import opened Dedent
  import opened Prompt

  /** What one completion request comes back with: the reply text, or the exception raised (its class name and message). */
  datatype Completion = Reply(content: string) | Raised(kind: string, detail: string)

  /** A call made to a collaborator. */
  datatype Call =
    | RetrieveCall(question: string, k: int, allowedDocTypes: Option<seq<string>>)
    | CompleteCall(prompt: string)

  /** The three values `answer_question` returns: `answer`, `chunks` and `prompt_used`. */
  datatype Answer = Answer(answer: string, chunks: seq<Chunk>, promptUsed: string)

  /** The default number of chunks to retrieve. */
  const DefaultK := 6

  /** The message of the error raised when no API key is configured. */
  const MissingKeyMessage := "Environment variable OPENAI_API_KEY is not set.\nSet it before running the notebook."

  const FailureMarker := "LLM CALL FAILED: "
  const PreviewMarker := "\n\n--- PROMPT PREVIEW ---\n\n"

  /** `if not api_key`: an unset variable and an empty one are both refused. */
  predicate KeyMissing(apiKey: Option<string>)
  {
    apiKey.None? || apiKey.value == ""
  }

  /** The diagnostic text returned in place of an answer when the completion raised. */
  function FailureReport(kind: string, detail: string, prompt: string): (r: string)
    ensures IsPrefix(FailureMarker, r) && IsSuffix(prompt, r)
  {
    var head := FailureMarker + kind + ": " + detail + PreviewMarker;
    assert (head + prompt)[..|FailureMarker|] == FailureMarker;
    assert (head + prompt)[|head|..] == prompt;
    head + prompt
  }

  /** The text `call_llm` hands back once the key check has passed. */
  function ReplyText(c: Completion, prompt: string): string
  {
    match c
    case Reply(content) => content
    case Raised(kind, detail) => FailureReport(kind, detail, prompt)
  }

  /** `call_llm(prompt)` against a given completion endpoint: the missing key is an error, everything else a text. */
  function CallLlmSpec(apiKey: Option<string>, complete: string -> Completion, prompt: string): (r: Result<string, string>)
    ensures r.Failure? <==> KeyMissing(apiKey)
    ensures r.Failure? ==> r.error == MissingKeyMessage
  {
    if KeyMissing(apiKey) then Failure(MissingKeyMessage) else Success(ReplyText(complete(prompt), prompt))
  }

  /** The result of `answer_question` once the chunks are retrieved and the prompt is built. */
  function Assemble(apiKey: Option<string>, complete: string -> Completion, chunks: seq<Chunk>, prompt: string)
    : (r: Result<Answer, string>)
    ensures r.Failure? <==> KeyMissing(apiKey)
    ensures r.Failure? ==> r.error == MissingKeyMessage
    ensures r.Success? ==> r.value.chunks == chunks && r.value.promptUsed == prompt
  {
    match CallLlmSpec(apiKey, complete, prompt)
    case Success(answer) => Success(Answer(answer, chunks, prompt))
    case Failure(e) => Failure(e)
  }

  /** `answer_question(question, k, allowed_doc_types)` as a value; the error raised by `call_llm` propagates. */
  function AnswerSpec(apiKey: Option<string>, retrieve: (string, int, Option<seq<string>>) -> seq<Chunk>,
                      complete: string -> Completion,
                      question: string, k: int, allowedDocTypes: Option<seq<string>>): (r: Result<Answer, string>)
    ensures r.Failure? <==> KeyMissing(apiKey)
    ensures r.Failure? ==> r.error == MissingKeyMessage
    ensures r.Success? ==> r.value.chunks == retrieve(question, k, allowedDocTypes)
    ensures r.Success? ==> r.value.promptUsed == BuildPrompt(question, retrieve(question, k, allowedDocTypes))
  {
    var chunks := retrieve(question, k, allowedDocTypes);
    Assemble(apiKey, complete, chunks, BuildPrompt(question, chunks))
  }

  /** The calls made for one question once its prompt is known. */
  function CallsFor(apiKey: Option<string>, question: string, k: int, allowedDocTypes: Option<seq<string>>,
                    prompt: string): seq<Call>
  {
    [RetrieveCall(question, k, allowedDocTypes)] + (if KeyMissing(apiKey) then [] else [CompleteCall(prompt)])
  }

  /** The calls `answer_question` makes: one retrieval, then one completion unless the key is missing. */
  function AnswerCalls(apiKey: Option<string>, retrieve: (string, int, Option<seq<string>>) -> seq<Chunk>,
                       question: string, k: int, allowedDocTypes: Option<seq<string>>): seq<Call>
  {
    CallsFor(apiKey, question, k, allowedDocTypes, BuildPrompt(question, retrieve(question, k, allowedDocTypes)))
  }

  /** The collaborators of the pipeline and the log of the calls made to them. */
  class Services {
    const retrieve: (string, int, Option<seq<string>>) -> seq<Chunk>
    const complete: string -> Completion
    var calls: seq<Call>

    constructor (retrieve: (string, int, Option<seq<string>>) -> seq<Chunk>, complete: string -> Completion)
      ensures this.retrieve == retrieve && this.complete == complete && calls == []
    {
      this.retrieve := retrieve;
      this.complete := complete;
      calls := [];
    }

    /** `retrieve_chunks(question, k=k, allowed_doc_types=...)`. */
    method Retrieve(question: string, k: int, allowedDocTypes: Option<seq<string>>) returns (chunks: seq<Chunk>)
      modifies this
      ensures chunks == retrieve(question, k, allowedDocTypes)
      ensures calls == old(calls) + [RetrieveCall(question, k, allowedDocTypes)]
    {
      chunks := retrieve(question, k, allowedDocTypes);
      calls := calls + [RetrieveCall(question, k, allowedDocTypes)];
    }

    /** One request to the completion endpoint. */
    method Complete(prompt: string) returns (c: Completion)
      modifies this
      ensures c == complete(prompt)
      ensures calls == old(calls) + [CompleteCall(prompt)]
    {
      c := complete(prompt);
      calls := calls + [CompleteCall(prompt)];
    }

    /** `call_llm(prompt)`: refuses before any request when the key is missing. */
    method CallLlm(apiKey: Option<string>, prompt: string) returns (r: Result<string, string>)
      modifies this
      ensures r == CallLlmSpec(apiKey, complete, prompt)
      ensures calls == old(calls) + (if KeyMissing(apiKey) then [] else [CompleteCall(prompt)])
    {
      if apiKey.None? || apiKey.value == "" {
        return Failure(MissingKeyMessage);
      }
      var c := Complete(prompt);
      match c {
        case Reply(content) =>
          r := Success(content);
        case Raised(kind, detail) =>
          r := Success(FailureReport(kind, detail, prompt));
      }
    }

    /** `answer_question`: retrieve, build the prompt, call the model, return all three. */
    method AnswerQuestion(apiKey: Option<string>, question: string, k: int := DefaultK,
                          allowedDocTypes: Option<seq<string>> := None)
      returns (r: Result<Answer, string>)
      modifies this
      ensures r == AnswerSpec(apiKey, retrieve, complete, question, k, allowedDocTypes)
      ensures calls == old(calls) + AnswerCalls(apiKey, retrieve, question, k, allowedDocTypes)
    {
      var chunks := Retrieve(question, k, allowedDocTypes);
      r := Ask(apiKey, question, chunks);
      AnswerSpecUnfolds(apiKey, retrieve, complete, question, k, allowedDocTypes, chunks);
    }

    /** The tail of `answer_question`: the prompt from the retrieved chunks, then the model call. */
    method Ask(apiKey: Option<string>, question: string, chunks: seq<Chunk>) returns (r: Result<Answer, string>)
      modifies this
      ensures r == Assemble(apiKey, complete, chunks, BuildPrompt(question, chunks))
      ensures calls == old(calls) + (if KeyMissing(apiKey) then [] else [CompleteCall(BuildPrompt(question, chunks))])
    {
      var prompt := BuildPrompt(question, chunks);
      var answer := CallLlm(apiKey, prompt);
      r := if answer.Success? then Success(Answer(answer.value, chunks, prompt)) else Failure(answer.error);
    }
  }

  lemma AnswerSpecUnfolds(apiKey: Option<string>, retrieve: (string, int, Option<seq<string>>) -> seq<Chunk>,
                          complete: string -> Completion,
                          question: string, k: int, allowedDocTypes: Option<seq<string>>, chunks: seq<Chunk>)
    requires chunks == retrieve(question, k, allowedDocTypes)
    ensures AnswerSpec(apiKey, retrieve, complete, question, k, allowedDocTypes)
      == Assemble(apiKey, complete, chunks, BuildPrompt(question, chunks))
    ensures AnswerCalls(apiKey, retrieve, question, k, allowedDocTypes)
      == [RetrieveCall(question, k, allowedDocTypes)]
         + (if KeyMissing(apiKey) then [] else [CompleteCall(BuildPrompt(question, chunks))])
  {
  }

  /** With no usable key nothing is asked of the model: the error comes back after the single retrieval. */
  lemma MissingKeyRefused(apiKey: Option<string>, retrieve: (string, int, Option<seq<string>>) -> seq<Chunk>,
                          complete: string -> Completion,
                          question: string, k: int, allowedDocTypes: Option<seq<string>>)
    requires KeyMissing(apiKey)
    ensures AnswerSpec(apiKey, retrieve, complete, question, k, allowedDocTypes) == Failure(MissingKeyMessage)
    ensures AnswerCalls(apiKey, retrieve, question, k, allowedDocTypes) == [RetrieveCall(question, k, allowedDocTypes)]
  {
  }

  /**
    With a key, the retriever and the model are each called once, the chunks
    are the retriever's result unchanged, the prompt is the one built from
    them, and the answer is what the model's reply makes of that prompt.
   */
  lemma AnswerContract(apiKey: Option<string>, retrieve: (string, int, Option<seq<string>>) -> seq<Chunk>,
                       complete: string -> Completion,
                       question: string, k: int, allowedDocTypes: Option<seq<string>>)
    requires !KeyMissing(apiKey)
    ensures var chunks := retrieve(question, k, allowedDocTypes);
      var prompt := BuildPrompt(question, chunks);
      && AnswerSpec(apiKey, retrieve, complete, question, k, allowedDocTypes)
         == Success(Answer(ReplyText(complete(prompt), prompt), chunks, prompt))
      && AnswerCalls(apiKey, retrieve, question, k, allowedDocTypes)
         == [RetrieveCall(question, k, allowedDocTypes), CompleteCall(prompt)]
  {
    var chunks := retrieve(question, k, allowedDocTypes);
    AssembleWithKey(apiKey, complete, chunks, BuildPrompt(question, chunks));
    CallsWithKey(apiKey, question, k, allowedDocTypes, BuildPrompt(question, chunks));
  }

  lemma AssembleWithKey(apiKey: Option<string>, complete: string -> Completion, chunks: seq<Chunk>, prompt: string)
    requires !KeyMissing(apiKey)
    ensures Assemble(apiKey, complete, chunks, prompt) == Success(Answer(ReplyText(complete(prompt), prompt), chunks, prompt))
  {
  }

  lemma CallsWithKey(apiKey: Option<string>, question: string, k: int, allowedDocTypes: Option<seq<string>>,
                     prompt: string)
    requires !KeyMissing(apiKey)
    ensures CallsFor(apiKey, question, k, allowedDocTypes, prompt) == [RetrieveCall(question, k, allowedDocTypes), CompleteCall(prompt)]
  {
  }

  /** A reply is passed on untouched; a raised completion yields the report, which ends with the whole prompt. */
  lemma ReplyTextCases(c: Completion, prompt: string)
    ensures c.Reply? ==> ReplyText(c, prompt) == c.content
    ensures c.Raised? ==> IsPrefix(FailureMarker, ReplyText(c, prompt)) && IsSuffix(prompt, ReplyText(c, prompt))
  {
  }

  /**
    The prompt actually sent opens with the role line, closes with the last
    output instruction and carries the fallback sentence, whatever was
    retrieved; when the model fails, the answer ends with that same closing line.
   */
  lemma PromptUsedShape(apiKey: Option<string>, retrieve: (string, int, Option<seq<string>>) -> seq<Chunk>,
                        complete: string -> Completion,
                        question: string, k: int, allowedDocTypes: Option<seq<string>>)
    requires !KeyMissing(apiKey)
    ensures var r := AnswerSpec(apiKey, retrieve, complete, question, k, allowedDocTypes);
      && r.Success?
      && IsPrefix(RoleLine, r.value.promptUsed) && IsSuffix(ChunkListItem, r.value.promptUsed)
      && Contains(r.value.promptUsed, FallbackLine)
      && (complete(r.value.promptUsed).Raised? ==>
            IsPrefix(FailureMarker, r.value.answer) && IsSuffix(ChunkListItem, r.value.answer))
  {
    var chunks := retrieve(question, k, allowedDocTypes);
    var prompt := BuildPrompt(question, chunks);
    AnswerContract(apiKey, retrieve, complete, question, k, allowedDocTypes);
    PromptFrame(question, chunks);
    FallbackInPrompt(question, chunks);
    var c := complete(prompt);
    if c.Raised? {
      var report := FailureReport(c.kind, c.detail, prompt);
      SuffixTransitive(ChunkListItem, prompt, report);
    }
  }

  /**
    When nothing is retrieved for a one-line question, the prompt sent is the
    template with its four-space margin removed and the context left empty.
   */
  lemma NothingRetrieved(apiKey: Option<string>, retrieve: (string, int, Option<seq<string>>) -> seq<Chunk>,
                         complete: string -> Completion,
                         question: string, k: int, allowedDocTypes: Option<seq<string>>)
    requires !KeyMissing(apiKey) && retrieve(question, k, allowedDocTypes) == [] && '\n' !in question
    ensures var r := AnswerSpec(apiKey, retrieve, complete, question, k, allowedDocTypes);
      && r.Success? && r.value.chunks == []
      && r.value.promptUsed == Layout("", if HasText(question) then question else "", "")
  {
    AnswerContract(apiKey, retrieve, complete, question, k, allowedDocTypes);
    PromptWithoutContext(question);
  }
}
