/** The answer generator (llm_agent.py). The language model is a reply oracle: the text
    fragments it produces, in order, and whether it raises after them. The prompt
    template's `format(context=..., question=...)` is the function `render`. */
module LlmAgent {
  import opened Base
  import opened Text

  /** The single fragment `stream_answer` yields in place of raising. */
  const Sentinel: string := "An error occurred while generating the answer."

  datatype GenerationError = ModelFailed

  /** The model's behaviour for one call: it emits `fragments`, then raises if `fails`. */
  datatype Reply = Reply(fragments: seq<string>, fails: bool)

  /** One document as it appears in the context. */
  function Entry(d: Document): string
  {
    "Document " + TitleOr(d, "unknown") + ":\n" + d.pageContent
  }

  function Entries(docs: seq<Document>): seq<string>
  {
    seq(|docs|, i requires 0 <= i < |docs| => Entry(docs[i]))
  }

  /** The context string, built the same way by both `generate_answer` and `stream_answer`. */
  function Context(docs: seq<Document>): string
  {
    Join("\n\n", Entries(docs))
  }

  /** The context of a single document is that document's entry. */
  lemma ContextSingle(d: Document)
    ensures Context([d]) == Entry(d)
  {
  }

  /** The context follows docs order: splitting the documents splits the context at one
      blank-line separator. */
  lemma ContextAppend(a: seq<Document>, b: seq<Document>)
    requires |a| > 0 && |b| > 0
    ensures Context(a + b) == Context(a) + "\n\n" + Context(b)
  {
    assert Entries(a + b) == Entries(a) + Entries(b);
    JoinAppend("\n\n", Entries(a), Entries(b));
  }

  /** What `chain.invoke` returns or raises. */
  function Invoked(reply: Reply): Result<string, GenerationError>
  {
    if reply.fails then Err(ModelFailed) else Ok(Concat(reply.fragments))
  }

  /** Everything `stream_answer` yields: the model's fragments unchanged and in order, then
      exactly one sentinel if the model raised. */
  function Streamed(reply: Reply): seq<string>
  {
    reply.fragments + (if reply.fails then [Sentinel] else [])
  }

  /** For the same model behaviour, a successful stream concatenates to exactly what the
      blocking call returns; a failed stream concatenates to the partial output followed
      by the sentinel, where the blocking call raises. */
  lemma StreamAgreesWithInvoke(reply: Reply)
    ensures !reply.fails ==> Invoked(reply) == Ok(Concat(Streamed(reply)))
    ensures reply.fails ==> Invoked(reply).Err? && Concat(Streamed(reply)) == Concat(reply.fragments) + Sentinel
  {
    if reply.fails {
      ConcatAppend(reply.fragments, [Sentinel]);
      assert Concat([Sentinel]) == Sentinel;
    } else {
      assert Streamed(reply) == reply.fragments;
    }
  }

  class LLMAgent {
    const render: (string, string) -> string
    var lastPrompt: Option<string>

    constructor (render: (string, string) -> string)
      ensures this.render == render && lastPrompt == None
    {
      this.render := render;
      lastPrompt := None;
    }

    /** `last_prompt` is assigned before the model is invoked, so a failed invocation still
        leaves it updated; the failure is re-raised. */
    method GenerateAnswer(question: string, docs: seq<Document>, reply: Reply)
      returns (r: Result<string, GenerationError>)
      modifies this
      ensures lastPrompt == Some(render(Context(docs), question))
      ensures r == Invoked(reply)
    {
      var context := Context(docs);
      lastPrompt := Some(render(context, question));
      if reply.fails {
        return Err(ModelFailed);
      }
      r := Ok(Concat(reply.fragments));
    }

    /** The generator body, run to exhaustion: returns the fragments in the order they are
        yielded. It never raises. */
    method StreamAnswer(question: string, docs: seq<Document>, reply: Reply)
      returns (yielded: seq<string>)
      modifies this
      ensures lastPrompt == Some(render(Context(docs), question))
      ensures yielded == Streamed(reply)
    {
      var context := Context(docs);
      lastPrompt := Some(render(context, question));
      yielded := [];
      for i := 0 to |reply.fragments|
        invariant yielded == reply.fragments[..i]
      {
        yielded := yielded + [reply.fragments[i]];
      }
      if reply.fails {
        yielded := yielded + [Sentinel];
      }
    }
  }
}
