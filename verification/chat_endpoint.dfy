/** The backend `/chat` handler of chat.py: request validation, system
    prompt assembly from the matched knowledge entry, and the shape of the
    JSON reply. The language-model call is a parameter of the handler. */
module ChatEndpoint {
  import opened Wrappers
  import opened Text
  import opened Knowledge

  /** The fixed instructions every model call starts with. */
  const BasePrompt: string :=
    "You are BCA Expert, a specialized AI assistant for the Building Code of Australia (National Construction Code - NCC 2022). \n"
    + "\n"
    + "Your role is to provide accurate, helpful information about Australian building codes, regulations, and construction standards. Always:\n"
    + "\n"
    + "1. Base your responses on the NCC 2022 and related Australian Standards\n"
    + "2. Provide specific section references when possible\n"
    + "3. Explain technical concepts in clear, professional language\n"
    + "4. Mention compliance pathways (deemed-to-satisfy vs alternative solutions)\n"
    + "5. Include relevant building classifications when applicable\n"
    + "6. Suggest consulting with building professionals for complex matters\n"
    + "\n"
    + "If you don't have specific information about a query, acknowledge this and suggest where the user might find authoritative information."

  const MissingMessage: string := "Message is required"

  /** The opening of the context block: the entry's summary, then the
      sources heading. */
  function ContextHeader(content: string): string
  {
    "\nRelevant BCA Information:\n" + content + "\n\nSources:\n"
  }

  /** One citation line of the context block. */
  function SourceLine(s: Source): string
  {
    "- " + s.section + ": " + s.title + " - " + s.excerpt + "\n"
  }

  /** The citation lines of `ss`, one per source, in list order. */
  function SourceLines(ss: seq<Source>): string
  {
    if ss == [] then "" else SourceLine(ss[0]) + SourceLines(ss[1..])
  }

  /** Where the line of source `i` starts within `SourceLines(ss)`. */
  function LineOffset(ss: seq<Source>, i: nat): nat
    requires i <= |ss|
  {
    |SourceLines(ss[..i])|
  }

  /** Appending one source appends exactly its line. */
  lemma {:induction false} SourceLinesSnoc(ss: seq<Source>, s: Source)
    ensures SourceLines(ss + [s]) == SourceLines(ss) + SourceLine(s)
  {
    if ss == [] {
      assert [s][1..] == [];
    } else {
      assert (ss + [s])[1..] == ss[1..] + [s];
      SourceLinesSnoc(ss[1..], s);
    }
  }

  /** The lines of a list are the lines of any split of it, concatenated. */
  lemma {:induction false} SourceLinesSplit(ss: seq<Source>, i: nat)
    requires i <= |ss|
    ensures SourceLines(ss) == SourceLines(ss[..i]) + SourceLines(ss[i..])
  {
    if i == 0 {
      assert ss[..0] == [] && ss[0..] == ss;
    } else {
      assert ss[..i][1..] == ss[1..][..i - 1];
      assert ss[i..] == ss[1..][i - 1..];
      SourceLinesSplit(ss[1..], i - 1);
    }
  }

  /** Every source contributes its own line, at its own position, in list
      order: line `i` starts where lines `0 .. i-1` end. */
  lemma SourceLineAt(ss: seq<Source>, i: nat)
    requires i < |ss|
    ensures LineOffset(ss, i) + |SourceLine(ss[i])| == LineOffset(ss, i + 1)
    ensures LineOffset(ss, i + 1) <= |SourceLines(ss)|
    ensures SourceLines(ss)[LineOffset(ss, i)..LineOffset(ss, i + 1)] == SourceLine(ss[i])
  {
    assert ss[..i + 1] == ss[..i] + [ss[i]];
    SourceLinesSnoc(ss[..i], ss[i]);
    SourceLinesSplit(ss, i + 1);
  }

  /** The system prompt handed to the model: the base instructions alone
      when nothing matched, otherwise followed by the matched entry's
      context block. */
  function SystemPrompt(k: Option<Entry>): (r: string)
    ensures k == None ==> r == BasePrompt
    ensures k.Some? ==> |r| > |BasePrompt| && r[..|BasePrompt|] == BasePrompt
    ensures k.Some? ==> r[|BasePrompt|..] == ContextHeader(k.value.content) + SourceLines(k.value.sources)
  {
    match k
    case None => BasePrompt
    case Some(e) => BasePrompt + ContextHeader(e.content) + SourceLines(e.sources)
  }

  /** The prompt assembly as the handler performs it: start from the base
      prompt and, when knowledge was found, grow the context block one
      source line at a time before appending it. */
  method BuildSystemPrompt(k: Option<Entry>) returns (prompt: string)
    ensures prompt == SystemPrompt(k)
  {
    prompt := BasePrompt;
    if k.Some? {
      var sources := k.value.sources;
      var context := ContextHeader(k.value.content);
      var i := 0;
      while i < |sources|
        invariant 0 <= i <= |sources|
        invariant context == ContextHeader(k.value.content) + SourceLines(sources[..i])
      {
        assert sources[..i + 1] == sources[..i] + [sources[i]];
        SourceLinesSnoc(sources[..i], sources[i]);
        context := context + SourceLine(sources[i]);
        i := i + 1;
      }
      assert sources[..i] == sources;
      prompt := prompt + context;
    }
  }

  /** The two arguments the handler passes to the language model. */
  datatype ModelCall = ModelCall(systemPrompt: string, userMessage: string)

  /** The HTTP reply: an error with its status code, or the success body
      (its `timestamp` field is a clock value and not modelled). */
  datatype Reply =
    | Rejected(status: int, error: string)
    | Answered(response: string, sources: seq<Source>)

  /** What one request produced: the reply, and the model call made on the
      way, if any. */
  datatype Handled = Handled(reply: Reply, modelCall: Option<ModelCall>)

  /** The `/chat` handler. `message` is the request's `message` field,
      `None` when it is missing or null; `model` stands for the language
      model call. An empty or missing message is refused with status 400
      before any lookup or model call; otherwise the model is called once
      with the assembled prompt and the untouched message, its answer is
      returned verbatim, and the citations are those of the matched entry. */
  function HandleChat(message: Option<string>, model: (string, string) -> string): (h: Handled)
    ensures h.reply.Rejected? <==> message == None || message == Some("")
    ensures h.reply.Rejected? ==> h.reply == Rejected(400, MissingMessage) && h.modelCall == None
    ensures h.reply.Answered? ==>
      && h.modelCall == Some(ModelCall(SystemPrompt(GetRelevantKnowledge(message.value)), message.value))
      && h.reply.response == model(h.modelCall.value.systemPrompt, message.value)
      && h.reply.sources == SourcesOf(GetRelevantKnowledge(message.value))
  {
    match message
    case None => Handled(Rejected(400, MissingMessage), None)
    case Some(m) =>
      if m == "" then
        Handled(Rejected(400, MissingMessage), None)
      else
        var knowledge := GetRelevantKnowledge(m);
        var call := ModelCall(SystemPrompt(knowledge), m);
        Handled(Answered(model(call.systemPrompt, call.userMessage), SourcesOf(knowledge)), Some(call))
  }

  /** The citations returned are the matched entry's own list, in order, or
      nothing when no keyword matched. */
  lemma ReplySources(m: string, model: (string, string) -> string)
    requires m != ""
    ensures Classify(m) == None ==> HandleChat(Some(m), model).reply.sources == []
    ensures Classify(m).Some? ==>
      HandleChat(Some(m), model).reply.sources == EntryFor(Classify(m).value).sources
  {
  }

  /** Citation line `i` can be read back from any text that ends with the
      citation lines, at the offset the earlier lines leave. */
  lemma LineAfterPrefix(pre: string, ss: seq<Source>, i: nat)
    requires i < |ss|
    ensures LineOffset(ss, i) <= LineOffset(ss, i + 1)
    ensures |pre| + LineOffset(ss, i + 1) <= |pre + SourceLines(ss)|
    ensures (pre + SourceLines(ss))[|pre| + LineOffset(ss, i)..|pre| + LineOffset(ss, i + 1)]
         == SourceLine(ss[i])
  {
    SourceLineAt(ss, i);
    var lines := SourceLines(ss);
    var a := LineOffset(ss, i);
    var b := LineOffset(ss, i + 1);
    assert (pre + lines)[|pre| + a..|pre| + b] == lines[a..b];
  }

  /** With a match, the model sees the base instructions, then the entry's
      summary, then every citation of the entry as its own line, in list
      order: citation `i` sits right after citations `0 .. i-1`. */
  lemma PromptCarriesEveryCitation(e: Entry, i: nat)
    requires i < |e.sources|
    ensures var pre := BasePrompt + ContextHeader(e.content);
      && SystemPrompt(Some(e)) == pre + SourceLines(e.sources)
      && LineOffset(e.sources, i) <= LineOffset(e.sources, i + 1)
      && |pre| + LineOffset(e.sources, i + 1) <= |SystemPrompt(Some(e))|
      && SystemPrompt(Some(e))[|pre| + LineOffset(e.sources, i)..|pre| + LineOffset(e.sources, i + 1)]
         == SourceLine(e.sources[i])
  {
    LineAfterPrefix(BasePrompt + ContextHeader(e.content), e.sources, i);
  }

  /** The backend validates only emptiness: a message of spaces is not
      refused and reaches the model. */
  lemma WhitespaceMessageIsAnswered(model: (string, string) -> string)
    ensures HandleChat(Some("   "), model).reply.Answered?
    ensures HandleChat(Some("   "), model).modelCall == Some(ModelCall(BasePrompt, "   "))
  {
    var q := "   ";
    assert Lower(q) == q;
    forall t: Topic
      ensures !Mentions(t, q)
    {
      forall j | 0 <= j < |Keywords(t)|
        ensures !IsSubstring(Keywords(t)[j], q)
      {
        FirstCharAbsent(Keywords(t)[j], q);
      }
    }
  }
}
