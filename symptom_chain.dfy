/**
 * The extraction engine: fill the prompt with the transcript and the format
 * instructions, ask the language model, parse its reply, and on a parse failure
 * make exactly one repair round before giving up. Also the decoding of the
 * model server's HTTP response body into the reply text.
 *
 * The language model, the output parser and the parser's format instructions
 * are collaborators whose code is not part of this model; they are given as a
 * `Backend` value and nothing is assumed about what they return.
 */
module SymptomChain {
  import opened Wrappers
  import opened Text
  import opened Schemas
  import opened PyJson

  /** The model name stamped on every report (the default of the `MODEL_NAME` setting). */
  const ModelName: string := "llama3"

  /** What one call of the language model gives: its text, or an exception. */
  datatype LlmReply = Reply(text: string) | Raised

  /**
   * The external collaborators: the language model, the schema-driven output
   * parser (`None` when it raises) and the format instructions that parser
   * publishes. The model is a function of the prompt; one extraction never sends
   * the same prompt twice (the primary prompt starts with a newline, the repair
   * prompt with "The previous"), and each message brings its own backend, so
   * this fixes nothing the service relies on.
   */
  datatype Backend = Backend(
    llm: string -> LlmReply,
    parse: string -> Option<StructuredReport>,
    formatInstructions: string)

  /** Why an extraction raised: a model call raised, or the reply to the repair prompt did not parse. */
  datatype ExtractionError = BackendRaised | RepairParseFailed

  /** One extraction: the prompts sent to the model, in order, and the outcome. */
  datatype Attempt = Attempt(prompts: seq<string>, outcome: Result<StructuredReport, ExtractionError>)

  const PromptHead: string :=
    "\nYou are a concise medical triage assistant. Ask short, relevant clinical questions to gather symptom details.\n"
    + "Do not provide a definitive diagnosis. At the end produce ONLY valid JSON that matches the schema instructions below.\n\n"

  const RepairHead: string :=
    "The previous output did not match the required JSON schema. "
    + "Please output ONLY the JSON matching the format below and nothing else:\n\n"

  /** The primary prompt: the fixed instructions, the format instructions, then the whole conversation. */
  function PrimaryPrompt(chatHistory: string, formatInstructions: string): (p: string)
    ensures Contains(p, formatInstructions) && Contains(p, chatHistory)
  {
    ContainsSecondAndFourth(PromptHead, formatInstructions, "\n\nConversation so far:\n", chatHistory, "\n");
    PromptHead + formatInstructions + "\n\nConversation so far:\n" + chatHistory + "\n"
  }

  /** The repair prompt: the format instructions again, and the previous reply verbatim. */
  function RepairPrompt(formatInstructions: string, previous: string): (p: string)
    ensures Contains(p, formatInstructions) && Contains(p, previous)
  {
    ContainsSecondAndFourth(RepairHead, formatInstructions, "\n\nPrevious output:\n", previous, "\n\n");
    RepairHead + formatInstructions + "\n\nPrevious output:\n" + previous + "\n\n"
  }

  /** The parsed report with `collected_at` set to `now` and `model_version` to the model name; nothing else changes. */
  function Stamp(parsed: StructuredReport, now: string): (r: StructuredReport)
    ensures r.collectedAt == Some(now) && r.modelVersion == Some(ModelName)
    ensures r.(collectedAt := parsed.collectedAt, modelVersion := parsed.modelVersion) == parsed
  {
    parsed.(collectedAt := Some(now), modelVersion := Some(ModelName))
  }

  function Last(prompts: seq<string>): string
    requires |prompts| > 0
  {
    prompts[|prompts| - 1]
  }

  /**
   * The extraction protocol. The model is asked once with the primary prompt;
   * only when that reply arrives and fails to parse is it asked a second time,
   * with the repair prompt built from that reply, and never a third time. The
   * extraction succeeds exactly when the last reply arrives and parses, and then
   * yields that parse, stamped.
   */
  function Extraction(chatHistory: string, b: Backend, now: string): (a: Attempt)
    ensures 1 <= |a.prompts| <= 2
    ensures a.prompts[0] == PrimaryPrompt(chatHistory, b.formatInstructions)
    ensures |a.prompts| == 2
        <==> b.llm(a.prompts[0]).Reply? && b.parse(b.llm(a.prompts[0]).text).None?
    ensures |a.prompts| == 2
        ==> a.prompts[1] == RepairPrompt(b.formatInstructions, b.llm(a.prompts[0]).text)
    ensures a.outcome.Success?
        <==> b.llm(Last(a.prompts)).Reply? && b.parse(b.llm(Last(a.prompts)).text).Some?
    ensures a.outcome.Success?
        ==> a.outcome.value == Stamp(b.parse(b.llm(Last(a.prompts)).text).value, now)
    ensures a.outcome.Failure?
        ==> (a.outcome.error == BackendRaised <==> b.llm(Last(a.prompts)).Raised?)
  {
    var primary := PrimaryPrompt(chatHistory, b.formatInstructions);
    match b.llm(primary)
    case Raised => Attempt([primary], Failure(BackendRaised))
    case Reply(raw) =>
      match b.parse(raw)
      case Some(parsed) => Attempt([primary], Success(Stamp(parsed, now)))
      case None =>
        var repair := RepairPrompt(b.formatInstructions, raw);
        match b.llm(repair)
        case Raised => Attempt([primary, repair], Failure(BackendRaised))
        case Reply(raw2) =>
          match b.parse(raw2)
          case Some(parsed) => Attempt([primary, repair], Success(Stamp(parsed, now)))
          case None => Attempt([primary, repair], Failure(RepairParseFailed))
  }

  /**
   * `run_extraction` step by step; `prompts` records what was sent to the model.
   * It raises (here: returns `Failure`) exactly when the extraction protocol does.
   */
  method RunExtraction(chatHistory: string, b: Backend, now: string)
    returns (result: Result<StructuredReport, ExtractionError>, ghost prompts: seq<string>)
    ensures result == Extraction(chatHistory, b, now).outcome
    ensures prompts == Extraction(chatHistory, b, now).prompts
  {
    var formatInstructions := b.formatInstructions;
    var filledPrompt := PrimaryPrompt(chatHistory, formatInstructions);
    prompts := [filledPrompt];
    var raw := b.llm(filledPrompt);
    if raw.Raised? {
      result := Failure(BackendRaised);
      return;
    }
    var parsed := b.parse(raw.text);
    if parsed.None? {
      var repairPrompt := RepairPrompt(formatInstructions, raw.text);
      prompts := prompts + [repairPrompt];
      var raw2 := b.llm(repairPrompt);
      if raw2.Raised? {
        result := Failure(BackendRaised);
        return;
      }
      parsed := b.parse(raw2.text);
      if parsed.None? {
        result := Failure(RepairParseFailed);
        return;
      }
    }
    result := Success(Stamp(parsed.value, now));
  }

  /** A model whose first reply parses is called once, and the result is that parse, stamped. */
  lemma FirstReplyParses(chatHistory: string, b: Backend, now: string, raw: string, parsed: StructuredReport)
    requires b.llm(PrimaryPrompt(chatHistory, b.formatInstructions)) == Reply(raw)
    requires b.parse(raw) == Some(parsed)
    ensures Extraction(chatHistory, b, now)
         == Attempt([PrimaryPrompt(chatHistory, b.formatInstructions)], Success(Stamp(parsed, now)))
  {
  }

  /** Malformed output once, then a parsable reply to the repair prompt: the extraction succeeds with the repaired report. */
  lemma RepairRecovers(chatHistory: string, b: Backend, now: string, raw: string, raw2: string, parsed: StructuredReport)
    requires b.llm(PrimaryPrompt(chatHistory, b.formatInstructions)) == Reply(raw)
    requires b.parse(raw) == None
    requires b.llm(RepairPrompt(b.formatInstructions, raw)) == Reply(raw2)
    requires b.parse(raw2) == Some(parsed)
    ensures Extraction(chatHistory, b, now).outcome == Success(Stamp(parsed, now))
    ensures |Extraction(chatHistory, b, now).prompts| == 2
  {
  }

  /** Malformed output twice in a row: the extraction fails after exactly two calls. */
  lemma RepairFails(chatHistory: string, b: Backend, now: string, raw: string, raw2: string)
    requires b.llm(PrimaryPrompt(chatHistory, b.formatInstructions)) == Reply(raw)
    requires b.parse(raw) == None
    requires b.llm(RepairPrompt(b.formatInstructions, raw)) == Reply(raw2)
    requires b.parse(raw2) == None
    ensures Extraction(chatHistory, b, now).outcome == Failure(RepairParseFailed)
    ensures |Extraction(chatHistory, b, now).prompts| == 2
  {
  }

  // ----- Decoding the model server's HTTP response body -----

  /** The Python exceptions the decoding can raise. */
  datatype PyError = TypeError | AttributeError | KeyError

  /** What the decoding gives back: a value, or an exception. */
  datatype Decoded = Returned(value: Json) | Raises(error: PyError)

  /** `chunk.get("content", "")` for a chunk that is a dict. */
  function ContentOf(chunk: Json): Json
    requires chunk.JObj?
  {
    Get(chunk.fields, "content").GetOr(JStr(""))
  }

  /**
   * `"".join(str(chunk.get("content", "")) for chunk in chunks)`, consumed from
   * the front; `None` when some chunk is not a dict (`.get` raises).
   */
  function JoinedContents(chunks: seq<Json>): (r: Option<string>)
    ensures r.Some? <==> forall k :: 0 <= k < |chunks| ==> chunks[k].JObj?
  {
    if |chunks| == 0 then Some("")
    else if !chunks[0].JObj? then None
    else
      match JoinedContents(chunks[1..])
      case None => None
      case Some(rest) => Some(PyStr(ContentOf(chunks[0])) + rest)
  }

  /** `first.get("message", {}).get("content", "")` */
  function MessageContent(first: Json): (r: Decoded)
    ensures r.Raises? ==> r.error == AttributeError
    ensures first.JObj? && !HasKey(first.fields, "message") ==> r == Returned(JStr(""))
  {
    if !first.JObj? then Raises(AttributeError)
    else
      var message := Get(first.fields, "message").GetOr(JObj([]));
      if !message.JObj? then Raises(AttributeError)
      else Returned(Get(message.fields, "content").GetOr(JStr("")))
  }

  /**
   * The body of `_call_ollama_http` after `resp.json()`: the reply text taken
   * from `output` when present, else from the first of `choices`, else the
   * serialised body.
   */
  function DecodeResponse(data: Json): (r: Decoded)
    ensures r.Returned? && !r.value.JStr? ==>
      data.JObj? && !HasKey(data.fields, "output") && HasKey(data.fields, "choices")
    ensures data.JObj? && r.Raises? ==> HasKey(data.fields, "output") || HasKey(data.fields, "choices")
  {
    match data
    case JObj(fields) =>
      if HasKey(fields, "output") then
        var output := Get(fields, "output").value;
        if output.JArr? && |output.items| > 0 then
          match JoinedContents(output.items)
          case Some(text) => Returned(JStr(text))
          case None => Raises(AttributeError)
        else Returned(JStr(PyStr(output)))
      else if HasKey(fields, "choices") then
        match Get(fields, "choices").value
        case JArr(items) =>
          if |items| > 0 then MessageContent(items[0]) else Returned(JStr(Dumps(data)))
        case JStr(s) =>
          // the first element of a string is a string, which has no `.get`
          if |s| > 0 then Raises(AttributeError) else Returned(JStr(Dumps(data)))
        case JObj(entries) =>
          // indexing a dict with 0 finds no string key
          if |entries| > 0 then Raises(KeyError) else Returned(JStr(Dumps(data)))
        case _ =>
          // `len` of a number, a boolean or None
          Raises(TypeError)
      else Returned(JStr(Dumps(data)))
    case JArr(items) =>
      // `"output" in data` is element membership; indexing a list by a string raises
      if JStr("output") in items || JStr("choices") in items then Raises(TypeError)
      else Returned(JStr(Dumps(data)))
    case JStr(s) =>
      // `"output" in data` is a substring test; indexing a str by a string raises
      if Contains(s, "output") || Contains(s, "choices") then Raises(TypeError)
      else Returned(JStr(Dumps(data)))
    case _ =>
      // `in` on a number, a boolean or None
      Raises(TypeError)
  }

  /** The chunk contents, each rendered by `str()`, in order. */
  function ChunkTexts(chunks: seq<Json>): (texts: seq<string>)
    requires forall k :: 0 <= k < |chunks| ==> chunks[k].JObj?
    ensures |texts| == |chunks|
  {
    seq(|chunks|, k requires 0 <= k < |chunks| => PyStr(ContentOf(chunks[k])))
  }

  lemma {:induction false} JoinedContentsMeaning(chunks: seq<Json>)
    ensures JoinedContents(chunks).Some? <==> forall k :: 0 <= k < |chunks| ==> chunks[k].JObj?
    ensures JoinedContents(chunks).Some? ==> JoinedContents(chunks).value == Join(ChunkTexts(chunks), "")
  {
    if |chunks| > 0 {
      JoinedContentsMeaning(chunks[1..]);
      if forall k :: 0 <= k < |chunks| ==> chunks[k].JObj? {
        var tail := ChunkTexts(chunks[1..]);
        assert ChunkTexts(chunks) == [PyStr(ContentOf(chunks[0]))] + tail;
        if |tail| == 0 {
          assert Join(ChunkTexts(chunks), "") == PyStr(ContentOf(chunks[0]));
        } else {
          assert ChunkTexts(chunks)[1..] == tail;
        }
      } else {
        var k :| 0 <= k < |chunks| && !chunks[k].JObj?;
        if k > 0 {
          assert !chunks[1..][k - 1].JObj?;
        }
      }
    }
  }

  /**
   * A non-empty list under "output": the concatenated `str()` of each chunk's
   * "content" ("" when a chunk has none); a chunk that is not a dict raises.
   */
  lemma OutputChunks(fields: seq<(string, Json)>, chunks: seq<Json>)
    requires Get(fields, "output") == Some(JArr(chunks)) && |chunks| > 0
    ensures (forall k :: 0 <= k < |chunks| ==> chunks[k].JObj?)
        ==> DecodeResponse(JObj(fields)) == Returned(JStr(Join(ChunkTexts(chunks), "")))
    ensures (exists k :: 0 <= k < |chunks| && !chunks[k].JObj?)
        ==> DecodeResponse(JObj(fields)) == Raises(AttributeError)
  {
    JoinedContentsMeaning(chunks);
  }

  /** Any other "output" is returned as `str(output)`; a string output is returned unchanged. */
  lemma OutputOther(fields: seq<(string, Json)>, output: Json)
    requires Get(fields, "output") == Some(output)
    requires !(output.JArr? && |output.items| > 0)
    ensures DecodeResponse(JObj(fields)) == Returned(JStr(PyStr(output)))
    ensures output.JStr? ==> DecodeResponse(JObj(fields)) == Returned(output)
  {
  }

  /** When "output" is present, nothing else in the body matters. */
  lemma OutputTakesPrecedence(fields: seq<(string, Json)>, others: seq<(string, Json)>)
    requires HasKey(fields, "output")
    requires Get(others, "output") == Get(fields, "output")
    ensures DecodeResponse(JObj(others)) == DecodeResponse(JObj(fields))
  {
  }

  /**
   * No "output" and a non-empty list under "choices": the first choice's
   * message content, or "" when the message or its content is missing.
   */
  lemma FirstChoice(fields: seq<(string, Json)>, choices: seq<Json>, first: seq<(string, Json)>)
    requires !HasKey(fields, "output")
    requires Get(fields, "choices") == Some(JArr(choices)) && |choices| > 0
    requires choices[0] == JObj(first)
    ensures !HasKey(first, "message") ==> DecodeResponse(JObj(fields)) == Returned(JStr(""))
    ensures forall m :: (Get(first, "message") == Some(JObj(m))
        ==> DecodeResponse(JObj(fields)) == Returned(Get(m, "content").GetOr(JStr(""))))
  {
  }

  /**
   * With no "output" and no non-empty "choices" (the key missing, or holding an
   * empty list, string or dict) the body is serialised, and the serialisation is
   * printable ASCII.
   */
  lemma Fallback(fields: seq<(string, Json)>)
    requires !HasKey(fields, "output")
    requires || Get(fields, "choices") == None
             || Get(fields, "choices") == Some(JArr([]))
             || Get(fields, "choices") == Some(JStr(""))
             || Get(fields, "choices") == Some(JObj([]))
    ensures DecodeResponse(JObj(fields)) == Returned(JStr(Dumps(JObj(fields))))
    ensures PrintableAscii(Dumps(JObj(fields)))
  {
    DumpsPrintable(JObj(fields));
  }
}
