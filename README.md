# Symptom-session triage pipeline, modelled in Dafny

This project models the core of a symptom-collection service. A patient holds a
short conversation with a bot. When the patient sends a closing phrase, a
language model turns the transcript into a structured clinical report. A fixed
red-flag scan then overrides the report's urgency whenever an urgent phrase
appears.

The model has three parts, one per source file of the core:

- **Red-flag detector** (`utils.dfy`, module `Utils`). It scans the symptom
  names and the answers of dictionary evidence snippets for five urgent
  phrases. The match is a case-insensitive substring test. `HasRedFlag` states
  the detector's meaning as an existential over the report's lists.
  `DetectRedFlags` is the nested scan with loops, and it is proved equal to
  `HasRedFlag`.
- **Extraction engine** (`symptom_chain.dfy`, module `SymptomChain`). It fills
  the prompt, calls the model, and parses the reply. If the parse fails, it
  makes one repair round and then gives up. On success it stamps the
  collection time and the model version. `Extraction` states the protocol and
  `RunExtraction` runs it step by step. The module also decodes the model
  server's HTTP response body (`DecodeResponse`).
- **Session state machine** (`api_routes.dfy`, module `ApiRoutes`). The class
  `SessionStore` holds the session map and has `StartSession` and `Message`.
  `MessageStep` is the pure transition of one session. `HandleMessage` carries
  it out step by step, and `Message` is proved against it. `SafetyOverlay` is the red-flag override. The class invariant
  says two things: a session is completed exactly when it stores a report, and
  every stored report obeys the overlay.

Supporting modules:

- `Schemas` holds the report and symptom records. The pipeline passes the
  parsed model output around as a dictionary, so every field is an `Option`
  and `None` means the key is absent.
- `PyJson` holds the JSON value type with Python's `json.dumps` and `str()`.
- `Text` holds `str.lower()`, `str.strip()` and the substring test `in`.
- `Wrappers` holds `Option` and `Result`.

External collaborators are passed in as parameters:

- The language model is a function from prompt to reply, or to a raised
  exception. One extraction never sends the same prompt twice (the primary
  prompt starts with a newline, the repair prompt with "The previous"), and
  each message brings its own backend, so a repeated prompt getting the same
  answer constrains nothing the service relies on.
- The output parser is a function from text to an optional report. Nothing is
  assumed about what it accepts.
- The parser's format instructions are an opaque string.
- The session id generator and the clock are plain parameters.

In one place the service's evident intent and its code differ, and the model
follows the code. A completed session is meant to be final, with a second
closing phrase returning the stored report. The code never reads the status, so
a second closing phrase runs the extraction again and replaces the stored report
(`CompletedSessionIsFinalisedAgain`).

Two further facts about the code, which the model keeps:

- A failed extraction still leaves the patient turn in the history, because the
  append happens before the extraction.
- The finalisation trigger is list membership of the trimmed, lower-cased
  message, so it is an exact match, not a substring test.

## Model

| member | source | states |
|---|---|---|
| `Text.Lower` | niva/app/utils.py:16 | the lower-cased text differs from the original only in letter case, character by character, and contains no capital letter |
| `Text.LowerIdempotent` | niva/app/utils.py:16 | lower-casing an already lower-cased text changes nothing |
| `Text.SameUpToCaseIffSameLower` | niva/app/utils.py:16 | two texts lower-case to the same text exactly when they differ only in letter case |
| `Text.Contains` | niva/app/utils.py:18 | `needle in hay` holds when the needle occurs at some index of the hay; it needs a needle no longer than the hay, and the empty needle is in every text |
| `Text.Strip` | niva/app/api_routes.py:60 | `strip()` yields a slice of the text with no whitespace at either end, and everything cut off is whitespace |
| `Text.StripPadded` | niva/app/api_routes.py:60 | whitespace added on either side of a text does not change its `strip()` |
| `Utils.RedFlagsAreLowercase` | niva/app/utils.py:4-10 | each of the five urgent phrases is already lower case, so comparing against the lower-cased text is case-insensitive |
| `Utils.HasRedFlag` | niva/app/utils.py:13-25 | the meaning of the detector: some symptom name or dictionary answer contains a phrase; a flagged report has at least one symptom or snippet to scan |
| `Utils.DetectRedFlags` | niva/app/utils.py:13-25 | the nested scan returns true iff some symptom's lower-cased name, or some dictionary snippet's lower-cased answer, contains one of the five phrases; it takes the report by value and changes nothing |
| `Utils.FlaggedBySubstring` | niva/app/utils.py:17-19 | matching is by substring: a phrase with any text before and after it is flagged |
| `Utils.SevereChestPainIsFlagged` | niva/app/utils.py:15-19 | a symptom named "Severe Chest Pain" raises the flag |
| `Utils.CaseInsensitive` | niva/app/utils.py:13-25 | changing only the letter case of names and answers never changes the verdict |
| `Utils.EmptyNotFlagged` | niva/app/utils.py:16-24 | the empty text (a missing name or answer) never matches |
| `Utils.NothingToScan` | niva/app/utils.py:14-25 | missing lists, nameless symptoms, and answerless or non-dictionary snippets give false |
| `Utils.MoreSymptoms` | niva/app/utils.py:14-19 | after appending symptoms the report is flagged iff it was flagged before or some appended name is flagged |
| `Utils.MoreSnippets` | niva/app/utils.py:20-24 | after appending snippets the report is flagged iff it was flagged before or some appended dictionary answer is flagged |
| `Utils.Monotone` | niva/app/utils.py:15-24 | a flagged report stays flagged when symptoms or snippets are appended |
| `Utils.NonDictSnippetsIgnored` | niva/app/utils.py:21 | appending snippets that are not dictionaries never changes the verdict |
| `PyJson.Dumps` | niva/app/symptom_chain.py:101 | `json.dumps` never gives an empty text, and its first character is a double quote, "[" or "{" exactly for a string, a list or an object |
| `PyJson.PyStr` | niva/app/symptom_chain.py:97-98 | `str()` of a string is the string itself; of anything else it is its non-empty `repr`, which starts with "[" or "{" exactly for a list or a dict |
| `PyJson.Repr` | niva/app/symptom_chain.py:97-98 | `repr` of a decoded value is never empty, and it starts with "[" or "{" exactly for a list or a dict |
| `PyJson.Get` | niva/app/symptom_chain.py:95 | a key lookup succeeds exactly when the key is present, and returns a value stored under that key |
| `PyJson.DumpsPrintable` | niva/app/symptom_chain.py:101 | `json.dumps` with its default `ensure_ascii` writes only printable ASCII |
| `SymptomChain.PrimaryPrompt` | niva/app/symptom_chain.py:62-70 | the primary prompt contains the format instructions and the full chat history |
| `SymptomChain.RepairPrompt` | niva/app/symptom_chain.py:122-127 | the repair prompt contains the format instructions and the previous raw output verbatim |
| `SymptomChain.Stamp` | niva/app/symptom_chain.py:131-132 | the stamped report has `collected_at` set to the clock value and `model_version` set to the model name; every other field is unchanged |
| `SymptomChain.Extraction` | niva/app/symptom_chain.py:111-133 | the model is called once or twice and the first prompt is the primary prompt; a second call happens iff the first reply arrived and failed to parse, and it uses the repair prompt built from that reply; success holds iff the last reply arrived and parsed, and the result is that parse, stamped; a raised model call is reported as such |
| `SymptomChain.RunExtraction` | niva/app/symptom_chain.py:111-133 | the step-by-step run sends the same prompts and gives the same outcome as `Extraction` |
| `SymptomChain.FirstReplyParses` | niva/app/symptom_chain.py:117-120 | when the first reply parses, the model is called exactly once, no repair prompt is built, and the result is the stamped parse |
| `SymptomChain.RepairRecovers` | niva/app/symptom_chain.py:119-129 | malformed output, then a parsable reply to the repair prompt: the extraction succeeds with the repaired report after two calls |
| `SymptomChain.RepairFails` | niva/app/symptom_chain.py:119-129 | malformed output twice in a row: the extraction fails after exactly two calls, with no third attempt |
| `SymptomChain.JoinedContents` | niva/app/symptom_chain.py:97 | the join of the chunk contents succeeds exactly when every chunk is a dictionary |
| `SymptomChain.MessageContent` | niva/app/symptom_chain.py:100 | reading the first choice can only raise `AttributeError`, and a choice with no "message" gives "" |
| `SymptomChain.DecodeResponse` | niva/app/symptom_chain.py:95-101 | the decoded reply is a string except on the first-choice path, which passes the content through as it is; a dictionary body raises only on the "output" or "choices" path, never on the `json.dumps` fallback |
| `SymptomChain.JoinedContentsMeaning` | niva/app/symptom_chain.py:97 | the chunk join succeeds iff every chunk is a dictionary, and then equals the concatenation of each chunk's `str(content)` |
| `SymptomChain.OutputChunks` | niva/app/symptom_chain.py:95-97 | a non-empty list under "output" gives the concatenated contents, with "" for a missing content; a non-dictionary chunk raises |
| `SymptomChain.OutputOther` | niva/app/symptom_chain.py:95-98 | any other "output" gives `str(output)`, and a string output is returned unchanged |
| `SymptomChain.OutputTakesPrecedence` | niva/app/symptom_chain.py:95-101 | when "output" is present, no other key of the body affects the result |
| `SymptomChain.FirstChoice` | niva/app/symptom_chain.py:99-100 | with no "output" and a non-empty "choices" list, the result is the first choice's message content, or "" when the message or the content is missing |
| `SymptomChain.Fallback` | niva/app/symptom_chain.py:99-101 | with no "output" key and no non-empty "choices" (the key missing, or holding an empty list, string or dict), the result is the serialised body, and that serialisation is printable ASCII |
| `ApiRoutes.SafetyOverlay` | niva/app/api_routes.py:67-69 | a flagged report gets urgency "emergency" and next action "go-to-emergency" whatever the model said; an unflagged report keeps both; no other field changes; the result always satisfies the overlay |
| `ApiRoutes.OverlayIdempotent` | niva/app/api_routes.py:67-69 | applying the overlay twice gives what applying it once gives, so an override is never reverted |
| `ApiRoutes.Status.Label` | niva/app/api_routes.py:72 | the stored status is one of two fixed strings, "in_progress" (line 42) or "completed", and it is "completed" exactly for a completed session |
| `ApiRoutes.MessageStep` | niva/app/api_routes.py:50-78 | the history first gets the patient turn and is only extended; a completed session stays completed; the record invariant is kept; the call finishes iff the message is a closing phrase and the extraction succeeds, and then the session is completed and stores the overlaid extraction; otherwise status and report are unchanged; after a closing phrase the history is exactly the old one plus the patient turn, whether the extraction succeeds or fails; a failed extraction is answered with its error; a non-closing message gets the fixed question |
| `ApiRoutes.SessionStore.constructor` | niva/app/api_routes.py:27 | the store starts empty |
| `ApiRoutes.SessionStore.StartSession` | niva/app/api_routes.py:35-47 | stores an in-progress session under the given id; its history is the initial text, or the greeting when the initial text is empty; the reply repeats that history; no other entry changes |
| `ApiRoutes.SessionStore.Message` | niva/app/api_routes.py:50-78 | an unknown id gets `NotFound` and the store is unchanged; otherwise only that session changes, by one `MessageStep`, and the store invariant holds |
| `ApiRoutes.HandleMessage` | niva/app/api_routes.py:57-77 | the imperative handling of a found session (append the turn, run the extraction with the retry, scan for red flags and overwrite urgency and next action, or ask the fixed question) yields exactly the session and reply of `MessageStep` |
| `ApiRoutes.ReplayMonotone` | niva/app/api_routes.py:57-77 | over any series of messages the history is only extended, a completed session never goes back to in progress, and the record invariant is kept |
| `ApiRoutes.IsFinalMessage` | niva/app/api_routes.py:60 | a closing message, once trimmed, is 4 to 10 characters long, so no longer sentence can close the session |
| `ApiRoutes.PatientTurn` | niva/app/api_routes.py:57 | the appended turn holds the message verbatim, plus 16 characters of speaker labels |
| `ApiRoutes.FinalIffPhraseUpToCase` | niva/app/api_routes.py:60 | a message closes the session iff its trimmed text equals one of the four phrases up to letter case |
| `ApiRoutes.FinalIgnoresPadding` | niva/app/api_routes.py:60 | whitespace around a message never changes whether it closes the session |
| `ApiRoutes.DoneIsFinal` | niva/app/api_routes.py:60 | "done" closes the session |
| `ApiRoutes.PaddedDoneIsFinal` | niva/app/api_routes.py:60 | "  Done\n" closes the session |
| `ApiRoutes.SentenceWithPhraseIsNotFinal` | niva/app/api_routes.py:60 | "I'm done with breakfast but my cough continues" does not close the session |
| `ApiRoutes.StampedChestPainIsFlagged` | niva/app/utils.py:15-19 | a stamped report whose first symptom is "chest pain and can't breathe" is flagged |
| `ApiRoutes.ChestPainThenDone` | niva/app/api_routes.py:57-73 | "done" after a transcript whose extracted report lists "chest pain and can't breathe" finishes with urgency "emergency" and next action "go-to-emergency" |
| `ApiRoutes.CompletedSessionIsFinalisedAgain` | niva/app/api_routes.py:52-73 | a completed session that receives "done" asks the model again and stores the new overlaid report |

## Left out

- The retriever endpoint and its Pinecone and embedder set-up (niva/app/api_routes.py:84-139) are not part of this model. They are thin wrappers over external services.
- Database wiring, ORM models, application start-up and the ingestion scripts are not part of this model. They are I/O with no stateable behaviour.
- The thread pool and `run_in_executor` are not modelled. `Message` calls the extraction directly, and the per-session serialisation a concurrent server needs is not modelled either.
- The LangChain output parser, its format instructions and the JSON schema that configures it (niva/app/symptom_chain.py:24-59) are not modelled. The parser and the instructions are parameters, and nothing is claimed about what the parser accepts.
- `_llm_predict` chooses between the LangChain Ollama wrapper and the HTTP call. That choice, `requests.post`, `raise_for_status` and the 60-second timeout are not modelled. The model is one function from prompt to reply or exception. `DecodeResponse` covers only the decoding of the response body.
- `uuid4()` and `datetime.utcnow()` are parameters. Whether the id is unique is not modelled. `StartSession` overwrites an existing entry under the same id, as the code does.
- The `MODEL_NAME` environment override is not modelled. `ModelName` is its default, "llama3".
- `confidence_score` is a float and is left out of the report record. JSON numbers are integers only.
- Python's full Unicode `lower()` is not modelled. `Text.LowerChar` maps the ASCII capitals and the Kelvin sign, the only characters that lower to a single ASCII letter, and leaves every other character as it is. U+0130 lowers to "i" followed by a combining dot; that dot never occurs in a red-flag or closing phrase and no phrase ends in "i", so the verdicts are those of the full mapping.
- `PyJson.ReprChar` leaves every non-ASCII character as it is. Python's `repr` escapes the non-printable ones.
- A JSON object is a list of key/value pairs. A repeated key has no Python counterpart, and `Get` reads the first occurrence.
- JSON `null` under `symptoms`, `evidence_snippets`, `name` or `answer` is not modelled, and neither is a symptom entry that is not a dictionary. The source raises on these inputs. The model's fields hold strings, lists or nothing.
- The choices path of the response decoding can return a non-string content as it is. `DecodeResponse` returns that JSON value, but how a non-string reply would reach the parser is not modelled.
- The source stores and returns the parsed dictionary with any keys outside the schema. `StructuredReport` has fixed fields, so such extra keys are dropped in the model.
- HTTP status codes and payload shapes are not modelled. `MessageReply` stands for the 404, the server error raised by a failed extraction, and the two success payloads.
