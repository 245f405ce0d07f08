# Smart Study Buddy — a Dafny model of the explanation gateway

Smart Study Buddy asks a remote text-generation service (OpenAI or
Anthropic) to explain a topic to a given audience. The part with
behaviour of its own is small:

- the **prompt builder** (`src/prompts.py`) turns a topic, an audience and
  an optional tone and length into one multi-line user prompt, next to the
  audience, tone and length catalogs;
- the **explanation gateway** (`SmartStudyBuddy` in `src/study_buddy.py`)
  resolves audience shorthand through the catalog, builds the prompt, asks
  the provider client for an explanation (blocking or streamed) and keeps
  an in-memory conversation history with one record per `explain` call.

The model has four modules:

| file | module | models |
|---|---|---|
| `wrappers.dfy` | `Wrappers` | `Option`, `Result`, and Python truthiness of an optional string (`Given`) |
| `prompts.dfy` | `Prompts` | the catalogs, `create_user_prompt` as a list of parts joined by newlines, and its properties |
| `ai_client.dfy` | `AiClient` | provider selection and model choice at construction; generation as an oracle whose answer or failure is unknown |
| `study_buddy.dfy` | `StudyBuddy` | audience resolution, the history records, and the class `SmartStudyBuddy` with `Explain`, `BatchExplain`, `GetHistory` and `ClearHistory` |

`create_user_prompt` is modelled the way the source builds it: a list of
parts (topic, audience, the tone and length lines only when given, the
instruction) joined with `"\n"` (`Prompts.PromptParts`, `Prompts.Join`).
`Prompts.PromptLayout` proves it equal to an independent, flat
description: header, optional tone line, optional length line, trailer.
An optional field is given exactly when Python's `if tone:` accepts it:
present and not the empty string.

The gateway is a class whose `conversationHistory` field is a sequence the
methods reassign. `Explain` appends the record first and, on the blocking
path only, replaces the last record by one carrying the explanation, as the
source does. The provider client is an oracle: `Client.GenerateExplanation`
promises nothing about the text it returns, and when it fails the error
names its provider. A streamed call returns a `PendingStream`, the
generator the source hands back unconsumed.

`create_user_prompt` embeds the audience verbatim
(`Prompts.AudienceKeyVerbatim`). An audience key is replaced by its label
in `explain` (`StudyBuddy.ResolveAudience`), so a prompt carries the label
only when it is built through the gateway (`StudyBuddy.KnownAudiencePrompt`).

## Model

| member | source | states |
|---|---|---|
| `Prompts.CatalogSizes` | smart-study-buddy/smart-study-buddy/src/prompts.py:98-113 | the audience catalog has 8 keys, among them "child" and "expert"; there are 4 distinct tones and 3 distinct lengths |
| `Prompts.CreateUserPrompt` | smart-study-buddy/smart-study-buddy/src/prompts.py:66-94 | every prompt starts with "Topic: " + topic and ends with the instruction line (a newline, then the fixed instruction) |
| `Prompts.PromptParts` | smart-study-buddy/smart-study-buddy/src/prompts.py:80-92 | the parts are topic, audience, [tone], [length], instruction in that order; their number is three plus the number of given (truthy) fields |
| `Prompts.AppendIf` | smart-study-buddy/smart-study-buddy/src/prompts.py:86-90 | a conditional append keeps the earlier parts and adds exactly one part, the field's line, when the field is truthy, and none otherwise |
| `Prompts.JoinEnds` | smart-study-buddy/smart-study-buddy/src/prompts.py:94 | a newline join of a non-empty list starts with its first part and ends with its last part |
| `Prompts.JoinSnoc` | smart-study-buddy/smart-study-buddy/src/prompts.py:94 | joining a list with one more part appended adds the separator and that part at the end |
| `Prompts.JoinHeader` | smart-study-buddy/smart-study-buddy/src/prompts.py:81-84 | the two initial parts join to the topic line, a newline, and the audience line |
| `Prompts.JoinOptional` | smart-study-buddy/smart-study-buddy/src/prompts.py:86-90 | a conditional append adds a newline and the field's line when the field is truthy, and nothing otherwise |
| `Prompts.PromptLayout` | smart-study-buddy/smart-study-buddy/src/prompts.py:81-94 | the prompt equals header, optional tone line, optional length line and trailer, concatenated; an absent or empty field leaves no text behind |
| `Prompts.PromptStartsWithHeader` | smart-study-buddy/smart-study-buddy/src/prompts.py:81-84 | every prompt starts with "Topic: " + topic + "\nAudience: " + audience |
| `Prompts.PromptEndsWithInstruction` | smart-study-buddy/smart-study-buddy/src/prompts.py:92-94 | every prompt ends with a blank line and the fixed instruction |
| `Prompts.PromptMentionsHeader` | smart-study-buddy/smart-study-buddy/tests/test_study_buddy.py:33-41 | the topic, the audience and "\nAudience: " + audience occur in every prompt |
| `Prompts.PromptMentionsTone` | smart-study-buddy/smart-study-buddy/src/prompts.py:86-87 | a given tone occurs in the prompt, and so does its whole line "Tone: " + tone |
| `Prompts.PromptMentionsLength` | smart-study-buddy/smart-study-buddy/src/prompts.py:89-90 | a given length occurs in the prompt, and so does its whole line "Length: " + length |
| `Prompts.PromptMentionsFields` | smart-study-buddy/smart-study-buddy/tests/test_study_buddy.py:18-41 | topic, audience and every given tone and length occur in the prompt, for all inputs |
| `Prompts.ToneLineIffGiven` | smart-study-buddy/smart-study-buddy/src/prompts.py:86-87 | some part is a "Tone: " line if and only if the tone is present and non-empty |
| `Prompts.LengthLineIffGiven` | smart-study-buddy/smart-study-buddy/src/prompts.py:89-90 | some part is a "Length: " line if and only if the length is present and non-empty |
| `Prompts.AudienceKeyVerbatim` | smart-study-buddy/smart-study-buddy/src/prompts.py:83 | for a catalog key, the audience line is "Audience: " + key and not "Audience: " + its label, and "\nAudience: " + key occurs in the prompt |
| `AiClient.Lower` | smart-study-buddy/smart-study-buddy/src/ai_client.py:25 | lower-casing keeps the length and lower-cases each character in place |
| `AiClient.LowerIdempotent` | smart-study-buddy/smart-study-buddy/src/ai_client.py:25 | lower-casing an already lower-cased name changes nothing |
| `AiClient.ParseProvider` | smart-study-buddy/smart-study-buddy/src/ai_client.py:25-35 | OpenAI is selected exactly when the lower-cased name is "openai", Anthropic exactly when it is "anthropic", and no provider otherwise |
| `AiClient.ParseProviderCaseInsensitive` | smart-study-buddy/smart-study-buddy/src/ai_client.py:25-35 | provider names match regardless of letter case: a name and its lower-cased form select the same provider |
| `AiClient.UnsupportedProvider` | smart-study-buddy/smart-study-buddy/src/ai_client.py:30-35 | "cohere" selects no provider, "OpenAI" selects OpenAI |
| `AiClient.Client.constructor` | smart-study-buddy/smart-study-buddy/src/ai_client.py:17-35 | the client uses the named provider, and the given model when truthy, else DEFAULT_MODEL from the environment, else "gpt-4o" |
| `AiClient.Client.GenerateExplanation` | smart-study-buddy/smart-study-buddy/src/ai_client.py:61-113 | any text may come back; a failure is re-raised tagged with this client's provider |
| `StudyBuddy.LabelsAreNotKeys` | smart-study-buddy/smart-study-buddy/src/prompts.py:98-107 | no audience label is itself an audience key |
| `StudyBuddy.ResolveAudience` | smart-study-buddy/smart-study-buddy/src/study_buddy.py:47 | the resolved audience is never a catalog key, and it equals the input exactly when the input is not a key |
| `StudyBuddy.ResolveAudienceSpec` | smart-study-buddy/smart-study-buddy/src/study_buddy.py:47 | a known key becomes its label (which differs from the key), any other string is kept; the result is never a key, so resolving twice equals resolving once |
| `StudyBuddy.LoggedRecord` | smart-study-buddy/smart-study-buddy/src/study_buddy.py:47-59 | a logged record keeps topic, tone and length, carries the resolved audience, and its prompt starts with the header for that resolved audience |
| `StudyBuddy.KnownAudiencePrompt` | smart-study-buddy/smart-study-buddy/src/study_buddy.py:47-50 | explaining to a known key with no tone or length logs the header with the key's label followed by the trailer |
| `StudyBuddy.UnknownAudienceWithTone` | smart-study-buddy/smart-study-buddy/src/study_buddy.py:47-50 | explaining to an unknown audience with a tone and no length logs the audience verbatim, a tone line and no length line |
| `StudyBuddy.Collected` | smart-study-buddy/smart-study-buddy/src/study_buddy.py:118-122 | the batch result's keys are exactly the topics of the records it was filled from |
| `StudyBuddy.CollectedReplyKinds` | smart-study-buddy/smart-study-buddy/src/study_buddy.py:118-122 | when every record carries an explanation exactly if the calls were blocking, every entry of the result is a text reply when blocking and a stream when streaming |
| `StudyBuddy.CollectedLastWins` | smart-study-buddy/smart-study-buddy/src/study_buddy.py:120-121 | for a repeated topic the result holds the reply of its last occurrence |
| `StudyBuddy.CollectedSnoc` | smart-study-buddy/smart-study-buddy/src/study_buddy.py:121 | explaining one more topic overwrites (or adds) that topic's entry and keeps the rest |
| `StudyBuddy.BatchKeys` | smart-study-buddy/smart-study-buddy/src/study_buddy.py:118-122 | records made one per topic, in list order, give a result keyed by exactly the set of topics |
| `StudyBuddy.LogsBatchSnoc` | smart-study-buddy/smart-study-buddy/src/study_buddy.py:120-121 | logging the call for the next topic extends the batch log by one record in list order |
| `StudyBuddy.BatchStep` | smart-study-buddy/smart-study-buddy/src/study_buddy.py:119-121 | one loop step of a batch keeps the earlier history, extends the batch log by the next topic's record, updates the result for that topic, and keeps every batch record explained exactly when not streaming |
| `StudyBuddy.SmartStudyBuddy.constructor` | smart-study-buddy/smart-study-buddy/src/study_buddy.py:13-23 | a new buddy uses the named provider and has an empty history; its client's model is the given one when truthy, else DEFAULT_MODEL from the environment, else "gpt-4o" |
| `StudyBuddy.SmartStudyBuddy.Explain` | smart-study-buddy/smart-study-buddy/src/study_buddy.py:25-67 | the history grows by exactly one record at the end and earlier records are unchanged; the record holds the inputs, the resolved audience and the built prompt; a blocking success returns the generated text and stores it as the newest record's explanation; a streamed call returns the pending stream, and a streamed call or a failed generation leaves the record without explanation (`Explained`); a failure names the client's provider |
| `StudyBuddy.SmartStudyBuddy.BatchExplain` | smart-study-buddy/smart-study-buddy/src/study_buddy.py:106-122 | topics are explained in list order and earlier records stay; on success the history grows by the number of topics, the result's keys are the set of topics and each entry is the reply of that topic's last occurrence; when streaming every new record has no explanation and every entry is a stream, and when blocking every new record has an explanation and every entry is text; a failure happens only when blocking, stops after logging the failing topic's record, which has no explanation, names the client's provider, and leaves every earlier record of the batch with its explanation |
| `StudyBuddy.SmartStudyBuddy.GetHistory` | smart-study-buddy/smart-study-buddy/src/study_buddy.py:124-126 | returns the records in insertion order |
| `StudyBuddy.SmartStudyBuddy.ClearHistory` | smart-study-buddy/smart-study-buddy/src/study_buddy.py:128-131 | the history is empty afterwards, whatever it held, so a second call keeps it empty |

## Left out

- The network calls of both providers, their SDKs, the API-key checks and the environment reads of MAX_TOKENS and TEMPERATURE (`src/ai_client.py`): I/O and floating point. Generation is an oracle whose text and failure are arbitrary.
- AiClient.Client.constructor: an unsupported provider name, for which the source raises ValueError, is a precondition of the constructor rather than an error result.
- StudyBuddy.SmartStudyBuddy.constructor: the same precondition on the provider name; the ValueError path is not modelled.
- AiClient.Lower: lower-cases ASCII letters only; Python's `str.lower` also folds other Unicode letters.
- AiClient.Client.StreamExplanation: only names the request the stream will make (`PendingStream`: provider, system prompt, user prompt). The chunks it yields, their laziness and failure, and the promise that they concatenate to a blocking answer are not modelled, because they depend on the remote service.
- The text of the system prompt: `Prompts.SystemPrompt` is a constant whose value is not given.
- StudyBuddy.SmartStudyBuddy.GetHistory: returns a snapshot; the source returns the list itself, so callers can mutate the history through it (aliasing of the list and of its record dictionaries is not modelled).
- `explain_interactive`, `quick_explain`, `explain_for_child` and `explain_for_expert` (`src/study_buddy.py:69-158`): console interaction and construction of real clients.
- The progress line printed by `batch_explain` and the message printed by `clear_history`: console output.
- StudyBuddy.Collected: the result is a map, so the first-insertion order of the Python dictionary (a repeated topic keeps its first position) is not modelled; no caller in the repository depends on that order.
- `**kwargs` of `batch_explain` are modelled as the tone, length and stream parameters of `explain`; other keywords would raise in Python and are not modelled.
- Front ends (`cli.py`, `web_app.py`, `api_server.py`, `demo.py`, `run_examples.py`), `shared/system_prompt.py` and `src/__init__.py`: presentation, HTTP plumbing, constants and re-exports.
- Concurrent use of one buddy from several requests (the server's shared instance cache): concurrency.
