# Kelly, the analytical poet: a verified model of the reply logic

Kelly is a small chat page that answers every question with a short poem. Behind
the page sit four pieces of logic, all in `app.py`, and this project models
each of them in Dafny and proves what they promise:

- **Extraction** (`extraction.dfy`). `extract_text_from_response` walks
  a generation response: its candidates, each candidate's content, and the
  content's parts. It collects every part text that is a non-empty string, in
  candidate-then-part order. It answers `None` when there is none; otherwise
  it strips the texts, drops the blank ones and joins the rest with newlines.
  The response is a datatype whose levels are all optional. The two loops
  are methods, and they are proved equal to a pure definition of the result.
- **The local poem** (`fallback.dfy`). `local_poem_fallback` unescapes and
  strips the prompt. It deletes the fillers "pipeline of", "Explain" and
  "explain", one single pass each, strips the result again, and falls back to
  "this topic" when nothing is left. It then fills a six-line template, and
  keeps the first four entries of its list of lines when the prompt has at
  most three tokens. A line break inside the prompt stays in the topic line,
  so the joined poem can span more lines than the list has entries.
- **The retry controller** (`reply.dfy`). `kelly_reply` tries the chosen
  model, then the fast model "models/gemini-flash-latest" unless the chosen
  identifier already contains "flash". Each model is tried with three
  paraphrases of the prompt, within a budget of `max_retries` attempts. The
  first attempt that yields text wins. Exceptions and safety blocks back
  off 600 ms and other empty answers 400 ms. When nothing works, the local
  poem is the answer. The remote service is the parameter `remote`:
  `remote(k)` is the outcome of the `k`-th call. Every behaviour of the
  service is some such function, because the requests are fixed by the
  inputs. The nested loops are methods proved equal to a pure description of
  the whole run (`KellyRun`), and the properties are lemmas about that run.
- **The conversation** (`chat.dfy`). A `Session` class holds the history.
  "Ask Kelly" ignores a blank question. Otherwise it appends the question and
  then Kelly's answer, with a note when the answer is the local poem.
  "Clear conversation" empties the history.

`strings.dfy` writes out the Python `str` operations the program relies on:
`isspace`, `strip`, `split()`, `in`, `replace` (including the empty pattern)
and `join`. `wrappers.dfy` holds the `Option` type, and `seqs.dfy` a few
facts about sequences that the loop proofs use.

`replace` does not close up the gap it leaves, so "Explain the pipeline of a
GAN" gives the topic "the  a GAN", with two spaces (`Fallback.GanTopic`).

## Model

| member | source | states |
|---|---|---|
| Extraction.ExtractTextFromResponse | app.py:37-54 | the two loops and the join return exactly `ExtractedText`: `None` when no text was collected, else the newline join of the stripped non-blank texts |
| Extraction.AppendPartTexts | app.py:46-49 | the inner loop appends exactly the non-empty part texts of one candidate, in part order, after what was collected before |
| Extraction.ExtractNoneIff | app.py:42-54 | the result is `None` exactly when no candidate with content has a part whose text is a non-empty string; missing levels contribute nothing |
| Extraction.PartTextsMembers | app.py:46-49 | a text is collected from a candidate's parts exactly when some part carries it as a non-empty string |
| Extraction.CandidateTextsMembers | app.py:43-49 | a text is collected from the candidates exactly when some candidate with content has a part that carries it |
| Extraction.CandidateTextsAppend | app.py:43-49 | collecting from two runs of candidates gives the first run's texts followed by the second's: candidate order is kept |
| Extraction.PartTextsAppend | app.py:46-49 | part order within a candidate is kept the same way |
| Extraction.StrippedNonBlankShape | app.py:53 | every text kept for the join is non-empty and has no white space at either end |
| Extraction.StrippedNonBlankEmptyIff | app.py:53 | nothing is kept for the join exactly when every collected text is white space only |
| Extraction.ExtractAllBlank | app.py:51-53 | when texts were found but all are white space, the result is the empty string, not `None` |
| Extraction.ExtractEmptyIff | app.py:51-53 | a found result is empty exactly when every collected text is white space only |
| Extraction.ExtractedIsStripped | app.py:53 | a found result has no white space at either end, so stripping it again changes nothing |
| Fallback.Topic | app.py:67-70 | the topic is never empty and has no white space at either end |
| Fallback.LocalPoemFallback | app.py:71-82 | the poem begins with the line "In careful lines I study " + topic + "," |
| Fallback.PoemShape | app.py:71-82 | the list of poem lines has 4 entries exactly when the unescaped, stripped prompt has at most 3 tokens and 6 otherwise; the first line is the topic line, the rest are the template lines in order |
| Fallback.BlankPromptPoem | app.py:65-81 | a blank prompt has no tokens and gives the four-line poem about "this topic" |
| Fallback.FallbackNonEmpty | app.py:59-82 | the poem is never empty |
| Fallback.TopicWithoutFillers | app.py:65-70 | a prompt holding none of the fillers keeps its stripped text as the topic |
| Fallback.GanTopic | app.py:67 | "Explain the pipeline of a GAN" gives the topic "the  a GAN": the deletions keep the two spaces around the gap |
| Fallback.GanSanitized | app.py:65-72 | with `unescape` leaving that prompt unchanged, the poem begins with "In careful lines I study the  a GAN," |
| Fallback.FillerFormedByDeletion | app.py:67 | "ExpExplainlain" gives the topic "Explain": a filler formed by a deletion is not deleted again |
| Strings.StripEmptyIff | app.py:189 | a string strips to nothing exactly when it is white space only |
| Strings.SplitEmptyIff | app.py:80 | `split()` finds no token exactly when the string is white space only |
| Strings.RemoveUnchangedIff | app.py:67 | deleting a non-empty filler leaves the text as it was exactly when the filler does not occur in it |
| Strings.ReplaceBySelf | app.py:118 | replacing the prompt by itself leaves any text unchanged, for every prompt, the empty one included |
| Strings.JoinStripped | app.py:53 | joining non-empty stripped texts gives a stripped text |
| Reply.Models | app.py:99-101 | the chosen model comes first; "models/gemini-flash-latest" follows exactly when the chosen identifier does not contain "flash"; no identifier is listed twice |
| Reply.CallBudget | app.py:109-113 | the number of attempts allowed is at most `max_retries` and at most three per model, and equals one of the two (none when `max_retries` is not positive) |
| Reply.PlanOverAt | app.py:109-118 | in model-major order, attempt `3 * mi + pi` asks model `mi` with paraphrase `pi` |
| Reply.TryOutcome | app.py:132-155 | one attempt yields text exactly when the response yields non-empty text, and then the stripped text; otherwise it backs off 600 ms after an exception or finish reason 2, and 400 ms otherwise |
| Reply.Attempt | app.py:114-155 | one attempt makes the next planned call; it either ends the run as `AttemptsRun` describes, or records a failed call and its backoff |
| Reply.RetryLoops | app.py:97-155 | the nested loops, the attempt counter, the `break` and the early return make exactly the calls, backoffs and text of `AttemptsRun` |
| Reply.KellyReply | app.py:87-159 | `kelly_reply` returns exactly the reply, calls and backoffs of `KellyRun` |
| Reply.BackoffsAt | app.py:142-155 | the backoff log has one entry per failed call, in call order |
| Reply.GeminiIff | app.py:138-159 | the reply comes from the model exactly when some call within the budget yields text; otherwise it is the local poem |
| Reply.FirstSuccessWins | app.py:138-140 | the first call within the budget that yields text ends the run: its text is the reply, and no later call is made |
| Reply.AllFail | app.py:109-159 | when no call within the budget yields text, every planned call up to the budget is made, each followed by its backoff, and the reply is the local poem |
| Reply.CallCount | app.py:109-116 | at most the budget of calls is made, exactly the budget when the reply is the local poem, and a backoff follows every call but a successful last one |
| Reply.RunBackoffs | app.py:142-155 | the `i`-th backoff follows the `i`-th call, which failed: 600 ms after an exception or a safety block, 400 ms otherwise |
| Reply.CallsFollowPlan | app.py:99-118 | call `3 * mi + pi` asks model `mi` with the request built from paraphrase `pi` |
| Reply.ReplyNonEmpty | app.py:138-159 | the reply text is never empty |
| Reply.FirstRequestIsBasePrompt | app.py:94-118 | with a positive budget the first call asks the chosen model with the base prompt itself, whatever the prompt |
| Reply.DefaultBudgetAllFail | app.py:87-159 | with the default budget of three and no text, the chosen model is asked three times, once per paraphrase, the fast model is never reached, and the reply is the local poem |
| Reply.TwoErrors | app.py:152-159 | a budget of two on a service that raises twice gives two calls, backoffs [600, 600] and the local poem |
| Reply.GanPromptTwoErrors | app.py:152-159 | the same run on "Explain the pipeline of a GAN" answers with a poem that begins "In careful lines I study the  a GAN," |
| Chat.AssistantContent | app.py:192-195 | the assistant message is the reply text, extended exactly when the reply is the local poem |
| Chat.Answer | app.py:191-194 | the answer recorded is that message for the run of `kelly_reply`, and it is never empty |
| Chat.ExchangesAppend | app.py:189-195 | appending a non-blank question and a non-empty answer keeps the history a run of question-answer exchanges |
| Chat.Session.constructor | app.py:181-182 | a new session starts with an empty history |
| Chat.Session.Clear | app.py:177-178 | "Clear conversation" empties the history |
| Chat.Session.Ask | app.py:188-195 | a blank question leaves the history unchanged; otherwise the question and then the assistant message are appended, and the history stays a run of exchanges |

## Left out

- The page itself: the title, the sidebar widgets, the text area, the display loop and page configuration. These are rendering only.
- Reading the API key and configuring the client at start-up. This is environment I/O.
- The remote generation call. It is the parameter `remote`, one outcome per call. The generation settings (temperature, token limit, top-p) and the safety settings sent with it do not change the control flow.
- `time.sleep`. The model records each backoff in milliseconds in the returned backoff list instead of waiting.
- `html.unescape`. It is a library function, and the model takes it as the parameter `unescape`. Every property above holds whatever it does.
- The default arguments of `kelly_reply` (the default model and `max_retries=3`). The page always passes both, so the model takes both as parameters; `Reply.DefaultBudgetAllFail` covers the default budget.
- The `random` import and `FALLBACK_MODEL`. The program never uses them.
- The persona constant. The model holds it already stripped, because the program strips it before every use.
- The truthiness of a present content object. A content that is present counts as content, and one without parts contributes nothing, which has the same effect.
- Values that are not strings in a part's text field, and exceptions raised by the extractor itself. The response datatype cannot express them.
- Reply.Attempt, Reply.TryOutcome: the body of one attempt and the inner loop of the extractor (Extraction.AppendPartTexts) are separate methods rather than inline code, so that each proof stays small. The order of operations is the program's.
