# Social support agent: a Dafny model of its workflow core

The system processes applications for social support and answers chat
questions about them. A supervisor step routes every invocation of a
six-step graph. An application goes supervisor, extractor, validator,
decision maker, (recommender), supervisor. A chat query goes supervisor,
chatbot, supervisor. Each step returns a command: an update of the shared
agent state and the name of the next step. The engine merges the update
through the state's reducers (`messages` accumulates, every other key is
replaced) and checkpoints the result under a thread id. The entry points
build the invocation input from the thread's checkpoints and save the
records of an application. The user-interface class turns chat messages
into replies and checks a submitted form before processing it.

The project models these parts:

- the agent state and its merge (`AgentState`);
- the six steps (`Supervisor`, `Extractor`, `Validator`, `DecisionMaker`,
  `Recommender`, `Chatbot`);
- the feature encoding of the eligibility model (`DecisionModel`);
- graph construction and the engine that runs the compiled graph
  (`Graph`);
- the entry points (`Wrapper`) and the application class (`App`).

`Common` holds the value model (dictionary values as `Text`, `Number`,
`Record` or `Opaque`), `Option` and `Result`. `Strings` holds the Python
string operations the core uses (`strip`, `lower`, `split(d)[-1]`,
`replace`, `startswith`, `join`). `Collaborators` holds the black boxes: the
routing model, the extraction service and its cache, the validation model,
the classifier, the text generator and the retrieval store. Each is a total
function that returns a value or fails.

Where the code is imperative, the model is too:

- the chatbot appends to the state's own conversation list, a
  `ConversationLog` object;
- the one-hot loops and the missing-column fill of the encoding are methods
  with loops, proved equal to the functions that specify them;
- the graph builder and the compiled graph with its per-thread checkpoint
  log are classes;
- `get_saved_states` copies the history in a loop;
- the chat history the interface passes around is a class whose method
  appends.

Steps are functions of the state and the collaborators. The engine's run
is a function proved to end within six steps whatever the collaborators
answer.

## Model

| member | source | states |
|---|---|---|
| AgentState.Merge | models/agent_state.py:24-32 | the merged messages are the old messages followed by the update's |
| AgentState.MergeAppendOnly | models/agent_state.py:32 | a merge keeps every earlier message at its index, so the list never shrinks |
| AgentState.ExtendsTransitive | models/agent_state.py:32 | message-prefix extension composes, so a whole lineage of merges is append-only |
| AgentState.MergeLastWriterWins | models/agent_state.py:24-31 | a key present in the update replaces the old value wholesale; an absent key keeps it |
| AgentState.MergeEmptyIdentity | models/agent_state.py:24-32 | merging the empty update changes nothing |
| AgentState.MergeTwice | models/agent_state.py:32 | two merges in a row equal one merge of the composed update; messages are old ++ p1 ++ p2 |
| AgentState.Then | models/agent_state.py:32 | the composed update's messages are the first update's followed by the second's |
| Strings.AfterLastIsLastPiece | agents/recommender.py:96 | `split(d)[-1]` is a suffix holding no `d`, right after an occurrence of `d` when the text holds one, and the whole text otherwise |
| Strings.LastPieceUnique | inference/decision_model.py:125 | for a delimiter whose first character does not recur, such as `</think>` and `</think`, only one suffix sits in that place |
| Strings.LastPieceIsAfterLast | agents/chatbot.py:58 | for such a delimiter, any text in that place is `split(d)[-1]` |
| Strings.AfterLastIsSuffix | agents/recommender.py:96 | the last piece is a suffix of the text |
| Strings.AfterLastHasNoDelimiter | agents/recommender.py:96 | the last piece holds no delimiter |
| Strings.AfterLastFollowsDelimiter | agents/recommender.py:96 | when the text holds the delimiter, the last piece follows one of its occurrences |
| Strings.AfterLastWithoutDelimiter | inference/decision_model.py:125 | without a delimiter the last piece is the whole text |
| Strings.TrimStart | agents/chatbot.py:58 | `lstrip` drops a prefix made only of whitespace and leaves a suffix that does not start with whitespace |
| Strings.TrimEnd | agents/chatbot.py:58 | `rstrip` drops a suffix made only of whitespace and leaves a prefix that does not end with whitespace |
| Strings.Strip | agents/chatbot.py:58 | the stripped text has no whitespace at either end and is a piece of the text |
| Strings.StripRemovesOnlyEnds | agents/chatbot.py:58 | the stripped text sits in the text with only whitespace before it and only whitespace after it |
| Strings.StrippedAtIsStrip | app.py:149 | any piece with only whitespace around it and none at its own ends is the stripped text, so the two lemmas above fix `strip`'s value |
| Strings.StrippedAtUnique | app.py:87 | two such pieces of one text are equal |
| Strings.StrippedAtBounds | app.py:87 | an empty such piece means the text is blank; otherwise the piece starts and ends at characters that are not whitespace |
| Strings.StripKeepsTrimmed | app.py:149 | a text with no whitespace at either end is left alone |
| Strings.StripIdempotent | app.py:149 | stripping twice is stripping once |
| Strings.StripEmptyIffBlank | app.py:87 | the stripped text is empty iff every character is whitespace |
| Strings.Lower | agents/supervisor.py:139 | `lower` maps every character through `LowerChar`, keeping the length |
| Strings.LowerIdempotent | agents/supervisor.py:139 | lowering twice is lowering once |
| Strings.RemoveAllAbsent | app.py:101 | `replace(p, "")` leaves a text holding no `p` unchanged |
| Strings.RemoveAllLeading | app.py:101 | `replace(p, "")` removes a leading `p` and goes on with the rest |
| Strings.JoinSnoc | agents/chatbot.py:54 | `"\n".join` of a list with one more line is the old text, the separator and that line |
| Supervisor.SupervisorNode | agents/supervisor.py:16-139 | a chat query goes to the chatbot with its text forwarded; any named message ends the run with the table's reason; a start token is routed by the model with a normalised goto; it fails only on an empty list or a failing routing call after a start token; every answer is one supervisor message |
| Supervisor.SentinelReasons | agents/supervisor.py:41-78 | each of the nine sentinel pairs maps to its fixed, non-empty reason |
| Supervisor.ChatbotAlwaysFinished | agents/supervisor.py:80-86 | any chatbot message ends with "Chatbot Job finished."; the second chatbot branch is unreachable |
| Supervisor.ReasonIffSentinel | agents/supervisor.py:39-96 | the reason is non-empty exactly for the sentinel pairs and the chatbot name; any other message ends with "" |
| Supervisor.Normalise | agents/supervisor.py:127-139 | FINISH and `__end__` become `__end__`; any other name becomes its lower-cased self, character by character; the result never has an upper-case letter |
| Extractor.ExtractorNode | agents/extractor.py:24-73 | a cache hit passes the cached data on; otherwise the files are extracted; a missing key or a failing extraction gives the failure update with `{}`; success goes to the validator |
| Extractor.CacheSkipsExtraction | agents/extractor.py:26-41 | on a cache hit the extraction service plays no part and the cached data is recorded |
| Extractor.ExtractorSaysOnce | agents/extractor.py:30-73 | every outcome is one extractor message plus `extracted_data`, going to the validator or the supervisor |
| Validator.ValidationInput | agents/validator.py:30-36 | the subset exists iff the four keys are present, and holds exactly those four keys with the application's values |
| Validator.ValidatorNode | agents/validator.py:28-102 | it goes to the decision maker iff the application has the four keys, the extractions exist and validation succeeds; every other case is the failure update |
| Validator.OnlyFourFieldsMatter | agents/validator.py:31-56 | applications that agree on the four fields get the same update |
| Validator.NeverUnsuccessful | agents/validator.py:58-88 | with the constant-true policy the "Validation Unsuccessful." branch is never taken |
| Validator.ValidatorSaysOnce | agents/validator.py:63-102 | one validator message; the record is `{"validations_result": r}`, with `r = {}` on failure |
| DecisionModel.AddOneHotColumns | inference/decision_model.py:79-85 | the loop computes the one-hot specification |
| DecisionModel.AddOneHotMiss | inference/decision_model.py:79-85 | a key no option produces is left unchanged by the one-hot loop |
| DecisionModel.AddOneHotHit | inference/decision_model.py:79-85 | the column of each option records whether the value is that option |
| DecisionModel.Filled | inference/decision_model.py:90-93 | the filled frame's keys are the old keys plus the training columns; every old key keeps its value and every added column is 0 |
| DecisionModel.FillMissingColumns | inference/decision_model.py:90-93 | the loop over missing columns, in any order, gives the fill specification |
| DecisionModel.Select | inference/decision_model.py:96 | the row lists the columns' values in column order |
| DecisionModel.FeatureRowOf | inference/decision_model.py:70-96 | a row exists iff every key the encoding reads is present |
| DecisionModel.BuildFeatureRow | inference/decision_model.py:70-96 | the source's sequence of statements computes the feature row specification |
| DecisionModel.NoMissingColumns | inference/decision_model.py:90-93 | the one-hot loops already add every training column, so the fill is a no-op |
| DecisionModel.NumericColumnValue | inference/decision_model.py:71-77 | the five numeric columns are copied unchanged |
| DecisionModel.EducationColumnValue | inference/decision_model.py:80-81 | each education column holds its indicator, untouched by the marital block |
| DecisionModel.MaritalColumnValue | inference/decision_model.py:84-85 | each marital column holds its indicator |
| DecisionModel.ColumnValue | inference/decision_model.py:63-85 | column i of the encoded input holds the copied field or the indicator its name says |
| DecisionModel.FeatureRowLayout | inference/decision_model.py:63-96 | the row has the 11 training columns in order: five numeric fields, then the indicators |
| DecisionModel.EducationOneHot | inference/decision_model.py:80-81 | a level's column is 1 iff the application names it; at most one is 1; all are 0 for an unknown level |
| DecisionModel.MaritalOneHot | inference/decision_model.py:84-85 | the same for Married and Single |
| DecisionModel.ReasonShape | inference/decision_model.py:125 | the reason is the stripped last piece after `</think>`, whichever text sits in that place; it holds no `</think>`, has no surrounding whitespace and is a piece of the text |
| DecisionModel.ReasonWithoutThinking | inference/decision_model.py:125 | without a `</think>` the reason is the whole text, stripped |
| DecisionModel.PredictEligibility | inference/decision_model.py:58-130 | it succeeds iff the keys are present and both the classifier and the generator answer; the label is the classifier's and the reason is taken from the generated text |
| DecisionMaker.DecisionMakerNode | agents/decision_maker.py:24-79 | a missing application or a failed prediction gives the failure update with `{}`; otherwise it records a decision and a reason, and only "Financial Support Approved" goes to the supervisor |
| DecisionMaker.RecommenderIffOtherLabel | agents/decision_maker.py:32-65 | the recommender is next iff a prediction succeeded with any other label, unknown ones included |
| DecisionMaker.DecisionMakerSaysOnce | agents/decision_maker.py:32-79 | one decision_maker message plus `decision`; it goes to the supervisor iff the message is one of the two terminal ones |
| Recommender.ValidationFailurePrompt | agents/recommender.py:47-51 | the prompt exists iff the three extracts are present |
| Recommender.DecisionPrompt | agents/recommender.py:68-85 | the prompt exists iff the decision, the reason and the seven application fields are present |
| Recommender.RecommenderNode | agents/recommender.py:30-113 | an empty list fails; after "Validation Unsuccessful." the extracts' prompt is used, otherwise the decision prompt; any failure gives the failure update |
| Recommender.BranchIffFailedValidation | agents/recommender.py:38-99 | on success the completion message names the validation-only pipeline iff the run came from a failed validation |
| Recommender.RecommendationsShape | agents/recommender.py:96 | the recommendations are the one suffix with no `</think>` that follows a `</think>` (the unstripped text after the last one), or the whole text when there is none |
| Recommender.RecommenderSaysOnce | agents/recommender.py:53-113 | one recommender message, goto supervisor, and `recommendations` equal to "" on failure |
| Chatbot.ContextFrom | agents/chatbot.py:38 | the context is the first hit, or "" with none |
| Chatbot.ChatbotNode | agents/chatbot.py:29-88 | it raises iff the newest message has no content; otherwise it gives the failure log reset or a log extended by the question and one reply |
| Chatbot.SuccessfulTurn | agents/chatbot.py:31-73 | when both collaborators answer, the log grows by exactly the question then the reply |
| Chatbot.RepliedIffCollaboratorsAnswered | agents/chatbot.py:29-88 | the success message appears iff the log exists and both collaborators answered |
| Chatbot.ReplyShape | agents/chatbot.py:58 | the reply is the stripped last piece after `</think`, whichever text sits in that place; it holds no `</think` and has no surrounding whitespace |
| Chatbot.LeadingAngleSurvives | agents/chatbot.py:58 | after a `</think>` tag the reply keeps the tag's `>` at its front |
| Chatbot.ConversationLog.Append | agents/chatbot.py:32 | the list grows by the line in place |
| Chatbot.RunChatbotNode | agents/chatbot.py:29-88 | the in-place run equals the node's value; the question is appended before any collaborator call and stays on failure; a successful update holds the list itself |
| Graph.RegistryRoundTrip | workflow/graph.py:28-33 | exactly the six names are registered, each for its own step, and END is not a node |
| Graph.GraphBuilder.AddNode | workflow/graph.py:28-33 | a new name is registered; a taken name is refused with nothing changed |
| Graph.GraphBuilder.AddEdge | workflow/graph.py:36 | the edge is appended and the nodes are unchanged |
| Graph.GraphBuilder.Compile | workflow/graph.py:38-40 | a graph whose only edge leaves START for a registered node compiles, with an empty checkpointer |
| Graph.CreateWorkflowGraph | workflow/graph.py:17-42 | the compiled graph has the six steps, enters at the supervisor and has no checkpoints |
| Graph.Run | workflow/graph.py:36-40 | one checkpoint per executed step, never more steps than the fuel |
| Graph.RunStep | workflow/graph.py:36-40 | a step that returns merges its update, checkpoints it and continues at its goto |
| Graph.RunExtends | workflow/graph.py:25 | every checkpoint of a run, and its final state, extends the starting messages |
| Graph.FinishedAtLastCheckpoint | workflow/graph.py:38-40 | a finished run that executed a step ends in its last checkpoint |
| Graph.SupervisorBehaves | agents/supervisor.py:16-139 | the routing step ends the run on a named message and forwards a chat query to the chatbot; any other target arises only after a start token |
| Graph.ExtractorShape | agents/extractor.py:24-73 | the extractor goes to the validator or the supervisor |
| Graph.ValidatorShape | agents/validator.py:28-102 | the validator goes to the decision maker or the supervisor |
| Graph.DecisionMakerShape | agents/decision_maker.py:24-79 | the decision maker goes to the recommender or the supervisor |
| Graph.RecommenderShape | agents/recommender.py:30-113 | the recommender goes to the supervisor |
| Graph.ChatbotShape | agents/chatbot.py:29-88 | the chatbot goes to the supervisor and answers every named message |
| Graph.WorkerCommandShape | workflow/graph.py:28-33 | every registered worker moves to the supervisor or to a worker that ends sooner |
| Graph.StepsBehave | workflow/graph.py:28-33 | the graph's own steps satisfy the behaviour the termination argument needs |
| Graph.EndsOnNamed | agents/supervisor.py:41-96 | from a named message the supervisor ends the run in one step |
| Graph.WorkerFinishes | workflow/graph.py:28-36 | from any worker a run ends within that worker's depth, without the limit or an unknown node |
| Graph.AfterSupervisor | workflow/graph.py:28-36 | after a supervisor message, a run from any registered target or END ends within five steps |
| Graph.EngineEnds | workflow/graph.py:28-36 | for well-behaved steps a run ends within six steps, and hits an unknown node only after a start token |
| Graph.RunEnds | workflow/graph.py:17-42 | every run of the graph ends within six steps, never at the recursion limit, whatever the collaborators answer |
| Graph.ChatRunOf | workflow/graph.py:28-36 | for well-behaved steps a chat query runs supervisor, chatbot, supervisor and finishes with a log |
| Graph.ChatRun | workflow/graph.py:28-36 | a chat query runs supervisor, chatbot, supervisor, finishes, and its final state holds the log |
| Graph.Reversed | wrapper.py:22 | the listing reverses the checkpoints, newest first |
| Graph.ExecuteStep | workflow/graph.py:28-33 | executing a step, the chatbot with its in-place log, gives the step's command |
| Graph.StepsChatbot | workflow/graph.py:33 | the graph's chatbot step is the chatbot node |
| Graph.Execute | workflow/graph.py:36-40 | the engine's step loop, executing each step in turn, produces exactly the run `Graph.Run` defines |
| Graph.Workflow.History | wrapper.py:17-25 | the thread's checkpoints, newest first |
| Graph.Workflow.CurrentState | wrapper.py:28-31 | the latest checkpoint, or the empty state on a new thread |
| Graph.Workflow.Invoke | wrapper.py:78-82 | the input is merged into the current state and checkpointed; the run's checkpoints are appended to the thread only, and its result is returned |
| Wrapper.GetSavedStates | wrapper.py:17-25 | the loop copies the thread's checkpoints newest first, one per checkpoint |
| Wrapper.ChatInput | wrapper.py:53-75 | a resumed thread gives the current state plus the query, with the log defaulted to `[]`; a new thread gives all defaults and the query alone |
| Wrapper.FilePaths | wrapper.py:134-140 | the dictionary has exactly the five document keys, each holding its own document's path |
| Wrapper.CacheFileFor | wrapper.py:123-126 | the cache path iff all five base names are the demo names, and "" otherwise |
| Wrapper.WindowsUploadsUseCache | wrapper.py:125 | the demo names under any backslash directories select the cache |
| Wrapper.SlashPathsMissCache | wrapper.py:125 | a slash-separated path is compared whole, so `/tmp/eida.png` misses the cache |
| Wrapper.ApplicationInput | wrapper.py:129-158 | a resumed thread gives the current state plus the start token with three keys overwritten; a new thread sets only those three keys and the token |
| Wrapper.MergeOwnState | wrapper.py:129-142 | writing a state back onto itself changes only its messages |
| Wrapper.ResumedChatDuplicatesMessages | wrapper.py:53-61 | on a resumed thread the old messages appear twice before the query; other keys keep their values |
| Wrapper.ResumedApplicationDuplicatesMessages | wrapper.py:129-142 | the same for an application, with only the three application keys replaced |
| Wrapper.FreshApplicationState | wrapper.py:144-158 | a fresh application run starts from the three keys and the start token alone |
| Wrapper.ChatQueryAnswered | wrapper.py:35-82 | any chat query other than the start token finishes in three steps with a conversation log |
| Wrapper.QueryResult | wrapper.py:80-85 | the results exist iff the run finished, and are its final state |
| Wrapper.ProcessQuery | wrapper.py:35-85 | the chat input is invoked on the fixed thread; the returned results and the new checkpoints are those of that run |
| Wrapper.ApplicantRecord | wrapper.py:169-180 | both timestamps are the clock reading, and every other field is the application's value or "" |
| Wrapper.ApplicationRecord | wrapper.py:184-197 | twelve fields; `support_type` and `decision` are the result's label; status "Completed"; the completion time is the given text; `documents` is the path map; `validation_results` is the result's validation map, or empty when it has none; the recommendations and the reason are taken from the result |
| Wrapper.ApplicationResult | wrapper.py:163-203 | records exist iff the run finished; they share the applicant id and creation time; otherwise the run's error |
| Wrapper.ApplicationStart | wrapper.py:129-163 | the run starts with the start token newest and the three application keys set |
| Wrapper.ProcessApplication | wrapper.py:88-203 | the cache path follows the upload names, the input is invoked on the fixed thread, and the outcome is built from that run |
| App.FirstSystemReply | app.py:95-102 | as written: the first "System: " entry with the prefix removed, or the default |
| App.ScanFirstSystemReply | app.py:98-102 | the `for … break` scan computes the first-match reply |
| App.LatestSystemReply | app.py:95-102 | corrected: the latest "System: " entry with the prefix removed, or the default |
| App.LatestIsNewReply | app.py:95-102 | after a successful turn the corrected reply is the one just generated |
| App.FirstReplyIsStale | app.py:95-102 | after two turns with different replies the as-written search shows the first |
| App.ReplyFor | app.py:95-104 | corrected: no results or no log gives the error reply; otherwise the latest system line, where the source shows the first |
| App.ChatReplyFromLog | app.py:92-104 | a chat message is always answered from the log, never with the fallback |
| App.ChatHistory.Append | app.py:107 | one pair is appended |
| App.InputRejection | app.py:144-162 | as written: required fields first, then the uploads; the invalid-ID message is never returned |
| App.CheckedInputRejection | app.py:144-162 | corrected: required fields, then the ID format, then the uploads, each iff its condition |
| App.CheckedAgreesOnValidIds | app.py:149-153 | the two checks agree exactly when the ID is well-formed or a required field is missing |
| App.MalformedIdAccepted | app.py:149-153 | the demo's dotted ID passes the as-written checks but fails the format and the corrected check |
| App.EmiratesIdExamples | app.py:149 | the placeholder form and 15 digits are valid; the dotted form is not |
| App.IdCheckIgnoresPadding | app.py:149 | surrounding whitespace does not change validity |
| App.ApplicationDataFor | app.py:178-195 | it sets full name "first last", nationality "UAE", the literal date of birth, and the id, Emirates ID and income fields |
| App.FormFeedsPipeline | app.py:178-195 | the form's application has every key the validator and the encoder read |
| App.ResponseFor | app.py:218-235 | a processing error shows "Application processing failed: " plus the error |
| App.SavedPaths | app.py:171-174 | paths exist iff every save returned a non-empty path, and they are those paths |
| App.SaveUploads | app.py:166-170 | one save per upload, in form order |
| App.UploadNames | app.py:207-211 | the uploads' names, in form order |
| App.PathsOf | app.py:199-203 | the five saved paths, in form order, under the Emirates ID, bank statement, credit report, resume and assets keys |
| App.SocialSupportApp.constructor | app.py:39-42 | the app holds a fresh compiled graph with no checkpoints |
| App.SocialSupportApp.ProcessChatMessage | app.py:85-114 | corrected (the reply is `ReplyFor`'s latest system line): a blank message changes nothing; any other is run on the fixed thread and exactly one `(message, reply)` pair is appended |
| App.SocialSupportApp.SubmitApplication | app.py:116-249 | corrected (the form is checked by `CheckedInputRejection`): a rejected form or a failed save keeps the form visible and changes nothing; otherwise the application is processed and one pair with the outcome's message is appended |
| App.SocialSupportApp.ProcessSubmitted | app.py:198-241 | the saved paths are processed and the outcome's message returned |

Some functions carry no contract of their own and are described by the lemma rows above:

- `Strings.AfterLast` (`split(d)[-1]`) by the `Strings.AfterLast…` and `Strings.LastPiece…` rows;
- `Strings.RemoveAll` (`replace(p, "")`) by `Strings.RemoveAllAbsent` and `Strings.RemoveAllLeading`;
- `Strings.Join` by `Strings.JoinSnoc`;
- `Supervisor.TerminationReason` (agents/supervisor.py:39-96) by `Supervisor.SentinelReasons`, `Supervisor.ChatbotAlwaysFinished` and `Supervisor.ReasonIffSentinel`;
- `App.ValidEmiratesId` (app.py:149) by `App.EmiratesIdExamples` and `App.IdCheckIgnoresPadding`;
- `Chatbot.ReplyFrom` (agents/chatbot.py:58) by `Chatbot.ReplyShape` and `Chatbot.LeadingAngleSurvives`;
- `DecisionModel.ReasonFrom` (inference/decision_model.py:125) by `DecisionModel.ReasonShape` and `DecisionModel.ReasonWithoutThinking`;
- `Recommender.Recommendations` (agents/recommender.py:96) by `Recommender.RecommendationsShape`.

## Left out

- The language models, the classifier, the label encoder, the extraction service, the cache file and the retrieval store are parameters (`Collaborators.Oracles`). Their wording and their scores are not behaviour here.
- The document readers, OCR and vector-store code are not part of this model. Neither are the prompt texts, the data-model schemas and the configuration, except the constants the core compares with.
- The database writes are sinks that always succeed, so the records are computed and returned rather than written.
- Floating-point form fields (income, assets, liabilities) are integers. They are only passed along, and an income of 0 is the falsy case.
- `strip`, `lower` and the digit class `\d` are modelled on ASCII only. The whitespace `strip` removes is space, tab, `\n`, `\r`, `\x0b`, `\x0c` and `\x1c`-`\x1f`; the non-ASCII whitespace Python also strips is not modelled.
- Graph.Run: the engine is LangGraph code that cannot be seen here. It is modelled by its documented behaviour: the invoke input goes through the reducers onto the latest checkpoint, there is one checkpoint per step that returns, and the recursion limit is 25. Message coercion, snapshot objects and the saver's storage format are not modelled.
- Graph.Workflow.Invoke: it runs the step loop `Graph.Execute` and then writes the thread's checkpoints in one assignment, not one write per step.
- Graph.Run: a `goto` naming no registered node ends the run with the error `BadGoto`. This is the model's own choice: the engine's handling of such a `goto` is not visible here, and it may instead end the run normally with the state as it stands. The texts of that error and of the recursion-limit error are the model's own wording (`Wrapper.RunError`).
- Chatbot.ContextFrom: agents/chatbot.py:38 asks the retrieval store twice for the same query; the model asks once and uses that answer for both the test and the index. A second answer that differs from the first (empty, where `[0]` would raise an IndexError, or a failure) is not modelled.
- Wrapper.ApplicationRecord: `documents` and `validation_results` are kept as the maps themselves, not as their `str()` text, because Python's `repr` of a dictionary is not modelled.
- Wrapper.ApplicantRecord: it states the two timestamps and the value of every other key, not the exact set of ten keys.
- App.ApplicationDataFor: it states six of its sixteen keys; the other ten are copied from the form one to one.
- App.ResponseFor: it states only the error message; the Markdown and emoji of the success message are reduced to plain lines.
- App.Shown: a non-text value is shown as "".
- Saving uploads (`save_uploaded_file`) is a parameter. Temporary files and `cleanup_temp_files` are filesystem work and are not modelled.
- The applicant id (`uuid4`) and the two clock readings are parameters.
- App.ReplyFor: it returns the corrected latest "System: " entry. app.py:98-102 as written returns the first one, which `App.FirstSystemReply` models (see "## Findings").
- App.SocialSupportApp.ProcessChatMessage: the reply it appends comes from the corrected `App.ReplyFor`, not from the first-entry search of app.py:98-102.
- App.SocialSupportApp.SubmitApplication: it checks the form with the corrected `App.CheckedInputRejection`, so it rejects a malformed Emirates ID with the format message. app.py:149-153 as written never does, which `App.InputRejection` models.
- The `except` branches of `process_chat_message` and `submit_application` are not modelled. The model raises nothing they could catch: the wrappers already turn every failure into a value.
- The Gradio interface (`create_interface`, `show_application_form`), logging, `print_workflow_graph`, and the demo `queryChatbot` and `main` of wrapper.py are not modelled.
- Wrapper.ApplicationInput: the field-by-field update of the copied state is one record update.
- The `chat_history` and `temp_files` fields of the application class are not modelled. The history the interface passes in is the `ChatHistory` object.

## Findings

| source | as written | input that shows it | evidently intended | confidence | as-written member | corrected member |
|---|---|---|---|---|---|---|
| app.py:95-102 | the reply shown is the first "System: " entry of the accumulated conversation log | two chat turns with different replies r1 and r2: the log is User q1, System r1, User q2, System r2 and the second turn shows r1 | show the latest system entry, the reply just generated | not executed; high | App.FirstSystemReply, App.FirstReplyIsStale | App.LatestSystemReply |
| app.py:149-153 | `if not validate_emirates_id` tests the function object, which is always truthy, so the format check never rejects | a form with Emirates ID "784.1995-5406984-1" and every required field and upload present is accepted | call the check on the entered ID and reject a malformed one with the format message | not executed; high | App.InputRejection, App.MalformedIdAccepted | App.CheckedInputRejection |

`App.SocialSupportApp.ProcessChatMessage` replies with the corrected
`LatestSystemReply`, via `ReplyFor`. `App.SocialSupportApp.SubmitApplication`
checks the form with the corrected `CheckedInputRejection`.
