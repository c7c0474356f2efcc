/** The entry points between the user interface and the workflow: they read
    the thread's checkpoints, build the invocation input for a chat query or
    an application, invoke the compiled graph on the fixed thread, and build
    the records an application is saved as. */
module Wrapper {
  import opened Common
  import opened Strings
  import opened AgentState
  import opened Collaborators
  import opened Supervisor
  import opened Graph

  /** Every checkpoint read and every invocation uses this thread. */
  const ThreadId := "social_support_agent"

  /** The extraction cache file (`EXTRACTION_CACHE_PATH`), relative to the
      installation directory. */
  const ExtractionCachePath := "storage/cached_extraction_data_file_path.pkl"

  /** The file names the demo documents are uploaded under; only this exact
      set of uploads is answered from the extraction cache. */
  const CachedNames: seq<string> := ["eida.png", "BankStatement.pdf", "credit-report.png", "Resume.pdf", "Assets-Liabilities.xlsx"]

  /** `get_saved_states(app, thread_id)`: the thread's checkpoints copied
      one by one from the history listing, newest first. */
  method GetSavedStates(app: Workflow, thread: string) returns (history: seq<State>)
    ensures |history| == |app.Log(thread)|
    ensures forall i :: 0 <= i < |history| ==> history[i] == app.Log(thread)[|app.Log(thread)| - 1 - i]
  {
    var listing := app.History(thread);
    history := [];
    for i := 0 to |listing|
      invariant history == listing[..i]
    {
      history := history + [listing[i]];
    }
  }

  /** A state written back as an update: every key it holds, and its
      messages. */
  function AsPatch(s: State): Patch {
    Patch(s.cachedExtractionPath, s.extractionFilePaths, s.applicationData, s.extractedData,
          s.validationResult, s.decision, s.chatbotConversation, s.recommendations, s.messages)
  }

  /** The input of a chat query. On a thread with checkpoints it is the
      current state with the query appended to a copy of its messages and
      with an absent conversation log defaulted to `[]`; on a new thread
      every key holds its empty default. */
  function ChatInput(hasCheckpoints: bool, current: State, query: string): (p: Patch)
    ensures p.messages == (if hasCheckpoints then current.messages else []) + [Raw("user", query)]
    ensures p.chatbotConversation.Some?
    ensures hasCheckpoints ==>
              p.(messages := current.messages, chatbotConversation := current.chatbotConversation) == AsPatch(current) &&
              (current.chatbotConversation.Some? ==> p.chatbotConversation == current.chatbotConversation) &&
              (current.chatbotConversation.None? ==> p.chatbotConversation == Some([]))
    ensures !hasCheckpoints ==>
              p == Patch(Some(""), Some(map[]), Some(map[]), Some(map[]), Some(map[]), Some(map[]), Some([]), Some(""),
                         [Raw("user", query)])
  {
    if hasCheckpoints then
      var p := AsPatch(current).(messages := current.messages + [Raw("user", query)]);
      if current.chatbotConversation.None? then p.(chatbotConversation := Some([])) else p
    else
      Patch(Some(""), Some(map[]), Some(map[]), Some(map[]), Some(map[]), Some(map[]), Some([]), Some(""),
            [Raw("user", query)])
  }

  /** The `extraction_filepath_dict` of an application. */
  function FilePaths(emiratesId: string, bankStatement: string, creditReport: string, resume: string, assetsLiabilities: string)
    : (d: map<string, string>)
    ensures d.Keys == {"emirates_id_file_path", "bank_statements_file_path", "credit_report_file_path",
                       "resume_file_path", "assets_liabilities_file_path"}
    ensures d["emirates_id_file_path"] == emiratesId && d["bank_statements_file_path"] == bankStatement &&
            d["credit_report_file_path"] == creditReport && d["resume_file_path"] == resume &&
            d["assets_liabilities_file_path"] == assetsLiabilities
  {
    map["emirates_id_file_path" := emiratesId, "bank_statements_file_path" := bankStatement,
        "credit_report_file_path" := creditReport, "resume_file_path" := resume,
        "assets_liabilities_file_path" := assetsLiabilities]
  }

  /** `name.split("\\")[-1]`: the last backslash-separated component. */
  function BaseName(name: string): string {
    AfterLast(name, "\\")
  }

  /** True iff the five uploads carry the demo documents' names. */
  predicate AreCachedNames(names: seq<string>) {
    |names| == 5 && forall i :: 0 <= i < 5 ==> BaseName(names[i]) == CachedNames[i]
  }

  /** The cached-extraction path of an application: the cache file exactly
      when all five uploads carry the demo names, and `""` otherwise. */
  function CacheFileFor(names: seq<string>): (path: string)
    requires |names| == 5
    ensures path == ExtractionCachePath <==> AreCachedNames(names)
    ensures path == "" <==> !AreCachedNames(names)
  {
    if BaseName(names[0]) == "eida.png" && BaseName(names[1]) == "BankStatement.pdf" &&
       BaseName(names[2]) == "credit-report.png" && BaseName(names[3]) == "Resume.pdf" &&
       BaseName(names[4]) == "Assets-Liabilities.xlsx"
    then ExtractionCachePath
    else ""
  }

  /** The demo names under any Windows-style directories select the cache. */
  lemma WindowsUploadsUseCache(dirs: seq<string>)
    requires |dirs| == 5
    ensures CacheFileFor(seq(5, i requires 0 <= i < 5 => dirs[i] + "\\" + CachedNames[i])) == ExtractionCachePath
  {
    var names := seq(5, i requires 0 <= i < 5 => dirs[i] + "\\" + CachedNames[i]);
    forall i | 0 <= i < 5 ensures BaseName(names[i]) == CachedNames[i] {
      assert '\\' !in CachedNames[i];
      assert names[i] == dirs[i] + ['\\'] + CachedNames[i];
      AfterLastOfSingle(dirs[i], '\\', CachedNames[i]);
    }
  }

  /** A path separated by `/` has no backslash, so its whole text is the
      compared name: `/tmp/eida.png` does not select the cache. */
  lemma SlashPathsMissCache(names: seq<string>)
    requires |names| == 5 && names[0] == "/tmp/eida.png"
    ensures CacheFileFor(names) == ""
  {
    assert '\\' !in names[0];
    ContainsChar(names[0], '\\');
    AfterLastWithoutDelimiter(names[0], "\\");
  }

  /** The input of an application submission. On a thread with
      checkpoints it is the current state with the start token appended to a
      copy of its messages and with the file paths, the application and the
      cached path overwritten; on a new thread it holds exactly those three
      keys and the start token. */
  function ApplicationInput(hasCheckpoints: bool, current: State, paths: map<string, string>, application: Fields,
                            cacheFile: string): (p: Patch)
    ensures p.messages == (if hasCheckpoints then current.messages else []) + [Raw("user", StartApplication)]
    ensures p.extractionFilePaths == Some(paths) && p.applicationData == Some(application) &&
            p.cachedExtractionPath == Some(cacheFile)
    ensures hasCheckpoints ==>
              p.(messages := current.messages, extractionFilePaths := current.extractionFilePaths,
                 applicationData := current.applicationData, cachedExtractionPath := current.cachedExtractionPath)
              == AsPatch(current)
    ensures !hasCheckpoints ==>
              p.(extractionFilePaths := None, applicationData := None, cachedExtractionPath := None, messages := []) == EmptyPatch
  {
    var base := if hasCheckpoints then AsPatch(current).(messages := current.messages + [Raw("user", StartApplication)])
                else EmptyPatch.(messages := [Raw("user", StartApplication)]);
    base.(extractionFilePaths := Some(paths), applicationData := Some(application), cachedExtractionPath := Some(cacheFile))
  }

  /** Writing a state back onto itself changes nothing but its messages,
      which the reducer concatenates. */
  lemma MergeOwnState(s: State, p: Patch)
    requires p.(messages := s.messages) == AsPatch(s)
    ensures Merge(s, p) == s.(messages := s.messages + p.messages)
  {
  }

  /** On a thread with checkpoints the chat input repeats the whole message
      history, and the reducer appends it again: the run starts from the
      old messages twice over, then the query. Every other key keeps its
      value (the log defaults to `[]`). */
  lemma ResumedChatDuplicatesMessages(current: State, query: string)
    ensures var s0 := Merge(current, ChatInput(true, current, query));
            s0.messages == current.messages + current.messages + [Raw("user", query)] &&
            s0.(messages := current.messages, chatbotConversation := current.chatbotConversation) == current &&
            s0.chatbotConversation == Some(current.chatbotConversation.GetOr([]))
  {
  }

  /** The same for an application: the old messages twice, then the start
      token; the three application keys are replaced and nothing else. */
  lemma ResumedApplicationDuplicatesMessages(current: State, paths: map<string, string>, application: Fields, cacheFile: string)
    ensures var s0 := Merge(current, ApplicationInput(true, current, paths, application, cacheFile));
            s0.messages == current.messages + current.messages + [Raw("user", StartApplication)] &&
            s0 == current.(messages := s0.messages, extractionFilePaths := Some(paths), applicationData := Some(application),
                           cachedExtractionPath := Some(cacheFile))
  {
  }

  /** A fresh application run starts from exactly the application keys and
      the start token; nothing else is set. */
  lemma FreshApplicationState(paths: map<string, string>, application: Fields, cacheFile: string)
    ensures var s0 := Merge(EmptyState, ApplicationInput(false, EmptyState, paths, application, cacheFile));
            s0 == EmptyState.(extractionFilePaths := Some(paths), applicationData := Some(application),
                              cachedExtractionPath := Some(cacheFile), messages := [Raw("user", StartApplication)])
  {
  }

  /** Whatever the thread holds, a chat query other than the start token is
      answered: the run is supervisor, chatbot, supervisor, it finishes, and
      its final state holds the conversation log. */
  lemma ChatQueryAnswered(hasCheckpoints: bool, current: State, query: string, o: Oracles)
    requires query != StartApplication
    ensures var s0 := Merge(current, ChatInput(hasCheckpoints, current, query));
            var out := Run(Registry, Steps(o), s0, "supervisor", RecursionLimit);
            out.steps == ["supervisor", "chatbot", "supervisor"] && out.result.Finished? &&
            out.result.state.chatbotConversation.Some?
  {
    var s0 := Merge(current, ChatInput(hasCheckpoints, current, query));
    assert s0.messages[|s0.messages| - 1] == Raw("user", query);
    ChatRun(s0, o);
  }

  /** `process_query`'s value: the final state of a finished run, and
      nothing when the run raised, named an unknown node or hit the limit. */
  function QueryResult(r: RunResult): (results: Option<State>)
    ensures results.Some? <==> r.Finished?
    ensures results.Some? ==> results.value == r.state
  {
    if r.Finished? then Some(r.state) else None
  }

  /** `process_query(query, app)` */
  method ProcessQuery(query: string, app: Workflow, o: Oracles) returns (results: Option<State>)
    modifies app
    ensures var s0 := Merge(old(app.CurrentState(ThreadId)), ChatInput(|old(app.Log(ThreadId))| > 0, old(app.CurrentState(ThreadId)), query));
            var out := Run(app.nodes, Steps(o), s0, app.entry, RecursionLimit);
            results == QueryResult(out.result) &&
            app.saved == old(app.saved)[ThreadId := old(app.Log(ThreadId)) + [s0] + out.checkpoints]
  {
    var history := GetSavedStates(app, ThreadId);
    var input := ChatInput(|history| > 0, app.CurrentState(ThreadId), query);
    var r := app.Invoke(input, ThreadId, o);
    results := QueryResult(r);
  }

  /** The applicant record saved after a run. */
  function ApplicantRecord(application: Fields, now: string): (rec: Fields)
    ensures "created_at" in rec && "updated_at" in rec && rec["created_at"] == rec["updated_at"] == Text(now)
    ensures "applicant_id" in rec && "emirates_id" in rec
    ensures forall k :: k in rec && k != "created_at" && k != "updated_at" ==> rec[k] == Get(application, k, Text(""))
  {
    map["applicant_id" := Get(application, "applicant_id", Text("")),
        "created_at" := Text(now), "updated_at" := Text(now),
        "first_name" := Get(application, "first_name", Text("")),
        "last_name" := Get(application, "last_name", Text("")),
        "date_of_birth" := Get(application, "date_of_birth", Text("")),
        "gender" := Get(application, "gender", Text("")),
        "nationality" := Get(application, "nationality", Text("")),
        "emirates_id" := Get(application, "emirates_id", Text("")),
        "address" := Get(application, "address", Text(""))]
  }

  /** The result's `decision` dictionary, or `{}`. */
  function DecisionOf(results: State): Fields {
    results.decision.GetOr(map[])
  }

  /** A dictionary shown as a value (the record stores its text form). */
  function AsRecord(d: map<string, string>): (v: Value)
    ensures v.Record? && v.fields.Keys == d.Keys && forall k :: k in d ==> v.fields[k] == Text(d[k])
  {
    Record(map k | k in d :: Text(d[k]))
  }

  /** The application record saved after a run. `completedAt` is the second
      clock reading, taken when the record is built. */
  function ApplicationRecord(application: Fields, results: State, paths: map<string, string>, now: string, completedAt: string)
    : (rec: Fields)
    ensures rec.Keys == {"applicant_id", "created_at", "support_type", "status", "processing_completed_at", "decision",
                         "decision_reason", "decision_explanation", "decision_date", "enablement_recommendations",
                         "documents", "validation_results"}
    ensures rec["support_type"] == rec["decision"] == Get(DecisionOf(results), "decision", Text(""))
    ensures rec["decision_reason"] == Get(DecisionOf(results), "reason", Text(""))
    ensures rec["status"] == Text("Completed") && rec["decision_explanation"] == Text("")
    ensures rec["enablement_recommendations"] == Text(results.recommendations.GetOr(""))
    ensures rec["created_at"] == rec["decision_date"] == Text(now)
    ensures rec["applicant_id"] == Get(application, "applicant_id", Text(""))
    ensures rec["processing_completed_at"] == Text(completedAt)
    ensures rec["documents"] == AsRecord(paths)
    ensures rec["validation_results"] == Record(results.validationResult.GetOr(map[]))
  {
    var decision := DecisionOf(results);
    map["applicant_id" := Get(application, "applicant_id", Text("")),
        "created_at" := Text(now),
        "support_type" := Get(decision, "decision", Text("")),
        "status" := Text("Completed"),
        "processing_completed_at" := Text(completedAt),
        "decision" := Get(decision, "decision", Text("")),
        "decision_reason" := Get(decision, "reason", Text("")),
        "decision_explanation" := Text(""),
        "decision_date" := Text(now),
        "enablement_recommendations" := Text(results.recommendations.GetOr("")),
        "documents" := AsRecord(paths),
        "validation_results" := Record(results.validationResult.GetOr(map[]))]
  }

  /** What `process_application` returns: the final state together with the
      two records it saved, or the error dictionary. */
  datatype ApplicationOutcome =
    | Processed(results: State, applicant: Fields, application: Fields)
    | ProcessingError(error: string)

  /** The message of the exception a run that did not finish raises. */
  function RunError(r: RunResult): string {
    match r
    case Finished(_) => ""
    case Raised(e) => e
    case BadGoto(target) => "unknown node: " + target
    case LimitReached => "recursion limit reached"
  }

  /** `process_application`'s value for a run's result: the records are
      built only from a finished run, and both carry the same applicant id
      and creation time. */
  function ApplicationResult(r: RunResult, application: Fields, paths: map<string, string>, now: string, completedAt: string)
    : (outcome: ApplicationOutcome)
    ensures outcome.Processed? <==> r.Finished?
    ensures outcome.ProcessingError? ==> outcome.error == RunError(r)
    ensures outcome.Processed? ==>
              outcome.results == r.state &&
              outcome.applicant == ApplicantRecord(application, now) &&
              outcome.application == ApplicationRecord(application, r.state, paths, now, completedAt) &&
              outcome.applicant["applicant_id"] == outcome.application["applicant_id"] &&
              outcome.applicant["created_at"] == outcome.application["created_at"]
  {
    if r.Finished? then
      Processed(r.state, ApplicantRecord(application, now), ApplicationRecord(application, r.state, paths, now, completedAt))
    else ProcessingError(RunError(r))
  }

  /** The state an application run starts from, given the thread's
      checkpoints: the current state merged with the application input. */
  function ApplicationStart(log: seq<State>, paths: map<string, string>, application: Fields, uploadNames: seq<string>)
    : (s0: State)
    requires |uploadNames| == 5
    ensures |s0.messages| > 0 && s0.messages[|s0.messages| - 1] == Raw("user", StartApplication)
    ensures s0.extractionFilePaths == Some(paths) && s0.applicationData == Some(application) &&
            s0.cachedExtractionPath == Some(CacheFileFor(uploadNames))
  {
    var current := if |log| > 0 then log[|log| - 1] else EmptyState;
    Merge(current, ApplicationInput(|log| > 0, current, paths, application, CacheFileFor(uploadNames)))
  }

  /** `process_application(...)`: the cache path is chosen by the upload
      names, the input is built and invoked on the fixed thread, and the
      records are built from the final state. */
  method ProcessApplication(emiratesIdPath: string, bankStatementPath: string, creditReportPath: string,
                            resumePath: string, assetsLiabilitiesPath: string, application: Fields, app: Workflow,
                            uploadNames: seq<string>, o: Oracles, now: string, completedAt: string)
    returns (outcome: ApplicationOutcome)
    requires |uploadNames| == 5
    modifies app
    ensures var paths := FilePaths(emiratesIdPath, bankStatementPath, creditReportPath, resumePath, assetsLiabilitiesPath);
            var s0 := ApplicationStart(old(app.Log(ThreadId)), paths, application, uploadNames);
            var out := Run(app.nodes, Steps(o), s0, app.entry, RecursionLimit);
            outcome == ApplicationResult(out.result, application, paths, now, completedAt) &&
            app.saved == old(app.saved)[ThreadId := old(app.Log(ThreadId)) + [s0] + out.checkpoints]
  {
    var history := GetSavedStates(app, ThreadId);
    var cacheFile := CacheFileFor(uploadNames);
    var paths := FilePaths(emiratesIdPath, bankStatementPath, creditReportPath, resumePath, assetsLiabilitiesPath);
    var input := ApplicationInput(|history| > 0, app.CurrentState(ThreadId), paths, application, cacheFile);
    var r := app.Invoke(input, ThreadId, o);
    outcome := ApplicationResult(r, application, paths, now, completedAt);
  }
}
