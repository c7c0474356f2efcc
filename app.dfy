/** The application object behind the user interface: turning a chat
    message into a reply, and checking a submitted form before it is
    processed. */
module App {
  import opened Common
  import opened Strings
  import opened AgentState
  import opened Collaborators
  import opened Supervisor
  import opened Validator
  import opened DecisionModel
  import opened Chatbot
  import opened Graph
  import opened Wrapper

  const SystemPrefix := "System: "
  const NoSystemReply := "I'm sorry, I couldn't process your request."
  const ErrorReply := "I'm sorry, I encountered an error while processing your request. Please try again."
  const RequiredFieldsMessage := "Please fill in all required fields (First Name, Last Name, Emirates ID, Monthly Income)."
  const InvalidIdMessage := "Emirates ID not in a valid format. Kindly, correct the format (XXX-XXXX-XXXXXXX-X)"
  const MissingDocumentsMessage := "Please upload all required documents."
  const SaveFailedMessage := "Error saving uploaded files. Please try again."
  const SubmittedStatus := "Application submitted successfully!"
  const SubmittedPrompt := "I have submitted my social support application."
  const SubmittedHeading := "Application Submitted Successfully!"
  const SubmittedFooter := "Your application has been processed and saved to our system. You can now ask me questions about your application or the social support process."

  /** `msg.replace("System: ", "")` */
  function Unprefixed(line: string): string {
    RemoveAll(line, SystemPrefix)
  }

  /** The reply the source shows: the FIRST log entry starting with
      "System: ", or the default when there is none. */
  function FirstSystemReply(conversation: seq<string>): (reply: string)
    ensures (forall i :: 0 <= i < |conversation| ==> !StartsWith(conversation[i], SystemPrefix)) ==> reply == NoSystemReply
    ensures forall i :: 0 <= i < |conversation| && StartsWith(conversation[i], SystemPrefix) &&
                        (forall j :: 0 <= j < i ==> !StartsWith(conversation[j], SystemPrefix)) ==>
                        reply == Unprefixed(conversation[i])
  {
    if |conversation| == 0 then NoSystemReply
    else if StartsWith(conversation[0], SystemPrefix) then Unprefixed(conversation[0])
    else
      var rest := FirstSystemReply(conversation[1..]);
      assert forall i :: 1 <= i < |conversation| ==> conversation[i] == conversation[1..][i - 1];
      rest
  }

  /** The `for msg in conversation: ... break` loop of the reply search. */
  method ScanFirstSystemReply(conversation: seq<string>) returns (reply: string)
    ensures reply == FirstSystemReply(conversation)
  {
    reply := NoSystemReply;
    var i := 0;
    while i < |conversation|
      invariant 0 <= i <= |conversation|
      invariant reply == NoSystemReply
      invariant FirstSystemReply(conversation) == FirstSystemReply(conversation[i..])
    {
      if StartsWith(conversation[i], SystemPrefix) {
        reply := Unprefixed(conversation[i]);
        return;
      }
      assert conversation[i..][1..] == conversation[i + 1..];
      i := i + 1;
    }
  }

  /** The reply meant to be shown: the LATEST log entry starting with
      "System: ", or the default when there is none. */
  function LatestSystemReply(conversation: seq<string>): (reply: string)
    ensures (forall i :: 0 <= i < |conversation| ==> !StartsWith(conversation[i], SystemPrefix)) ==> reply == NoSystemReply
    ensures forall i :: 0 <= i < |conversation| && StartsWith(conversation[i], SystemPrefix) &&
                        (forall j :: i < j < |conversation| ==> !StartsWith(conversation[j], SystemPrefix)) ==>
                        reply == Unprefixed(conversation[i])
  {
    if |conversation| == 0 then NoSystemReply
    else if StartsWith(conversation[|conversation| - 1], SystemPrefix) then Unprefixed(conversation[|conversation| - 1])
    else
      var front := conversation[..|conversation| - 1];
      var rest := LatestSystemReply(front);
      assert forall i :: 0 <= i < |front| ==> conversation[i] == front[i];
      rest
  }

  /** After a successful chat turn the latest reply is the one just
      generated (when it holds no "System: " of its own). */
  lemma LatestIsNewReply(log: seq<string>, question: string, reply: string)
    requires !Contains(reply, SystemPrefix)
    ensures LatestSystemReply(log + [UserLine(question), SystemLine(reply)]) == reply
  {
    var c := log + [UserLine(question), SystemLine(reply)];
    assert c[|c| - 1] == SystemPrefix + reply;
    assert StartsWith(c[|c| - 1], SystemPrefix);
    RemoveAllLeading(SystemPrefix, reply);
    RemoveAllAbsent(reply, SystemPrefix);
  }

  /** From the second turn on the first reply is stale: after two turns
      with different replies the source shows the first one again. */
  lemma FirstReplyIsStale(q1: string, r1: string, q2: string, r2: string)
    requires !Contains(r1, SystemPrefix) && !Contains(r2, SystemPrefix) && r1 != r2
    ensures var log := [UserLine(q1), SystemLine(r1), UserLine(q2), SystemLine(r2)];
            FirstSystemReply(log) == r1 && LatestSystemReply(log) == r2 && FirstSystemReply(log) != LatestSystemReply(log)
  {
    var log := [UserLine(q1), SystemLine(r1), UserLine(q2), SystemLine(r2)];
    assert log[0][0] == 'U';
    FirstCharDiffers(log[0], SystemPrefix);
    assert log[1] == SystemPrefix + r1;
    assert StartsWith(log[1], SystemPrefix);
    RemoveAllLeading(SystemPrefix, r1);
    RemoveAllAbsent(r1, SystemPrefix);
    assert FirstSystemReply(log) == FirstSystemReply(log[1..]);
    LatestIsNewReply([UserLine(q1), SystemLine(r1)], q2, r2);
    assert [UserLine(q1), SystemLine(r1)] + [UserLine(q2), SystemLine(r2)] == log;
  }

  /** The reply for a query's results: the latest system line of the log,
      or the error reply when there are no results or no log. */
  function ReplyFor(results: Option<State>): (reply: string)
    ensures results.None? || results.value.chatbotConversation.None? ==> reply == ErrorReply
    ensures results.Some? && results.value.chatbotConversation.Some? ==>
              reply == LatestSystemReply(results.value.chatbotConversation.value)
  {
    if results.Some? && results.value.chatbotConversation.Some? then
      LatestSystemReply(results.value.chatbotConversation.value)
    else ErrorReply
  }

  /** A chat message other than the start token is always answered from
      the conversation log, never with the error reply's fallback. */
  lemma ChatReplyFromLog(hasCheckpoints: bool, current: State, message: string, o: Oracles)
    requires message != StartApplication
    ensures var s0 := Merge(current, ChatInput(hasCheckpoints, current, message));
            var out := Run(Registry, Steps(o), s0, "supervisor", RecursionLimit);
            out.result.Finished? && out.result.state.chatbotConversation.Some? &&
            ReplyFor(QueryResult(out.result)) == LatestSystemReply(out.result.state.chatbotConversation.value)
  {
    ChatQueryAnswered(hasCheckpoints, current, message, o);
  }

  /** The chat history list the interface passes in and gets back, one
      `[message, reply]` pair per turn. */
  class ChatHistory {
    var pairs: seq<(string, string)>

    constructor (initial: seq<(string, string)>)
      ensures pairs == initial
    {
      pairs := initial;
    }

    /** `history.append([message, reply])` */
    method Append(message: string, reply: string)
      modifies this
      ensures pairs == old(pairs) + [(message, reply)]
    {
      pairs := pairs + [(message, reply)];
    }
  }

  /** An uploaded document, known by its file name. */
  datatype Upload = Upload(name: string)

  /** The personal and financial fields of the application form. */
  datatype Form = Form(
    firstName: string, lastName: string, gender: string, emiratesId: string, address: string,
    monthlyIncome: int, assets: int, liabilities: int, householdSize: int, age: int,
    educationLevel: string, maritalStatus: string)

  /** The required form fields: a text is missing when it is empty, and
      the monthly income when it is zero (both are falsy). */
  predicate RequiredFieldsMissing(form: Form) {
    form.firstName == "" || form.lastName == "" || form.emiratesId == "" || form.monthlyIncome == 0
  }

  /** True iff all five documents were uploaded. */
  predicate AllUploaded(files: seq<Option<Upload>>) {
    forall i :: 0 <= i < |files| ==> files[i].Some?
  }

  /** The checks before any file is saved: the required fields, then the
      uploads. The Emirates ID format check tests the checking function
      itself, which is always truthy, so it never rejects. */
  function InputRejection(form: Form, files: seq<Option<Upload>>): (r: Option<string>)
    ensures r == Some(RequiredFieldsMessage) <==> RequiredFieldsMissing(form)
    ensures r == Some(MissingDocumentsMessage) <==>
              !RequiredFieldsMissing(form) && !AllUploaded(files)
    ensures r.None? <==> !RequiredFieldsMissing(form) && AllUploaded(files)
    ensures r != Some(InvalidIdMessage)
  {
    if RequiredFieldsMissing(form) then Some(RequiredFieldsMessage)
    else if !AllUploaded(files) then Some(MissingDocumentsMessage)
    else None
  }

  /** An ASCII decimal digit (`\d`). */
  predicate IsDigit(c: char) {
    '0' <= c <= '9'
  }

  /** `ddd-dddd-ddddddd-d`, or fifteen digits. */
  predicate IdShape(s: string) {
    (|s| == 18 && s[3] == '-' && s[8] == '-' && s[16] == '-' &&
     forall i :: 0 <= i < 18 && i != 3 && i != 8 && i != 16 ==> IsDigit(s[i])) ||
    (|s| == 15 && forall i :: 0 <= i < 15 ==> IsDigit(s[i]))
  }

  /** The `validate_emirates_id` function: the shape, after stripping. */
  predicate ValidEmiratesId(id: string) {
    IdShape(Strip(id))
  }

  /** The placeholder's form and the bare number are accepted; the dotted
      form of the demo data is not. */
  lemma EmiratesIdExamples()
    ensures IdShape("784-1995-5406984-1")
    ensures IdShape("784199554069841")
    ensures !IdShape("784.1995-5406984-1")
  {
    var dotted := "784.1995-5406984-1";
    assert dotted[3] == '.';
  }

  /** Whitespace around an ID does not change whether it is valid. */
  lemma IdCheckIgnoresPadding(id: string)
    ensures ValidEmiratesId(id) <==> ValidEmiratesId(Strip(id))
  {
    StripIdempotent(id);
  }

  /** The checks as evidently intended: the required fields, then the
      Emirates ID format, then the uploads. */
  function CheckedInputRejection(form: Form, files: seq<Option<Upload>>): (r: Option<string>)
    ensures r == Some(RequiredFieldsMessage) <==> RequiredFieldsMissing(form)
    ensures r == Some(InvalidIdMessage) <==> !RequiredFieldsMissing(form) && !ValidEmiratesId(form.emiratesId)
    ensures r == Some(MissingDocumentsMessage) <==>
              !RequiredFieldsMissing(form) && ValidEmiratesId(form.emiratesId) && !AllUploaded(files)
    ensures r.None? <==> !RequiredFieldsMissing(form) && ValidEmiratesId(form.emiratesId) && AllUploaded(files)
  {
    if RequiredFieldsMissing(form) then Some(RequiredFieldsMessage)
    else if !ValidEmiratesId(form.emiratesId) then Some(InvalidIdMessage)
    else if !AllUploaded(files) then Some(MissingDocumentsMessage)
    else None
  }

  /** The two checks differ only on a malformed ID: with a well-formed one
      they give the same answer. */
  lemma CheckedAgreesOnValidIds(form: Form, files: seq<Option<Upload>>)
    ensures ValidEmiratesId(form.emiratesId) || RequiredFieldsMissing(form) <==>
              CheckedInputRejection(form, files) == InputRejection(form, files)
  {
  }

  /** The dotted ID of the demo data passes the checks as written, although
      its format is invalid and the intended check rejects it. */
  lemma MalformedIdAccepted(form: Form, files: seq<Option<Upload>>)
    requires form.emiratesId == "784.1995-5406984-1" && !RequiredFieldsMissing(form) && AllUploaded(files)
    ensures !ValidEmiratesId(form.emiratesId)
    ensures InputRejection(form, files).None?
    ensures CheckedInputRejection(form, files) == Some(InvalidIdMessage)
  {
    var id := form.emiratesId;
    assert id[0] == '7' && id[|id| - 1] == '1';
    StripKeepsTrimmed(id);
    assert id[3] == '.';
  }

  /** The `application_data` dictionary built from the form. */
  function ApplicationDataFor(applicantId: string, form: Form): (d: Fields)
    ensures "full_name" in d && d["full_name"] == Text(form.firstName + " " + form.lastName)
    ensures "nationality" in d && d["nationality"] == Text("UAE")
    ensures "date_of_birth" in d && d["date_of_birth"] == Text("date_of_birth")
    ensures "applicant_id" in d && d["applicant_id"] == Text(applicantId)
    ensures "emirates_id" in d && d["emirates_id"] == Text(form.emiratesId)
    ensures "monthly_income" in d && d["monthly_income"] == Number(form.monthlyIncome)
  {
    map["applicant_id" := Text(applicantId), "first_name" := Text(form.firstName), "last_name" := Text(form.lastName),
        "full_name" := Text(form.firstName + " " + form.lastName), "date_of_birth" := Text("date_of_birth"),
        "gender" := Text(form.gender), "nationality" := Text("UAE"), "emirates_id" := Text(form.emiratesId),
        "address" := Text(form.address), "monthly_income" := Number(form.monthlyIncome), "assets" := Number(form.assets),
        "liabilities" := Number(form.liabilities), "household_size" := Number(form.householdSize), "age" := Number(form.age),
        "education_level" := Text(form.educationLevel), "marital_status" := Text(form.maritalStatus)]
  }

  /** The form's application holds every key the validator and the
      eligibility model read, so neither fails for a missing key. */
  lemma FormFeedsPipeline(applicantId: string, form: Form)
    ensures ValidationInput(ApplicationDataFor(applicantId, form)).Success?
    ensures FeatureRowOf(ApplicationDataFor(applicantId, form)).Success?
  {
    var d := ApplicationDataFor(applicantId, form);
    assert ValidatedKeys[0] in d && ValidatedKeys[1] in d && ValidatedKeys[2] in d && ValidatedKeys[3] in d;
  }

  /** A value as the message shows it. */
  function Shown(v: Value): string {
    if v.Text? then v.s else ""
  }

  /** The chat message reporting a submission's outcome. */
  function ResponseFor(outcome: ApplicationOutcome): (msg: string)
    ensures outcome.ProcessingError? ==> msg == "Application processing failed: " + outcome.error
  {
    match outcome
    case ProcessingError(e) => "Application processing failed: " + e
    case Processed(results, _, _) =>
      SubmittedHeading +
      "\nDecision: " + Shown(Get(DecisionOf(results), "decision", Text("N/A"))) +
      "\nReason: " + Shown(Get(DecisionOf(results), "reason", Text("N/A"))) +
      "\nRecommendations: " + results.recommendations.GetOr("N/A") +
      "\n" + SubmittedFooter
  }

  /** The paths the five saved uploads got, when every save succeeded. */
  function SavedPaths(saved: seq<Option<string>>): (paths: Option<seq<string>>)
    ensures paths.Some? <==> forall i :: 0 <= i < |saved| ==> saved[i].Some? && saved[i].value != ""
    ensures paths.Some? ==> |paths.value| == |saved| && forall i :: 0 <= i < |saved| ==> paths.value[i] == saved[i].value
  {
    if forall i :: 0 <= i < |saved| ==> saved[i].Some? && saved[i].value != "" then
      Some(seq(|saved|, i requires 0 <= i < |saved| => saved[i].value))
    else None
  }

  /** `save_uploaded_file(f, applicant_id)` for each upload, in form order. */
  function SaveUploads(files: seq<Option<Upload>>, applicantId: string, saveFile: (Upload, string) -> Option<string>)
    : (saved: seq<Option<string>>)
    requires AllUploaded(files)
    ensures |saved| == |files| && forall i :: 0 <= i < |files| ==> saved[i] == saveFile(files[i].value, applicantId)
  {
    seq(|files|, i requires 0 <= i < |files| => saveFile(files[i].value, applicantId))
  }

  /** The uploads' own names, which the cache check reads. */
  function UploadNames(files: seq<Option<Upload>>): (names: seq<string>)
    requires AllUploaded(files)
    ensures |names| == |files| && forall i :: 0 <= i < |files| ==> names[i] == files[i].value.name
  {
    seq(|files|, i requires 0 <= i < |files| => files[i].value.name)
  }

  /** The `extraction_filepath_dict` of five saved paths, in form order. */
  function PathsOf(paths: seq<string>): (d: map<string, string>)
    requires |paths| == 5
    ensures d.Keys == {"emirates_id_file_path", "bank_statements_file_path", "credit_report_file_path",
                       "resume_file_path", "assets_liabilities_file_path"}
    ensures d["emirates_id_file_path"] == paths[0] && d["bank_statements_file_path"] == paths[1] &&
            d["credit_report_file_path"] == paths[2] && d["resume_file_path"] == paths[3] &&
            d["assets_liabilities_file_path"] == paths[4]
  {
    FilePaths(paths[0], paths[1], paths[2], paths[3], paths[4])
  }

  /** `SocialSupportApp`: the compiled workflow it drives. */
  class SocialSupportApp {
    const app: Workflow

    constructor ()
      ensures fresh(app) && app.nodes == Registry && app.entry == "supervisor" && app.saved == map[]
    {
      var compiled := CreateWorkflowGraph();
      app := compiled;
    }

    /** `process_chat_message(message, history)`: a blank message changes
        nothing; any other is run as a query on the fixed thread and exactly
        one `(message, reply)` pair is appended. */
    method ProcessChatMessage(message: string, history: ChatHistory, o: Oracles) returns (cleared: string)
      modifies history, app
      ensures cleared == ""
      ensures Strip(message) == "" ==> history.pairs == old(history.pairs) && app.saved == old(app.saved)
      ensures Strip(message) != "" ==>
                var current := old(app.CurrentState(ThreadId));
                var s0 := Merge(current, ChatInput(|old(app.Log(ThreadId))| > 0, current, message));
                var out := Run(app.nodes, Steps(o), s0, app.entry, RecursionLimit);
                history.pairs == old(history.pairs) + [(message, ReplyFor(QueryResult(out.result)))] &&
                app.saved == old(app.saved)[ThreadId := old(app.Log(ThreadId)) + [s0] + out.checkpoints]
    {
      cleared := "";
      if Strip(message) == "" {
        return;
      }
      var results := ProcessQuery(message, app, o);
      history.Append(message, ReplyFor(results));
    }

    /** `submit_application(...)`: rejected forms leave the history and the
        checkpoints alone and keep the form visible; an accepted form is
        processed and one pair reporting the outcome is appended. */
    method SubmitApplication(form: Form, files: seq<Option<Upload>>, history: ChatHistory, applicantId: string,
                             saveFile: (Upload, string) -> Option<string>, o: Oracles, now: string, completedAt: string)
      returns (formVisible: bool, status: string)
      requires |files| == 5
      modifies history, app
      ensures CheckedInputRejection(form, files).Some? ==>
                formVisible && status == CheckedInputRejection(form, files).value &&
                history.pairs == old(history.pairs) && app.saved == old(app.saved)
      ensures CheckedInputRejection(form, files).None? ==>
                var saved := SaveUploads(files, applicantId, saveFile);
                (SavedPaths(saved).None? ==>
                   formVisible && status == SaveFailedMessage && history.pairs == old(history.pairs) &&
                   app.saved == old(app.saved)) &&
                (SavedPaths(saved).Some? ==>
                   var application := ApplicationDataFor(applicantId, form);
                   var docs := PathsOf(SavedPaths(saved).value);
                   var s0 := ApplicationStart(old(app.Log(ThreadId)), docs, application, UploadNames(files));
                   var out := Run(app.nodes, Steps(o), s0, app.entry, RecursionLimit);
                   !formVisible && status == SubmittedStatus &&
                   history.pairs == old(history.pairs) +
                     [(SubmittedPrompt, ResponseFor(ApplicationResult(out.result, application, docs, now, completedAt)))] &&
                   app.saved == old(app.saved)[ThreadId := old(app.Log(ThreadId)) + [s0] + out.checkpoints])
    {
      var rejection := CheckedInputRejection(form, files);
      if rejection.Some? {
        return true, rejection.value;
      }
      var saved := SaveUploads(files, applicantId, saveFile);
      var paths := SavedPaths(saved);
      if paths.None? {
        return true, SaveFailedMessage;
      }
      var response := ProcessSubmitted(ApplicationDataFor(applicantId, form), paths.value, UploadNames(files), o, now, completedAt);
      history.Append(SubmittedPrompt, response);
      formVisible, status := false, SubmittedStatus;
    }

    /** `process_application(...)` on the saved paths, and the message the
        chat shows for its outcome. */
    method ProcessSubmitted(application: Fields, paths: seq<string>, names: seq<string>, o: Oracles,
                            now: string, completedAt: string)
      returns (response: string)
      requires |paths| == 5 && |names| == 5
      modifies app
      ensures var files := PathsOf(paths);
              var s0 := ApplicationStart(old(app.Log(ThreadId)), files, application, names);
              var out := Run(app.nodes, Steps(o), s0, app.entry, RecursionLimit);
              response == ResponseFor(ApplicationResult(out.result, application, files, now, completedAt)) &&
              app.saved == old(app.saved)[ThreadId := old(app.Log(ThreadId)) + [s0] + out.checkpoints]
    {
      var outcome := ProcessApplication(paths[0], paths[1], paths[2], paths[3], paths[4], application, app, names, o, now, completedAt);
      response := ResponseFor(outcome);
    }
  }
}
