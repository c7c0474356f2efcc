/** `supervisor_node`: the routing step. In order: a raw user query that is
    not the application-start token goes to the chatbot; any message a step
    wrote under its name ends the run with a reason taken from a fixed table;
    the application-start token is routed by the routing model. */
module Supervisor {
  import opened Common
  import opened Strings
  import opened AgentState
  import opened Collaborators

  /** The token an application submission puts in as the newest message. */
  const StartApplication := "CODE-STARTAPPLICATION"

  /** The terminal goto (`END`). */
  const End := "__end__"

  /** A raw tuple whose text is not the start token: a chat query. */
  predicate IsChatQuery(m: Message) {
    m.Raw? && m.content != StartApplication
  }

  /** A raw tuple holding the start token: an application submission. */
  predicate IsStartToken(m: Message) {
    m.Raw? && m.content == StartApplication
  }

  /** The reason written when the run ends on a step's message. The branches
      are tested in the source's order; its `goto == "FINISH"` lines compare
      and discard, so every branch ends the run. The second `chatbot` branch
      can never be taken, and a message no branch matches ends the run with
      the empty reason. */
  function TerminationReason(name: string, content: string): string {
    if name == "validator" && content == "Validation Unsuccessful." then
      "Document Validation Failed."
    else if name == "validator" && content == "Validation Component Failed." then
      "Validation Component Failed."
    else if name == "extractor" && content == "Extraction Unsuccessful." then
      "Information Extraction from Documents Failed."
    else if name == "extractor" && content == "Extraction Component Failed." then
      "Information Extraction component failed."
    else if name == "decision_maker" && content == "Decision made: only Financial Support Approved." then
      "Since, only Financial Support was approved, there is no need to generate recommendations for Economic Enablement, and only next steps in the process needs to be communicated to the applicant."
    else if name == "decision_maker" && content == "Decision Making Component Failed." then
      "Decision Making Component Failed."
    else if name == "recommender" && content == "Process Complete (Extraction - Validation - Decision - Recommendation)" then
      "Decision and Recommendation generation complete."
    else if name == "recommender" && content == "Process Complete (Extraction - Validation - Recommendation)" then
      "No Decision needed, Recommendation generation complete."
    else if name == "recommender" && content == "Recommender Component Failed." then
      "Recommender Component Failed."
    else if name == "chatbot" then
      "Chatbot Job finished."
    else if name == "chatbot" then
      "Error generating response for the user."
    else
      ""
  }

  /** The closed table of sentinel `(name, content)` pairs and their reasons,
      as an independent reference for `TerminationReason`. */
  const SentinelTable: seq<(string, string, string)> := [
    ("validator", "Validation Unsuccessful.", "Document Validation Failed."),
    ("validator", "Validation Component Failed.", "Validation Component Failed."),
    ("extractor", "Extraction Unsuccessful.", "Information Extraction from Documents Failed."),
    ("extractor", "Extraction Component Failed.", "Information Extraction component failed."),
    ("decision_maker", "Decision made: only Financial Support Approved.",
     "Since, only Financial Support was approved, there is no need to generate recommendations for Economic Enablement, and only next steps in the process needs to be communicated to the applicant."),
    ("decision_maker", "Decision Making Component Failed.", "Decision Making Component Failed."),
    ("recommender", "Process Complete (Extraction - Validation - Decision - Recommendation)",
     "Decision and Recommendation generation complete."),
    ("recommender", "Process Complete (Extraction - Validation - Recommendation)",
     "No Decision needed, Recommendation generation complete."),
    ("recommender", "Recommender Component Failed.", "Recommender Component Failed.")
  ]

  /** True iff `(name, content)` is one of the table's sentinel pairs. */
  predicate IsSentinel(name: string, content: string) {
    exists i :: 0 <= i < |SentinelTable| && SentinelTable[i].0 == name && SentinelTable[i].1 == content
  }

  /** Every sentinel pair maps to the reason the table lists for it. */
  lemma SentinelReasons(i: nat)
    requires i < |SentinelTable|
    ensures TerminationReason(SentinelTable[i].0, SentinelTable[i].1) == SentinelTable[i].2
    ensures SentinelTable[i].2 != ""
  {
  }

  /** Any message named `chatbot` ends with "Chatbot Job finished.", whatever
      its content: the second `chatbot` branch is unreachable. */
  lemma ChatbotAlwaysFinished(content: string)
    ensures TerminationReason("chatbot", content) == "Chatbot Job finished."
    ensures TerminationReason("chatbot", content) != "Error generating response for the user."
  {
  }

  /** The reason is non-empty exactly for the sentinel pairs and for the
      `chatbot` name; everything else ends with the empty reason. */
  lemma {:induction false} ReasonIffSentinel(name: string, content: string)
    ensures TerminationReason(name, content) != "" <==> IsSentinel(name, content) || name == "chatbot"
  {
    var r := TerminationReason(name, content);
    if IsSentinel(name, content) {
      var i :| 0 <= i < |SentinelTable| && SentinelTable[i].0 == name && SentinelTable[i].1 == content;
      SentinelReasons(i);
    }
    if r != "" && name != "chatbot" {
      var i: nat :=
        if name == "validator" && content == "Validation Unsuccessful." then 0
        else if name == "validator" then 1
        else if name == "extractor" && content == "Extraction Unsuccessful." then 2
        else if name == "extractor" then 3
        else if name == "decision_maker" && content == "Decision made: only Financial Support Approved." then 4
        else if name == "decision_maker" then 5
        else if content == "Process Complete (Extraction - Validation - Decision - Recommendation)" then 6
        else if content == "Process Complete (Extraction - Validation - Recommendation)" then 7
        else 8;
      assert SentinelTable[i].0 == name && SentinelTable[i].1 == content;
    }
  }

  /** The routing model's choice, normalised: `FINISH` and `__end__` end the
      run, any other name is lower-cased. */
  function Normalise(next: string): (g: string)
    ensures next == "FINISH" || next == End ==> g == End
    ensures next != "FINISH" && next != End ==> |g| == |next| && forall i :: 0 <= i < |g| ==> g[i] == LowerChar(next[i])
    ensures forall i :: 0 <= i < |g| ==> !('A' <= g[i] <= 'Z')
  {
    LowerIdempotent(next);
    Lower(if next == "FINISH" || next == End then End else next)
  }

  /** `supervisor_node(state)`. Its failures are not caught: an empty message
      list (the index `[-1]` raises) or a failing routing model ends the whole
      invocation with an error. */
  function SupervisorNode(s: State, route: seq<Message> -> Result<RouteChoice>): (r: Result<Command>)
    ensures r.Failure? <==> |s.messages| == 0 ||
                            (IsStartToken(s.messages[|s.messages| - 1]) && route(s.messages).Failure?)
    ensures r.Success? ==> OnlySays(r.value.update, "supervisor")
    ensures LastMessage(s).Some? && IsChatQuery(LastMessage(s).value) ==>
              r == Success(Command(Say("supervisor", LastMessage(s).value.content), "chatbot"))
    ensures LastMessage(s).Some? && LastMessage(s).value.Named? ==>
              r == Success(Command(Say("supervisor", TerminationReason(LastMessage(s).value.name, LastMessage(s).value.content)), End))
    ensures LastMessage(s).Some? && IsStartToken(LastMessage(s).value) && route(s.messages).Success? ==>
              r == Success(Command(Say("supervisor", route(s.messages).value.reason), Normalise(route(s.messages).value.next)))
  {
    if |s.messages| == 0 then Failure("list index out of range")
    else
      var last := s.messages[|s.messages| - 1];
      if IsChatQuery(last) then
        Success(Command(Say("supervisor", last.content), "chatbot"))
      else if last.Named? then
        Success(Command(Say("supervisor", TerminationReason(last.name, last.content)), End))
      else
        match route(s.messages)
        case Failure(e) => Failure(e)
        case Success(choice) => Success(Command(Say("supervisor", choice.reason), Normalise(choice.next)))
  }
}
