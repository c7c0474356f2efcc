/** `decision_maker_node`: predict eligibility and route on the exact label.
    Only the label "Financial Support Approved" skips the recommender. */
module DecisionMaker {
  import opened Common
  import opened AgentState
  import opened Collaborators
  import opened DecisionModel

  const FinancialOnly := "Financial Support Approved"
  const DecidedFinancialOnly := "Decision made: only Financial Support Approved."
  const Decided := "Decision made."
  const ComponentFailed := "Decision Making Component Failed."

  /** The `decision` record both success branches write. */
  function DecisionRecord(decision: string, reason: string): Fields {
    map["decision" := Text(decision), "reason" := Text(reason)]
  }

  /** The update of a branch: one message and the decision record. */
  function Outcome(content: string, decision: Fields, goto: string): Command {
    Command(Say("decision_maker", content).(decision := Some(decision)), goto)
  }

  /** The update of the `except` branch. */
  const DecisionFailed := Outcome(ComponentFailed, map[], "supervisor")

  /** `decision_maker_node(state)`. */
  function DecisionMakerNode(s: State, classify: seq<Value> -> Result<string>, generate: Prompt -> Result<string>)
    : (c: Command)
    // a missing application or a failing prediction: the failure update
    ensures s.applicationData.None? || PredictEligibility(s.applicationData.value, classify, generate).Failure? ==>
              c == DecisionFailed
    // the tie-break: exactly the label "Financial Support Approved" goes back to the supervisor
    ensures s.applicationData.Some? && PredictEligibility(s.applicationData.value, classify, generate).Success? ==>
              var decided := PredictEligibility(s.applicationData.value, classify, generate).value.0;
              var reason := PredictEligibility(s.applicationData.value, classify, generate).value.1;
              c.update.decision == Some(DecisionRecord(decided, reason)) &&
              (decided == FinancialOnly ==> c == Outcome(DecidedFinancialOnly, DecisionRecord(decided, reason), "supervisor")) &&
              (decided != FinancialOnly ==> c == Outcome(Decided, DecisionRecord(decided, reason), "recommender"))
  {
    if s.applicationData.None? then DecisionFailed
    else
      match PredictEligibility(s.applicationData.value, classify, generate)
      case Failure(_) => DecisionFailed
      case Success((decided, reason)) =>
        if decided == FinancialOnly then Outcome(DecidedFinancialOnly, DecisionRecord(decided, reason), "supervisor")
        else Outcome(Decided, DecisionRecord(decided, reason), "recommender")
  }

  /** The run goes to the recommender exactly when a prediction succeeded
      with a label other than "Financial Support Approved" (unknown labels
      included). */
  lemma RecommenderIffOtherLabel(s: State, classify: seq<Value> -> Result<string>, generate: Prompt -> Result<string>)
    ensures DecisionMakerNode(s, classify, generate).goto == "recommender" <==>
              s.applicationData.Some? && PredictEligibility(s.applicationData.value, classify, generate).Success? &&
              PredictEligibility(s.applicationData.value, classify, generate).value.0 != FinancialOnly
  {
  }

  /** Every branch appends exactly one message named `decision_maker` and
      writes only `decision`; the goto is the supervisor or the recommender. */
  lemma DecisionMakerSaysOnce(s: State, classify: seq<Value> -> Result<string>, generate: Prompt -> Result<string>)
    ensures var c := DecisionMakerNode(s, classify, generate);
            c.update.(decision := None) == Say("decision_maker", c.update.messages[0].content) &&
            c.update.decision.Some? &&
            c.goto in {"supervisor", "recommender"} &&
            (c.goto == "supervisor" <==> c.update.messages[0].content in {DecidedFinancialOnly, ComponentFailed})
  {
  }
}
