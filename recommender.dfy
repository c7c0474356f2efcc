/** `recommender_node`: generate recommendations, either from the document
    extracts (after a failed validation) or from the decision and the
    application. Every outcome goes back to the supervisor. */
module Recommender {
  import opened Common
  import opened Strings
  import opened AgentState
  import opened Collaborators

  const AfterValidation := "Process Complete (Extraction - Validation - Recommendation)"
  const AfterDecision := "Process Complete (Extraction - Validation - Decision - Recommendation)"
  const ComponentFailed := "Recommender Component Failed."

  /** The extracts the validation-failure prompt reads. */
  const ExtractKeys: seq<string> := ["EID_Extract_In_Text", "BankS_Extract_In_Text", "Resume_Extract_In_Text"]

  /** The application fields the recommendation prompt reads. */
  const ApplicationKeys: seq<string> :=
    ["monthly_income", "assets", "liabilities", "household_size", "age", "education_level", "marital_status"]

  /** The validation-failure branch is taken: the newest message is the
      validator's "Validation Unsuccessful.". */
  predicate AfterFailedValidation(s: State) {
    |s.messages| > 0 && s.messages[|s.messages| - 1] == Named("validator", "Validation Unsuccessful.")
  }

  /** `result.content.split("</think>")[-1]`, not stripped. */
  function Recommendations(text: string): string {
    AfterLast(text, "</think>")
  }

  /** The prompt of the validation-failure branch, or the KeyError. */
  function ValidationFailurePrompt(s: State): (r: Result<Prompt>)
    ensures r.Success? <==> s.extractedData.Some? && HasKeys(s.extractedData.value, ExtractKeys)
  {
    if s.extractedData.Some? && HasKeys(s.extractedData.value, ExtractKeys) then
      var x := s.extractedData.value;
      assert ExtractKeys[0] in x && ExtractKeys[1] in x && ExtractKeys[2] in x;
      Success(ValidationFailureRecommendationPrompt(
        x["EID_Extract_In_Text"], x["BankS_Extract_In_Text"], x["Resume_Extract_In_Text"]))
    else Failure("KeyError")
  }

  /** The prompt of the normal branch, or the KeyError. */
  function DecisionPrompt(s: State): (r: Result<Prompt>)
    ensures r.Success? <==>
              s.decision.Some? && "decision" in s.decision.value && "reason" in s.decision.value &&
              s.applicationData.Some? && HasKeys(s.applicationData.value, ApplicationKeys)
  {
    if s.decision.Some? && "decision" in s.decision.value && "reason" in s.decision.value &&
       s.applicationData.Some? && HasKeys(s.applicationData.value, ApplicationKeys) then
      var d, a := s.decision.value, s.applicationData.value;
      assert ApplicationKeys[0] in a && ApplicationKeys[1] in a && ApplicationKeys[2] in a;
      assert ApplicationKeys[3] in a && ApplicationKeys[4] in a && ApplicationKeys[5] in a;
      assert ApplicationKeys[6] in a;
      Success(RecommendationPrompt(d["decision"], d["reason"], a["monthly_income"], a["assets"],
                                   a["liabilities"], a["household_size"], a["age"],
                                   a["education_level"], a["marital_status"]))
    else Failure("KeyError")
  }

  /** The update of a branch: one message and the recommendations. */
  function Outcome(content: string, recommendations: string): Command {
    Command(Say("recommender", content).(recommendations := Some(recommendations)), "supervisor")
  }

  /** The update of the `except` branch. */
  const RecommenderFailed := Outcome(ComponentFailed, "")

  /** `recommender_node(state)`. */
  function RecommenderNode(s: State, generate: Prompt -> Result<string>): (c: Command)
    // reading `messages[-1]` of an empty list raises, inside the `try`
    ensures |s.messages| == 0 ==> c == RecommenderFailed
    ensures AfterFailedValidation(s) ==>
              c == (match ValidationFailurePrompt(s)
                    case Failure(_) => RecommenderFailed
                    case Success(p) =>
                      if generate(p).Success? then Outcome(AfterValidation, Recommendations(generate(p).value))
                      else RecommenderFailed)
    ensures |s.messages| > 0 && !AfterFailedValidation(s) ==>
              c == (match DecisionPrompt(s)
                    case Failure(_) => RecommenderFailed
                    case Success(p) =>
                      if generate(p).Success? then Outcome(AfterDecision, Recommendations(generate(p).value))
                      else RecommenderFailed)
  {
    if |s.messages| == 0 then RecommenderFailed
    else
      var prompt := if AfterFailedValidation(s) then ValidationFailurePrompt(s) else DecisionPrompt(s);
      var content := if AfterFailedValidation(s) then AfterValidation else AfterDecision;
      match prompt
      case Failure(_) => RecommenderFailed
      case Success(p) =>
        match generate(p)
        case Failure(_) => RecommenderFailed
        case Success(text) => Outcome(content, Recommendations(text))
  }

  /** The branch is chosen only by the newest message: the message says
      which pipeline completed exactly as the branch selection says. */
  lemma BranchIffFailedValidation(s: State, generate: Prompt -> Result<string>)
    requires RecommenderNode(s, generate) != RecommenderFailed
    ensures RecommenderNode(s, generate).update.messages == [Named("recommender", AfterValidation)] <==> AfterFailedValidation(s)
    ensures RecommenderNode(s, generate).update.messages == [Named("recommender", AfterDecision)] <==> !AfterFailedValidation(s)
  {
  }

  /** The recommendations are the generated text after its last `</think>`:
      the one suffix holding no `</think>` that follows a `</think>`, and
      the whole text when there is none. */
  lemma RecommendationsShape(text: string)
    ensures IsLastPiece(text, "</think>", Recommendations(text))
    ensures forall t :: IsLastPiece(text, "</think>", t) ==> t == Recommendations(text)
    ensures !Contains(text, "</think>") ==> Recommendations(text) == text
  {
    AfterLastIsLastPiece(text, "</think>");
    forall t | IsLastPiece(text, "</think>", t) ensures t == Recommendations(text) {
      LastPieceIsAfterLast(text, "</think>", t);
    }
  }

  /** Every branch goes to the supervisor with exactly one message named
      `recommender`, and writes only `recommendations`. */
  lemma RecommenderSaysOnce(s: State, generate: Prompt -> Result<string>)
    ensures var c := RecommenderNode(s, generate);
            c.goto == "supervisor" && c.update.recommendations.Some? &&
            c.update.(recommendations := None) == Say("recommender", c.update.messages[0].content) &&
            c.update.messages[0].content in {AfterValidation, AfterDecision, ComponentFailed} &&
            (c.update.messages[0].content == ComponentFailed ==> c.update.recommendations == Some(""))
  {
  }
}
