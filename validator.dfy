/** `validator_node`: send four application fields and the extractions to the
    validation model and move on. The pass/fail policy is the constant `True`,
    so a successful call always goes to the decision step. */
module Validator {
  import opened Common
  import opened AgentState

  const Completed := "Application Validation Completed."
  const Unsuccessful := "Validation Unsuccessful."
  const ComponentFailed := "Validation Component Failed."

  /** The application fields the validation model sees, in order. */
  const ValidatedKeys := ["monthly_income", "age", "education_level", "full_name"]

  /** `validation_successful`: fixed to `True` whatever the report says. */
  const ValidationSuccessful := true

  /** `app_data_dict`: the four fields, or the KeyError for a missing one. */
  function ValidationInput(app: Fields): (r: Result<Fields>)
    ensures r.Success? <==> HasKeys(app, ValidatedKeys)
    ensures r.Success? ==> r.value.Keys == {"monthly_income", "age", "education_level", "full_name"}
    ensures r.Success? ==> forall k :: k in r.value ==> k in app && r.value[k] == app[k]
  {
    if HasKeys(app, ValidatedKeys) then
      assert "monthly_income" == ValidatedKeys[0] && "age" == ValidatedKeys[1];
      assert "education_level" == ValidatedKeys[2] && "full_name" == ValidatedKeys[3];
      Success(map["monthly_income" := app["monthly_income"], "age" := app["age"],
                  "education_level" := app["education_level"], "full_name" := app["full_name"]])
    else
      Failure("KeyError")
  }

  /** The `validation_result` written: the report under `validations_result`. */
  function ResultRecord(report: Value): Fields {
    map["validations_result" := report]
  }

  /** The update of a branch: one message and the validation record. */
  function Outcome(content: string, report: Value, goto: string): Command {
    Command(Say("validator", content).(validationResult := Some(ResultRecord(report))), goto)
  }

  /** The update of the `except` branch. */
  const ValidationFailed := Outcome(ComponentFailed, Record(map[]), "supervisor")

  /** `validator_node(state)`; `validate` is the validation chain, given the
      four fields and the extracted data. */
  function ValidatorNode(s: State, validate: (Fields, Fields) -> Result<Value>): (c: Command)
    // success: the report is recorded and the decision step is next
    ensures c.goto == "decision_maker" <==>
              s.applicationData.Some? && HasKeys(s.applicationData.value, ValidatedKeys) &&
              s.extractedData.Some? &&
              validate(ValidationInput(s.applicationData.value).value, s.extractedData.value).Success?
    ensures c.goto == "decision_maker" ==>
              c == Outcome(Completed, validate(ValidationInput(s.applicationData.value).value, s.extractedData.value).value, "decision_maker")
    // every other case is the failure update
    ensures c.goto != "decision_maker" ==> c == ValidationFailed
  {
    if s.applicationData.None? then ValidationFailed
    else
      match ValidationInput(s.applicationData.value)
      case Failure(_) => ValidationFailed
      case Success(subset) =>
        if s.extractedData.None? then ValidationFailed
        else
          match validate(subset, s.extractedData.value)
          case Failure(_) => ValidationFailed
          case Success(report) =>
            if ValidationSuccessful then Outcome(Completed, report, "decision_maker")
            else Outcome(Unsuccessful, report, "recommender")
  }

  /** The validation model sees only the four fields: two applications that
      agree on them (and on the extractions) get the same update. */
  lemma OnlyFourFieldsMatter(s1: State, s2: State, validate: (Fields, Fields) -> Result<Value>)
    requires s1.applicationData.Some? && s2.applicationData.Some?
    requires forall k :: k in ValidatedKeys ==>
               (k in s1.applicationData.value <==> k in s2.applicationData.value) &&
               (k in s1.applicationData.value ==> s1.applicationData.value[k] == s2.applicationData.value[k])
    requires s1.extractedData == s2.extractedData
    ensures ValidatorNode(s1, validate) == ValidatorNode(s2, validate)
  {
    var a1, a2 := s1.applicationData.value, s2.applicationData.value;
    assert forall i :: 0 <= i < |ValidatedKeys| ==> ValidatedKeys[i] in ValidatedKeys;
    assert HasKeys(a1, ValidatedKeys) <==> HasKeys(a2, ValidatedKeys);
    if HasKeys(a1, ValidatedKeys) {
      assert ValidationInput(a1) == ValidationInput(a2);
    }
  }

  /** The "Validation Unsuccessful." branch is never taken, so a validation
      never sends the run to the recommender. */
  lemma NeverUnsuccessful(s: State, validate: (Fields, Fields) -> Result<Value>)
    ensures ValidatorNode(s, validate).goto != "recommender"
    ensures ValidatorNode(s, validate).update.messages != [Named("validator", Unsuccessful)]
  {
  }

  /** Every branch appends exactly one message named `validator`, and the
      record is always `{"validations_result": r}`, with `r = {}` on failure. */
  lemma ValidatorSaysOnce(s: State, validate: (Fields, Fields) -> Result<Value>)
    ensures var c := ValidatorNode(s, validate);
            c.update.(validationResult := None) == Say("validator", c.update.messages[0].content) &&
            c.update.validationResult.Some? && c.update.validationResult.value.Keys == {"validations_result"} &&
            (c.goto == "supervisor" ==> c.update.validationResult.value["validations_result"] == Record(map[]))
  {
  }
}
