/** The black boxes the core calls: the routing model, the extraction service
    and its cache, the validation model, the eligibility classifier, the text
    generator and the retrieval store. Each is a total function that either
    returns a value or fails (raises); a call's only effect is its result. */
module Collaborators {
  import opened Common
  import opened AgentState

  /** The structured answer of the routing model (`Supervisor{next, reason}`). */
  datatype RouteChoice = RouteChoice(next: string, reason: string)

  /** The variables a text generation prompt is filled with, one shape per
      prompt template. */
  datatype Prompt =
    | EligibilityPrompt(monthlyIncome: Value, assets: Value, liabilities: Value,
                        householdSize: Value, age: Value, educationLevel: Value,
                        maritalStatus: Value, predicted: string)
    | ValidationFailureRecommendationPrompt(emiratesId: Value, bankStatements: Value, resume: Value)
    | RecommendationPrompt(decision: Value, reason: Value, monthlyIncome: Value, assets: Value,
                           liabilities: Value, householdSize: Value, age: Value,
                           educationLevel: Value, maritalStatus: Value)
    | ConversationPrompt(contextText: string, userQuestion: string, chatHistory: string)

  /** One answer for every question each collaborator can be asked. */
  datatype Oracles = Oracles(
    // the routing model, given the whole message list
    route: seq<Message> -> Result<RouteChoice>,
    // `load_cached_extraction_data()`: reads one fixed file, never raises
    loadCached: Option<Fields>,
    // `extract_documents(extraction_filepath_dict)`
    extract: map<string, string> -> Result<Fields>,
    // the validation chain, given the application subset and the extractions
    validate: (Fields, Fields) -> Result<Value>,
    // model and encoder loading, prediction and label decoding, on a feature row
    classify: seq<Value> -> Result<string>,
    // the text generator: the content of the generated message
    generate: Prompt -> Result<string>,
    // `query_vector_db(query)`
    retrieve: string -> Result<seq<string>>)
}
