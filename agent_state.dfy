/** The workflow's shared state (`AgentState`), the patches steps return, and
    the merge the engine applies: `messages` accumulates (its reducer is list
    concatenation), every other key is last-writer-wins. */
module AgentState {
  import opened Common

  /** An entry of `messages`: a raw `(role, text)` tuple put in by an entry
      point, or a `HumanMessage` a step writes under its own name. */
  datatype Message =
    | Raw(role: string, content: string)
    | Named(name: string, content: string)

  /** The state dictionary. A key that was never written is `None`; reading
      it raises a KeyError in the source. `messages` always exists (the
      reducer's channel starts as the empty list). */
  datatype State = State(
    cachedExtractionPath: Option<string>,
    extractionFilePaths: Option<map<string, string>>,
    applicationData: Option<Fields>,
    extractedData: Option<Fields>,
    validationResult: Option<Fields>,
    decision: Option<Fields>,
    chatbotConversation: Option<seq<string>>,
    recommendations: Option<string>,
    messages: seq<Message>)

  /** An update dictionary: `None` means the key is not in the update.
      Invocation inputs are updates too. */
  datatype Patch = Patch(
    cachedExtractionPath: Option<string>,
    extractionFilePaths: Option<map<string, string>>,
    applicationData: Option<Fields>,
    extractedData: Option<Fields>,
    validationResult: Option<Fields>,
    decision: Option<Fields>,
    chatbotConversation: Option<seq<string>>,
    recommendations: Option<string>,
    messages: seq<Message>)

  /** What a step returns: `Command(update=..., goto=...)`. */
  datatype Command = Command(update: Patch, goto: string)

  /** The state of a thread that has no checkpoint yet. */
  const EmptyState := State(None, None, None, None, None, None, None, None, [])

  /** The update with no key at all. */
  const EmptyPatch := Patch(None, None, None, None, None, None, None, None, [])

  /** The update holding exactly one message, `HumanMessage(content, name)`. */
  function Say(name: string, content: string): Patch {
    EmptyPatch.(messages := [Named(name, content)])
  }

  /** The value of a last-writer-wins key after an update. */
  function Overwrite<T>(current: Option<T>, update: Option<T>): Option<T> {
    if update.Some? then update else current
  }

  /** The engine's merge of an update into the state. */
  function Merge(s: State, p: Patch): (r: State)
    ensures r.messages == s.messages + p.messages
  {
    State(
      Overwrite(s.cachedExtractionPath, p.cachedExtractionPath),
      Overwrite(s.extractionFilePaths, p.extractionFilePaths),
      Overwrite(s.applicationData, p.applicationData),
      Overwrite(s.extractedData, p.extractedData),
      Overwrite(s.validationResult, p.validationResult),
      Overwrite(s.decision, p.decision),
      Overwrite(s.chatbotConversation, p.chatbotConversation),
      Overwrite(s.recommendations, p.recommendations),
      s.messages + p.messages)
  }

  /** `later` keeps every message of `earlier`, at the same index. */
  predicate Extends(earlier: seq<Message>, later: seq<Message>) {
    |earlier| <= |later| && later[..|earlier|] == earlier
  }

  /** Merging never drops, moves or changes a message. */
  lemma MergeAppendOnly(s: State, p: Patch)
    ensures Extends(s.messages, Merge(s, p).messages)
    ensures forall i :: 0 <= i < |s.messages| ==> Merge(s, p).messages[i] == s.messages[i]
  {
    assert Merge(s, p).messages[..|s.messages|] == s.messages;
  }

  /** `Extends` is transitive, so a whole lineage of merges is append-only. */
  lemma ExtendsTransitive(a: seq<Message>, b: seq<Message>, c: seq<Message>)
    requires Extends(a, b) && Extends(b, c)
    ensures Extends(a, c)
  {
    assert c[..|a|] == c[..|b|][..|a|];
  }

  /** A key present in the update replaces the old value wholesale; a key
      absent from it keeps the old value. */
  lemma MergeLastWriterWins(s: State, p: Patch)
    ensures p.cachedExtractionPath.Some? ==> Merge(s, p).cachedExtractionPath == p.cachedExtractionPath
    ensures p.cachedExtractionPath.None? ==> Merge(s, p).cachedExtractionPath == s.cachedExtractionPath
    ensures p.extractionFilePaths.Some? ==> Merge(s, p).extractionFilePaths == p.extractionFilePaths
    ensures p.extractionFilePaths.None? ==> Merge(s, p).extractionFilePaths == s.extractionFilePaths
    ensures p.applicationData.Some? ==> Merge(s, p).applicationData == p.applicationData
    ensures p.applicationData.None? ==> Merge(s, p).applicationData == s.applicationData
    ensures p.extractedData.Some? ==> Merge(s, p).extractedData == p.extractedData
    ensures p.extractedData.None? ==> Merge(s, p).extractedData == s.extractedData
    ensures p.validationResult.Some? ==> Merge(s, p).validationResult == p.validationResult
    ensures p.validationResult.None? ==> Merge(s, p).validationResult == s.validationResult
    ensures p.decision.Some? ==> Merge(s, p).decision == p.decision
    ensures p.decision.None? ==> Merge(s, p).decision == s.decision
    ensures p.chatbotConversation.Some? ==> Merge(s, p).chatbotConversation == p.chatbotConversation
    ensures p.chatbotConversation.None? ==> Merge(s, p).chatbotConversation == s.chatbotConversation
    ensures p.recommendations.Some? ==> Merge(s, p).recommendations == p.recommendations
    ensures p.recommendations.None? ==> Merge(s, p).recommendations == s.recommendations
  {
  }

  /** Merging the empty update is the identity. */
  lemma MergeEmptyIdentity(s: State)
    ensures Merge(s, EmptyPatch) == s
  {
  }

  /** Two updates in a row: later keys win, messages concatenate. */
  function Then(p1: Patch, p2: Patch): (p: Patch)
    ensures p.messages == p1.messages + p2.messages
  {
    Patch(
      Overwrite(p1.cachedExtractionPath, p2.cachedExtractionPath),
      Overwrite(p1.extractionFilePaths, p2.extractionFilePaths),
      Overwrite(p1.applicationData, p2.applicationData),
      Overwrite(p1.extractedData, p2.extractedData),
      Overwrite(p1.validationResult, p2.validationResult),
      Overwrite(p1.decision, p2.decision),
      Overwrite(p1.chatbotConversation, p2.chatbotConversation),
      Overwrite(p1.recommendations, p2.recommendations),
      p1.messages + p2.messages)
  }

  /** Merging two updates one after the other is merging their composition;
      in particular `messages == old ++ p1.messages ++ p2.messages`. */
  lemma MergeTwice(s: State, p1: Patch, p2: Patch)
    ensures Merge(Merge(s, p1), p2) == Merge(s, Then(p1, p2))
    ensures Merge(Merge(s, p1), p2).messages == s.messages + p1.messages + p2.messages
  {
    assert (s.messages + p1.messages) + p2.messages == s.messages + (p1.messages + p2.messages);
  }

  /** The last message, when there is one. */
  function LastMessage(s: State): (m: Option<Message>)
    ensures m.Some? <==> |s.messages| > 0
    ensures m.Some? ==> m.value == s.messages[|s.messages| - 1]
  {
    if |s.messages| == 0 then None else Some(s.messages[|s.messages| - 1])
  }

  /** The update is exactly one message named `name` and nothing else. */
  predicate OnlySays(p: Patch, name: string) {
    |p.messages| == 1 && p.messages[0].Named? && p == Say(name, p.messages[0].content)
  }
}
