/** `chatbot_node`: record the user's question in the conversation log, look
    up context, generate a reply and record it. The log is the state's own
    list, appended to in place. */
module Chatbot {
  import opened Common
  import opened Strings
  import opened AgentState
  import opened Collaborators

  const Replied := "Successfully constructed a reply for the user."
  const ReplyFailed := "Error generating response for the user."
  const Apology := "System: I apologize, but I encountered an error while processing your request. Please try again."

  /** The log entry for the user's question. */
  function UserLine(question: string): string {
    "User: " + question
  }

  /** The log entry for a reply. */
  function SystemLine(reply: string): string {
    "System: " + reply
  }

  /** `query_vector_db(q)[0] if query_vector_db(q) else ""`: the best hit, or
      nothing. (The store is asked twice for the same query; it answers the
      same both times.) */
  function ContextFrom(hits: seq<string>): (context: string)
    ensures |hits| > 0 ==> context == hits[0]
    ensures |hits| == 0 ==> context == ""
  {
    if |hits| > 0 then hits[0] else ""
  }

  /** `result.content.split("</think")[-1].strip()`: the delimiter has no
      closing `>`, so a `>` can survive at the front. */
  function ReplyFrom(text: string): string {
    Strip(AfterLast(text, "</think"))
  }

  /** The update after a reply was constructed. */
  function RepliedUpdate(log: seq<string>): Command {
    Command(Say("chatbot", Replied).(chatbotConversation := Some(log)), "supervisor")
  }

  /** The update of the `except` branch: the log is replaced by the question
      and the apology. */
  function FailedUpdate(question: string): Command {
    Command(Say("chatbot", ReplyFailed).(chatbotConversation := Some([UserLine(question), Apology])), "supervisor")
  }

  /** The newest message has a `.content` to read: a step's named message
      (the supervisor forwards the user's query under its own name). */
  predicate HasQuestion(s: State) {
    |s.messages| > 0 && s.messages[|s.messages| - 1].Named?
  }

  /** The question the node answers. */
  function Question(s: State): string
    requires HasQuestion(s)
  {
    s.messages[|s.messages| - 1].content
  }

  /** `chatbot_node(state)` as a value. Its `except` branch reads the newest
      message's content again, so when that read is what failed (an empty
      list, or a raw tuple) the node raises. */
  function ChatbotNode(s: State, retrieve: string -> Result<seq<string>>, generate: Prompt -> Result<string>)
    : (r: Result<Command>)
    ensures r.Failure? <==> !HasQuestion(s)
    ensures r.Success? ==> r.value == FailedUpdate(Question(s)) ||
                           (s.chatbotConversation.Some? &&
                            exists reply :: r.value == RepliedUpdate(s.chatbotConversation.value + [UserLine(Question(s)), SystemLine(reply)]))
    ensures r.Success? && s.chatbotConversation.None? ==> r.value == FailedUpdate(Question(s))
  {
    if !HasQuestion(s) then Failure("the newest message has no content")
    else
      var question := Question(s);
      if s.chatbotConversation.None? then Success(FailedUpdate(question))
      else
        var lines := s.chatbotConversation.value + [UserLine(question)];
        var history := Join(lines, "\n");
        match retrieve(history)
        case Failure(_) => Success(FailedUpdate(question))
        case Success(hits) =>
          match generate(ConversationPrompt(ContextFrom(hits), question, history))
          case Failure(_) => Success(FailedUpdate(question))
          case Success(text) =>
            var reply := ReplyFrom(text);
            assert lines + [SystemLine(reply)] == s.chatbotConversation.value + [UserLine(question), SystemLine(reply)];
            Success(RepliedUpdate(lines + [SystemLine(reply)]))
  }

  /** A successful turn grows the log by exactly two entries, the question
      and then the reply; the retrieval query and the generator's history
      already hold the question. */
  lemma SuccessfulTurn(s: State, retrieve: string -> Result<seq<string>>, generate: Prompt -> Result<string>)
    requires HasQuestion(s) && s.chatbotConversation.Some?
    requires var history := Join(s.chatbotConversation.value + [UserLine(Question(s))], "\n");
             retrieve(history).Success? &&
             generate(ConversationPrompt(ContextFrom(retrieve(history).value), Question(s), history)).Success?
    ensures var history := Join(s.chatbotConversation.value + [UserLine(Question(s))], "\n");
            var text := generate(ConversationPrompt(ContextFrom(retrieve(history).value), Question(s), history)).value;
            ChatbotNode(s, retrieve, generate) ==
              Success(RepliedUpdate(s.chatbotConversation.value + [UserLine(Question(s)), SystemLine(ReplyFrom(text))]))
  {
    var lines := s.chatbotConversation.value + [UserLine(Question(s))];
    var history := Join(lines, "\n");
    var text := generate(ConversationPrompt(ContextFrom(retrieve(history).value), Question(s), history)).value;
    assert lines + [SystemLine(ReplyFrom(text))] == s.chatbotConversation.value + [UserLine(Question(s)), SystemLine(ReplyFrom(text))];
  }

  /** The message says which outcome happened: "Successfully constructed a
      reply" exactly when the log exists and both collaborators answered. */
  lemma RepliedIffCollaboratorsAnswered(s: State, retrieve: string -> Result<seq<string>>, generate: Prompt -> Result<string>)
    requires HasQuestion(s)
    ensures var r := ChatbotNode(s, retrieve, generate);
            r.Success? && r.value.goto == "supervisor" &&
            (r.value.update.messages == [Named("chatbot", Replied)] <==>
               s.chatbotConversation.Some? &&
               var history := Join(s.chatbotConversation.value + [UserLine(Question(s))], "\n");
               retrieve(history).Success? &&
               generate(ConversationPrompt(ContextFrom(retrieve(history).value), Question(s), history)).Success?)
  {
  }

  /** The reply is the stripped last piece after `</think`; it holds no
      `</think` and has no whitespace at either end. */
  lemma ReplyShape(text: string)
    ensures forall t :: IsLastPiece(text, "</think", t) ==> ReplyFrom(text) == Strip(t)
    ensures !Contains(ReplyFrom(text), "</think")
    ensures var r := ReplyFrom(text); r == [] || (!IsWhitespace(r[0]) && !IsWhitespace(r[|r| - 1]))
  {
    var tail := AfterLast(text, "</think");
    forall t | IsLastPiece(text, "</think", t) ensures ReplyFrom(text) == Strip(t) {
      LastPieceIsAfterLast(text, "</think", t);
    }
    AfterLastHasNoDelimiter(text, "</think");
    if Contains(Strip(tail), "</think") {
      ContainsTransitive(tail, Strip(tail), "</think");
    }
  }

  /** When the text closes its thinking with `</think>`, the reply keeps the
      `>` of that tag at its front. */
  lemma LeadingAngleSurvives(rest: string)
    requires !Contains(">" + rest, "</think")
    ensures |ReplyFrom("</think>" + rest)| > 0 && ReplyFrom("</think>" + rest)[0] == '>'
  {
    var text := "</think>" + rest;
    assert text == "</think" + (">" + rest);
    assert OccursAt(text, "</think", 0);
    assert text[|"</think"|..] == ">" + rest;
    assert AfterLast(text, "</think") == AfterLast(">" + rest, "</think");
    AfterLastWithoutDelimiter(">" + rest, "</think");
    var t := ">" + rest;
    assert TrimStart(t) == t;
    var r := TrimEnd(t);
    assert r[0] == t[0];
  }

  /** The list object `state["chatbot_conversation"]`, which the node appends
      to in place. */
  class ConversationLog {
    var lines: seq<string>

    constructor (initial: seq<string>)
      ensures lines == initial
    {
      lines := initial;
    }

    /** `message_list.append(line)` */
    method Append(line: string)
      modifies this
      ensures lines == old(lines) + [line]
    {
      lines := lines + [line];
    }
  }

  /** `chatbot_node(state)` as the source runs it: `log` is the state's own
      list (`null` when the key is absent). The question is appended before
      any collaborator is asked, so a failing lookup or generation leaves it
      in the list; the update of a successful turn holds the list itself. */
  method RunChatbotNode(s: State, log: ConversationLog?,
                        retrieve: string -> Result<seq<string>>, generate: Prompt -> Result<string>)
    returns (r: Result<Command>)
    requires log == null <==> s.chatbotConversation.None?
    requires log != null ==> s.chatbotConversation == Some(log.lines)
    modifies log
    ensures r == ChatbotNode(s, retrieve, generate)
    ensures log != null && HasQuestion(s) ==>
              |log.lines| >= |old(log.lines)| + 1 &&
              log.lines[..|old(log.lines)| + 1] == old(log.lines) + [UserLine(Question(s))]
    ensures log != null && !HasQuestion(s) ==> log.lines == old(log.lines)
    ensures r.Success? && r.value.update.messages == [Named("chatbot", Replied)] ==>
              r.value.update.chatbotConversation == Some(log.lines)
  {
    if !HasQuestion(s) {
      return Failure("the newest message has no content");
    }
    var question := Question(s);
    if log == null {
      return Success(FailedUpdate(question));
    }
    log.Append(UserLine(question));
    var history := Join(log.lines, "\n");
    var hits := retrieve(history);
    if hits.Failure? {
      return Success(FailedUpdate(question));
    }
    var context := ContextFrom(hits.value);
    var result := generate(ConversationPrompt(context, question, Join(log.lines, "\n")));
    if result.Failure? {
      return Success(FailedUpdate(question));
    }
    ghost var withQuestion := log.lines;
    log.Append(SystemLine(ReplyFrom(result.value)));
    assert log.lines[..|old(log.lines)| + 1] == withQuestion;
    r := Success(RepliedUpdate(log.lines));
  }
}
