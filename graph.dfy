/** `create_workflow_graph` and the engine that runs the compiled graph: a
    closed registry of six steps, the single static edge START -> supervisor,
    and a checkpointer that keeps every thread's states. A run executes the
    current step, merges its update into the state, writes a checkpoint and
    follows the step's `goto` until it reaches END. */
module Graph {
  import opened Common
  import opened AgentState
  import opened Collaborators
  import opened Supervisor
  import opened Extractor
  import opened Validator
  import opened DecisionMaker
  import opened Recommender
  import opened Chatbot

  /** The registered step functions. */
  datatype Step = SupervisorStep | ExtractorStep | ValidatorStep | DecisionMakerStep | RecommenderStep | ChatbotStep

  /** The node registry of the compiled graph. */
  const Registry: map<string, Step> := map[
    "supervisor" := SupervisorStep, "extractor" := ExtractorStep, "validator" := ValidatorStep,
    "decision_maker" := DecisionMakerStep, "recommender" := RecommenderStep, "chatbot" := ChatbotStep]

  /** The graph's virtual start node. */
  const Start := "__start__"

  /** The engine's default bound on the number of steps in one run. */
  const RecursionLimit := 25

  /** The name a step is registered under. */
  function NameOf(step: Step): string {
    match step
    case SupervisorStep => "supervisor"
    case ExtractorStep => "extractor"
    case ValidatorStep => "validator"
    case DecisionMakerStep => "decision_maker"
    case RecommenderStep => "recommender"
    case ChatbotStep => "chatbot"
  }

  /** The registry and the step names are inverse: exactly the six names
      are registered, each for its own step, and END is not a node. */
  lemma RegistryRoundTrip(step: Step, name: string)
    ensures NameOf(step) in Registry && Registry[NameOf(step)] == step
    ensures name in Registry ==> NameOf(Registry[name]) == name
    ensures Registry.Keys == {"supervisor", "extractor", "validator", "decision_maker", "recommender", "chatbot"}
    ensures End !in Registry && Start !in Registry
  {
  }

  /** What a step returns on a state, given the collaborators. Only the
      supervisor and the chatbot can raise; the other steps catch everything. */
  function StepCommand(step: Step, s: State, o: Oracles): Result<Command> {
    match step
    case SupervisorStep => SupervisorNode(s, o.route)
    case ExtractorStep => Success(ExtractorNode(s, o.loadCached, o.extract))
    case ValidatorStep => Success(ValidatorNode(s, o.validate))
    case DecisionMakerStep => Success(DecisionMakerNode(s, o.classify, o.generate))
    case RecommenderStep => Success(RecommenderNode(s, o.generate))
    case ChatbotStep => ChatbotNode(s, o.retrieve, o.generate)
  }

  /** The steps of the graph with the collaborators fixed. */
  function Steps(o: Oracles): (Step, State) -> Result<Command> {
    (step: Step, s: State) => StepCommand(step, s, o)
  }

  /** How a run ends: at END with the final state, with a step's exception,
      at a `goto` naming no node, or at the recursion limit. */
  datatype RunResult =
    | Finished(state: State)
    | Raised(error: string)
    | BadGoto(target: string)
    | LimitReached

  /** A run: the steps that returned, the checkpoint written after each of
      them, and how the run ended. */
  datatype Outcome = Outcome(steps: seq<string>, checkpoints: seq<State>, result: RunResult)

  /** The run from state `s` with `next` to execute and `fuel` steps left;
      `exec` gives each step's command. */
  function Run(nodes: map<string, Step>, exec: (Step, State) -> Result<Command>, s: State, next: string, fuel: nat)
    : (out: Outcome)
    ensures |out.checkpoints| == |out.steps| <= fuel
    decreases fuel
  {
    if next == End then Outcome([], [], Finished(s))
    else if next !in nodes then Outcome([], [], BadGoto(next))
    else if fuel == 0 then Outcome([], [], LimitReached)
    else
      match exec(nodes[next], s)
      case Failure(e) => Outcome([], [], Raised(e))
      case Success(c) =>
        var s' := Merge(s, c.update);
        var rest := Run(nodes, exec, s', c.goto, fuel - 1);
        Outcome([next] + rest.steps, [s'] + rest.checkpoints, rest.result)
  }

  /** One step of a run, unfolded: the step returned `c`, its update is
      merged, and the run continues at `c.goto`. */
  lemma RunStep(nodes: map<string, Step>, exec: (Step, State) -> Result<Command>, s: State, next: string, fuel: nat, c: Command)
    requires next != End && next in nodes && fuel > 0 && exec(nodes[next], s) == Success(c)
    ensures var rest := Run(nodes, exec, Merge(s, c.update), c.goto, fuel - 1);
            Run(nodes, exec, s, next, fuel) == Outcome([next] + rest.steps, [Merge(s, c.update)] + rest.checkpoints, rest.result)
  {
  }

  /** Along a run every checkpoint extends the messages the run started
      with, and so does a finished run's state. */
  lemma {:induction false} RunExtends(nodes: map<string, Step>, exec: (Step, State) -> Result<Command>, s: State, next: string, fuel: nat)
    ensures var out := Run(nodes, exec, s, next, fuel);
            (forall i :: 0 <= i < |out.checkpoints| ==> Extends(s.messages, out.checkpoints[i].messages)) &&
            (out.result.Finished? ==> Extends(s.messages, out.result.state.messages))
    decreases fuel
  {
    if next != End && next in nodes && fuel > 0 && exec(nodes[next], s).Success? {
      var c := exec(nodes[next], s).value;
      var s' := Merge(s, c.update);
      MergeAppendOnly(s, c.update);
      RunExtends(nodes, exec, s', c.goto, fuel - 1);
      RunStep(nodes, exec, s, next, fuel, c);
      var out := Run(nodes, exec, s, next, fuel);
      var rest := Run(nodes, exec, s', c.goto, fuel - 1);
      forall i | 0 <= i < |out.checkpoints| ensures Extends(s.messages, out.checkpoints[i].messages) {
        if i > 0 {
          assert out.checkpoints[i] == rest.checkpoints[i - 1];
          ExtendsTransitive(s.messages, s'.messages, rest.checkpoints[i - 1].messages);
        }
      }
      if out.result.Finished? {
        ExtendsTransitive(s.messages, s'.messages, rest.result.state.messages);
      }
    }
  }

  /** A finished run that executed any step ends in its last checkpoint. */
  lemma {:induction false} FinishedAtLastCheckpoint(nodes: map<string, Step>, exec: (Step, State) -> Result<Command>,
                                                    s: State, next: string, fuel: nat)
    ensures var out := Run(nodes, exec, s, next, fuel);
            out.result.Finished? && |out.checkpoints| > 0 ==> out.result.state == out.checkpoints[|out.checkpoints| - 1]
    decreases fuel
  {
    if next != End && next in nodes && fuel > 0 && exec(nodes[next], s).Success? {
      var c := exec(nodes[next], s).value;
      RunStep(nodes, exec, s, next, fuel, c);
      FinishedAtLastCheckpoint(nodes, exec, Merge(s, c.update), c.goto, fuel - 1);
    }
  }

  /** The steps other than the supervisor, with the most steps a run from
      each of them can take before it ends. */
  const WorkerDepth: map<string, nat> := map[
    "recommender" := 2, "chatbot" := 2, "decision_maker" := 3, "validator" := 4, "extractor" := 5]

  /** What the routing step may answer on `s`: it raises only on a start
      token, it ends the run on a step's message, it forwards a chat query
      to the chatbot, and otherwise names any target (one of its own
      choosing only after a start token). Every answer is one named
      message. */
  predicate SupervisorShape(s: State, r: Result<Command>) {
    (r.Success? ==>
       OnlySays(r.value.update, "supervisor") &&
       (r.value.goto in {End, "supervisor", "chatbot"} || r.value.goto in WorkerDepth ||
        (|s.messages| > 0 && IsStartToken(s.messages[|s.messages| - 1])))) &&
    (|s.messages| > 0 && s.messages[|s.messages| - 1].Named? ==> r.Success? && r.value.goto == End) &&
    (|s.messages| > 0 && IsChatQuery(s.messages[|s.messages| - 1]) ==> r.Success? && r.value.goto == "chatbot")
  }

  /** What a worker may answer: one named message, and a goto to the
      supervisor or to a worker that ends sooner. */
  predicate WorkerShape(name: string, r: Result<Command>)
    requires name in WorkerDepth
  {
    r.Success? ==>
      |r.value.update.messages| == 1 && r.value.update.messages[0].Named? &&
      (r.value.goto == "supervisor" || (r.value.goto in WorkerDepth && WorkerDepth[r.value.goto] < WorkerDepth[name]))
  }

  /** The chatbot answers every named message, and every answer writes the
      conversation log. */
  predicate ChatbotAnswers(s: State, r: Result<Command>) {
    (|s.messages| > 0 && s.messages[|s.messages| - 1].Named? ==> r.Success?) &&
    (r.Success? ==> r.value.update.chatbotConversation.Some?)
  }

  /** The behaviour of the steps that the termination argument needs, for
      any step executor over the registry. */
  ghost predicate Behaves(exec: (Step, State) -> Result<Command>) {
    (forall s: State {:trigger exec(SupervisorStep, s)} :: SupervisorShape(s, exec(SupervisorStep, s))) &&
    (forall name: string, s: State {:trigger exec(Registry[name], s)} ::
       name in WorkerDepth ==> name in Registry && WorkerShape(name, exec(Registry[name], s))) &&
    (forall s: State {:trigger exec(ChatbotStep, s)} :: ChatbotAnswers(s, exec(ChatbotStep, s)))
  }

  /** The supervisor answers as its shape says. */
  lemma SupervisorBehaves(s: State, o: Oracles)
    ensures SupervisorShape(s, Steps(o)(SupervisorStep, s))
  {
    assert Steps(o)(SupervisorStep, s) == SupervisorNode(s, o.route);
  }

  /** The extractor goes to the validator or to the supervisor. */
  lemma ExtractorShape(s: State, o: Oracles)
    ensures WorkerShape("extractor", Steps(o)(ExtractorStep, s))
  {
    assert Steps(o)(ExtractorStep, s) == Success(ExtractorNode(s, o.loadCached, o.extract));
    ExtractorSaysOnce(s, o.loadCached, o.extract);
  }

  /** The validator goes to the decision maker or to the supervisor. */
  lemma ValidatorShape(s: State, o: Oracles)
    ensures WorkerShape("validator", Steps(o)(ValidatorStep, s))
  {
    var c := ValidatorNode(s, o.validate);
    assert Steps(o)(ValidatorStep, s) == Success(c);
    ValidatorSaysOnce(s, o.validate);
    NeverUnsuccessful(s, o.validate);
    assert c.goto in {"supervisor", "decision_maker", "recommender"};
  }

  /** The decision maker goes to the recommender or to the supervisor. */
  lemma DecisionMakerShape(s: State, o: Oracles)
    ensures WorkerShape("decision_maker", Steps(o)(DecisionMakerStep, s))
  {
    var c := DecisionMakerNode(s, o.classify, o.generate);
    DecisionMakerStepIs(s, o);
    DecisionMakerSaysOnce(s, o.classify, o.generate);
    assert c.update.messages == Say("decision_maker", c.update.messages[0].content).messages;
    DecisionMakerCommandShape(c);
  }

  /** The graph's decision-maker step is the decision-maker node. */
  lemma DecisionMakerStepIs(s: State, o: Oracles)
    ensures Steps(o)(DecisionMakerStep, s) == Success(DecisionMakerNode(s, o.classify, o.generate))
  {
    assert !DecisionMakerStep.SupervisorStep? && !DecisionMakerStep.ExtractorStep? && !DecisionMakerStep.ValidatorStep?;
    assert StepCommand(DecisionMakerStep, s, o) == Success(DecisionMakerNode(s, o.classify, o.generate));
    assert Steps(o)(DecisionMakerStep, s) == StepCommand(DecisionMakerStep, s, o);
  }

  /** A decision-maker command of the shape the node gives meets the
      worker shape: the recommender is shallower than the decision maker. */
  lemma DecisionMakerCommandShape(c: Command)
    requires c.goto in {"supervisor", "recommender"}
    requires |c.update.messages| == 1 && c.update.messages[0].Named?
    ensures WorkerShape("decision_maker", Success(c))
  {
    assert WorkerDepth["recommender"] < WorkerDepth["decision_maker"];
  }

  /** The recommender goes to the supervisor. */
  lemma RecommenderShape(s: State, o: Oracles)
    ensures WorkerShape("recommender", Steps(o)(RecommenderStep, s))
  {
    assert Steps(o)(RecommenderStep, s) == Success(RecommenderNode(s, o.generate));
    RecommenderSaysOnce(s, o.generate);
  }

  /** The chatbot goes to the supervisor, and answers every named message. */
  lemma ChatbotShape(s: State, o: Oracles)
    ensures WorkerShape("chatbot", Steps(o)(ChatbotStep, s))
    ensures ChatbotAnswers(s, Steps(o)(ChatbotStep, s))
  {
    assert Steps(o)(ChatbotStep, s) == ChatbotNode(s, o.retrieve, o.generate);
  }

  /** Every worker answers as its shape says. */
  lemma WorkerCommandShape(name: string, s: State, o: Oracles)
    requires name in WorkerDepth
    ensures name in Registry && WorkerShape(name, Steps(o)(Registry[name], s))
  {
    if name == "extractor" {
      ExtractorShape(s, o);
    } else if name == "validator" {
      ValidatorShape(s, o);
    } else if name == "decision_maker" {
      DecisionMakerShape(s, o);
    } else if name == "recommender" {
      RecommenderShape(s, o);
    } else {
      ChatbotShape(s, o);
    }
  }

  /** The graph's own steps behave. */
  lemma StepsBehave(o: Oracles)
    ensures Behaves(Steps(o))
  {
    forall s: State ensures SupervisorShape(s, Steps(o)(SupervisorStep, s)) {
      SupervisorBehaves(s, o);
    }
    forall name: string, s: State | name in WorkerDepth
      ensures name in Registry && WorkerShape(name, Steps(o)(Registry[name], s))
    {
      WorkerCommandShape(name, s, o);
    }
    forall s: State ensures ChatbotAnswers(s, Steps(o)(ChatbotStep, s)) {
      ChatbotShape(s, o);
    }
  }

  /** From a state ending in a named message the supervisor ends the run in
      one step. */
  lemma EndsOnNamed(exec: (Step, State) -> Result<Command>, s: State, fuel: nat)
    requires Behaves(exec) && fuel >= 1 && |s.messages| > 0 && s.messages[|s.messages| - 1].Named?
    ensures var out := Run(Registry, exec, s, "supervisor", fuel);
            out.result.Finished? && |out.steps| == 1
  {
    assert SupervisorShape(s, exec(SupervisorStep, s));
    var c := exec(SupervisorStep, s).value;
    RunStep(Registry, exec, s, "supervisor", fuel, c);
  }

  /** From any worker a run ends within that worker's depth, and never at
      the recursion limit or at an unknown node. */
  lemma {:induction false} WorkerFinishes(exec: (Step, State) -> Result<Command>, name: string, s: State, fuel: nat)
    requires Behaves(exec) && name in WorkerDepth && fuel >= WorkerDepth[name]
    ensures var out := Run(Registry, exec, s, name, fuel);
            !out.result.LimitReached? && !out.result.BadGoto? && |out.steps| <= WorkerDepth[name]
    decreases WorkerDepth[name]
  {
    assert name in Registry && WorkerShape(name, exec(Registry[name], s));
    if exec(Registry[name], s).Success? {
      var c := exec(Registry[name], s).value;
      var s' := Merge(s, c.update);
      RunStep(Registry, exec, s, name, fuel, c);
      assert s'.messages[|s'.messages| - 1] == c.update.messages[0];
      if c.goto == "supervisor" {
        EndsOnNamed(exec, s', fuel - 1);
      } else {
        WorkerFinishes(exec, c.goto, s', fuel - 1);
      }
    }
  }

  /** After the supervisor answered with a named message, the run from any
      registered target or END ends within five steps. */
  lemma AfterSupervisor(exec: (Step, State) -> Result<Command>, s: State, next: string, fuel: nat)
    requires Behaves(exec) && fuel >= 5 && |s.messages| > 0 && s.messages[|s.messages| - 1].Named?
    requires next in {End, "supervisor", "chatbot"} || next in WorkerDepth
    ensures var out := Run(Registry, exec, s, next, fuel);
            !out.result.LimitReached? && !out.result.BadGoto? && |out.steps| <= 5
  {
    if next == "supervisor" {
      EndsOnNamed(exec, s, fuel);
    } else if next != End {
      WorkerFinishes(exec, next, s, fuel);
    }
  }

  /** From the supervisor, a run of well-behaved steps ends within six steps:
      never at the recursion limit, and at an unknown node only when the
      routing model named one after a start token. */
  lemma EngineEnds(exec: (Step, State) -> Result<Command>, s: State)
    requires Behaves(exec)
    ensures var out := Run(Registry, exec, s, "supervisor", RecursionLimit);
            !out.result.LimitReached? && |out.steps| <= 6 &&
            (out.result.BadGoto? ==> |s.messages| > 0 && IsStartToken(s.messages[|s.messages| - 1]))
  {
    assert SupervisorShape(s, exec(SupervisorStep, s));
    if exec(SupervisorStep, s).Success? {
      var c := exec(SupervisorStep, s).value;
      var s' := Merge(s, c.update);
      RunStep(Registry, exec, s, "supervisor", RecursionLimit, c);
      assert s'.messages[|s'.messages| - 1] == c.update.messages[0];
      if c.goto in {End, "supervisor", "chatbot"} || c.goto in WorkerDepth {
        AfterSupervisor(exec, s', c.goto, RecursionLimit - 1);
      }
    }
  }

  /** Every run of the graph from the supervisor ends within six steps,
      whatever the state and whatever the collaborators answer. */
  lemma RunEnds(s: State, o: Oracles)
    ensures var out := Run(Registry, Steps(o), s, "supervisor", RecursionLimit);
            !out.result.LimitReached? && |out.steps| <= 6 &&
            (out.result.BadGoto? ==> |s.messages| > 0 && IsStartToken(s.messages[|s.messages| - 1]))
  {
    StepsBehave(o);
    EngineEnds(Steps(o), s);
  }

  /** A chat query runs the supervisor, the chatbot and the supervisor
      again, and finishes: the chatbot always has the forwarded question. */
  lemma ChatRun(s: State, o: Oracles)
    requires |s.messages| > 0 && IsChatQuery(s.messages[|s.messages| - 1])
    ensures var out := Run(Registry, Steps(o), s, "supervisor", RecursionLimit);
            out.steps == ["supervisor", "chatbot", "supervisor"] && out.result.Finished? &&
            out.result.state.chatbotConversation.Some?
  {
    StepsBehave(o);
    ChatRunOf(Steps(o), s);
  }

  /** The chat run, for any well-behaved steps. */
  lemma ChatRunOf(exec: (Step, State) -> Result<Command>, s: State)
    requires Behaves(exec) && |s.messages| > 0 && IsChatQuery(s.messages[|s.messages| - 1])
    ensures var out := Run(Registry, exec, s, "supervisor", RecursionLimit);
            out.steps == ["supervisor", "chatbot", "supervisor"] && out.result.Finished? &&
            out.result.state.chatbotConversation.Some?
  {
    assert SupervisorShape(s, exec(SupervisorStep, s));
    var c1 := exec(SupervisorStep, s).value;
    RunStep(Registry, exec, s, "supervisor", RecursionLimit, c1);
    var s1 := Merge(s, c1.update);
    assert s1.messages[|s1.messages| - 1] == c1.update.messages[0];
    assert ChatbotAnswers(s1, exec(ChatbotStep, s1));
    var c2 := exec(ChatbotStep, s1).value;
    assert "chatbot" in WorkerDepth && WorkerShape("chatbot", exec(Registry["chatbot"], s1));
    RunStep(Registry, exec, s1, "chatbot", RecursionLimit - 1, c2);
    var s2 := Merge(s1, c2.update);
    assert s2.messages[|s2.messages| - 1] == c2.update.messages[0];
    EndsOnNamed(exec, s2, RecursionLimit - 2);
    var rest := Run(Registry, exec, s2, "supervisor", RecursionLimit - 2);
    assert SupervisorShape(s2, exec(SupervisorStep, s2));
    var c3 := exec(SupervisorStep, s2).value;
    RunStep(Registry, exec, s2, "supervisor", RecursionLimit - 2, c3);
    assert rest.result.state == Merge(s2, c3.update);
  }

  /** The order of checkpoints a history listing gives: newest first. */
  function Reversed(states: seq<State>): (r: seq<State>)
    ensures |r| == |states| && forall i :: 0 <= i < |states| ==> r[i] == states[|states| - 1 - i]
  {
    if states == [] then [] else Reversed(states[1..]) + [states[0]]
  }

  /** The chatbot step of the graph is the chatbot node. */
  lemma StepsChatbot(o: Oracles)
    ensures forall x :: Steps(o)(ChatbotStep, x) == ChatbotNode(x, o.retrieve, o.generate)
  {
    forall x ensures Steps(o)(ChatbotStep, x) == ChatbotNode(x, o.retrieve, o.generate) {
      assert Steps(o)(ChatbotStep, x) == StepCommand(ChatbotStep, x, o);
    }
  }

  /** Executes one step on the state. The chatbot appends to the state's
      own conversation list, which this models as a log object of its own;
      every other step is `exec`. */
  method ExecuteStep(step: Step, s: State, exec: (Step, State) -> Result<Command>,
                     retrieve: string -> Result<seq<string>>, generate: Prompt -> Result<string>)
    returns (c: Result<Command>)
    requires forall x :: exec(ChatbotStep, x) == ChatbotNode(x, retrieve, generate)
    ensures c == exec(step, s)
  {
    if step == ChatbotStep {
      var log: ConversationLog? := null;
      if s.chatbotConversation.Some? {
        log := new ConversationLog(s.chatbotConversation.value);
      }
      c := RunChatbotNode(s, log, retrieve, generate);
    } else {
      c := exec(step, s);
    }
  }

  /** The engine's step loop: execute the node `next` names, merge its
      update into the state, record the checkpoint and follow its `goto`,
      until END, an unknown name, an exception or the recursion limit. */
  method Execute(nodes: map<string, Step>, s: State, first: string, limit: nat, exec: (Step, State) -> Result<Command>,
                 retrieve: string -> Result<seq<string>>, generate: Prompt -> Result<string>)
    returns (out: Outcome)
    requires forall x :: exec(ChatbotStep, x) == ChatbotNode(x, retrieve, generate)
    ensures out == Run(nodes, exec, s, first, limit)
  {
    ghost var whole := Run(nodes, exec, s, first, limit);
    var cur, next, fuel: nat := s, first, limit;
    var steps: seq<string>, cps: seq<State> := [], [];
    var done := false;
    out := Outcome([], [], LimitReached);
    while !done
      invariant !done ==> whole == Continued(steps, cps, Run(nodes, exec, cur, next, fuel))
      invariant done ==> out == whole
      decreases fuel, !done
    {
      if next == End || next !in nodes || fuel == 0 {
        RunStops(nodes, exec, cur, next, fuel, steps, cps);
        out := Outcome(steps, cps, if next == End then Finished(cur) else if next !in nodes then BadGoto(next) else LimitReached);
        done := true;
      } else {
        var c := ExecuteStep(nodes[next], cur, exec, retrieve, generate);
        ContinuedStep(nodes, exec, cur, next, fuel, c, steps, cps);
        if c.Failure? {
          out, done := Outcome(steps, cps, Raised(c.error)), true;
        } else {
          steps, cps := steps + [next], cps + [Merge(cur, c.value.update)];
          cur, next, fuel := Merge(cur, c.value.update), c.value.goto, fuel - 1;
        }
      }
    }
  }

  /** The steps and checkpoints already taken, followed by the rest of a run. */
  function Continued(steps: seq<string>, cps: seq<State>, rest: Outcome): Outcome {
    Outcome(steps + rest.steps, cps + rest.checkpoints, rest.result)
  }

  /** A run that stops before executing anything: at END, at an unknown
      name, or with no fuel left. */
  lemma RunStops(nodes: map<string, Step>, exec: (Step, State) -> Result<Command>, s: State, next: string, fuel: nat,
                 steps: seq<string>, cps: seq<State>)
    requires next == End || next !in nodes || fuel == 0
    ensures Continued(steps, cps, Run(nodes, exec, s, next, fuel)) ==
            Outcome(steps, cps, if next == End then Finished(s) else if next !in nodes then BadGoto(next) else LimitReached)
  {
    assert steps + [] == steps && cps + [] == cps;
  }

  /** Executing one step: an exception ends the run there; otherwise the
      step moves from the rest of the run to the part already taken, and the
      whole run is as it was. */
  lemma ContinuedStep(nodes: map<string, Step>, exec: (Step, State) -> Result<Command>, s: State, next: string, fuel: nat,
                      c: Result<Command>, steps: seq<string>, cps: seq<State>)
    requires next != End && next in nodes && fuel > 0 && exec(nodes[next], s) == c
    ensures c.Failure? ==> Continued(steps, cps, Run(nodes, exec, s, next, fuel)) == Outcome(steps, cps, Raised(c.error))
    ensures c.Success? ==>
              Continued(steps, cps, Run(nodes, exec, s, next, fuel)) ==
              Continued(steps + [next], cps + [Merge(s, c.value.update)],
                        Run(nodes, exec, Merge(s, c.value.update), c.value.goto, fuel - 1))
  {
    if c.Failure? {
      assert steps + [] == steps && cps + [] == cps;
    } else {
      var s' := Merge(s, c.value.update);
      var rest := Run(nodes, exec, s', c.value.goto, fuel - 1);
      RunStep(nodes, exec, s, next, fuel, c.value);
      assert steps + ([next] + rest.steps) == (steps + [next]) + rest.steps;
      assert cps + ([s'] + rest.checkpoints) == (cps + [s']) + rest.checkpoints;
    }
  }

  /** A graph under construction (`StateGraph(AgentState)`). */
  class GraphBuilder {
    var nodes: map<string, Step>
    var edges: seq<(string, string)>

    constructor ()
      ensures nodes == map[] && edges == []
    {
      nodes := map[];
      edges := [];
    }

    /** `add_node(name, step)`; a name already present is refused and nothing
        changes. */
    method AddNode(name: string, step: Step) returns (ok: bool)
      modifies this
      ensures ok <==> old(name !in nodes)
      ensures nodes == if ok then old(nodes)[name := step] else old(nodes)
      ensures edges == old(edges)
    {
      ok := name !in nodes;
      if ok {
        nodes := nodes[name := step];
      }
    }

    /** `add_edge(source, target)` */
    method AddEdge(source: string, target: string)
      modifies this
      ensures edges == old(edges) + [(source, target)] && nodes == old(nodes)
    {
      edges := edges + [(source, target)];
    }

    /** `compile(checkpointer=...)`: a graph whose only edge from START names
        a registered node becomes runnable, with an empty checkpointer. */
    method Compile() returns (w: Workflow?)
      ensures w != null <==> |edges| == 1 && edges[0].0 == Start && edges[0].1 in nodes
      ensures w != null ==> fresh(w) && w.nodes == nodes && w.entry == edges[0].1 && w.saved == map[]
    {
      if |edges| == 1 && edges[0].0 == Start && edges[0].1 in nodes {
        w := new Workflow(nodes, edges[0].1);
      } else {
        w := null;
      }
    }
  }

  /** `create_workflow_graph()`: the six steps, START -> supervisor, and an
      empty checkpointer. */
  method CreateWorkflowGraph() returns (w: Workflow)
    ensures fresh(w) && w.nodes == Registry && w.entry == "supervisor" && w.saved == map[]
  {
    var g := new GraphBuilder();
    var ok := g.AddNode("supervisor", SupervisorStep);
    ok := g.AddNode("extractor", ExtractorStep);
    ok := g.AddNode("validator", ValidatorStep);
    ok := g.AddNode("decision_maker", DecisionMakerStep);
    ok := g.AddNode("recommender", RecommenderStep);
    ok := g.AddNode("chatbot", ChatbotStep);
    g.AddEdge(Start, "supervisor");
    assert g.nodes == Registry;
    var compiled := g.Compile();
    w := compiled;
  }

  /** The compiled graph with its in-memory checkpointer: for each thread id,
      the states saved so far, oldest first. */
  class Workflow {
    const nodes: map<string, Step>
    const entry: string
    var saved: map<string, seq<State>>

    constructor (nodes: map<string, Step>, entry: string)
      ensures this.nodes == nodes && this.entry == entry && saved == map[]
    {
      this.nodes := nodes;
      this.entry := entry;
      saved := map[];
    }

    /** The checkpoints of a thread, oldest first (none for a new thread). */
    function Log(thread: string): seq<State>
      reads this
    {
      if thread in saved then saved[thread] else []
    }

    /** `get_state_history(config)`: the thread's checkpoints, newest first. */
    function History(thread: string): (h: seq<State>)
      reads this
      ensures |h| == |Log(thread)|
      ensures forall i :: 0 <= i < |h| ==> h[i] == Log(thread)[|Log(thread)| - 1 - i]
    {
      Reversed(Log(thread))
    }

    /** `get_state(config)` values: the latest checkpoint, or the empty state
        for a thread without one. */
    function CurrentState(thread: string): (s: State)
      reads this
      ensures |Log(thread)| > 0 ==> s == History(thread)[0]
      ensures |Log(thread)| == 0 ==> s == EmptyState
    {
      if |Log(thread)| > 0 then Log(thread)[|Log(thread)| - 1] else EmptyState
    }

    /** `invoke(input, config)`: the input is merged into the thread's
        current state through the reducers (so its `messages` are appended
        to those already there), the result is checkpointed, and the run
        starts at the entry node; every step that returns writes a
        checkpoint. */
    method Invoke(input: Patch, thread: string, o: Oracles) returns (r: RunResult)
      modifies this
      ensures var s0 := Merge(old(CurrentState(thread)), input);
              var out := Run(nodes, Steps(o), s0, entry, RecursionLimit);
              r == out.result &&
              saved == old(saved)[thread := old(Log(thread)) + [s0] + out.checkpoints]
    {
      var s0 := Merge(CurrentState(thread), input);
      StepsChatbot(o);
      var out := Execute(nodes, s0, entry, RecursionLimit, Steps(o), o.retrieve, o.generate);
      saved := saved[thread := Log(thread) + [s0] + out.checkpoints];
      r := out.result;
    }
  }
}
