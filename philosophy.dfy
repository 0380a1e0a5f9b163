/**
  philosophy-discussion.py: the credential check at module load, two tools
  whose `_run` returns fixed text, five philosopher agents, the task
  template `create_analysis_task`, and `create_philosophical_crew`, which
  builds one task per agent and assigns the agent to it.
 */
module Philosophy {
  import opened Wrappers
  import opened Text
  import opened Setup

  const PHILOSOPHY_TEMPERATURE: real := 0.7
  const TOPIC := "The Nature of Freedom"

  /** Lines 5-15: read the key, raise when it is missing or empty, else build the one LLM every agent shares. */
  function LoadLlm(apiKey: Option<string>): (r: Result<LlmConfig, ConfigError>)
    ensures r.Failure? <==> !ApiKeySet(apiKey)
    ensures r.Success? ==> r.value == LlmConfig(GEMINI_MODEL, apiKey.value, PHILOSOPHY_TEMPERATURE)
  {
    ConfigureGemini(apiKey, PHILOSOPHY_TEMPERATURE)
  }

  /** The two `BaseTool` subclasses; each `_run` returns five fixed lines. */
  datatype AnalyzerTool = HistoricalContext | EthicalImplications {

    function Name(): string {
      match this
      case HistoricalContext => "Historical Context Analyzer"
      case EthicalImplications => "Ethical Implications Analyzer"
    }

    function Description(): string {
      match this
      case HistoricalContext => "Analyzes historical context and influences of philosophical ideas."
      case EthicalImplications => "Analyzes the ethical implications and moral consequences of philosophical ideas."
    }

    function Lines(): seq<Line> {
      match this
      case HistoricalContext => [HISTORICAL_HEADER, HISTORICAL_PERIOD, HISTORICAL_EVENTS, HISTORICAL_SOCIETY, HISTORICAL_COMPARISON]
      case EthicalImplications => [ETHICAL_HEADER, ETHICAL_INDIVIDUALS, ETHICAL_SOCIETY, ETHICAL_CONSEQUENCES, ETHICAL_DILEMMAS]
    }

    /** `_run(argument)`: the lines joined with "\n"; the argument is only printed. */
    function Run(argument: string): string {
      Join(Lines(), "\n")
    }
  }

  /** One line of a tool's report: text without a line break. */
  type Line = s: string | '\n' !in s witness ""

  /** The lines of the two tools' reports (philosophy-discussion.py:28-32, 43-47). */
  const HISTORICAL_HEADER: Line := "Historical Context Analysis:"
  const HISTORICAL_PERIOD: Line := "- Time period and cultural background"
  // One line of text, written in two pieces.
  const HISTORICAL_EVENTS: Line := "- Key historical events" + " influencing the philosophy"
  const HISTORICAL_SOCIETY: Line := "- Social and political context"
  const HISTORICAL_COMPARISON: Line := "- Cross-cultural comparisons"
  const ETHICAL_HEADER: Line := "Ethical Implications Analysis:"
  const ETHICAL_INDIVIDUALS: Line := "- Moral implications for individuals"
  const ETHICAL_SOCIETY: Line := "- Societal impact analysis"
  const ETHICAL_CONSEQUENCES: Line := "- Potential consequences"
  const ETHICAL_DILEMMAS: Line := "- Ethical dilemmas"

  lemma LinesHaveNoNewline(tool: AnalyzerTool)
    ensures |tool.Lines()| == 5
    ensures forall k :: 0 <= k < 5 ==> !Contains(tool.Lines()[k], "\n")
  {
    forall k | 0 <= k < 5 ensures !Contains(tool.Lines()[k], "\n") {
      AbsentFirstChar(tool.Lines()[k], "\n");
    }
  }

  /**
    A tool's output does not depend on its argument, and splitting it at
    newlines gives back its five lines, the first being the analysis header.
   */
  lemma RunIsFixedText(tool: AnalyzerTool, argument: string, other: string)
    ensures tool.Run(argument) == tool.Run(other)
    ensures Split(tool.Run(argument), "\n") == tool.Lines()
    ensures |tool.Lines()| == 5
    ensures tool.HistoricalContext? ==> tool.Lines()[0] == "Historical Context Analysis:"
    ensures tool.EthicalImplications? ==> tool.Lines()[0] == "Ethical Implications Analysis:"
  {
    LinesHaveNoNewline(tool);
    SplitJoin(tool.Lines(), "\n");
  }

  /** The five personas of lines 52-115. */
  datatype Persona = ZenMaster | StoicPhilosopher | MachiavellianStrategist | NietzscheanCritic | ExistentialistThinker {

    function Role(): string {
      match this
      case ZenMaster => "Zen Master"
      case StoicPhilosopher => "Stoic Philosopher"
      case MachiavellianStrategist => "Machiavellian Strategist"
      case NietzscheanCritic => "Nietzschean Critic"
      case ExistentialistThinker => "Existentialist Thinker"
    }

    function Goal(): string {
      match this
      case ZenMaster =>
        "Analyze topics from a Zen Buddhist perspective, focusing on mindfulness, emptiness, and direct experience."
      case StoicPhilosopher =>
        "Analyze topics from a Stoic perspective, focusing on virtue, reason, and acceptance of nature."
      case MachiavellianStrategist =>
        "Analyze topics from a pragmatic, realpolitik perspective, focusing on power, strategy, and effectiveness."
      case NietzscheanCritic =>
        "Analyze topics from a Nietzschean perspective, focusing on power, will, and the critique of morality."
      case ExistentialistThinker =>
        "Analyze topics from an existentialist perspective, focusing on freedom, choice, and individual existence."
    }

    /** Adjacent literals in the source are joined without a space, as Python does. */
    function Backstory(): string {
      match this
      case ZenMaster =>
        "You are a Zen master with deep understanding of Zen Buddhism. You emphasize direct experience,"
        + "mindfulness, and the nature of reality. You focus on practical wisdom and the path of enlightenment."
      case StoicPhilosopher =>
        "You are a Stoic philosopher in the tradition of Marcus Aurelius and Epictetus. You emphasize"
        + "virtue, reason, and living in accordance with nature. You focus on what can be controlled."
      case MachiavellianStrategist =>
        "You are a political strategist in the tradition of Machiavelli. You prioritize practical outcomes,"
        + "strategic thinking, and the effective use of power. You focus on results over idealism."
      case NietzscheanCritic =>
        "You are a critic in the tradition of Friedrich Nietzsche. You question traditional values,"
        + "emphasize the will to power, and critique moral dogmatism. You focus on individual strength."
      case ExistentialistThinker =>
        "You are a thinker in the tradition of Sartre and Camus. You emphasize individual freedom,"
        + "authenticity, and the meaning of existence. You focus on personal responsibility."
    }
  }

  /**
    A crewai `Agent` as this script configures it: a persona, no delegation,
    no tools (the two analyzer tools are defined but never attached), and
    the shared LLM. Never changed after construction.
   */
  datatype Agent = Agent(persona: Persona, allowDelegation: bool, tools: seq<AnalyzerTool>, llm: LlmConfig)

  /** The `agents` list of `create_philosophical_crew`, in its order. */
  function Philosophers(llm: LlmConfig): (agents: seq<Agent>)
    ensures |agents| == 5
    ensures forall i :: 0 <= i < 5 ==> agents[i].llm == llm && !agents[i].allowDelegation && agents[i].tools == []
    ensures forall i, j :: 0 <= i < j < 5 ==> agents[i].persona != agents[j].persona
  {
    [ Agent(ZenMaster, false, [], llm),
      Agent(StoicPhilosopher, false, [], llm),
      Agent(MachiavellianStrategist, false, [], llm),
      Agent(NietzscheanCritic, false, [], llm),
      Agent(ExistentialistThinker, false, [], llm) ]
  }

  /**
    Importing the script: the credential check and LLM of lines 5-15, then
    the five agents of lines 53-115. A raise at line 8 ends the import, so
    no agent exists unless the key was set, and every agent carries it.
   */
  function LoadModule(apiKey: Option<string>): (r: Result<seq<Agent>, ConfigError>)
    ensures r.Failure? <==> !ApiKeySet(apiKey)
    ensures r.Failure? ==> r.error == ApiKeyNotSet
    ensures r.Success? ==> r.value == Philosophers(LoadLlm(apiKey).value)
    ensures r.Success? ==> forall a :: a in r.value ==> a.llm.apiKey == apiKey.value && a.llm.apiKey != ""
  {
    match LoadLlm(apiKey)
    case Failure(e) => Failure(e)
    case Success(llm) => Success(Philosophers(llm))
  }

  /** A crewai `Task`; the crew loop assigns `agent` after construction. */
  class Task {
    const description: string
    const expectedOutput: string
    var agent: Option<Agent>

    constructor (description: string, expectedOutput: string, agent: Option<Agent>)
      ensures this.description == description && this.expectedOutput == expectedOutput
      ensures this.agent == agent
    {
      this.description := description;
      this.expectedOutput := expectedOutput;
      this.agent := agent;
    }
  }

  const DESCRIPTION_PREFIX := "Analyze the philosophical topic: "
  const DESCRIPTION_SUFFIX :=
    " from the perspective of your philosophical tradition."
    + "Consider the following aspects:"
    + "1. Core principles and beliefs"
    + "2. Practical applications"
    + "3. Modern relevance"
    + "4. Potential challenges or limitations"

  const ANALYSIS_EXPECTED_OUTPUT :=
    "A comprehensive analysis including:"
    + "- Key philosophical insights"
    + "- Practical implications"
    + "- Critical perspectives"
    + "- Integration with modern context"

  /** The f-string description of `create_analysis_task(topic)`. */
  function AnalysisDescription(topic: string): string {
    DESCRIPTION_PREFIX + "'" + topic + "'" + DESCRIPTION_SUFFIX
  }

  /** The description quotes the topic in single quotes, right after the fixed prefix. */
  lemma DescriptionQuotesTopic(topic: string)
    ensures OccursAt(AnalysisDescription(topic), "'" + topic + "'", |DESCRIPTION_PREFIX|)
    ensures Contains(AnalysisDescription(topic), "'" + topic + "'")
  {
    QuotedBetween(DESCRIPTION_PREFIX, topic, DESCRIPTION_SUFFIX);
    ContainsWitness(AnalysisDescription(topic), "'" + topic + "'", |DESCRIPTION_PREFIX|);
  }

  lemma QuotedBetween(prefix: string, topic: string, suffix: string)
    ensures OccursAt(prefix + "'" + topic + "'" + suffix, "'" + topic + "'", |prefix|)
  {
    var d, quoted := prefix + "'" + topic + "'" + suffix, "'" + topic + "'";
    assert d == prefix + quoted + suffix;
    assert d[|prefix|..|prefix| + |quoted|] == quoted;
  }

  /** Different topics give different descriptions: the topic can be read back. */
  lemma DescriptionDeterminesTopic(topic: string, other: string)
    requires AnalysisDescription(topic) == AnalysisDescription(other)
    ensures topic == other
  {
    TopicReadBack(DESCRIPTION_PREFIX, topic, other, DESCRIPTION_SUFFIX);
  }

  lemma TopicReadBack(prefix: string, topic: string, other: string, suffix: string)
    requires prefix + "'" + topic + "'" + suffix == prefix + "'" + other + "'" + suffix
    ensures topic == other
  {
    var d := prefix + "'" + topic + "'" + suffix;
    var n := |prefix| + 1;
    assert d[n..n + |topic|] == topic;
    assert (prefix + "'" + other + "'" + suffix)[n..n + |other|] == other;
  }

  /** `create_analysis_task(topic)`: a new task with the template text and no agent yet. */
  method CreateAnalysisTask(topic: string) returns (task: Task)
    ensures fresh(task)
    ensures task.description == AnalysisDescription(topic)
    ensures task.expectedOutput == ANALYSIS_EXPECTED_OUTPUT
    ensures task.agent == None
  {
    task := new Task(AnalysisDescription(topic), ANALYSIS_EXPECTED_OUTPUT, None);
  }

  /** The `Crew(agents=..., tasks=..., process=...)` the factory returns. */
  datatype Crew = Crew(agents: seq<Agent>, tasks: seq<Task>, process: Process)

  /**
    `create_philosophical_crew`: for each agent in order, a new task for
    "The Nature of Freedom" with that agent assigned. The crew runs
    sequentially, whatever the comment beside `process=` says.
   */
  method CreatePhilosophicalCrew(llm: LlmConfig) returns (crew: Crew)
    ensures crew.agents == Philosophers(llm)
    ensures |crew.tasks| == |crew.agents| == 5
    ensures forall i :: 0 <= i < |crew.tasks| ==>
      && fresh(crew.tasks[i])
      && crew.tasks[i].agent == Some(crew.agents[i])
      && crew.tasks[i].description == AnalysisDescription(TOPIC)
      && crew.tasks[i].expectedOutput == ANALYSIS_EXPECTED_OUTPUT
    ensures forall i, j :: 0 <= i < j < |crew.tasks| ==> crew.tasks[i] != crew.tasks[j]
    ensures crew.process == Sequential
  {
    var agents := Philosophers(llm);
    var tasks: seq<Task> := [];
    for k := 0 to |agents|
      invariant |tasks| == k
      invariant forall i :: 0 <= i < k ==>
        && fresh(tasks[i])
        && tasks[i].agent == Some(agents[i])
        && tasks[i].description == AnalysisDescription(TOPIC)
        && tasks[i].expectedOutput == ANALYSIS_EXPECTED_OUTPUT
      invariant forall i, j :: 0 <= i < j < k ==> tasks[i] != tasks[j]
    {
      var task := CreateAnalysisTask(TOPIC);
      task.agent := Some(agents[k]);
      tasks := tasks + [task];
    }
    crew := Crew(agents, tasks, Sequential);
  }
}
