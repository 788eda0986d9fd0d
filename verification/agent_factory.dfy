/**
 * The agent registry: a map from subtask type to agent class, and a cache
 * holding at most one instance per type. Instances are told apart by a
 * serial number, which stands for object identity.
 */
module AgentFactory {
  import opened Wrappers

  datatype AgentClass =
    | PlannerAgent
    | WebResearchAgent
    | DataAnalysisAgent
    | CodeGenerationAgent
    | ContentCreationAgent
    | OtherAgent(name: string)

  /** `agent.__class__.__name__` */
  function ClassName(c: AgentClass): string {
    match c
    case PlannerAgent => "PlannerAgent"
    case WebResearchAgent => "WebResearchAgent"
    case DataAnalysisAgent => "DataAnalysisAgent"
    case CodeGenerationAgent => "CodeGenerationAgent"
    case ContentCreationAgent => "ContentCreationAgent"
    case OtherAgent(name) => name
  }

  /** One agent object. */
  datatype Agent = Agent(cls: AgentClass, serial: nat)

  datatype Factory = Factory(types: map<string, AgentClass>, cache: map<string, Agent>, nextSerial: nat)

  /** Every cached instance belongs to a registered type, is of that type's class, and was issued earlier. */
  predicate Valid(f: Factory) {
    forall t :: t in f.cache ==> t in f.types && f.cache[t].cls == f.types[t] && f.cache[t].serial < f.nextSerial
  }

  /** The registry an `AgentFactory()` starts with, and an empty cache. */
  function Initial(): (f: Factory)
    ensures Valid(f) && f.cache == map[]
  {
    Factory(map[
      "planner" := PlannerAgent,
      "web_research" := WebResearchAgent,
      "data_analysis" := DataAnalysisAgent,
      "code_generation" := CodeGenerationAgent,
      "content_creation" := ContentCreationAgent,
      "general_execution" := WebResearchAgent,
      "result_orchestration" := DataAnalysisAgent], map[], 0)
  }

  /** Seven types are registered; two of them reuse another type's class. */
  lemma InitialRegistry()
    ensures |Initial().types| == 7
    ensures Initial().types["general_execution"] == WebResearchAgent
    ensures Initial().types["result_orchestration"] == DataAnalysisAgent
  {
    var keys := Initial().types.Keys;
    assert keys == {"planner", "web_research", "data_analysis", "code_generation",
                    "content_creation", "general_execution", "result_orchestration"};
  }

  /**
   * `get_agent(agent_type)`: the cached instance if there is one; `None`
   * for an unregistered type; otherwise a new instance, which is cached.
   */
  function GetAgent(f: Factory, t: string): (r: (Factory, Option<Agent>))
    requires Valid(f)
    ensures Valid(r.0) && r.0.types == f.types
    ensures r.1.None? <==> t !in f.types
    ensures r.1.Some? ==> r.1.value.cls == f.types[t] && t in r.0.cache && r.0.cache[t] == r.1.value
    ensures t in f.cache ==> r == (f, Some(f.cache[t]))
    ensures t !in f.cache && t in f.types ==> r.1.value.serial == f.nextSerial
    ensures r.1.None? ==> r.0 == f
    ensures r.0.cache == (if r.1.Some? then f.cache[t := r.1.value] else f.cache)
  {
    if t in f.cache then (f, Some(f.cache[t]))
    else if t !in f.types then (f, None)
    else
      var agent := Agent(f.types[t], f.nextSerial);
      (f.(cache := f.cache[t := agent], nextSerial := f.nextSerial + 1), Some(agent))
  }

  /** Asking twice for the same type yields the same instance and leaves the factory as the first call did. */
  lemma GetAgentCached(f: Factory, t: string)
    requires Valid(f)
    ensures var (f1, a1) := GetAgent(f, t);
      var (f2, a2) := GetAgent(f1, t);
      a2 == a1 && f2 == f1
  {
  }

  /** `get_agent` adds at most the requested type to the cache; other entries stay as they were. */
  lemma GetAgentTouchesOnlyRequested(f: Factory, t: string, u: string)
    requires Valid(f) && u != t
    ensures var f1 := GetAgent(f, t).0;
      (u in f1.cache <==> u in f.cache) && (u in f.cache ==> f1.cache[u] == f.cache[u])
  {
  }

  /** `register_agent_type(agent_type, agent_class)`: sets the mapping and evicts that type's cached instance. */
  function Register(f: Factory, t: string, cls: AgentClass): (r: Factory)
    requires Valid(f)
    ensures Valid(r)
    ensures r.types == f.types[t := cls]
    ensures t !in r.cache
    ensures forall u :: u != t ==> (u in r.cache <==> u in f.cache)
    ensures forall u :: u != t && u in f.cache ==> r.cache[u] == f.cache[u]
  {
    f.(types := f.types[t := cls], cache := f.cache - {t})
  }

  /** After registering, the next request for that type gets a new instance of the new class. */
  lemma RegisterThenGet(f: Factory, t: string, cls: AgentClass)
    requires Valid(f)
    ensures var a := GetAgent(Register(f, t, cls), t).1;
      a.Some? && a.value.cls == cls && a.value.serial == f.nextSerial
      && forall u :: u in f.cache ==> f.cache[u] != a.value
  {
  }
}
