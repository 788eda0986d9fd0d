# Autonomous AI agent: task-execution engine in Dafny

This project models the core of the autonomous-ai-agent service. A task is a
text request. The orchestrator turns it into a plan of subtasks, one per
worker type, with dependencies between them. It then runs the subtasks in
waves, handing each to the agent registered for its type, and writes a final
summary. Around that core the model covers:

- the data model (`Subtask`, `TaskResponse`, the execution log) and its JSON
  rendering;
- the planner's text plan, its parser and the fallback plan;
- the agent registry and the simulated agents;
- container-isolated execution;
- the replay of a finished task from its execution log, over HTTP and over a
  websocket;
- the small pieces around them: environment configuration, CORS policy and
  the MCP task service.

Everything is pure. The clock is an integer parameter, and the subtask ids
and container ids the program draws from `uuid4` are supplied by the caller.
Redis is a map from key to stored text. The Docker daemon is a parameter
saying whether each call succeeds. The agents' simulated sleeps have no
duration. The order in which concurrent subtasks finish is an input sequence
of finish events.

The modules follow the program:

| file | module | models |
|---|---|---|
| wrappers.dfy | Wrappers | `Option` and `Result` |
| seqs.dfy, strings.dfy, sorting.dfy | Seqs, Strings, Sorting | sequence and text helpers, Python's `str` methods, `sorted` |
| models.dfy | Models | `src/models/task.py`, `src/utils/json_utils.py` |
| config.dfy | Config | `src/config/environment.py`, `src/config/cors_config.py` |
| agent_factory.dfy | AgentFactory | `src/agents/agent_factory.py` |
| base_agent.dfy | BaseAgent | `src/agents/base_agent.py` |
| planner.dfy | Planner | `src/agents/planner_agent.py` |
| data_analysis.dfy, content_creation.dfy, code_generation.dfy | DataAnalysis, ContentCreation, CodeGeneration | the three simulated worker agents |
| plan_parse.dfy, plan_round_trip.dfy, plan_task_props.dfy | PlanParser, PlanRoundTrip, PlanTaskProperties | `Orchestrator.plan_task`, `_basic_plan_task` |
| containers.dfy | Containers | `src/utils/container_manager.py` |
| subtask_run.dfy | SubtaskRun | `Orchestrator._execute_subtask` |
| summary.dfy | Summary | `Orchestrator._generate_final_result` |
| scheduler.dfy, scheduler_props.dfy, scheduler_claims.dfy | Scheduler, SchedulerProperties, SchedulerClaims | the wave loop of `Orchestrator.execute_task` |
| execution.dfy | TaskExecution | `Orchestrator.execute_task` end to end, as written and corrected |
| replay.dfy | Replay | the replay, delete and live-log endpoints of `src/api/app.py` |
| replay_socket.dfy | ReplaySocket | the replay websocket of `src/api/app.py` |
| standalone_run.dfy, standalone_replay.dfy | StandaloneRun, StandaloneReplay | `standalone_server.py` |
| mcp.dfy | Mcp | `mcp.py` |

## Model

| member | source | states |
|---|---|---|
| Models.ParseStatus | src/models/task.py:67-71 | a value that names a status names the status whose value it is |
| Models.StatusValueRoundTrip | src/models/task.py:67-71 | every status is recovered from its string value |
| Models.StatusValuesAreFour | src/models/task.py:67-71 | exactly the four strings pending, in_progress, completed and failed name a status |
| Models.Subtask.DependencyIds | src/models/task.py:37 | an absent dependency list reads as no dependencies; otherwise the ids are the listed ones, in order |
| Models.NewSubtask | src/models/task.py:29-40 | a new subtask has the given id, type, status and description, no result, error, dependencies or container, zero progress, and both timestamps at the creation time |
| Models.NewTaskRequest | src/models/task.py:57-61 | a request built from a task text has an empty context, priority 1 and no agent type |
| Models.AsIso | src/models/task.py:52 | rendering a timestamp gives ISO text for the same instant |
| Models.AsDateTime | src/models/task.py:39-40 | loading a timestamp gives a datetime for the same instant |
| Models.SubtaskDict | src/models/task.py:47-55 | the rendered subtask holds ISO text in both timestamps, for the same instants, and every other field unchanged |
| Models.LoadSubtask | src/models/task.py:29-40 | loading a rendered subtask gives datetimes in both timestamps and changes nothing else |
| Models.SubtaskDictRoundTrip | src/models/task.py:47-55 | rendering a subtask and loading it back gives the same subtask |
| Models.SubtaskDictIdempotent | src/models/task.py:51-54 | rendering an already rendered subtask changes nothing |
| Models.TaskDict | src/models/task.py:89-104 | the rendered task has ISO timestamps, the same number of subtasks, each of them rendered, and every other field unchanged |
| Models.TaskDictFullyRendered | src/models/task.py:97-103 | no datetime is left anywhere in a rendered task, nested subtasks included |
| Models.PlainDumps | src/core/orchestrator.py:378 | the default JSON encoder fails exactly when some log record still holds a datetime, and otherwise writes the records unchanged |
| Models.EncoderDumps | src/utils/json_utils.py:5-14 | the datetime-aware encoder writes every record, in order, with its timestamp as ISO text, so no datetime is left |
| Models.EncodersAgreeWithoutDatetimes | src/utils/json_utils.py:5-14 | on a log without datetimes the two encoders write the same records |
| Config.Getenv | src/config/environment.py:17 | a set variable reads as its value, an unset one as the default |
| Config.ParseUnsigned | src/config/environment.py:22 | a number is read exactly when the text is decimal digits with single underscores between digits |
| Config.ParseIntText | src/config/environment.py:22 | the decimal text of any integer reads back as that integer, so each default literal gives its number |
| Config.ParseIntIgnoresPadding | src/config/environment.py:22 | surrounding whitespace does not change what is read |
| Config.IntSetting | src/config/environment.py:22 | an unset variable gives the default; a set one gives its number, or an invalid-integer error naming the variable exactly when the text does not parse |
| Config.ReadInts | src/config/environment.py:22-39 | reading fails exactly when some listed variable holds text that does not parse, and the error names such a variable; on success there is one value per setting, each the setting's own reading |
| Config.ReadIntsStopsAtFirstBad | src/config/environment.py:22-39 | a failed reading reports the first malformed setting in listing order, with its name and text |
| Config.GetEnvConfig | src/config/environment.py:8-40 | the configuration fails exactly when some integer variable is malformed, and then with the first malformed one in the order the settings are listed; otherwise every one of the thirteen settings comes from its own variable, with its documented default, the two flags true exactly when their lower-cased text is `true` |
| Config.GetEnvConfigDefaults | src/config/environment.py:15-40 | with nothing set, every setting takes its documented default |
| Config.AllowedOrigins | src/config/cors_config.py:8-27 | outside production every origin is allowed; in production the origins, joined by commas, give back ALLOWED_ORIGINS or the default origin |
| Config.GetCorsConfig | src/config/cors_config.py:29-41 | credentials are always allowed; methods and headers are unrestricted outside production and the fixed lists in production |
| Config.ProductionOriginsArePieces | src/config/cors_config.py:21-24 | in production, a comma-joined list of comma-free origins is read back as exactly that list |
| Config.ProductionDefaultOrigin | src/config/cors_config.py:23-24 | in production without ALLOWED_ORIGINS, only the default origin is allowed |
| AgentFactory.Initial | src/agents/agent_factory.py:16-29 | a new factory has an empty cache and a valid registry |
| AgentFactory.InitialRegistry | src/agents/agent_factory.py:18-26 | seven types are registered, general_execution with the web-research class and result_orchestration with the data-analysis class |
| AgentFactory.GetAgent | src/agents/agent_factory.py:31-58 | no agent exactly for an unregistered type; a cached instance is returned as is; otherwise a new instance of the registered class is made and cached; the registry never changes |
| AgentFactory.GetAgentCached | src/agents/agent_factory.py:41-43 | a second request for a type returns the same instance and changes nothing |
| AgentFactory.GetAgentTouchesOnlyRequested | src/agents/agent_factory.py:50-56 | a request caches at most the requested type and leaves every other cache entry alone |
| AgentFactory.Register | src/agents/agent_factory.py:60-73 | registering maps the type to the new class, evicts only that type's cached instance and keeps the factory valid |
| AgentFactory.RegisterThenGet | src/agents/agent_factory.py:60-73 | after registering, the next request gets a new instance of the new class, distinct from every cached one |
| BaseAgent.Clamp | src/agents/base_agent.py:46 | progress is kept between 0 and 1: values inside are unchanged, values below become 0, values above become 1 |
| BaseAgent.ClampIdempotent | src/agents/base_agent.py:46 | clamping a clamped value changes nothing |
| BaseAgent.ClampMonotone | src/agents/base_agent.py:46 | clamping keeps the order of progress values |
| BaseAgent.UpdateProgress | src/agents/base_agent.py:31-55 | the update clamps progress, stamps the time, overwrites result and error only when a value is passed, and leaves every other field alone |
| BaseAgent.UpdateProgressIdempotent | src/agents/base_agent.py:31-55 | repeating an update with the same arguments has no further effect |
| BaseAgent.StepProgress | src/agents/data_analysis_agent.py:42-45 | every step reports progress strictly between 0 and 1 |
| BaseAgent.StepProgressIncreasing | src/agents/data_analysis_agent.py:43-45 | later steps report more progress |
| BaseAgent.AfterSteps | src/agents/data_analysis_agent.py:43-46 | after k steps the progress is step k's and the result names that step; status, error and identity are untouched |
| BaseAgent.RunSimulated | src/agents/data_analysis_agent.py:28-69 | without a fault the subtask ends completed at progress 1 with the output; with one it ends failed with the prefixed message and the progress of the last step reached |
| BaseAgent.ContextTask | src/agents/content_creation_agent.py:52 | the agent works from the context's task text, or from the empty text when there is no context or no task |
| DataAnalysis.FirstResearch | src/agents/data_analysis_agent.py:77-81 | no research exactly when no entry is a web_research entry with a non-empty result; otherwise the first such entry's result |
| DataAnalysis.ResearchIn | src/agents/data_analysis_agent.py:76-81 | research is looked for only when the context carries subtask results |
| DataAnalysis.SimulatedResults | src/agents/data_analysis_agent.py:71-87 | with research the report opens with the AI-trends heading, without it with the preliminary heading, followed by that report's prose |
| DataAnalysis.ResearchTextIgnored | src/agents/data_analysis_agent.py:89-129 | the research-based report does not depend on what the research says |
| DataAnalysis.HeadingsDistinguishReports | src/agents/data_analysis_agent.py:84-87 | the report opens with the AI-trends heading exactly when research was found |
| DataAnalysis.Execute | src/agents/data_analysis_agent.py:15-69 | five steps, then completed with the report, or failed with the data-analysis error prefix and the progress the fault left |
| ContentCreation.FormOf | src/agents/content_creation_agent.py:76-82 | blog when the lower-cased text mentions blog; report when it mentions report but not blog; email when it mentions email or newsletter and neither of those; an article otherwise |
| ContentCreation.TopicOf | src/agents/content_creation_agent.py:85-91 | climate change for climate or environment; emerging technologies for technology or tech otherwise; health and wellness for health or wellness after those; artificial intelligence otherwise |
| ContentCreation.GenerateContent | src/agents/content_creation_agent.py:71-104 | the content opens with a top-level heading holding the chosen form's title for the chosen topic, followed by the prose |
| ContentCreation.EmptyDescriptionDefaults | src/agents/content_creation_agent.py:76-91 | without a task text the agent writes an article on artificial intelligence |
| ContentCreation.ClassificationIgnoresCase | src/agents/content_creation_agent.py:77-90 | case does not matter to the form or the topic |
| ContentCreation.Execute | src/agents/content_creation_agent.py:15-69 | five steps, then completed with the content for the context's task text, or failed with the content-creation error prefix |
| CodeGeneration.LanguageOf | src/agents/code_generation_agent.py:74-79 | JavaScript exactly when the lower-cased text contains javascript or js; Java when it contains java but neither of those; Python otherwise |
| CodeGeneration.GenerateCode | src/agents/code_generation_agent.py:70-295 | the solution opens with the fixed frame, then the chosen language's heading and listing, and ends with the usage instructions |
| CodeGeneration.JsonSelectsJavaScript | src/agents/code_generation_agent.py:76 | text mentioning JSON gets a JavaScript solution, since js occurs in json |
| CodeGeneration.OnlyChosenHeading | src/agents/code_generation_agent.py:83-198 | the solution opens with the chosen language's heading and with no other language's |
| CodeGeneration.Execute | src/agents/code_generation_agent.py:14-68 | five steps, then completed with the solution for the context's task text, or failed with the code-generation error prefix |
| Planner.AnalyzeTask | src/agents/planner_agent.py:61-131 | the plan is of medium complexity, takes 10-15 minutes, has at least two steps, and ends with result orchestration at priority 5, depending on every step before it |
| Planner.AnalyzeTaskRules | src/agents/planner_agent.py:81-121 | the plan has web research, data analysis, code generation or content creation exactly when the lower-cased task mentions one of that rule's keywords, and the general step exactly when no rule fires |
| Planner.AnalysisDependency | src/agents/planner_agent.py:90-96 | the data-analysis step depends on web research, at priority 2, exactly when the task mentions research; otherwise it has no dependency and priority 1 |
| Planner.CodeDependency | src/agents/planner_agent.py:98-104 | the code-generation step depends on data analysis, at priority 3, exactly when the task mentions analyze; otherwise it has no dependency and priority 1 |
| Planner.ContentDependencies | src/agents/planner_agent.py:106-112 | the content-creation step always lists all three producers, at priority 4, whether or not they are planned |
| Planner.ItemsFromRules | src/agents/planner_agent.py:81-129 | every step comes from a keyword rule or is the general or closing step |
| Planner.AnalyzeTaskDistinct | src/agents/planner_agent.py:81-129 | no subtask type appears twice in a plan |
| Planner.Ordered | src/agents/planner_agent.py:151 | the listed steps are a reordering of the plan's steps |
| Planner.PlanLines | src/agents/planner_agent.py:143-162 | the rendered plan has seven header lines and five lines per step |
| Planner.Execute | src/agents/planner_agent.py:17-59 | without a task description the planning subtask fails at progress 0 with the planning error; otherwise it completes at progress 1 with the rendered plan for the task |
| Sorting.SortBy | src/agents/planner_agent.py:151 | the sorted items are a permutation of the input |
| Sorting.SortBySorted | src/agents/planner_agent.py:151 | the sorted items are in key order |
| Sorting.SortByStable | src/agents/planner_agent.py:151 | items with equivalent keys keep their input order |
| Sorting.SortBySortedInput | src/agents/planner_agent.py:151 | items already in key order come back unchanged |
| Strings.Title | src/agents/planner_agent.py:154 | a letter is upper-cased when it starts a run of letters and lower-cased otherwise |
| Strings.LowerOfTitle | src/agents/planner_agent.py:154 | lower-casing undoes title case |
| Strings.ReplaceCharBack | src/core/orchestrator.py:117 | replacing a character and replacing it back gives the original text when the replacement did not occur in it |
| Strings.Find | src/core/orchestrator.py:122 | the first offset of the pattern, present exactly when the pattern occurs |
| Strings.Split | src/core/orchestrator.py:112 | there is one more piece than occurrences, so more than one exactly when the separator occurs |
| Strings.JoinSplit | src/config/cors_config.py:24 | joining the pieces of a split with the separator gives the text back |
| Strings.SplitJoin | src/core/orchestrator.py:112 | splitting pieces joined by a separator that none of them contains gives the pieces back |
| Strings.StripByExact | src/core/orchestrator.py:115 | stripping removes exactly the surrounding characters of a core that neither starts nor ends with one |
| Strings.Words | mcp.py:50 | the whitespace-separated tokens are all non-empty and hold no whitespace |
| Strings.WordsOfSpaces | mcp.py:50 | a string of whitespace alone splits into no tokens |
| Strings.WordsOfWord | mcp.py:50 | a non-empty string without whitespace is a single token |
| Strings.WordsSplitAtSpace | mcp.py:50 | a whitespace character separates tokens: the tokens on either side of it are kept in order and never merged, which with the two rows above fixes the split of every string |
| Strings.IntText | src/agents/planner_agent.py:162 | the decimal text of a number is non-empty, digits with an optional minus sign |
| Strings.LexLeTotal | src/api/app.py:188 | any two strings are ordered one way or the other |
| Strings.LexLeTransitive | src/api/app.py:188 | string order is transitive |
| PlanParser.ValidateTask | src/core/orchestrator.py:50-68 | a task is accepted exactly when its description is non-empty and at most 10000 characters long |
| PlanParser.ParseLine | src/core/orchestrator.py:112-125 | a heading line can only add one type at the end and leaves the dependencies alone; any other line keeps the types; a line that is neither a heading nor a dependencies line changes nothing |
| PlanParser.ParseLines | src/core/orchestrator.py:112-125 | the parse keeps every type already read, in order, and only records dependencies for types it has read |
| PlanParser.ParsePlanText | src/core/orchestrator.py:105-125 | every type with recorded dependencies was read from a heading |
| PlanParser.WorkerTypes | src/core/orchestrator.py:130-131 | the worker types are the parsed types other than planner |
| PlanParser.Created | src/core/orchestrator.py:130-140 | one new pending subtask per type, in order, with a fresh id and the execute description |
| PlanParser.IdMap | src/core/orchestrator.py:128-140 | every created type maps to an id, the last subtask's type to its own id |
| PlanParser.IdMapDistinct | src/core/orchestrator.py:128-140 | with one subtask per type, each type maps to its own subtask's id |
| PlanParser.KnownDependencies | src/core/orchestrator.py:146-150 | a dependency is recorded exactly for each listed type that has a created subtask, with that subtask's id; when every listed type has one, the list holds their ids position by position |
| PlanParser.KnownDependenciesConcat | src/core/orchestrator.py:146-150 | the list is built type by type in listing order, so splitting the listed types splits the dependencies the same way and a type listed twice contributes twice |
| PlanParser.WithDependencies | src/core/orchestrator.py:143-150 | a subtask whose type has a parsed dependency list gets that list resolved to ids; any other subtask is unchanged |
| PlanParser.ResolveAll | src/core/orchestrator.py:143-150 | every created subtask goes through the dependency pass and keeps its type |
| PlanParser.BuildSubtasks | src/core/orchestrator.py:101-156 | the planning subtask comes first, then one subtask per worker type in parse order |
| PlanParser.SubtaskKinds | src/core/orchestrator.py:130-139 | the types of the subtasks, position by position |
| PlanParser.BasicPlan | src/core/orchestrator.py:158-203 | the fallback plan has one to four pending subtasks without dependencies, with fresh ids, of the types the keywords select |
| PlanParser.BasicKinds | src/core/orchestrator.py:163-201 | research, code, analyze and write each select their type exactly when the lower-cased description contains them; the general type is chosen exactly when none does |
| PlanParser.PlanningSubtask | src/core/orchestrator.py:73-78 | the planning subtask is a pending planner subtask without dependencies |
| PlanParser.PlanTask | src/core/orchestrator.py:70-156 | no subtasks without a planner; only the failed planning subtask when the description is empty; otherwise the subtasks built from the parsed plan |
| PlanRoundTrip.DisplayNameNormalizes | src/core/orchestrator.py:117 | a subtype's displayed name normalises back to the type, with or without a leading space |
| PlanRoundTrip.HeadingParse | src/core/orchestrator.py:113-118 | a rendered heading line adds exactly its step's type |
| PlanRoundTrip.DescriptionParse | src/core/orchestrator.py:112-125 | a description line without a star changes nothing |
| PlanRoundTrip.PriorityParse | src/core/orchestrator.py:112-125 | a priority line changes nothing |
| PlanRoundTrip.NoneParse | src/core/orchestrator.py:123 | a dependencies line that says None changes nothing |
| PlanRoundTrip.DependenciesParse | src/core/orchestrator.py:119-125 | a rendered non-empty dependencies line records exactly the listed types under the latest type |
| PlanRoundTrip.SplitNames | src/core/orchestrator.py:124 | splitting joined display names at commas and normalising gives the types back |
| PlanRoundTrip.ItemParse | src/core/orchestrator.py:112-125 | the five lines of a step add its type and, when it has dependencies, record them |
| PlanRoundTrip.ItemsParse | src/core/orchestrator.py:112-125 | the lines of all steps add their types in order and record every non-empty dependency list |
| PlanRoundTrip.HeaderParse | src/core/orchestrator.py:112-125 | the header lines of a plan change nothing |
| PlanRoundTrip.PlanTextLines | src/core/orchestrator.py:112 | the rendered plan splits at newlines into exactly its lines and a final empty one |
| PlanRoundTrip.PlanRoundTrip | src/core/orchestrator.py:105-125 | reading a rendered plan back gives the types in listing order and every non-empty dependency list under its type |
| PlanTaskProperties.NoNewlineOrStar | src/agents/planner_agent.py:83-128 | no description the planner writes holds a newline or a star |
| PlanTaskProperties.AnalyzeTaskWellFormed | src/agents/planner_agent.py:61-131 | every plan the planner writes can be rendered and read back |
| PlanTaskProperties.OrderedDistinct | src/agents/planner_agent.py:151 | the listed steps still have distinct types |
| PlanTaskProperties.CreatedIds | src/core/orchestrator.py:128-140 | for distinct types, the j-th type maps to the j-th fresh id |
| PlanTaskProperties.ResolvedDependencies | src/core/orchestrator.py:143-150 | a dependency list resolves to the ids of the listed types that were planned, and, when all were planned, to the id of each listed type's planned subtask in listing order |
| PlanTaskProperties.BuiltSubtask | src/core/orchestrator.py:127-150 | after the planning subtask, the i-th subtask is pending, of the i-th type, with the i-th fresh id, and has dependencies exactly when the plan lists some |
| PlanTaskProperties.BuiltPlanning | src/core/orchestrator.py:101-150 | the planning subtask stays first and gets no dependencies |
| PlanTaskProperties.ParsedPlan | src/core/orchestrator.py:105-125 | the orchestrator reads back exactly the plan the planner wrote, whose types are distinct and never planner |
| PlanTaskProperties.PlannedSubtask | src/core/orchestrator.py:70-156 | with a planner and a description, the i-th worker subtask is pending, of the plan's i-th listed type, with the i-th fresh id, and depends on the subtasks created for its listed dependencies, or on nothing when it lists none |
| PlanTaskProperties.PlanningSubtaskFirst | src/core/orchestrator.py:70-156 | with a planner and a description, the completed planning subtask comes first with the plan as its result, followed by one subtask per planned step |
| Summary.Heading | src/core/orchestrator.py:535 | a subtask's heading is a second-level markdown heading ending in a blank line |
| Summary.Condense | src/core/orchestrator.py:536-550 | a result of at most 500 characters is kept whole; a longer one keeps the text before its first section break and counts the other sections, or without a break keeps its first 500 characters and an ellipsis |
| Summary.CondenseKeepsPrefix | src/core/orchestrator.py:536-550 | what is kept of a result is a prefix of it, shorter than the result only when the result is over 500 characters |
| Summary.CondenseSections | src/core/orchestrator.py:539-545 | a long result made of sections without line breaks keeps its first section and counts the others |
| Summary.LongFirstSectionKept | src/core/orchestrator.py:539-545 | a first section longer than 500 characters is kept whole, so the summary of a long result can exceed the 500-character cut |
| Summary.Block | src/core/orchestrator.py:535-552 | a subtask contributes its heading, then its condensed result, or the no-results placeholder when the result is absent or empty |
| Summary.FinalResult | src/core/orchestrator.py:530-554 | the summary starts with the summary header and is only that header when there are no subtasks |
| Summary.GenerateFinalResult | src/core/orchestrator.py:530-554 | the loop appending one block per subtask builds exactly the header followed by every subtask's block in order |
| Summary.BlockPositions | src/core/orchestrator.py:534-552 | each subtask's block follows the header and the blocks of the subtasks before it |
| Containers.Record | src/utils/container_manager.py:94-95 | creating a container records it under its subtask and leaves every other entry alone |
| Containers.Remove | src/utils/container_manager.py:223-226 | removing a container deletes every entry that refers to it and keeps every other entry |
| Containers.RemoveUndoesRecord | src/utils/container_manager.py:94-95 | removing a container undoes the tracking its creation added |
| Containers.RemoveIdempotent | src/utils/container_manager.py:223-226 | removing the same container twice is removing it once |
| Containers.Prefix8 | src/utils/container_manager.py:64 | the first eight characters of the id, or the whole id when it is shorter |
| Containers.ContainerName | src/utils/container_manager.py:64 | the name is agent-, the type and a dash, followed by at most eight characters of the subtask id |
| Containers.PollsUsed | src/utils/container_manager.py:265-272 | polling stops at the first exited report or after the 60th poll, and no earlier report said exited |
| Containers.PollUntilExited | src/utils/container_manager.py:265-272 | the loop makes between 1 and 60 polls, keeps the last report, and stops early only on an exited report |
| Containers.PollsUsedIs | src/utils/container_manager.py:265-272 | the number of polls is fixed by the first report that reads exited, or by the 60-poll cap when none does |
| Containers.ResultFields | src/utils/container_manager.py:277-293 | the result is the first log line that parses as an object with a status; without one, completed with the logs as result exactly when the exit code is 0, and failed with the logs as error otherwise |
| Containers.ExecuteInContainer | src/utils/container_manager.py:234-298 | no container gives the creation failure without a container id; a container that does not start gives the start failure; otherwise the fields read from the logs after polling, with the container id |
| Containers.TrackingAfter | src/utils/container_manager.py:94-309 | a failed creation leaves the tracking alone; a created container is recorded, even under an empty id, which the clean-up never reaches; a container with an id is removed again when the clean-up succeeds |
| Containers.CleanupForgetsContainer | src/utils/container_manager.py:307-309 | after a successful clean-up no entry refers to the container and unrelated entries survive |
| SubtaskRun.StartLogs | src/core/orchestrator.py:440-449 | a worker logs container_started when it starts exactly when it runs in a container, and nothing otherwise |
| SubtaskRun.FromContainer | src/core/orchestrator.py:459-469 | the subtask takes the container id; it completes with the container's result at progress 1 exactly when the outcome's status is completed, and otherwise fails at progress 0 with the container's error or the fixed container message |
| SubtaskRun.FromAgent | src/core/orchestrator.py:482-488 | a direct run copies status, progress, result and error from the agent's answer and keeps the subtask's identity |
| SubtaskRun.Finish | src/core/orchestrator.py:440-525 | a run writes one entry for the subtask: failed with the prefixed message when an exception is raised, the container outcome for container runs, or the agent's outcome with its progress percentage for direct runs |
| SubtaskRun.ContainerRunSettles | src/core/orchestrator.py:462-469 | a container run, or one that raises, always ends completed or failed |
| SubtaskRun.ContainerErrorsPropagate | src/core/orchestrator.py:459-469 | when the container cannot be created or started, the subtask fails at progress 0 with exactly that failure message and the container id the manager returned |
| Scheduler.LoopEntry | src/core/orchestrator.py:269-275 | an entry the loop writes itself names the subtask, the action and the details, and its timestamp is already ISO text rather than a datetime |
| Scheduler.TaskEntry | src/core/orchestrator.py:386-390 | the task-level entries name no subtask and carry an ISO timestamp |
| Scheduler.IndexOf | src/core/orchestrator.py:235 | `subtask_map` holds exactly the ids of the subtasks, and a repeated id refers to its last occurrence |
| Scheduler.Ready | src/core/orchestrator.py:354-366 | the re-computed ready list holds exactly the pending subtasks whose every dependency is completed in `subtask_map`, in task order |
| Scheduler.InitialReady | src/core/orchestrator.py:242-246 | the first ready list holds exactly the pending subtasks without dependencies, in task order |
| Scheduler.Start | src/core/orchestrator.py:232-246 | execution starts with no completed results, no failed ids, nothing running and an empty log |
| Scheduler.HasFailedDependency | src/core/orchestrator.py:254-259 | a subtask has a failed dependency exactly when one of its dependency ids is in the failed set |
| Scheduler.BaseContext | src/core/orchestrator.py:224-229 | without a request record workers start from an empty context; otherwise from the request's own context, its `subtask_results` list included, with `task` set to the request's task text in place of any `task` entry |
| Scheduler.ContextFor | src/core/orchestrator.py:277-280 | a worker's context is the request's context and task text, with `subtask_results` replaced by exactly the recorded results once there are any and left as the request carried it before that |
| Scheduler.LaunchOne | src/core/orchestrator.py:252-316 | handling one ready subtask changes only that subtask's status fields; its id, type and dependencies and every other subtask stay as they were |
| Scheduler.Launch | src/core/orchestrator.py:252-319 | the launch loop touches only subtasks in the ready list and starts workers only for subtasks in it |
| Scheduler.Put | src/core/orchestrator.py:339-343 | storing a result under its id keeps every result of another id and adds the new one |
| Scheduler.Report | src/core/orchestrator.py:330-346 | a completed subtask's result is recorded under its id; a failed subtask's id joins the failed set; any other status records nothing; `subtask_map` then points at the finished copy |
| Scheduler.FinishOne | src/core/orchestrator.py:322-346 | a finishing worker changes only its own subtask, which becomes the outcome of running it, appends that run's log entries, and is reported only when it was started in the same iteration |
| Scheduler.Finishes | src/core/orchestrator.py:322-348 | the wait keeps every subtask's id and dependencies and the ready list |
| Scheduler.CountCompleted | src/core/orchestrator.py:369 | the completed count reaches the number of subtasks exactly when every subtask is completed |
| Scheduler.Progress | src/core/orchestrator.py:369-371 | progress lies between 0 and 1 and is the completed share of the subtasks; with no subtasks it is 0 |
| Scheduler.Iteration | src/core/orchestrator.py:249-366 | one iteration keeps every subtask's id and dependencies and ends with the ready list re-computed from the new state |
| Scheduler.Conclude | src/core/orchestrator.py:380-400 | a task whose subtasks all completed is completed with the summary and a task_completed entry; otherwise one with a failed subtask is failed with the fixed message and a task_failed entry; otherwise it is left in progress with the log unchanged |
| Scheduler.StoreLogs | src/core/orchestrator.py:378 | with the plain encoder the write fails exactly when some entry still holds a datetime and otherwise stores the log as it is; the datetime-aware encoder always succeeds, storing one entry per log entry and no datetime |
| Scheduler.Saved | src/core/orchestrator.py:368-375 | the record stored after an iteration carries the new subtasks and the completed share as progress, stamped with the time, and keeps the task's id, status, result, error and creation time |
| SchedulerClaims.SavedProgressNeverFalls | src/core/orchestrator.py:368-375 | the progress of the stored task record never falls from one iteration's snapshot to the next |
| Scheduler.Loop | src/core/orchestrator.py:249-404 | the loop never reports a missing task: it finishes, aborts with an error, or runs out of inputs |
| Scheduler.ExecuteWith | src/core/orchestrator.py:205-221 | execution reports a missing task exactly when the store holds no record for the id |
| SchedulerProperties.StartInv | src/core/orchestrator.py:232-246 | with distinct subtask ids, the start state satisfies the loop invariant: `subtask_map` points every id at its own subtask, every running worker's subtask is in progress, every failed id belongs to a failed subtask, and the ready list holds distinct ready subtasks |
| SchedulerProperties.NoFailedDependency | src/core/orchestrator.py:254-259 | a subtask on the ready list never has a failed dependency, so the dependency-failed branch is never taken for it |
| SchedulerProperties.LaunchOneFacts | src/core/orchestrator.py:277-316 | with an agent for its type a ready subtask becomes in progress, is started with the context of the results recorded so far and gets a started entry naming the agent class; without one it fails with the no-agent error, its id joins the failed set, it gets a failed entry, and it is not started |
| SchedulerProperties.LaunchOneStatus | src/core/orchestrator.py:283-303 | one pass leaves a ready subtask in progress exactly when its type has an agent, and failed otherwise |
| SchedulerProperties.SatisfiedKept | src/core/orchestrator.py:354-366 | a subtask's dependencies stay satisfied while the subtasks they name stay completed |
| SchedulerProperties.WithAgent | src/core/orchestrator.py:283-316 | the workers the launch loop may start are exactly the ready positions whose type has an agent, in the same order |
| SchedulerProperties.LaunchStep | src/core/orchestrator.py:252-316 | one pass keeps the invariant the rest of the launch loop needs and leaves every other ready subtask ready |
| SchedulerProperties.LaunchKeeps | src/core/orchestrator.py:252-319 | the whole launch loop keeps the loop invariant, and no subtask loses a completed or failed status or becomes pending again |
| SchedulerProperties.LaunchStartsServed | src/core/orchestrator.py:252-319 | the launch loop starts exactly the ready subtasks that have an agent, in ready-list order |
| SchedulerProperties.LaunchServedBy | src/core/orchestrator.py:252-319 | the same, with the types read from any list of subtasks of the same types |
| SchedulerProperties.LaunchStartedHead | src/core/orchestrator.py:283-316 | the first pass starts its subtask exactly when its type has an agent |
| SchedulerProperties.LaunchRunning | src/core/orchestrator.py:252-319 | after the launch loop the running workers are exactly the earlier ones and the ones it started |
| SchedulerProperties.LaunchStartedState | src/core/orchestrator.py:277-316 | a subtask the launch loop starts was not running before, is in progress, and was handed the context of the results recorded before this iteration |
| SchedulerProperties.LaunchContextsKept | src/core/orchestrator.py:252-319 | later passes of the launch loop leave an earlier subtask and its context alone |
| SchedulerProperties.LaunchOneFailed | src/core/orchestrator.py:283-299 | one pass adds at most its own subtask's id to the failed set |
| SchedulerProperties.LaunchFailedFrom | src/core/orchestrator.py:252-319 | the launch loop adds to the failed set only ids of subtasks on the ready list |
| SchedulerProperties.LaunchFailsUnserved | src/core/orchestrator.py:283-299 | a ready subtask whose type has no agent ends the launch loop failed with the no-agent error naming its type |
| SchedulerProperties.FinishSettles | src/core/orchestrator.py:440-525 | a worker run that settles leaves its subtask completed or failed |
| SchedulerProperties.FinishOneInv | src/core/orchestrator.py:330-346 | a finishing worker settles its subtask, keeps the loop invariant and leaves `subtask_map` as it was |
| SchedulerProperties.FinishOneAdvances | src/core/orchestrator.py:330-346 | a finishing worker only moves its subtask forward: nothing settled changes and nothing becomes pending |
| SchedulerProperties.FinishOneFailedAreFailed | src/core/orchestrator.py:344-346 | after a worker finishes, every id in the failed set still belongs to a failed subtask |
| SchedulerProperties.FinishOneFrame | src/core/orchestrator.py:330-346 | a finishing worker leaves the contexts and the agent factory alone |
| SchedulerProperties.FinishOneNew | src/core/orchestrator.py:322-346 | only a worker started in this iteration adds a recorded result or a failed id |
| SchedulerProperties.FinishOneReported | src/core/orchestrator.py:330-346 | a worker started in this iteration is recorded when it finishes, completed with its result or failed by id, and earlier records stay |
| SchedulerProperties.FinishesInv | src/core/orchestrator.py:322-348 | the whole wait keeps the invariant, only advances subtasks, only shrinks the running set, and leaves subtasks that were not running, the contexts and the factory alone |
| SchedulerProperties.FinishesNew | src/core/orchestrator.py:322-348 | over the whole wait only workers started in this iteration add to the recorded results and the failed set |
| SchedulerProperties.FinishesReported | src/core/orchestrator.py:322-348 | over the whole wait every worker of this iteration that finished is recorded |
| SchedulerProperties.IterationInv | src/core/orchestrator.py:249-375 | the loop invariant holds before every iteration, subtasks only advance, and `subtask_map` never changes when ids are distinct |
| SchedulerProperties.ReadyListReady | src/core/orchestrator.py:354-366 | the re-computed ready list satisfies the invariant: distinct pending subtasks whose dependencies are all completed |
| SchedulerClaims.IdleUntouched | src/core/orchestrator.py:249-366 | a subtask that is neither ready nor running comes out of an iteration exactly as it went in |
| SchedulerClaims.BlockedStaysPending | src/core/orchestrator.py:354-366 | a pending subtask with a dependency that is unknown to `subtask_map` or failed is not made ready, stays pending through the iteration, and that dependency stays unknown or failed |
| SchedulerClaims.BlockedForever | src/core/orchestrator.py:249-366 | over any number of iterations a subtask with an unknown or failed dependency never leaves pending |
| SchedulerClaims.StartedFromPending | src/core/orchestrator.py:252-316 | a worker an iteration starts belongs to a subtask that was pending, and that subtask is no longer pending afterwards |
| SchedulerClaims.StartsWerePending | src/core/orchestrator.py:249-319 | every worker started over a run of iterations belongs to a subtask that was pending at the start |
| SchedulerClaims.NoSubtaskStartedTwice | src/core/orchestrator.py:249-319 | no subtask's worker is started twice, however many iterations run |
| SchedulerClaims.CountCompletedGrows | src/core/orchestrator.py:369 | when no completed subtask stops being completed, the completed count does not fall |
| SchedulerClaims.ProgressNeverFalls | src/core/orchestrator.py:369-371 | task progress never falls from one iteration to the next |
| SchedulerClaims.ProgressOrder | src/core/orchestrator.py:369-371 | progress follows the completed count for the same number of subtasks |
| SchedulerClaims.FinishedWorkersReported | src/core/orchestrator.py:322-346 | a worker started in an iteration that finishes within that iteration is recorded: its result when completed, its id in the failed set when failed |
| SchedulerClaims.LateFinishNotReported | src/core/orchestrator.py:322-346 | a worker started in an earlier iteration is never recorded when it finishes: its id reaches neither the results handed to later workers nor the failed set |
| SchedulerClaims.LateBegun | src/core/orchestrator.py:252-319 | a running worker's subtask is neither failed nor started again by the launch loop |
| SchedulerClaims.RunningNotReady | src/core/orchestrator.py:354-366 | a running worker's subtask is never on the ready list |
| SchedulerClaims.StartedWithEarlierResults | src/core/orchestrator.py:277-280 | a worker started in an iteration sees the request's context and task text together with the results recorded before that iteration |
| SchedulerClaims.WorkerFindsResearch | src/core/orchestrator.py:277-280 | a data-analysis worker finds the first research among the recorded results once there are any, and before that the first research in the request's own `subtask_results` list |
| SchedulerClaims.StuckMeansUnmetDependency | src/core/orchestrator.py:380-400 | when the loop stops with nothing failed and not everything completed, some subtask is still pending with a dependency that is not completed, and the task is left in progress with the log unchanged |
| TaskExecution.ExecuteTaskAsWritten | src/core/orchestrator.py:205-408 | execution as written, storing the log with the plain encoder, reports a missing task exactly when the store has no record for the id |
| TaskExecution.ExecuteTask | src/core/orchestrator.py:205-408 | execution with the log stored through the datetime-aware encoder reports a missing task exactly when there is no record, and never aborts |
| TaskExecution.LoopNeverAborts | src/core/orchestrator.py:249-404 | with the datetime-aware encoder no store of the log fails, so the loop finishes or runs out of inputs but never aborts |
| TaskExecution.FinishesKeepDateTime | src/core/orchestrator.py:322-348 | once the log holds a datetime, it keeps holding one while workers finish |
| TaskExecution.FinishOneLogsDateTime | src/core/orchestrator.py:440-449 | a running worker that finishes appends an entry whose timestamp is a datetime object rather than text |
| TaskExecution.AsWrittenAbortsOnFinish | src/core/orchestrator.py:374-378 | as written, the first iteration in which a running worker finishes ends execution: storing the log raises, and the task stored last is the one saved for that iteration |
| TaskExecution.OneSubtaskStarts | src/core/orchestrator.py:242-316 | the first launch of a task whose one subtask is pending, has no dependencies and has an agent starts that subtask's worker |
| TaskExecution.OneSubtaskTaskAborts | src/core/orchestrator.py:378 | as written, executing that one-subtask task aborts with the task still in progress and the not-serializable error once its worker completes |
| TaskExecution.OneSubtaskTaskCompletes | src/core/orchestrator.py:380-404 | with the datetime-aware encoder the same inputs finish with the task completed |
| TaskExecution.LoopStep | src/core/orchestrator.py:249-378 | with the datetime-aware encoder an iteration always hands over to the next with the saved task and the new state |
| TaskExecution.LoopEndsCompleted | src/core/orchestrator.py:380-390 | a loop that stops with every subtask completed stores the task as completed with the summary as its result |
| TaskExecution.OneSubtaskCompletes | src/core/orchestrator.py:322-366 | after that worker completes nothing is ready or running and the only subtask is completed, so the loop stops |
| Replay.InstantOf | src/api/app.py:27-28 | a timestamp yields an instant only when the record has a timestamp that parses, and then it is that timestamp's instant |
| Replay.SortLogs | src/api/app.py:188 | the sorted records are the stored records rearranged, none lost or added |
| Replay.SortLogsFacts | src/api/app.py:187-188 | the sorted records are in timestamp-text order, are a permutation of the stored records, and records with the same timestamp text keep their stored order |
| Replay.Duration | src/api/app.py:21-32 | the duration is zero for fewer than two records and when either end's timestamp does not parse or the division fails; otherwise, multiplied by the speed, it is the time from the first record to the last |
| Replay.DurationHalves | src/api/app.py:21-30 | doubling the replay speed halves the duration |
| Replay.GetReplayAsWritten | src/api/app.py:167-202 | as written, a speed outside 0 < speed <= 10 is refused with 422, and a missing task is answered with a 500 whose detail is the 404's text |
| Replay.GetReplay | src/api/app.py:167-198 | a speed outside the range is refused with 422; a missing task is a 404; otherwise the reply carries the task, the speed, and either no records and no duration when none were stored, or the stored records rearranged with their duration |
| Replay.MissingTaskReplay | src/api/app.py:173-175 | a request for a missing task gets a 500 as written and the intended 404 once corrected |
| Replay.ReplayAgreesOtherwise | src/api/app.py:176-198 | for a stored task both versions answer alike |
| Replay.Delete | src/api/app.py:258-278 | without a store the request is refused with 503; a task that is not stored gives 404; otherwise exactly the task, request and log keys of that id are removed and every other key keeps its value |
| Replay.DeleteAsWritten | src/api/app.py:258-284 | as written, the 503 and 404 replies turn into a bare 500, because the handler's first except clause names a module the file does not import; a stored task is deleted as intended |
| Replay.MissingTaskDelete | src/api/app.py:268-284 | deleting a task that is not stored gets a 500 as written and the intended 404 once corrected |
| Replay.DeleteTwice | src/api/app.py:258-278 | a second delete of the same task finds nothing and is refused with 404 |
| Replay.LogDelta | src/api/app.py:463-467 | a check of the live log stream sends something exactly when the stored list has grown past the remembered length, and then sends exactly the new records and remembers the new length |
| Replay.StreamReassembles | src/api/app.py:437-481 | when the log only grows, the client's copy, the first list followed by every delta sent, is exactly the latest stored list: nothing is lost and nothing sent twice |
| Replay.LogDeltaSettles | src/api/app.py:463-467 | checking again before anything new is stored sends nothing |
| ReplaySocket.SpeedOf | src/api/app.py:601 | a missing value gives the default speed, a number gives that number, and a value `float` rejects gives no speed |
| ReplaySocket.Gap | src/api/app.py:572-586 | the pause after a record never exceeds two seconds; it is half a second when either timestamp is missing or does not parse; it is the time difference over the speed, capped, when both parse; and it fails exactly when both parse and the speed is zero |
| ReplaySocket.Paused | src/api/app.py:595-603 | a pause that does not end means every message received meanwhile was a well-formed message other than resume |
| ReplaySocket.Control | src/api/app.py:588-611 | with no message within the timeout the replay goes on at the same speed; a disconnect ends it; it only ever stops disconnected, crashed or still paused |
| ReplaySocket.Pace | src/api/app.py:571-586 | after a record there is at most one pause, of at most two seconds, none after the last record, and the pause computation fails exactly when the next gap does |
| ReplaySocket.Emit | src/api/app.py:562-614 | every pause of a replay is at most two seconds, and a replay ends completed, disconnected, crashed or still paused |
| ReplaySocket.Session | src/api/app.py:529-559 | without a store or without stored records the client gets one error and no replay; otherwise the first message is replay_start with the number of records |
| ReplaySocket.EmitEvents | src/api/app.py:562-614 | control messages never drop or reorder events: the client receives the events of a prefix of the stored records, each once, in stored order, and all of them when the replay completes |
| ReplaySocket.EmitCompletes | src/api/app.py:612-614 | replay_complete is sent exactly when the replay completes |
| ReplaySocket.QuietClientSeesAll | src/api/app.py:562-614 | a client that never sends anything and a non-zero speed see the replay complete |
| ReplaySocket.QuietReplay | src/api/app.py:556-614 | the whole replay for a quiet client is replay_start, every record's event in stored order, and completion |
| ReplaySocket.LeavingEndsReplay | src/api/app.py:609-611 | a client that leaves after the first event ends the replay disconnected and never receives replay_complete |
| StandaloneRun.NewSub | standalone_server.py:98-112 | a new subtask is pending at progress 0 with no result |
| StandaloneRun.Submit | standalone_server.py:89-120 | whatever the request, the new task is pending at progress 0 with no result and three pending subtasks of types research, analysis and execution, in that order |
| StandaloneRun.RunSubtask | standalone_server.py:153-208 | one subtask's turn logs six entries and stores the task seven times, keeping the number of subtasks |
| StandaloneRun.Work | standalone_server.py:153-208 | the turns of the subtasks from a position on log six entries and store seven snapshots per subtask |
| StandaloneRun.Simulate | standalone_server.py:134-221 | the whole simulation stores the task two times more than seven per subtask |
| StandaloneRun.RunSubtaskEntries | standalone_server.py:159-203 | a subtask's turn logs, in order, started, the four progress marks and completed, each naming the subtask |
| StandaloneRun.RunSubtaskSubtasks | standalone_server.py:153-194 | a subtask's turn completes that subtask with its sample result and leaves every other subtask as it was |
| StandaloneRun.RunSubtaskTask | standalone_server.py:206-208 | after a subtask's turn the task keeps its status and result and its progress is the share of subtasks done so far |
| StandaloneRun.WorkLogs | standalone_server.py:153-208 | the log of the turns from a position on is the six phase entries of each subtask, in list order |
| StandaloneRun.WorkFinalSubtasks | standalone_server.py:153-208 | after the turns from a position on, every one of those subtasks is completed and the earlier ones are unchanged |
| StandaloneRun.WorkFinalTask | standalone_server.py:206-208 | after the turns, the task keeps its status and result and its progress is 1 |
| StandaloneRun.SimulatedLog | standalone_server.py:134-221 | the simulated log is task_started, the six phase entries of every subtask in list order, and task_completed; at the end the task is completed with the sample result, every subtask is completed, and progress is 1 |
| StandaloneRun.SubmittedRunLogsTwenty | standalone_server.py:89-221 | for the submitted three-subtask plan the log has exactly twenty entries |
| StandaloneRun.TurnSequential | standalone_server.py:153-208 | with the subtasks before one completed and those after it pending, no subtask has started while an earlier one is unfinished |
| StandaloneRun.RunSubtaskTurn | standalone_server.py:153-208 | every snapshot stored during a subtask's turn has the subtasks before it completed and those after it pending, and the turn hands over to the next subtask |
| StandaloneRun.WorkSequential | standalone_server.py:153-208 | the turns from a position on store only snapshots in list order and end with every subtask completed |
| StandaloneRun.SimulationIsSequential | standalone_server.py:134-221 | on a task whose subtasks are all pending, every stored snapshot shows the subtasks going strictly in list order |
| StandaloneRun.WorkProgress | standalone_server.py:206-208 | after a subtask's turn the stored task progress is the number of subtasks done so far over the number of subtasks |
| StandaloneRun.RunSubtaskProgress | standalone_server.py:207-208 | the last snapshot of a subtask's turn records the task progress as the subtasks done over the number of subtasks |
| StandaloneRun.SimulatedProgress | standalone_server.py:207-208 | in the whole simulation, the snapshot that closes a subtask's turn records progress as the subtasks done over the number of subtasks |
| StandaloneReplay.StandaloneDuration | standalone_server.py:268-276 | the standalone duration is zero for fewer than two records; when both end timestamps parse, multiplied by the speed it is the time from the first record to the last; otherwise it is two seconds per record |
| StandaloneReplay.DurationsAgree | standalone_server.py:268-276 | where both servers can time a replay they report the same duration |
| StandaloneReplay.DurationsDiffer | standalone_server.py:275-276 | where a timestamp does not parse the API reports zero and the standalone server two seconds per record |
| StandaloneReplay.GetReplayStandalone | standalone_server.py:250-290 | a speed outside the range is refused with 422; a missing task is a 404; otherwise the records come back as stored, unsorted, with their duration |
| StandaloneReplay.EndpointsCompared | standalone_server.py:250-290 | both servers answer the same requests with errors, with the same codes, and otherwise return the same records, only the API reordering them |
| StandaloneReplay.HoldOn | standalone_server.py:390-397 | a pause keeps waiting exactly when every message received meanwhile is well formed and neither resume nor stop |
| StandaloneReplay.Steer | standalone_server.py:386-403 | no message, a disconnect or a failed receive lets the replay go on at the same speed; only stop and a pause that is never lifted end it; the speed changes only on a set_speed message |
| StandaloneReplay.Delay | standalone_server.py:374-381 | the pause before a record is at most one positive sleep; computing it fails exactly for a later record with a timestamp when a timestamp does not parse, the previous record has none, or the speed is zero |
| StandaloneReplay.Play | standalone_server.py:373-406 | every pause of the standalone replay is positive, and it ends completed, crashed, still paused or stopped |
| StandaloneReplay.StandaloneSession | standalone_server.py:345-384 | a client gone before its settings arrive gets nothing; settings that do not parse, or a speed that is not a number, get one error report; without stored records the client gets one refusal; otherwise the replay starts with the stored task's initial state when there is one |
| StandaloneReplay.PlayEntries | standalone_server.py:373-406 | the client receives a prefix of the sorted records, each once, in order, and all of them when the replay completes |
| StandaloneReplay.PlayCompletes | standalone_server.py:405-406 | replay_complete is sent exactly when the replay completes |
| StandaloneReplay.PassiveClientSeesAll | standalone_server.py:373-406 | a client that sends nothing, or leaves, sees the replay complete, provided every timestamp parses and the speed is not zero |
| StandaloneReplay.PassiveSession | standalone_server.py:345-406 | for such a client the session completes, the entries sent are exactly the stored records in timestamp order, and replay_complete is sent exactly when there was a record |
| StandaloneReplay.StopAfterFirst | standalone_server.py:398-399 | a stop after the first entry ends the replay with one entry and no replay_complete |
| StandaloneReplay.PauseNotCapped | standalone_server.py:375-381 | unlike the API's replay the pause is not capped: records ten seconds apart at speed 1 give a ten-second pause where the API waits two |
| Mcp.Markers | mcp.py:43-51 | the analysis names a definition exactly when the code contains "def", a return exactly when it contains "return", and concise code exactly when it has fewer than ten words, only those markers and always in that order |
| Mcp.AnalyzeCode | mcp.py:43-53 | the analysis is empty exactly when the code has no "def", no "return" and at least ten words |
| Mcp.AnalysisSplits | mcp.py:53 | a non-empty analysis splits at ", " back into exactly its markers |
| Mcp.Lines | mcp.py:32-33 | the listing has one line per context entry, in the dictionary's order |
| Mcp.Listing | mcp.py:30-33 | the listing is empty exactly when the context is |
| Mcp.Lookup | mcp.py:37-38 | looking up a key finds nothing exactly when no entry has it, and otherwise gives the value of an entry with that key |
| Mcp.CodeLine | mcp.py:37-39 | the code-analysis line is present exactly when the context has a code entry |
| Mcp.ProcessTask | mcp.py:25-41 | the response is always longer than its header |
| Mcp.EntryListedInOrder | mcp.py:32-33 | every entry is listed, right after the lines of the entries before it |
| Mcp.HeaderFirst | mcp.py:27 | the response starts with the header naming the task, and the rest follows it |
| Mcp.ContextSectionIffEntries | mcp.py:29-36 | after the header comes the context section holding the listing exactly when the context is non-empty; otherwise the task-analysis heading follows at once |
| Mcp.CodeAnalysisIffCode | mcp.py:35-39 | the response ends with the code analysis of the context's code when it has code, and with the task-analysis heading when it has none |

## Left out

- Redis, HTTP and websocket I/O: the store is a map from key to text, and expiry times, publish/subscribe and response framing are not modelled. A send on a socket the client has already closed is taken to succeed.
- Scheduler.Saved: a running subtask is stored as its launch left it. The progress, `In progress: <step>` result and timestamp its agent writes in place at each step (src/agents/base_agent.py:46-56, called for instance at src/agents/data_analysis_agent.py:42-46) do not appear in the snapshots; a worker changes the state only when it finishes.
- Replay.GetReplay, Replay.GetReplayAsWritten and StandaloneReplay.GetReplayStandalone: an out-of-range speed gets a 422, but its body, the list of validation errors FastAPI's query validation writes, is not modelled; `SpeedRejected` only marks the rejection.
- A request context's values are taken to be text, except a `subtask_results` list, whose entries are taken to be records with text `type` and `result` fields; other value shapes, and the exceptions they would raise in an agent, are not modelled.
- `uuid4`, the clock, the agents' random sleeps and asyncio timing: ids and clock readings are inputs, sleeps have no duration, and which workers finish within an iteration's wait is an input sequence.
- The Docker SDK: creation, start, status polls, logs and removal are oracle inputs to `Containers`.
- Floating point: progress, speed, durations and delays are exact reals.
- Datetimes: an instant is a real number of seconds. The difference between naive and timezone-aware datetimes is not modelled, so the `TypeError` a mix of the two would raise in a replay is left out.
- Timestamp parsing: a record's timestamp carries the instant `datetime.fromisoformat` gives for it, if any. The API's websocket replaces a trailing 'Z' before parsing and `calculate_replay_duration` does not; the model gives both the same reading.
- Malformed stored data: JSON that does not parse, a record whose `timestamp` key holds `null` (which makes the sort compare `None` with text), and a client message that is JSON but not an object are not modelled.
- `src/agents/web_research_agent.py`: its only logic beyond the shared lifecycle is `random.sample` over canned text.
- The agents' prose: the report, article and code bodies are opaque text; only their headings and frames are modelled.
- Python text semantics: `lower`, `title`, `split` and `isspace` are defined on ASCII only.
- Error replies from the websockets omit the `task_id` and `status` fields they carry.
- Mcp: context values are the text `str()` gives for them, so a non-text `code` value is analysed as its text. The `/tasks/execute` wrapper around `process_task` is not modelled.
- The task-status, task-list, submit and log-listing endpoints of `src/api/app.py` and the status and log websockets of `standalone_server.py` are HTTP glue over store reads and are not modelled. The standalone log websocket follows the same rule as `Replay.LogDelta`.
- `Orchestrator._execute_subtask`: the `agent is None` branch at `src/core/orchestrator.py:416-433` and the second `except` at `src/core/orchestrator.py:527-528` are unreachable and are not modelled.
- `execute_task` without a store: the first store read raises and the exception is swallowed. This is the same abort as any other exception, and only the missing-record case is modelled separately.
- Containers.ResultFields: a `result` or `error` whose value is `None` is left out of the outcome map rather than mapped to `None`. `splitlines` is modelled as splitting at "\n" only.
- SubtaskRun.Finish: the "Container execution ..." details use the status value. On Python 3.12 and later, formatting a str-mixin enum may give the member name instead. The exception path starts from the subtask as it was passed in, not from a copy already changed in place before the exception.
- Scheduler.Loop: its own contract only rules out a not-found ending. What the loop does is stated by the `SchedulerClaims` and `TaskExecution` lemmas.
- Scheduler.Finishes: its own contract only keeps ids, dependencies and the ready list. What the wait records is stated by `SchedulerProperties.FinishesInv`, `FinishesNew` and `FinishesReported`.
- Scheduler.Iteration: its own contract only keeps ids and dependencies and re-computes the ready list. Its effect is stated by `SchedulerProperties.IterationInv` and the `SchedulerClaims` lemmas.
- Mcp.ProcessTask: its own contract only bounds the length. The structure of the response is stated by `Mcp.HeaderFirst`, `Mcp.ContextSectionIffEntries` and `Mcp.CodeAnalysisIffCode`.
- StandaloneRun.RunSubtask: its own contract only counts entries and snapshots. Their contents are stated by `RunSubtaskEntries`, `RunSubtaskSubtasks`, `RunSubtaskTask` and `RunSubtaskTurn`.
- StandaloneRun.Work: its own contract only counts. The contents are stated by `WorkLogs`, `WorkFinalSubtasks`, `WorkFinalTask` and `WorkSequential`.
- StandaloneRun.Simulate: its own contract only counts snapshots. The log and the final task are stated by `SimulatedLog`.

## Findings

| source | as written | input that shows it | evidently intended | confidence | as-written member | corrected member |
|---|---|---|---|---|---|---|
| src/core/orchestrator.py:378-404 | the execution log is stored with plain `json.dumps`, but entries appended by `_execute_subtask` hold `datetime` objects; the `TypeError` is swallowed at line 407 and execution stops with the task still in progress | a task with one pending subtask, no dependencies and an agent for its type, whose worker completes within the first wait | store the log through the datetime-aware encoder, as the task record already is at line 375, so the task completes | not executed | TaskExecution.ExecuteTaskAsWritten | TaskExecution.ExecuteTask |
| src/api/app.py:258-284 | the first `except` names `redis.RedisError`, but `redis` is not imported, so the handler's own 503 and 404 become a `NameError` answered with a bare 500 | deleting an id with no `task:` key in the store | 404 "Task not found" for a missing task and 503 without a store | not executed | Replay.DeleteAsWritten | Replay.Delete |
| src/api/app.py:167-202 | the 404 raised inside the `try` is caught by `except Exception` and re-raised as a 500 whose detail is "404: Task not found" | a replay request with speed 1 for an id with no stored task | 404 "Task not found" | not executed | Replay.GetReplayAsWritten | Replay.GetReplay |
