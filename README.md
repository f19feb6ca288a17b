# Multi-agent soccer orchestration: a verified model

This project models the question workflow of a multi-agent football chat service.

A supervisor classifies the user's question into a routing token. The token is normalised and dispatched to one or both retrieval steps:

- a web search;
- a football-data agent.

Each retrieval step appends exactly one tool item to the shared conversation context. The conversational step then writes the final answer.

The model covers:

- the shared state and its merge rule: `retrieved_context` is concatenated, every other field is replaced;
- the route-decision enum;
- the supervisor's normalisation and dispatch, including its in-place write to the state;
- the imperative declaration of the four-node graph;
- the update each step returns;
- a small superstep interpreter that runs the declared graph end to end for every token;
- the sports-data service: request URLs, the raw-record-to-team transform, the search filter and the first-entry lookup;
- the football team record;
- the configuration loader, with its required / default / override / cast rules and its boolean parser.

Collaborators the code only calls are parameters of the model:

- the language model: a classifier `string -> string`, an agent `string -> string` and a generator from prompt to text;
- the Tavily search: `string -> string`, giving the already serialised result;
- the HTTP client: a function from URL to `Fetch`, which is a decoded JSON body or one of the transport outcomes;
- `uuid.uuid4`: tool-call ids passed in.

The environment is a `map<string, string>`.

Modules follow the source files:

| module | file |
|---|---|
| `State` | `state.dfy` (conversation state) |
| `RouteDecision` | `route_decision.dfy` (enum) |
| `Supervisor` | `supervisor.dfy` |
| `GraphBuilder` | `graph_builder.dfy` |
| `WebSearch` | `web_search.dfy` |
| `FootballData` | `football_data.dfy` |
| `ConversationResponse` | `conversation_response.dfy` |
| `SportsData` | `sports_data.dfy` |
| `TeamModels` | `team_models.dfy` |
| `Config` | `config.dfy` |

Helper modules:

- `Wrappers`: Option and Result.
- `PyStr`: Python's `strip`, `lower`, `isupper`, `int()` and the syntax `float()` accepts.
- `Commands`: LangGraph's `Command`.
- `Workflow` and `WorkflowRuns`: the interpreter and the end-to-end lemmas.

Where the code's behaviour differs from what its comments and prompts suggest, the model follows the code:

- **The generator is always called.** The "not relevant" reply for an empty context is only prompt text. The code calls the generator whatever the context holds (`ConversationResponse.EmptyContextStillAsksGenerator`).
- **The state holds the raw token.** The decision field receives the normalised string itself, not an enum member. Any token other than `both` is used verbatim as a goto target.
- **The decision field is validated as the enum.** The state schema declares `current_route_decision` with the enum type. LangGraph builds each node's input by validating the state against that schema.
  - The supervisor's tokens `conversational_agent`, `search_agent`, `fotmob_agent` and `supervisor` name nodes, but none is an enum value. The run stops with a validation error when the next node's input is built (`WorkflowRuns.NodeTokenRejected`).
  - Only `both` is both a routing token and an enum value, so it is the only token whose run finishes (`WorkflowRuns.FinishesOnlyOnBoth`).
  - This is listed under "## Findings". The corrected workflow types the field as text (`Workflow.ExecuteWorkflowCorrected`); the end-to-end lemmas for the other tokens are stated for it.
- **Tokens that name no node.** The enum values `search`, `stats` and `conversation` are not node names, so routing to them leaves a dangling target, however the field is typed (`WorkflowRuns.EnumValueRunDangles`, `WorkflowRuns.UnknownTokenRun`).
- **The token `supervisor`.** With the field typed as text it loops the supervisor until the recursion limit (`WorkflowRuns.SupervisorRun`).

## Model

| member | source | states |
|---|---|---|
| State.Initial | app/domain/models/conversation_state.py:18-24 | a fresh state keeps the question and has no decision, an empty context and no answer |
| State.AddContext | app/domain/models/conversation_state.py:20 | the merged context is the old items, in order, followed by the new ones; its length is the sum |
| State.ContextUpdate | app/domain/models/conversation_state.py:20 | an update carrying only context items |
| State.ApplyUpdate | app/domain/models/conversation_state.py:18-24 | `retrieved_context` is concatenated; decision and answer are replaced only when the update sets them; the question never changes |
| State.MergeEmptyContext | app/domain/models/conversation_state.py:20 | merging an empty list leaves the state unchanged |
| State.ApplyAll | app/domain/models/conversation_state.py:18-24 | merging any sequence of updates never changes the question |
| State.ApplyAllContext | app/domain/models/conversation_state.py:20 | after any sequence of updates the context is the old context followed by everything contributed, so it never shrinks |
| State.ApplyAllKeepsScalars | app/domain/models/conversation_state.py:18-24 | updates that set no decision and no answer leave both as they were |
| State.FanOutLosesNothing | app/domain/models/conversation_state.py:20 | two one-item updates merged in either order keep both items (same multiset) |
| State.ContributedPair | app/domain/models/conversation_state.py:20 | two updates contribute their items in order |
| State.MergePair | app/domain/models/conversation_state.py:18-24 | two one-item updates merged in a row append both items in that order and change nothing else |
| State.StateInstance.constructor | app/domain/models/conversation_state.py:10-24 | a mutable state object holding the given record |
| RouteDecision.Value | app/domain/enums.py:12-15 | each decision's string value is non-empty |
| RouteDecision.FromValue | app/domain/enums.py:12-15 | parsing a string gives a decision only when that decision's value is the string |
| RouteDecision.AllDecisionsClosed | app/domain/enums.py:12-15 | the decision set is closed, with exactly four distinct members |
| RouteDecision.ValueInjective | app/domain/enums.py:12-15 | distinct decisions have distinct values |
| RouteDecision.FromValueExact | app/domain/enums.py:12-15 | value and parse are inverse, in both directions |
| RouteDecision.CombinedIsBoth | app/domain/enums.py:14 | the combined approach equals the plain string "both" |
| Commands.GotoTargets | app/agents/supervisor_agent.py:59-67 | no goto has no targets, a single goto one, a list goto its list in order |
| PyStr.Strip | app/agents/supervisor_agent.py:55 | the result is the input with leading and trailing whitespace removed: trimmed, a slice after the leading spaces, followed only by spaces |
| PyStr.StripPadded | app/agents/supervisor_agent.py:55 | stripping whitespace padding around a trimmed text gives that text back |
| PyStr.StripIdempotent | app/agents/supervisor_agent.py:55 | stripping twice is stripping once |
| PyStr.Lower | app/agents/supervisor_agent.py:55 | every character is lower-cased, the length kept |
| PyStr.LowerIdempotent | app/agents/supervisor_agent.py:55 | lowering twice is lowering once, and text without capitals is unchanged |
| PyStr.LowerKeepsSpaces | app/agents/supervisor_agent.py:55 | lowering does not change which characters are whitespace |
| PyStr.ParseInt | app/services/config_service.py:36 | `int()` accepts only text holding a digit |
| PyStr.ParseSigned | app/services/config_service.py:36 | a text `int()` accepts after stripping ends in a digit |
| PyStr.ParseIntOfGroup | app/services/config_service.py:36 | `int()` of a run of digits is their decimal value |
| PyStr.ParseIntOfNegatedGroup | app/services/config_service.py:36 | `int()` of a minus sign followed by digits is the negated value |
| PyStr.ParseIntOfIntToString | app/services/config_service.py:36 | `int(str(n)) == n` for every integer |
| PyStr.GroupValueOfNatToString | app/services/config_service.py:36 | the decimal digits of a natural number are a digit group reading back as that number |
| PyStr.ParseIntNeedsDigit | app/services/config_service.py:36 | text with no digit, such as a word, is refused by `int()` |
| PyStr.IntTextIsFloatText | app/services/config_service.py:36 | every text `int()` accepts is accepted by `float()` |
| PyStr.WordIsNotFloat | app/services/config_service.py:36-46 | a lower-case word other than inf, infinity or nan is refused by `float()` |
| Supervisor.NormalisedDecisionIsCanonical | app/agents/supervisor_agent.py:55 | the decision has no surrounding whitespace and no capital letter, and normalising it again gives it back |
| Supervisor.NormaliseIgnoresPaddingAndCase | app/agents/supervisor_agent.py:55 | whitespace padding and capitals do not change the decision |
| Supervisor.PaddedCapitalBoth | app/agents/supervisor_agent.py:55 | the reply " BOTH\n" normalises to "both" |
| Supervisor.LowerBOTH | app/agents/supervisor_agent.py:55 | lower-casing "BOTH" gives "both" |
| Supervisor.RoutingCommand | app/agents/supervisor_agent.py:59-67 | "both" goes to search_agent then fotmob_agent; any other decision goes to itself; the update sets only the decision |
| Supervisor.RoutingUpdateSetsOnlyDecision | app/agents/supervisor_agent.py:59-67 | applying the update changes only the decision field; the targets are the pair for "both" and the decision otherwise |
| Supervisor.EnumValuesPassThrough | app/agents/supervisor_agent.py:64-67 | no default route: every enum value other than "both" is emitted verbatim as the target |
| Supervisor.RoutingStep | app/agents/supervisor_agent.py:25-67 | the update holds the normalised classifier reply for the question and touches nothing else |
| Supervisor.DetermineRoutingDecision | app/agents/supervisor_agent.py:25-67 | the state object's decision is overwritten in place with the normalised reply, nothing else changes, and the returned command is the routing step |
| WebSearch.FootballQuery | app/agents/web_search_agent.py:34 | the query is "football soccer " followed by the question |
| WebSearch.FootballQueryInjective | app/agents/web_search_agent.py:34 | different questions give different queries |
| WebSearch.SearchWebContent | app/agents/web_search_agent.py:22-43 | goto conversational_agent; exactly one tool item with the serialised search result for the query and the given id; only the context is updated |
| WebSearch.SearchAppendsOneItem | app/agents/web_search_agent.py:37-43 | applying the update appends exactly that one item to any state |
| FootballData.ProcessFootballQuery | app/agents/football_data_agent.py:52-74 | the agent gets the question unchanged; goto conversational_agent; exactly one tool item; only the context is updated |
| FootballData.FootballDataAppendsOneItem | app/agents/football_data_agent.py:66-74 | applying the update appends exactly that one item to any state |
| ConversationResponse.GenerateResponse | app/agents/conversation_response_agent.py:38-55 | no goto; only the answer is set, to the generator's reply for the question and the whole context |
| ConversationResponse.ResponseSetsOnlyAnswer | app/agents/conversation_response_agent.py:55 | applying the update changes only the answer |
| ConversationResponse.EmptyContextStillAsksGenerator | app/agents/conversation_response_agent.py:28-55 | with an empty context the answer still depends on the generator, and is not forced to the prompt's not-relevant reply |
| GraphBuilder.Lookup | app/core/graph_builder.py:49-58 | a name is found exactly when some node declares it, and then with its own step |
| GraphBuilder.StaticTargets | app/core/graph_builder.py:60-61 | the static successors of an endpoint are exactly the nodes its edges point to |
| GraphBuilder.NodeNames | app/core/graph_builder.py:49-58 | the declared names, in declaration order |
| GraphBuilder.FourDistinctNodes | app/core/graph_builder.py:49-58 | exactly four distinct nodes are declared: supervisor, search_agent, fotmob_agent, conversational_agent |
| GraphBuilder.WorkflowEdgesShape | app/core/graph_builder.py:49-61 | the only entry is START to supervisor, the only edge into END is from conversational_agent, and no node has a static successor |
| GraphBuilder.StateGraph.constructor | app/core/graph_builder.py:25 | a new graph has no nodes and no edges |
| GraphBuilder.StateGraph.AddNode | app/core/graph_builder.py:49-58 | appends one node and leaves the edges alone |
| GraphBuilder.StateGraph.AddEdge | app/core/graph_builder.py:60-61 | appends one edge and leaves the nodes alone |
| GraphBuilder.GraphBuilder.BuildWorkflowGraph | app/core/graph_builder.py:41-63 | extends the builder's own graph in place by the four nodes and two edges, and returns it |
| GraphBuilder.GraphBuilder.constructor | app/core/graph_builder.py:17-26 | a new builder holds a fresh graph that declares exactly the workflow |
| Workflow.FirstUndeclared | app/core/graph_builder.py:49-58 | no task is undeclared exactly when every task names a node; otherwise the one returned is an undeclared task |
| Workflow.TaskCommandsRunEach | app/core/graph_builder.py:49-58 | every task of a superstep runs its declared step on the same snapshot |
| Workflow.Superstep | app/core/graph_builder.py:49-61 | a superstep stops only when two of its tasks set the decision or two set the answer, and then the state is left as it was; otherwise it continues |
| Workflow.Run | app/core/graph_builder.py:49-75 | every outcome of a run, finished or stopped, carries a state whose question is the one asked |
| Workflow.Execute | app/core/graph_builder.py:65-75 | a run from START on a fresh state for the question ends on a state holding that question |
| Workflow.ExecuteWorkflow | app/core/graph_builder.py:65-75 | the workflow as declared, with the enum-typed decision field; its outcome's state holds the question asked |
| Workflow.ExecuteWorkflowCorrected | app/domain/models/conversation_state.py:19 | the workflow with the decision field typed as text; its outcome's state holds the question asked |
| Workflow.RunContinues | app/core/graph_builder.py:49-61 | after a superstep that continues from a state that validates, the run is the run of its next tasks on the merged state, with one superstep fewer |
| Workflow.TwoSupersteps | app/core/graph_builder.py:49-61 | two supersteps on validating states that continue, the second to no task, finish the run on the second's state |
| Workflow.ThreeSupersteps | app/core/graph_builder.py:49-61 | three supersteps on validating states that continue, the third to no task, finish the run on the third's state |
| Workflow.ContinuesToInvalid | app/domain/models/conversation_state.py:19 | a superstep whose next tasks are declared, on a merged state the schema rejects, ends the run with that state as invalid |
| Workflow.PairTasks | app/core/graph_builder.py:49-58 | two declared tasks give their two declared steps, in task order, on the same snapshot |
| Workflow.NextTargetsPair | app/core/graph_builder.py:49-61 | after two tasks, control goes to the first task's goto and static targets, then the second's |
| Workflow.Dedup | app/core/graph_builder.py:49-61 | the next tasks hold every target once, and nothing else |
| Workflow.Ordered | app/core/graph_builder.py:49-61 | a fan-out's updates are merged in either order, as a permutation |
| Workflow.ReverseMultiset | app/core/graph_builder.py:49-61 | reversing the merge order keeps the same updates |
| Workflow.DeclaredLookups | app/core/graph_builder.py:49-58 | each node name runs its own step |
| Workflow.SupervisorSuperstep | app/agents/supervisor_agent.py:57-67 | one supervisor superstep records the decision and continues with the targets of the command |
| Workflow.SearchSuperstep | app/agents/web_search_agent.py:37-43 | one search superstep appends its item and continues with conversational_agent |
| Workflow.FootballSuperstep | app/agents/football_data_agent.py:66-74 | one agent superstep appends its item and continues with conversational_agent |
| Workflow.ResponseSuperstep | app/core/graph_builder.py:61 | the response superstep sets the answer and the run finishes through the edge to END |
| Workflow.FanOutSuperstep | app/agents/supervisor_agent.py:59-63 | the fan-out superstep appends both items, in either order, and continues with conversational_agent once |
| Workflow.UndeclaredTaskDangles | app/core/graph_builder.py:49-58 | a task naming no declared node stops the run with that dangling target |
| Workflow.DeclaredSingle | app/core/graph_builder.py:49-58 | a single task naming one of the four declared nodes is declared |
| Workflow.UndeclaredLookup | app/core/graph_builder.py:49-58 | a name other than the four declared ones finds no node |
| Workflow.ContinuesToDangling | app/core/graph_builder.py:49-58 | a superstep whose only next task names no node ends the run at that dangling target, on the merged state, however the field is typed |
| Workflow.SelfLoop | app/agents/supervisor_agent.py:64-67 | a superstep that leads back to its own tasks, on a validating state the next superstep keeps, repeats until the recursion limit |
| WorkflowRuns.EntryIsSupervisor | app/core/graph_builder.py:60 | every run starts at the supervisor |
| WorkflowRuns.ConversationRun | app/core/graph_builder.py:49-61 | with the field typed as text, token conversational_agent finishes with an answer generated over an empty context |
| WorkflowRuns.SearchRun | app/core/graph_builder.py:49-61 | with the field typed as text, token search_agent finishes with the search item as the whole context and the answer generated from it |
| WorkflowRuns.FootballRun | app/core/graph_builder.py:49-61 | with the field typed as text, token fotmob_agent finishes with the agent item as the whole context and the answer generated from it |
| WorkflowRuns.BothRun | app/agents/supervisor_agent.py:59-63 | however the field is typed, token both finishes with both items in the context, in either order, and the answer generated from them |
| WorkflowRuns.BothRunState | app/agents/supervisor_agent.py:59-63 | the final state of a "both" run, field by field, however the field is typed |
| WorkflowRuns.BothValidates | app/domain/enums.py:14 | a state recording "both" passes validation either way the field is typed |
| WorkflowRuns.SupervisorLoops | app/agents/supervisor_agent.py:64-67 | with the field typed as text, a supervisor that keeps routing to itself runs into the recursion limit |
| WorkflowRuns.SupervisorRun | app/agents/supervisor_agent.py:64-67 | with the field typed as text, token supervisor never finishes: the run hits the recursion limit |
| WorkflowRuns.UnknownTokenRun | app/agents/supervisor_agent.py:64-67 | however the field is typed, a token that is not a node name and not "both" stops the run with that token as a dangling target |
| WorkflowRuns.NodeNamesAreNotValues | app/domain/enums.py:12-15 | no node name is a value of the enum |
| WorkflowRuns.NodeTokenRejected | app/domain/models/conversation_state.py:19 | as declared, a token naming a node is written into the enum-typed field and the next node's input fails validation, on the state recording that token |
| WorkflowRuns.FinishesOnlyOnBoth | app/domain/models/conversation_state.py:19 | as declared, with enough supersteps a run finishes exactly when the decision is "both", and then it has an answer |
| WorkflowRuns.EnumValuesAreNotNodes | app/domain/enums.py:12-15 | no enum value is a node name |
| WorkflowRuns.EnumValueRunDangles | app/domain/enums.py:12-15 | routing to the enum values search, stats or conversation leaves a dangling target |
| WorkflowRuns.FinishesExactlyOnFinishingTokens | app/core/graph_builder.py:49-61 | with the field typed as text, a run finishes exactly for the four prompt tokens (conversational_agent, search_agent, fotmob_agent, both), and then it has an answer |
| WorkflowRuns.FinishingTokenRun | app/core/graph_builder.py:49-61 | with the field typed as text, each of the four finishing tokens finishes with an answer |
| WorkflowRuns.OtherTokenRun | app/agents/supervisor_agent.py:64-67 | with the field typed as text, any other token never finishes |
| TeamModels.OptionalFields | app/domain/models/team_models.py:14-26 | the record has twelve optional fields |
| TeamModels.TeamOf | app/domain/models/team_models.py:12-26 | the record holds the three required strings and the twelve optional values it is built from |
| TeamModels.WithRequiredOnly | app/domain/models/team_models.py:14-26 | a record given only the required fields has every optional field None |
| TeamModels.TeamDeterminedByFields | app/domain/models/team_models.py:12-26 | the record is equal to any other with the same fifteen field values |
| SportsData.RequestUrl | app/services/sports_data_service.py:66 | the URL is the base URL, "/", the key "3", "/", then the endpoint |
| SportsData.SearchEndpoint | app/services/sports_data_service.py:83 | the search endpoint is "searchteams.php?t=" followed by the name as given |
| SportsData.DetailsEndpoint | app/services/sports_data_service.py:106 | the lookup endpoint is "lookupteam.php?id=" followed by the id |
| SportsData.RequestUrlInjective | app/services/sports_data_service.py:66 | different endpoints give different URLs |
| SportsData.SearchUrlInjective | app/services/sports_data_service.py:83 | different names give different search URLs |
| SportsData.SearchAndLookupUrlsDiffer | app/services/sports_data_service.py:83-106 | a search URL is never a lookup URL |
| SportsData.SearchUrlExample | app/services/sports_data_service.py:83 | the search URL for Arsenal ends in /json/3/searchteams.php?t=Arsenal |
| SportsData.FifteenSourceKeys | app/services/sports_data_service.py:35-51 | the transform reads fifteen distinct keys, one per record field |
| SportsData.TransformApiDataToTeam | app/services/sports_data_service.py:22-51 | a team comes out only for sport exactly "Soccer" with well-typed fields; an ill-typed soccer record raises a validation error naming its bad fields; id and name default to ""; each optional field is its key's string, or None when absent or null |
| SportsData.TransformOfDescribedRecord | app/services/sports_data_service.py:32-51 | round trip: the record the API sends for a soccer team transforms back into that team |
| SportsData.IllTypedOptionalIsReported | app/services/sports_data_service.py:38-50 | an optional field that holds something other than a string or null makes the transform raise, and the field is named |
| SportsData.FilterEntry | app/services/sports_data_service.py:85-89 | a non-object entry raises; an object contributes no team when the transform skips it, exactly the transformed team when it yields one, and the transform's error otherwise |
| SportsData.FilterTeams | app/services/sports_data_service.py:85-89 | search keeps only soccer teams and returns at most as many as were supplied |
| SportsData.ThenAssociative | app/services/sports_data_service.py:85-89 | combining results is associative, and the first failure wins |
| SportsData.FilterTeamsAppend | app/services/sports_data_service.py:85-89 | order is kept: the teams of a list are those of its first part followed by those of the rest |
| SportsData.FilterTeamsKeepsSoccer | app/services/sports_data_service.py:85-89 | a list mixing soccer team records with other sports' records yields exactly its soccer teams, in order |
| SportsData.FilterTeamsFindsDescribed | app/services/sports_data_service.py:85-89 | a list of soccer team records yields exactly those teams, in order |
| SportsData.SearchTeamsByName | app/services/sports_data_service.py:71-92 | a timeout or error status gives []; other transport failures and undecodable bodies escape; a body without "teams" gives []; every team found is a soccer team |
| SportsData.SearchFindsListedTeams | app/services/sports_data_service.py:82-90 | a response listing soccer records yields those teams in order |
| SportsData.SearchNullTeamsRaises | app/services/sports_data_service.py:87 | a response with "teams": null makes the search raise TypeError |
| SportsData.SearchTeamsByNameCorrected | app/services/sports_data_service.py:71-92 | as the search, with a timeout or error status giving []; every team found is a soccer team |
| SportsData.SearchCorrectedHandlesNoTeams | app/services/sports_data_service.py:87 | the corrected search gives [] for a missing, null or empty teams value, and agrees with the search as written in every other case |
| SportsData.DetailsResult | app/services/sports_data_service.py:108-113 | a missing, null or empty teams value gives None, as does a falsy first entry; a team found is a soccer team |
| SportsData.GetTeamDetailsById | app/services/sports_data_service.py:94-115 | a timeout or error status gives None; other transport failures and undecodable bodies escape; a team found is a soccer team |
| SportsData.DetailsUseFirstEntryOnly | app/services/sports_data_service.py:108 | entries after the first are ignored |
| SportsData.DetailsFindFirstTeam | app/services/sports_data_service.py:104-113 | a lookup whose first entry describes a soccer team yields that team |
| Config.ErrorMessage | app/services/config_service.py:29-44 | the missing-field and cast-failure messages, naming the field (and the raw value and type) |
| Config.ParseBool | app/services/config_service.py:52-53 | a boolean argument is returned unchanged |
| Config.ParseBoolOfBoolText | app/services/config_service.py:53 | round trip: parsing "True" or "False" gives the boolean back |
| Config.ParseBoolIgnoresCase | app/services/config_service.py:53 | the text's case does not matter |
| Config.ProcessField | app/services/config_service.py:23-46 | non-upper-case names are skipped; a missing field without a default raises naming it; a cast failure reports the field and its environment text; a field with a default but not in the environment is stored |
| Config.StrFieldStep | app/services/config_service.py:27-38 | a string field stores the environment text exactly, else the default, else raises missing |
| Config.IntFieldStep | app/services/config_service.py:36-46 | an integer field stores `int()` of the environment text or raises a cast error; absent, it stores the default |
| Config.FloatFieldStep | app/services/config_service.py:36-46 | a float field stores the environment text if `float()` accepts it or raises a cast error; absent, it stores the default |
| Config.BoolFieldStep | app/services/config_service.py:33-34 | a boolean field parses the environment text, else keeps the default |
| Config.LoadSetsOnlyUpperAnnotated | app/services/config_service.py:23-25 | only upper-case annotated names are ever set |
| Config.LoadSucceedsIffNoneRaises | app/services/config_service.py:23-46 | loading succeeds exactly when no field's turn raises |
| Config.LoadReportsFirstFailure | app/services/config_service.py:23-46 | the error raised is that of the first field that fails |
| Config.LoadStoresEachField | app/services/config_service.py:23-38 | after a successful load each field holds the value its own turn computed |
| Config.LoadStopsAtError | app/services/config_service.py:29-46 | after an error later fields change nothing |
| Config.LoadStep | app/services/config_service.py:23-46 | one more field after an error-free prefix is skipped, stored or raises |
| Config.AppConfig.constructor | app/services/config_service.py:20 | a new configuration object has an empty instance dictionary |
| Config.AppConfig.SetFields | app/services/config_service.py:23-46 | the loop sets the fields exactly as the load specification says, and returns its error |
| Config.AppConfig.Init | app/services/config_service.py:20-46 | the initialiser processes the class's eight annotations as the load specification says |
| Config.CapitalNameIsUpper | app/services/config_service.py:24 | a name that starts with a capital and holds no small letter passes the upper-case test |
| Config.AppConfigNamesUpper | app/services/config_service.py:11-24 | all eight field names pass the upper-case test, so none is skipped |
| Config.AppConfigNamesDistinct | app/services/config_service.py:11-18 | the eight field names are distinct |
| Config.AppConfigSteps | app/services/config_service.py:11-46 | which of the eight fields can raise, and when: the token limit on a bad integer, the floats on bad float text, the three fields without a default when absent |
| Config.AppConfigLoadsIff | app/services/config_service.py:11-46 | the configuration loads exactly when endpoint, key and Tavily key are present and every numeric value given casts |
| Config.AppConfigValues | app/services/config_service.py:11-38 | then exactly the eight fields are set, each to its environment value cast to its type, or else to its class default (200, 0.15, gpt-35-turbo, 2024-12-01-preview, 0.9) |
| Config.AppConfigStores | app/services/config_service.py:23-38 | each of the eight fields holds what its turn computed |
| Config.AppConfigKeys | app/services/config_service.py:23-38 | a successful load sets exactly the eight field names |
| Config.EmptyEnvironmentNeedsEndpoint | app/services/config_service.py:14-29 | with an empty environment the error is the missing endpoint, the first field without a default |
| Config.BadTokenLimitIsReported | app/services/config_service.py:36-46 | a token limit `int()` refuses is reported as a cast error with the offending text |
| Config.AppConfigNameUpper | app/services/config_service.py:11-24 | the name of each of the eight annotations passes the upper-case test |
| Config.MaxNewTokensStep | app/services/config_service.py:11-46 | the token limit raises exactly when its environment text is present and `int()` refuses it |
| Config.TemperatureStep | app/services/config_service.py:12-46 | the temperature raises exactly when its environment text is present and `float()` refuses it |
| Config.DeploymentStep | app/services/config_service.py:13-29 | the deployment name never raises: it has a default |
| Config.EndpointStep | app/services/config_service.py:14-29 | the endpoint raises exactly when the environment lacks it |
| Config.ApiVersionStep | app/services/config_service.py:15-29 | the API version never raises: it has a default |
| Config.KeyStep | app/services/config_service.py:16-29 | the key raises exactly when the environment lacks it |
| Config.TopPStep | app/services/config_service.py:17-46 | top-p raises exactly when its environment text is present and `float()` refuses it |
| Config.TavilyKeyStep | app/services/config_service.py:18-29 | the Tavily key raises exactly when the environment lacks it |
| Config.MaxNewTokensValue | app/services/config_service.py:11-38 | after a successful load the token limit is `int()` of its environment text, else 200 |
| Config.TemperatureValue | app/services/config_service.py:12-38 | the temperature is its environment text, else 0.15 |
| Config.DeploymentValue | app/services/config_service.py:13-38 | the deployment is its environment text, else gpt-35-turbo |
| Config.EndpointValue | app/services/config_service.py:14-38 | the endpoint is its environment text |
| Config.ApiVersionValue | app/services/config_service.py:15-38 | the API version is its environment text, else 2024-12-01-preview |
| Config.KeyValue | app/services/config_service.py:16-38 | the key is its environment text |
| Config.TopPValue | app/services/config_service.py:17-38 | top-p is its environment text, else 0.9 |
| Config.TavilyKeyValue | app/services/config_service.py:18-38 | the Tavily key is its environment text |
| Config.AnnotatedName | app/services/config_service.py:11-18 | only the eight declared names are annotated |

## Left out

- **Language model, Tavily, agent, HTTP client, `json.dumps` and `uuid`.** These are foreign calls.
  - They are function parameters of the model.
  - Their text results are taken as already serialised.
  - Prompt wording is not modelled.
- **LangGraph's runtime.** The interpreter is a model of how supersteps, reducers, goto and static edges combine. It is not LangGraph's code.
  - `compile`, `ainvoke` and the asynchronous scheduling are not modelled.
  - A fan-out is two sequential merges in either order.
- Workflow.Run: the recursion limit is a `fuel` bound on the number of supersteps (LangGraph's default is 25). LangGraph's own `GraphRecursionError` machinery is not modelled.
- **`END` as a goto name.** A goto naming LangGraph's `"__end__"` is treated like any other undeclared name.
- **Graph-building checks.** LangGraph rejects a duplicate `add_node`; the four declared names are distinct, so the model does not include that check.
- **`visualize_workflow`.** It is IPython display, and is not part of this model. `execute_workflow` is `Workflow.ExecuteWorkflow`.
- **Pydantic validation beyond the decision field.** Validation of a node's input is modelled for `current_route_decision` only, the one field a step can set to a value its type rejects. The supervisor's in-place assignment (`app/agents/supervisor_agent.py:57`) is not validated, as pydantic does not validate assignments by default. Validation of the final output state is not modelled.
- **`model_dump`.** Search returns `model_dump()` dictionaries; the model returns the records, which hold the same fields.
- **The team record's field set.** It is fixed by the datatype's declaration. Pydantic's coercions are reduced to "a string, or null for an optional field, validates". Other JSON values are validation errors.
- **Floating-point JSON numbers.** They are not modelled: `Json` numbers are integers.
- **Config floats.** `TEMPERATURE` and `TOP_P` are stored as their text.
  - Config.FloatFieldStep: decides whether `float()` accepts the text, but does not compute its value, because floating point is outside the model.
  - `load_dotenv` is environment I/O; the environment is a parameter.
- PyStr.Lower: lower-cases ASCII letters only. Python lower-cases all of Unicode.
- PyStr.IsUpper: tests ASCII letters only. `int()` and `float()` likewise read ASCII digits only.
- **Team-name escaping.** A team name is put into the query string as given, without URL escaping, as the code does.
- **The tools wrapper, router, controller, client wrapper, application wiring and the input schemas.** These are plumbing; `app/tools/football_api_tools.py` and the rest are not part of this model.

## Findings

| source | as written | input that shows it | evidently intended | confidence | as-written member | corrected member |
|---|---|---|---|---|---|---|
| app/services/sports_data_service.py:87 | `api_response.get("teams", [])` iterates the value of `"teams"`, and `None` is not iterable | a search that matches nothing, where TheSportsDB answers `{"teams": null}`: the search raises `TypeError` instead of returning `[]` | no teams gives an empty list, as the lookup at line 108 does with `or [None]` | medium, not executed | SportsData.SearchTeamsByName (shown by SportsData.SearchNullTeamsRaises) | SportsData.SearchTeamsByNameCorrected (proved by SportsData.SearchCorrectedHandlesNoTeams) |
| app/domain/models/conversation_state.py:19 | `current_route_decision` is typed as the route-decision enum, whose values are `search`, `stats`, `both` and `conversation`, while the supervisor writes the prompt's tokens into it | a classifier answering `search_agent`: the superstep after the supervisor builds the search node's input from a state holding `search_agent`, which fails validation; only `both` reaches END | the field accepts every routing token the prompt offers, so the four prompt tokens each reach END with an answer | medium, not executed | Workflow.ExecuteWorkflow (shown by WorkflowRuns.NodeTokenRejected) | Workflow.ExecuteWorkflowCorrected (proved by WorkflowRuns.FinishesExactlyOnFinishingTokens) |
