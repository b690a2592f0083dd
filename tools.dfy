/** `DiagramTools`: the catalog of eight tools, the messages their handlers send, and
    `executeTool`, which checks authentication, then the rate limit, then the tool name
    and its arguments, then the handler's permission, before anything is sent, and
    reports every call that got past the first two checks to the audit log.

    The collaborators it calls (`isAuthenticated`, `checkRateLimit`, `checkPermission`,
    `logOperation` and `sendMessage`) are not part of this model; their answers are the
    inputs in `Collaborators`, and the calls made to them, in order, are returned as a
    trace. */
module DiagramTools {
  import opened Wrappers
  import opened Js
  import opened Schemas
  import SchemaFacts

  datatype Operation =
    | CreateDiagram | ReadDiagram | ListDiagrams
    | AddNode | UpdateNode | DeleteNode | AddEdge | DeleteEdge

  /** The eight tools in catalog order. */
  const Operations: seq<Operation> :=
    [CreateDiagram, ReadDiagram, ListDiagrams, AddNode, UpdateNode, DeleteNode, AddEdge, DeleteEdge]

  function Name(op: Operation): string {
    match op
    case CreateDiagram => "create_diagram"
    case ReadDiagram => "read_diagram"
    case ListDiagrams => "list_diagrams"
    case AddNode => "add_node"
    case UpdateNode => "update_node"
    case DeleteNode => "delete_node"
    case AddEdge => "add_edge"
    case DeleteEdge => "delete_edge"
  }

  /** The `switch (name)` of `executeTool`: which case a tool name selects. */
  function ToolNamed(name: string): (r: Option<Operation>)
    ensures r.Some? ==> Name(r.value) == name
    ensures forall op :: Name(op) == name ==> r == Some(op)
  {
    match name
    case "create_diagram" => Some(CreateDiagram)
    case "read_diagram" => Some(ReadDiagram)
    case "list_diagrams" => Some(ListDiagrams)
    case "add_node" => Some(AddNode)
    case "update_node" => Some(UpdateNode)
    case "delete_node" => Some(DeleteNode)
    case "add_edge" => Some(AddEdge)
    case "delete_edge" => Some(DeleteEdge)
    case _ => None
  }

  function SchemaOf(op: Operation): Schema {
    match op
    case CreateDiagram => CreateDiagramSchema
    case ReadDiagram => ReadDiagramSchema
    case ListDiagrams => ListDiagramsSchema
    case AddNode => AddNodeSchema
    case UpdateNode => UpdateNodeSchema
    case DeleteNode => DeleteNodeSchema
    case AddEdge => AddEdgeSchema
    case DeleteEdge => DeleteEdgeSchema
  }

  /** The permissions a handler asks for. */
  datatype Capability = CanCreateDiagrams | CanReadDiagrams | CanListDiagrams | CanEditDiagrams

  function RequiredCapability(op: Operation): Capability {
    match op
    case CreateDiagram => CanCreateDiagrams
    case ReadDiagram => CanReadDiagrams
    case ListDiagrams => CanListDiagrams
    case _ => CanEditDiagrams
  }

  function DenialMessage(op: Operation): string {
    match op
    case CreateDiagram => "Permission denied: cannot create diagrams"
    case ReadDiagram => "Permission denied: cannot read diagrams"
    case ListDiagrams => "Permission denied: cannot list diagrams"
    case _ => "Permission denied: cannot edit diagrams"
  }

  /** The message a handler passes to `sendMessage`; `kind` is the wire member `type`.
      An absent member is `None` (it is dropped when the message is serialized). */
  datatype DiagramMessage = DiagramMessage(
    kind: string, operation: string, diagramUuid: Option<Value>, data: Option<Value>)

  /** The message a handler builds from its parsed arguments. */
  function BuildMessage(op: Operation, args: Value): DiagramMessage {
    var uuid := Get(args, "diagram_uuid");
    match op
    case CreateDiagram => DiagramMessage("agent_operation", Name(op), None, Some(args))
    case ReadDiagram => DiagramMessage("agent_operation", Name(op), None, Some(args))
    case ListDiagrams => DiagramMessage("agent_operation", Name(op), None, Some(args))
    case AddNode => DiagramMessage("agent_operation", Name(op), uuid, Get(args, "node_data"))
    case UpdateNode => DiagramMessage("agent_operation", Name(op), uuid, Some(Pick(args, {"node_id", "updates"})))
    case DeleteNode => DiagramMessage("agent_operation", Name(op), uuid, Some(Pick(args, {"node_id"})))
    case AddEdge => DiagramMessage("agent_operation", Name(op), uuid, Get(args, "edge_data"))
    case DeleteEdge => DiagramMessage("agent_operation", Name(op), uuid, Some(Pick(args, {"edge_id"})))
  }

  /** A catalog entry: its name, its description, and the top-level properties and
      required properties its advertised input schema lists. */
  datatype Tool = Tool(name: string, description: string, properties: seq<string>, required: seq<string>)

  /** The tool list `initializeTools` builds. */
  function Catalog(): seq<Tool> {
    [ Tool("create_diagram", "Create a new diagram with specified title, format, and optional initial content",
           ["title", "description", "format", "template", "initialNodes", "initialEdges"], ["title"]),
      Tool("read_diagram", "Read the complete content of a diagram by UUID",
           ["diagram_uuid", "include_metadata"], ["diagram_uuid"]),
      Tool("list_diagrams", "List diagrams with optional filtering and pagination",
           ["limit", "offset", "filter"], []),
      Tool("add_node", "Add a new node to an existing diagram",
           ["diagram_uuid", "node_data"], ["diagram_uuid", "node_data"]),
      Tool("update_node", "Update properties of an existing node",
           ["diagram_uuid", "node_id", "updates"], ["diagram_uuid", "node_id", "updates"]),
      Tool("delete_node", "Delete a node from a diagram",
           ["diagram_uuid", "node_id"], ["diagram_uuid", "node_id"]),
      Tool("add_edge", "Add a connection between two nodes",
           ["diagram_uuid", "edge_data"], ["diagram_uuid", "edge_data"]),
      Tool("delete_edge", "Delete an edge from a diagram",
           ["diagram_uuid", "edge_id"], ["diagram_uuid", "edge_id"]) ]
  }

  /** What `sendMessage` did: resolved with a response, or rejected. */
  datatype Reply = Answered(response: Value) | Threw(error: Exception)

  /** The arguments of one `logOperation` call; `result` is `None` for `undefined`. */
  datatype AuditEntry = AuditEntry(
    tool: string, target: Value, args: Value, result: Option<Value>, success: bool, duration: int)

  /** A call `executeTool` makes to a collaborator. */
  datatype Call =
    | IsAuthenticated
    | CheckRateLimit(tool: string)
    | CheckPermission(capability: Capability)
    | SendMessage(message: DiagramMessage)
    | LogOperation(entry: AuditEntry)

  /** The collaborators' answers: whether the caller is authenticated, whether a tool is
      within its rate limit, which capabilities are granted, how `sendMessage` answers a
      message, and the error, if any, with which `logOperation` rejects an entry. */
  datatype Collaborators = Collaborators(
    authenticated: bool,
    withinRateLimit: string -> bool,
    permits: Capability -> bool,
    send: DiagramMessage -> Reply,
    logFailure: AuditEntry -> Option<Exception>)

  /** `{ success: true, result, tool, duration, timestamp }` (the timestamp is not modelled). */
  datatype ToolSuccess = ToolSuccess(result: Option<Value>, tool: string, duration: int)

  /** A settled `executeTool` call and the collaborator calls it made. */
  datatype Execution = Execution(result: Result<ToolSuccess, Exception>, calls: seq<Call>)

  /** Part of a call: what it produced or threw, and the collaborator calls it made. */
  datatype Step = Step(outcome: Result<Option<Value>, Exception>, calls: seq<Call>)

  /** Stand-in for the text of the `ZodError` a failed parse throws: it names the path
      of the offending value. */
  function ZodMessage(issue: Issue): string {
    "Invalid arguments at " + JoinPath(issue.path)
  }

  function JoinPath(path: seq<string>): string {
    if path == [] then "<root>" else if |path| == 1 then path[0] else path[0] + "." + JoinPath(path[1..])
  }

  /** A handler: the permission check, then the message, then `response.result`. */
  function Handle(op: Operation, parsed: Value, c: Collaborators): Step {
    var capability := RequiredCapability(op);
    if !c.permits(capability) then
      Step(Failure(Error(DenialMessage(op))), [CheckPermission(capability)])
    else
      var message := BuildMessage(op, parsed);
      var calls := [CheckPermission(capability), SendMessage(message)];
      match c.send(message)
      case Threw(e) => Step(Failure(e), calls)
      case Answered(response) =>
        if response.Null? then Step(Failure(NullRead("result")), calls)
        else Step(Success(Get(response, "result")), calls)
  }

  /** The `switch` inside the `try` block: the name selects a schema and a handler. */
  function Switch(name: string, args: Value, c: Collaborators): Step {
    match ToolNamed(name)
    case None => Step(Failure(Error("Unknown tool: " + name)), [])
    case Some(op) =>
      match Parse(SchemaOf(op), args)
      case Failure(issue) => Step(Failure(Error(ZodMessage(issue))), [])
      case Success(parsed) => Handle(op, parsed, c)
  }

  /** `args.diagram_uuid || sentinel`; `None` when `args` is `null`, where the read throws. */
  function Target(args: Value, sentinel: string): Option<Value> {
    if args.Null? then None else Some(Or(Get(args, "diagram_uuid"), Str(sentinel)))
  }

  /** The entry the success path logs and the one the `catch` block logs. */
  function SuccessEntry(name: string, args: Value, result: Option<Value>, duration: int): AuditEntry
    requires !args.Null?
  {
    AuditEntry(name, Target(args, "new").value, args, result, true, duration)
  }

  function FailureEntry(name: string, args: Value, duration: int): AuditEntry
    requires !args.Null?
  {
    AuditEntry(name, Target(args, "unknown").value, args, Some(Null), false, duration)
  }

  /** The `catch` block: log the failure, then rethrow the caught error; if the read of
      `args.diagram_uuid` or the log call itself throws, that error escapes instead. */
  function Catch(name: string, args: Value, caught: Exception, c: Collaborators, duration: int, calls: seq<Call>): Execution {
    if args.Null? then Execution(Failure(NullRead("diagram_uuid")), calls)
    else
      var entry := FailureEntry(name, args, duration);
      Execution(Failure(c.logFailure(entry).GetOr(caught)), calls + [LogOperation(entry)])
  }

  /** `executeTool(name, args)` as a function of the collaborators' answers; `duration`
      stands for the elapsed wall-clock time. */
  function Execute(name: string, args: Value, c: Collaborators, duration: int): Execution {
    if !c.authenticated then
      Execution(Failure(Error("Not authenticated")), [IsAuthenticated])
    else if !c.withinRateLimit(name) then
      Execution(Failure(Error("Rate limit exceeded")), [IsAuthenticated, CheckRateLimit(name)])
    else
      var step := Switch(name, args, c);
      var calls := [IsAuthenticated, CheckRateLimit(name)] + step.calls;
      match step.outcome
      case Failure(e) => Catch(name, args, e, c, duration, calls)
      case Success(result) =>
        if args.Null? then Catch(name, args, NullRead("diagram_uuid"), c, duration, calls)
        else
          var entry := SuccessEntry(name, args, result, duration);
          match c.logFailure(entry)
          case None => Execution(Success(ToolSuccess(result, name, duration)), calls + [LogOperation(entry)])
          case Some(e) => Catch(name, args, e, c, duration, calls + [LogOperation(entry)])
  }

  class DiagramTools {
    const tools: seq<Tool>

    /** The constructor runs `initializeTools`. */
    constructor ()
      ensures tools == Catalog()
    {
      tools := Catalog();
    }

    function GetToolCount(): (n: nat)
      requires tools == Catalog()
      ensures n == 8
    {
      |tools|
    }

    /** `getAvailableTools()`: the eight tools, in catalog order, each under the name
        that selects its operation in `executeTool`. */
    function GetAvailableTools(): (r: seq<Tool>)
      requires tools == Catalog()
      ensures |r| == |Operations|
      ensures forall i :: 0 <= i < |r| ==> ToolNamed(r[i].name) == Some(Operations[i])
    {
      tools
    }

    /** `executeTool(name, args)`, step by step: the two guards outside the `try`, the
        `switch` and the success log inside it, and the `catch` block. */
    method ExecuteTool(name: string, args: Value, c: Collaborators, duration: int)
      returns (r: Result<ToolSuccess, Exception>, calls: seq<Call>)
      ensures Execution(r, calls) == Execute(name, args, c, duration)
    {
      calls := [IsAuthenticated];
      if !c.authenticated {
        return Failure(Error("Not authenticated")), calls;
      }
      calls := calls + [CheckRateLimit(name)];
      if !c.withinRateLimit(name) {
        return Failure(Error("Rate limit exceeded")), calls;
      }
      var caught: Exception;
      var step := Switch(name, args, c);
      calls := calls + step.calls;
      if step.outcome.Success? {
        var result := step.outcome.value;
        if args.Null? {
          caught := NullRead("diagram_uuid");
        } else {
          var entry := SuccessEntry(name, args, result, duration);
          calls := calls + [LogOperation(entry)];
          var logged := c.logFailure(entry);
          if logged.None? {
            return Success(ToolSuccess(result, name, duration)), calls;
          }
          caught := logged.value;
        }
      } else {
        caught := step.outcome.error;
      }
      if args.Null? {
        return Failure(NullRead("diagram_uuid")), calls;
      }
      var entry := FailureEntry(name, args, duration);
      calls := calls + [LogOperation(entry)];
      var logged := c.logFailure(entry);
      r := Failure(logged.GetOr(caught));
    }
  }
}
