/** Properties of the tool dispatcher: the catalog agrees with the `switch` and with the
    argument schemas, a message is sent only for a known tool with valid arguments and a
    granted capability, and every call past the first two checks is audit-logged. */
module ToolFacts {
  import opened Wrappers
  import opened Js
  import opened Schemas
  import opened SchemaFacts
  import opened DiagramTools

  /** The entries handed to `logOperation`, in call order. */
  function Logs(calls: seq<Call>): seq<AuditEntry> {
    if calls == [] then []
    else (if calls[0].LogOperation? then [calls[0].entry] else []) + Logs(calls[1..])
  }

  /** The messages handed to `sendMessage`, in call order. */
  function Sends(calls: seq<Call>): seq<DiagramMessage> {
    if calls == [] then []
    else (if calls[0].SendMessage? then [calls[0].message] else []) + Sends(calls[1..])
  }

  lemma {:induction false} LogsAppend(a: seq<Call>, b: seq<Call>)
    ensures Logs(a + b) == Logs(a) + Logs(b) && Sends(a + b) == Sends(a) + Sends(b)
  {
    if a == [] {
      assert a + b == b;
    } else {
      assert (a + b)[0] == a[0];
      assert (a + b)[1..] == a[1..] + b;
      LogsAppend(a[1..], b);
    }
  }

  /** The keys of an object schema, in declaration order. */
  function KeyList(shape: seq<Field>): seq<string> {
    seq(|shape|, k requires 0 <= k < |shape| => shape[k].key)
  }

  /** The catalog lists exactly the eight tools the `switch` handles, under distinct
      names and in the order of `Operations`. */
  lemma CatalogMatchesSwitch()
    ensures |Catalog()| == |Operations| == 8
    ensures forall i, j :: 0 <= i < j < 8 ==> Catalog()[i].name != Catalog()[j].name
    ensures forall i :: 0 <= i < 8 ==> ToolNamed(Catalog()[i].name) == Some(Operations[i])
    ensures forall op: Operation :: op in Operations
  {
    forall op: Operation ensures op in Operations {
      match op
      case CreateDiagram => assert Operations[0] == op;
      case ReadDiagram => assert Operations[1] == op;
      case ListDiagrams => assert Operations[2] == op;
      case AddNode => assert Operations[3] == op;
      case UpdateNode => assert Operations[4] == op;
      case DeleteNode => assert Operations[5] == op;
      case AddEdge => assert Operations[6] == op;
      case DeleteEdge => assert Operations[7] == op;
    }
  }

  /** Each advertised input schema lists the same top-level properties as the argument
      schema the call is validated against, and marks as required exactly those that
      have neither `.optional()` nor `.default(..)`. */
  lemma CatalogAdvertisesSchemas(i: nat)
    requires i < 8
    ensures SchemaOf(Operations[i]).ObjectOf?
    ensures Catalog()[i].properties == KeyList(SchemaOf(Operations[i]).shape)
    ensures var shape := SchemaOf(Operations[i]).shape;
      forall j :: 0 <= j < |shape| ==> (shape[j].key in Catalog()[i].required <==> Mandatory(shape[j].schema))
    ensures forall k :: k in Catalog()[i].required ==> k in Catalog()[i].properties
  {
    var shape := SchemaOf(Operations[i]).shape;
    forall j | 0 <= j < |shape|
      ensures shape[j].key in Catalog()[i].required <==> Mandatory(shape[j].schema)
    {
      if j == 0 {} else if j == 1 {} else if j == 2 {} else if j == 3 {} else if j == 4 {} else {}
    }
  }

  /** Every outbound message is an `agent_operation` named after its tool. */
  lemma MessagesAreAgentOperations(op: Operation, args: Value)
    ensures BuildMessage(op, args).kind == "agent_operation"
    ensures BuildMessage(op, args).operation == Name(op)
    ensures ToolNamed(BuildMessage(op, args).operation) == Some(op)
  {
  }

  /** Create, read and list send the arguments their schema produced as `data`, with no
      diagram UUID. */
  lemma WholeArgumentsMessage(op: Operation, args: Value)
    requires op in {CreateDiagram, ReadDiagram, ListDiagrams}
    ensures BuildMessage(op, args).diagramUuid == None
    ensures BuildMessage(op, args).data == Some(args)
  {
  }

  /** Node and edge operations accept only an object whose `diagram_uuid` is a UUID
      string, and send that string, exactly as given, as the message's diagram UUID. */
  lemma ScopedMessageNamesDiagram(op: Operation, args: Value)
    requires op !in {CreateDiagram, ReadDiagram, ListDiagrams}
    requires Parse(SchemaOf(op), args).Success?
    ensures args.Obj? && "diagram_uuid" in args.fields && args.fields["diagram_uuid"].Str?
    ensures IsUuid(args.fields["diagram_uuid"].s)
    ensures BuildMessage(op, Parse(SchemaOf(op), args).value).diagramUuid == Some(args.fields["diagram_uuid"])
  {
    var shape := SchemaOf(op).shape;
    assert DistinctKeys(shape);
    MandatoryFieldParsed(shape, 0, args);
  }

  /** `add_node` sends the `node_data` object its schema produced. */
  lemma AddNodeMessage(args: Value)
    requires Parse(AddNodeSchema, args).Success?
    ensures var parsed := Parse(AddNodeSchema, args).value;
      && parsed.Obj? && "node_data" in parsed.fields && parsed.fields["node_data"].Obj?
      && BuildMessage(AddNode, parsed).data == Some(parsed.fields["node_data"])
  {
    MandatoryFieldParsed(AddNodeSchema.shape, 1, args);
  }

  /** `update_node` sends `node_id`, exactly as given, and the `updates` object its
      schema produced, and nothing else. */
  lemma UpdateNodeMessage(args: Value)
    requires Parse(UpdateNodeSchema, args).Success?
    ensures var parsed := Parse(UpdateNodeSchema, args).value;
      && args.Obj? && "node_id" in args.fields && parsed.Obj?
      && "updates" in parsed.fields && parsed.fields["updates"].Obj?
      && BuildMessage(UpdateNode, parsed).data
         == Some(Obj(map["node_id" := args.fields["node_id"], "updates" := parsed.fields["updates"]]))
  {
    var shape := UpdateNodeSchema.shape;
    var parsed := Parse(UpdateNodeSchema, args).value;
    MandatoryFieldParsed(shape, 1, args);
    MandatoryFieldParsed(shape, 2, args);
    assert parsed.fields.Keys * {"node_id", "updates"} == {"node_id", "updates"};
    var picked := Pick(parsed, {"node_id", "updates"}).fields;
    assert Get(parsed, "node_id") == Some(picked["node_id"]);
    assert Get(parsed, "updates") == Some(picked["updates"]);
    assert picked == map["node_id" := args.fields["node_id"], "updates" := parsed.fields["updates"]];
  }

  /** `delete_node` sends `node_id`, exactly as given, and nothing else. */
  lemma DeleteNodeMessage(args: Value)
    requires Parse(DeleteNodeSchema, args).Success?
    ensures args.Obj? && "node_id" in args.fields
    ensures BuildMessage(DeleteNode, Parse(DeleteNodeSchema, args).value).data
      == Some(Obj(map["node_id" := args.fields["node_id"]]))
  {
    var parsed := Parse(DeleteNodeSchema, args).value;
    MandatoryFieldParsed(DeleteNodeSchema.shape, 1, args);
    assert parsed.fields.Keys * {"node_id"} == {"node_id"};
    var picked := Pick(parsed, {"node_id"}).fields;
    assert Get(parsed, "node_id") == Some(picked["node_id"]);
    assert picked == map["node_id" := args.fields["node_id"]];
  }

  /** `add_edge` sends the `edge_data` object its schema produced. */
  lemma AddEdgeMessage(args: Value)
    requires Parse(AddEdgeSchema, args).Success?
    ensures var parsed := Parse(AddEdgeSchema, args).value;
      && parsed.Obj? && "edge_data" in parsed.fields && parsed.fields["edge_data"].Obj?
      && BuildMessage(AddEdge, parsed).data == Some(parsed.fields["edge_data"])
  {
    MandatoryFieldParsed(AddEdgeSchema.shape, 1, args);
  }

  /** `delete_edge` sends `edge_id`, exactly as given, and nothing else. */
  lemma DeleteEdgeMessage(args: Value)
    requires Parse(DeleteEdgeSchema, args).Success?
    ensures args.Obj? && "edge_id" in args.fields
    ensures BuildMessage(DeleteEdge, Parse(DeleteEdgeSchema, args).value).data
      == Some(Obj(map["edge_id" := args.fields["edge_id"]]))
  {
    var parsed := Parse(DeleteEdgeSchema, args).value;
    MandatoryFieldParsed(DeleteEdgeSchema.shape, 1, args);
    assert parsed.fields.Keys * {"edge_id"} == {"edge_id"};
    var picked := Pick(parsed, {"edge_id"}).fields;
    assert Get(parsed, "edge_id") == Some(picked["edge_id"]);
    assert picked == map["edge_id" := args.fields["edge_id"]];
  }

  // ----- executeTool -----

  /** Every execution asks for authentication first, and stops there, with nothing
      sent or logged, when the caller is not authenticated. */
  lemma AuthenticationComesFirst(name: string, args: Value, c: Collaborators, duration: int)
    ensures var x := Execute(name, args, c, duration);
      && |x.calls| >= 1 && x.calls[0] == IsAuthenticated
      && (!c.authenticated <==> x.calls == [IsAuthenticated])
      && (!c.authenticated ==> x.result == Failure(Error("Not authenticated")))
  {
  }

  /** The rate limit is checked second, for the tool's own name, and an exceeded limit
      ends the call with nothing sent or logged. */
  lemma RateLimitComesSecond(name: string, args: Value, c: Collaborators, duration: int)
    requires c.authenticated
    ensures var x := Execute(name, args, c, duration);
      && |x.calls| >= 2 && x.calls[..2] == [IsAuthenticated, CheckRateLimit(name)]
      && (!c.withinRateLimit(name) ==> |x.calls| == 2)
      && (c.withinRateLimit(name) && !args.Null? ==> |x.calls| > 2)
      && (!c.withinRateLimit(name) ==> x.result == Failure(Error("Rate limit exceeded")))
  {
  }

  /** A name outside the catalog is never sent: the call is logged once, as a failure,
      and the `Unknown tool` error is rethrown unless the log itself throws. */
  lemma UnknownToolIsLoggedNotSent(name: string, args: Value, c: Collaborators, duration: int)
    requires c.authenticated && c.withinRateLimit(name) && !args.Null?
    requires ToolNamed(name).None?
    ensures var entry := FailureEntry(name, args, duration);
      Execute(name, args, c, duration) == Execution(
        Failure(c.logFailure(entry).GetOr(Error("Unknown tool: " + name))),
        [IsAuthenticated, CheckRateLimit(name), LogOperation(entry)])
    ensures forall op: Operation :: Name(op) != name
  {
  }

  /** Arguments the tool's schema rejects are never sent and no permission is asked:
      the call is logged once, as a failure, and the parse error is rethrown unless the
      log itself throws. */
  lemma InvalidArgumentsAreNotSent(op: Operation, args: Value, c: Collaborators, duration: int)
    requires c.authenticated && c.withinRateLimit(Name(op)) && !args.Null?
    requires Parse(SchemaOf(op), args).Failure?
    ensures var entry := FailureEntry(Name(op), args, duration);
      Execute(Name(op), args, c, duration) == Execution(
        Failure(c.logFailure(entry).GetOr(Error(ZodMessage(Parse(SchemaOf(op), args).error)))),
        [IsAuthenticated, CheckRateLimit(Name(op)), LogOperation(entry)])
  {
  }

  /** A capability the handler does not hold stops the call before anything is sent:
      the denial is logged once and rethrown unless the log itself throws. */
  lemma DeniedCallSendsNothing(op: Operation, args: Value, c: Collaborators, duration: int)
    requires c.authenticated && c.withinRateLimit(Name(op)) && !args.Null?
    requires Parse(SchemaOf(op), args).Success? && !c.permits(RequiredCapability(op))
    ensures var entry := FailureEntry(Name(op), args, duration);
      Execute(Name(op), args, c, duration) == Execution(
        Failure(c.logFailure(entry).GetOr(Error(DenialMessage(op)))),
        [IsAuthenticated, CheckRateLimit(Name(op)), CheckPermission(RequiredCapability(op)), LogOperation(entry)])
  {
  }

  /** A trace of log calls sends nothing. */
  lemma {:induction false} LogsSendNothing(calls: seq<Call>)
    requires forall k :: 0 <= k < |calls| ==> calls[k].LogOperation?
    ensures Sends(calls) == []
  {
    if calls != [] {
      LogsSendNothing(calls[1..]);
    }
  }

  /** The `switch` sends at most once, and only as the second of its two calls, after
      the needed capability was granted to a catalog tool with valid arguments. */
  lemma SwitchSendsAtMostOnce(name: string, args: Value, c: Collaborators)
    ensures var calls := Switch(name, args, c).calls;
      && |Sends(calls)| <= 1
      && (|Sends(calls)| == 1 ==>
            && ToolNamed(name).Some?
            && var op := ToolNamed(name).value;
            && Parse(SchemaOf(op), args).Success?
            && c.permits(RequiredCapability(op))
            && calls == [CheckPermission(RequiredCapability(op)),
                         SendMessage(BuildMessage(op, Parse(SchemaOf(op), args).value))])
  {
    var calls := Switch(name, args, c).calls;
    if |calls| == 1 {
      assert Sends(calls) == Sends(calls[1..]);
    } else if |calls| == 2 {
      assert calls[1..][1..] == [];
      assert Sends(calls) == Sends(calls[1..]);
      assert Sends(calls[1..]) == [calls[1].message];
    }
  }

  /** Past the two guards, `executeTool` makes the `switch`'s calls and then only log
      calls. */
  lemma ExecuteTraceShape(name: string, args: Value, c: Collaborators, duration: int)
    requires c.authenticated && c.withinRateLimit(name)
    ensures var x := Execute(name, args, c, duration);
      var prefix := [IsAuthenticated, CheckRateLimit(name)] + Switch(name, args, c).calls;
      && |prefix| <= |x.calls| && x.calls[..|prefix|] == prefix
      && forall k :: |prefix| <= k < |x.calls| ==> x.calls[k].LogOperation?
  {
  }

  /** At most one message is sent, and only for a catalog tool whose arguments its schema
      accepted, right after the handler's capability was granted; what is sent is the
      message built from the parsed arguments. */
  lemma SendOnlyAfterValidationAndPermission(name: string, args: Value, c: Collaborators, duration: int)
    ensures var x := Execute(name, args, c, duration);
      && |Sends(x.calls)| <= 1
      && (|Sends(x.calls)| == 1 ==>
            && c.authenticated && c.withinRateLimit(name)
            && ToolNamed(name).Some?
            && var op := ToolNamed(name).value;
            && Parse(SchemaOf(op), args).Success?
            && c.permits(RequiredCapability(op))
            && |x.calls| >= 4
            && x.calls[..4] == [IsAuthenticated, CheckRateLimit(name), CheckPermission(RequiredCapability(op)),
                                SendMessage(BuildMessage(op, Parse(SchemaOf(op), args).value))])
  {
    var x := Execute(name, args, c, duration);
    var checks := [IsAuthenticated, CheckRateLimit(name)];
    assert checks[1..] == [CheckRateLimit(name)] && checks[1..][1..] == [];
    assert Sends(checks[1..]) == Sends(checks[1..][1..]);
    assert Sends(checks) == [];
    if !c.authenticated {
      assert x.calls == [IsAuthenticated] == checks[..1];
      assert Sends(x.calls) == Sends(x.calls[1..]);
    } else if !c.withinRateLimit(name) {
      assert x.calls == checks;
    } else {
      var step := Switch(name, args, c);
      var prefix := checks + step.calls;
      ExecuteTraceShape(name, args, c, duration);
      SwitchSendsAtMostOnce(name, args, c);
      var tail := x.calls[|prefix|..];
      assert x.calls == prefix + tail;
      LogsSendNothing(tail);
      LogsAppend(checks, step.calls);
      LogsAppend(prefix, tail);
      assert Sends(x.calls) == Sends(step.calls);
      if |Sends(x.calls)| == 1 {
        assert prefix[..4] == x.calls[..4];
      }
    }
  }

  /** The `switch` makes no log calls. */
  lemma SwitchLogsNothing(name: string, args: Value, c: Collaborators)
    ensures Logs(Switch(name, args, c).calls) == []
  {
    var calls := Switch(name, args, c).calls;
    if |calls| == 1 {
      assert Logs(calls) == Logs(calls[1..]);
    } else if |calls| == 2 {
      assert calls[1..][1..] == [];
      assert Logs(calls) == Logs(calls[1..]);
      assert Logs(calls[1..]) == Logs(calls[1..][1..]);
    }
  }

  /** The log entries of the whole call are those made after the `switch`. */
  lemma ExecuteLogs(name: string, args: Value, c: Collaborators, duration: int, after: seq<Call>)
    requires c.authenticated && c.withinRateLimit(name)
    requires Execute(name, args, c, duration).calls
      == [IsAuthenticated, CheckRateLimit(name)] + Switch(name, args, c).calls + after
    ensures Logs(Execute(name, args, c, duration).calls) == Logs(after)
  {
    var checks := [IsAuthenticated, CheckRateLimit(name)];
    var step := Switch(name, args, c);
    assert checks[1..] == [CheckRateLimit(name)] && checks[1..][1..] == [];
    assert Logs(checks[1..]) == Logs(checks[1..][1..]);
    assert Logs(checks) == [];
    SwitchLogsNothing(name, args, c);
    LogsAppend(checks, step.calls);
    LogsAppend(checks + step.calls, after);
  }

  /** A successful call was logged exactly once, as its last call, as a success whose
      target is `args.diagram_uuid || 'new'`; its result is the `result` member of the
      response `sendMessage` gave to the message built from the validated arguments. */
  lemma SuccessIsLoggedOnce(name: string, args: Value, c: Collaborators, duration: int)
    requires Execute(name, args, c, duration).result.Success?
    ensures var x := Execute(name, args, c, duration);
      var done := x.result.value;
      && c.authenticated && c.withinRateLimit(name) && !args.Null?
      && done.tool == name && done.duration == duration
      && var entry := SuccessEntry(name, args, done.result, duration);
      && Logs(x.calls) == [entry]
      && x.calls[|x.calls| - 1] == LogOperation(entry)
      && entry.success && entry.target == Or(Get(args, "diagram_uuid"), Str("new"))
      && c.logFailure(entry).None?
      && ToolNamed(name).Some?
      && var op := ToolNamed(name).value;
      && Parse(SchemaOf(op), args).Success?
      && c.permits(RequiredCapability(op))
      && var reply := c.send(BuildMessage(op, Parse(SchemaOf(op), args).value));
      && reply.Answered? && !reply.response.Null?
      && done.result == Get(reply.response, "result")
  {
    var x := Execute(name, args, c, duration);
    var entry := SuccessEntry(name, args, x.result.value.result, duration);
    assert Logs([LogOperation(entry)]) == [entry] by {
      assert [LogOperation(entry)][1..] == [];
    }
    ExecuteLogs(name, args, c, duration, [LogOperation(entry)]);
  }

  /** When the `switch` fails, the failure is logged exactly once, as the last call, with
      target `args.diagram_uuid || 'unknown'`, a `null` result and `success` false, and the
      `switch`'s error is rethrown unless the log itself throws. */
  lemma FailureIsLoggedAndRethrown(name: string, args: Value, c: Collaborators, duration: int)
    requires c.authenticated && c.withinRateLimit(name) && !args.Null?
    requires Switch(name, args, c).outcome.Failure?
    ensures var x := Execute(name, args, c, duration);
      var entry := FailureEntry(name, args, duration);
      && Logs(x.calls) == [entry]
      && x.calls[|x.calls| - 1] == LogOperation(entry)
      && !entry.success && entry.result == Some(Null)
      && entry.target == Or(Get(args, "diagram_uuid"), Str("unknown"))
      && x.result == Failure(c.logFailure(entry).GetOr(Switch(name, args, c).outcome.error))
  {
    var entry := FailureEntry(name, args, duration);
    assert Logs([LogOperation(entry)]) == [entry] by {
      assert [LogOperation(entry)][1..] == [];
    }
    ExecuteLogs(name, args, c, duration, [LogOperation(entry)]);
  }

  /** When the handler succeeded but logging the success throws, the call is logged a
      second time, as a failure, and the log's error is rethrown unless that second log
      throws too. */
  lemma RejectedSuccessLogIsLoggedAgain(name: string, args: Value, c: Collaborators, duration: int)
    requires c.authenticated && c.withinRateLimit(name) && !args.Null?
    requires Switch(name, args, c).outcome.Success?
    requires c.logFailure(SuccessEntry(name, args, Switch(name, args, c).outcome.value, duration)).Some?
    ensures var x := Execute(name, args, c, duration);
      var first := SuccessEntry(name, args, Switch(name, args, c).outcome.value, duration);
      var second := FailureEntry(name, args, duration);
      && Logs(x.calls) == [first, second]
      && x.result == Failure(c.logFailure(second).GetOr(c.logFailure(first).value))
  {
    var first := SuccessEntry(name, args, Switch(name, args, c).outcome.value, duration);
    var second := FailureEntry(name, args, duration);
    var after := [LogOperation(first), LogOperation(second)];
    assert Logs(after) == [first, second] by {
      assert after[1..] == [LogOperation(second)] && after[1..][1..] == [];
      assert Logs(after[1..]) == Logs(after[1..][1..]) + [second];
    }
    ExecuteLogs(name, args, c, duration, after);
  }

  /** With `null` arguments, every path past the guards ends in the `TypeError` of reading
      `args.diagram_uuid`, and nothing is logged. */
  lemma NullArgumentsEscapeUnlogged(name: string, c: Collaborators, duration: int)
    requires c.authenticated && c.withinRateLimit(name)
    ensures Execute(name, Null, c, duration).result == Failure(NullRead("diagram_uuid"))
    ensures Logs(Execute(name, Null, c, duration).calls) == []
  {
    ExecuteLogs(name, Null, c, duration, []);
  }
}
