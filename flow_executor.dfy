/**
 * The flow executor (flow/flow-executor.service.ts): a bounded walk over a graph
 * of typed nodes joined by edges, deciding allow or block for a request.
 *
 * A node's `data` is free-form JSON. The usage table is passed in as the lookup
 * `usage` (the usage service's `getUsage`), and the local-time period start as
 * the clock reading `periodStart`.
 */
module FlowExecutor {

  import opened Wrappers
  import opened Strings
  import opened Json
  import opened Usage

  /** A node; `kind` is the node's `type` string, which is not restricted to the five known kinds. */
  datatype FlowNode = FlowNode(id: string, kind: string, data: Json)

  datatype FlowEdge = FlowEdge(id: string, source: string, target: string, sourceHandle: Option<string>)

  datatype FlowConfig = FlowConfig(nodes: seq<FlowNode>, edges: seq<FlowEdge>)

  datatype FlowContext = FlowContext(projectId: string, identity: string, tier: Option<string>, session: Option<string>)

  datatype FlowAction = Allow | Block

  datatype FlowResponse = FlowResponse(status: int, body: Json)

  /** The result; `action` is `None` where the code leaves it unset. */
  datatype FlowResult = FlowResult(action: Option<FlowAction>, response: Option<FlowResponse>, executionPath: seq<string>)

  /** What evaluating one node gives: a final result, or the node to visit next (if any). */
  datatype Evaluation =
    | Terminal(action: Option<FlowAction>, response: Option<FlowResponse>)
    | Next(next: Option<FlowNode>)

  /** The periods a `checkLimit` node can name; any other value counts as a day. */
  datatype Period = Minute | Hour | Day

  const MaxIterations: nat := 50
  const NoStartNode: string := "no-start-node"
  const RateLimitStatus: int := 429

  // ---------------------------------------------------------------------------
  // The lookup maps.

  /** `nodesById`: a later node with the same id replaces an earlier one. */
  function NodesById(nodes: seq<FlowNode>): (m: map<string, FlowNode>)
    ensures forall id :: id in m <==> exists k :: 0 <= k < |nodes| && nodes[k].id == id
    decreases |nodes|
  {
    if |nodes| == 0 then map[]
    else
      var last := nodes[|nodes| - 1];
      var m := NodesById(nodes[..|nodes| - 1]);
      assert forall k :: 0 <= k < |nodes| - 1 ==> nodes[..|nodes| - 1][k] == nodes[k];
      m[last.id := last]
  }

  /** The edges leaving `source`, in list order. */
  function EdgesFrom(edges: seq<FlowEdge>, source: string): (r: seq<FlowEdge>)
    ensures |r| <= |edges|
    ensures forall k :: 0 <= k < |r| ==> r[k] in edges && r[k].source == source
    decreases |edges|
  {
    if |edges| == 0 then []
    else
      var rest := EdgesFrom(edges[..|edges| - 1], source);
      var last := edges[|edges| - 1];
      if last.source == source then rest + [last] else rest
  }

  /** `edgesBySource`: the edges of each source that has any. */
  function EdgesBySource(edges: seq<FlowEdge>): (m: map<string, seq<FlowEdge>>)
    decreases |edges|
  {
    if |edges| == 0 then map[]
    else
      var m := EdgesBySource(edges[..|edges| - 1]);
      var last := edges[|edges| - 1];
      m[last.source := (if last.source in m then m[last.source] else []) + [last]]
  }

  /** `edgesBySource.get(id) || []`. */
  function OutEdges(edgesBySource: map<string, seq<FlowEdge>>, id: string): seq<FlowEdge> {
    if id in edgesBySource then edgesBySource[id] else []
  }

  /** The map holds, for each source, exactly its edges in list order. */
  lemma {:induction false} EdgesBySourceGroups(edges: seq<FlowEdge>, source: string)
    ensures OutEdges(EdgesBySource(edges), source) == EdgesFrom(edges, source)
    ensures source in EdgesBySource(edges) ==> EdgesFrom(edges, source) != []
    decreases |edges|
  {
    if |edges| > 0 {
      EdgesBySourceGroups(edges[..|edges| - 1], source);
    }
  }

  /** The map keeps, for each id, the last node with that id. */
  lemma {:induction false} NodesByIdKeepsLast(nodes: seq<FlowNode>, id: string)
    requires id in NodesById(nodes)
    ensures exists k :: 0 <= k < |nodes| && nodes[k] == NodesById(nodes)[id]
                        && forall j :: k < j < |nodes| ==> nodes[j].id != id
    ensures NodesById(nodes)[id].id == id
    decreases |nodes|
  {
    var last := nodes[|nodes| - 1];
    var init := nodes[..|nodes| - 1];
    if last.id != id {
      NodesByIdKeepsLast(init, id);
      var k :| 0 <= k < |init| && init[k] == NodesById(init)[id] && forall j :: k < j < |init| ==> init[j].id != id;
      assert nodes[k] == NodesById(nodes)[id];
      assert forall j :: k < j < |nodes| ==> nodes[j].id != id by {
        forall j | k < j < |nodes| ensures nodes[j].id != id {
          if j < |init| { assert init[j] == nodes[j]; }
        }
      }
    }
  }

  /** The two loops that build the lookup maps. */
  method BuildMaps(config: FlowConfig) returns (nodesById: map<string, FlowNode>, edgesBySource: map<string, seq<FlowEdge>>)
    ensures nodesById == NodesById(config.nodes)
    ensures edgesBySource == EdgesBySource(config.edges)
  {
    nodesById := map[];
    for i := 0 to |config.nodes|
      invariant nodesById == NodesById(config.nodes[..i])
    {
      assert config.nodes[..i + 1][..i] == config.nodes[..i];
      nodesById := nodesById[config.nodes[i].id := config.nodes[i]];
    }
    assert config.nodes[..|config.nodes|] == config.nodes;
    edgesBySource := map[];
    for i := 0 to |config.edges|
      invariant edgesBySource == EdgesBySource(config.edges[..i])
    {
      assert config.edges[..i + 1][..i] == config.edges[..i];
      var edge := config.edges[i];
      var existing := if edge.source in edgesBySource then edgesBySource[edge.source] else [];
      edgesBySource := edgesBySource[edge.source := existing + [edge]];
    }
    assert config.edges[..|config.edges|] == config.edges;
  }

  // ---------------------------------------------------------------------------
  // Following edges.

  /** The index of the first edge whose handle is `handle`, or `|edges|`. */
  function HandleIndex(edges: seq<FlowEdge>, handle: string): (i: nat)
    ensures i <= |edges|
    ensures i < |edges| ==> edges[i].sourceHandle == Some(handle)
    ensures forall k :: 0 <= k < i ==> edges[k].sourceHandle != Some(handle)
  {
    if |edges| == 0 then 0
    else if edges[0].sourceHandle == Some(handle) then 0
    else 1 + HandleIndex(edges[1..], handle)
  }

  /** `nodesById.get(target)`. */
  function Target(nodesById: map<string, FlowNode>, edge: FlowEdge): (r: Option<FlowNode>)
    ensures r.Some? ==> r.value in nodesById.Values
  {
    if edge.target in nodesById then Some(nodesById[edge.target]) else None
  }

  /** `getNextNode`: the first edge with the handle, if one is named and found, else the first edge. */
  function GetNextNode(sourceId: string, sourceHandle: Option<string>, edgesBySource: map<string, seq<FlowEdge>>,
                       nodesById: map<string, FlowNode>): (r: Option<FlowNode>)
    ensures OutEdges(edgesBySource, sourceId) == [] ==> r.None?
    ensures r.Some? ==> r.value in nodesById.Values
    ensures sourceHandle.None? || sourceHandle == Some("") ==>
      r == (if OutEdges(edgesBySource, sourceId) == [] then None
            else Target(nodesById, OutEdges(edgesBySource, sourceId)[0]))
  {
    var edges := OutEdges(edgesBySource, sourceId);
    if sourceHandle.Some? && sourceHandle.value != "" && HandleIndex(edges, sourceHandle.value) < |edges| then
      Target(nodesById, edges[HandleIndex(edges, sourceHandle.value)])
    else if |edges| > 0 then Target(nodesById, edges[0])
    else None
  }

  // ---------------------------------------------------------------------------
  // The node kinds.

  /** `evaluateCheckTier`: the edge named by the tier ('free' when unset), else the first edge, else an unset terminal. */
  function EvaluateCheckTier(node: FlowNode, context: FlowContext, edgesBySource: map<string, seq<FlowEdge>>,
                             nodesById: map<string, FlowNode>): (r: Evaluation)
    ensures var edges := OutEdges(edgesBySource, node.id);
            var tier := if context.tier.Some? && context.tier.value != "" then context.tier.value else "free";
            && (edges == [] ==> r == Terminal(None, None))
            && (HandleIndex(edges, tier) < |edges| ==> r == Next(Target(nodesById, edges[HandleIndex(edges, tier)])))
            && (edges != [] && HandleIndex(edges, tier) == |edges| ==> r == Next(Target(nodesById, edges[0])))
  {
    var requestTier := if context.tier.Some? && context.tier.value != "" then context.tier.value else "free";
    var edges := OutEdges(edgesBySource, node.id);
    var i := HandleIndex(edges, requestTier);
    if i < |edges| then Next(Target(nodesById, edges[i]))
    else if |edges| > 0 then Next(Target(nodesById, edges[0]))
    else Terminal(None, None)
  }

  /** `limit || Infinity` as a bound: a non-zero number, or `true` (which compares as 1); `None` is no bound. */
  function LimitBound(limit: Option<Json>): (r: Option<int>)
    ensures !IsTruthy(limit) ==> r.None?
    ensures r.Some? ==> r.value != 0
  {
    if limit.Some? then
      match limit.value
      case JNum(n) => if n != 0 then Some(n) else None
      case JBool(b) => if b then Some(1) else None
      case _ => None
    else None
  }

  /** The period a `checkLimit` node names: `period || 'day'`, with unknown names as a day. */
  function PeriodOf(data: Json): Period {
    match Get(data, "period")
    case Some(JStr(s)) => if s == "minute" then Minute else if s == "hour" then Hour else Day
    case _ => Day
  }

  /** The usage key a `checkLimit` node reads: the session when scoped to one and set, else the identity. */
  function UsageKey(data: Json, context: FlowContext, periodStart: Period -> int): (key: CounterKey)
    ensures key.projectId == context.projectId
    ensures Get(data, "scope") != Some(JStr("session")) ==> key.identity == context.identity
  {
    var sessionScoped := Get(data, "scope") == Some(JStr("session"));
    var identity := if sessionScoped && context.session.Some? && context.session.value != "" then context.session.value
                    else context.identity;
    CounterKey(context.projectId, identity, periodStart(PeriodOf(data)))
  }

  /** `currentValue >= (limit || Infinity)`: tokens under limitType 'tokens', requests otherwise. */
  predicate IsExceeded(data: Json, counter: Counter) {
    var current := if Get(data, "limitType") == Some(JStr("tokens")) then counter.tokensUsed else counter.requestsUsed;
    var bound := LimitBound(Get(data, "limit"));
    bound.Some? && current >= bound.value
  }

  /**
   * `evaluateCheckLimit`: follows the 'exceeded' or the 'pass' edge, with no fallback
   * to another edge; a missing counter is a TypeError (`usage.tokensUsed` of null).
   */
  function EvaluateCheckLimit(node: FlowNode, context: FlowContext, edgesBySource: map<string, seq<FlowEdge>>,
                              nodesById: map<string, FlowNode>, usage: CounterKey -> Option<Counter>,
                              periodStart: Period -> int): (r: Result<Evaluation, TypeError>)
    ensures r.Err? <==> usage(UsageKey(node.data, context, periodStart)).None?
    ensures r.Ok? ==>
      var edges := OutEdges(edgesBySource, node.id);
      var handle := if IsExceeded(node.data, usage(UsageKey(node.data, context, periodStart)).value) then "exceeded" else "pass";
      r.value == (if HandleIndex(edges, handle) < |edges| then Next(Target(nodesById, edges[HandleIndex(edges, handle)]))
                  else Terminal(None, None))
  {
    match usage(UsageKey(node.data, context, periodStart))
    case None => Err(TypeError)
    case Some(counter) =>
      var edges := OutEdges(edgesBySource, node.id);
      var handle := if IsExceeded(node.data, counter) then "exceeded" else "pass";
      var i := HandleIndex(edges, handle);
      Ok(if i < |edges| then Next(Target(nodesById, edges[i])) else Terminal(None, None))
  }

  /** `interpolateUpgradeUrl`: the four placeholders in turn, each missing value as ''. */
  function InterpolateUpgradeUrl(url: string, context: FlowContext): string {
    var withIdentity := ReplaceAll(url, Placeholder("identity"), context.identity);
    var withTier := ReplaceAll(withIdentity, Placeholder("tier"), context.tier.GetOr(""));
    var withSession := ReplaceAll(withTier, Placeholder("session"), context.session.GetOr(""));
    ReplaceAll(withSession, Placeholder("projectId"), context.projectId)
  }

  /** `evaluateLimitResponse`: a 429 block whose body carries the upgrade URL only when enabled and given. */
  function EvaluateLimitResponse(node: FlowNode, context: FlowContext, upgradeUrl: Option<string>): (r: Evaluation)
    ensures r.Terminal? && r.action == Some(Block) && r.response.Some? && r.response.value.status == RateLimitStatus
    ensures var body := r.response.value.body;
            && body.JObj? && |body.fields| >= 2
            && body.fields[0] == ("error", JStr("rate_limit_exceeded"))
            && body.fields[1] == ("message", Or(Get(node.data, "message"), JStr("Rate limit exceeded")))
            && (|body.fields| == 3 <==> IsTruthy(Get(node.data, "includeUpgradeUrl")) && upgradeUrl.Some? && upgradeUrl.value != "")
            && (|body.fields| == 3 ==> body.fields[2] == ("upgrade_url", JStr(InterpolateUpgradeUrl(upgradeUrl.value, context))))
            && |body.fields| <= 3
  {
    var fields := [("error", JStr("rate_limit_exceeded")),
                   ("message", Or(Get(node.data, "message"), JStr("Rate limit exceeded")))];
    var body :=
      if IsTruthy(Get(node.data, "includeUpgradeUrl")) && upgradeUrl.Some? && upgradeUrl.value != "" then
        fields + [("upgrade_url", JStr(InterpolateUpgradeUrl(upgradeUrl.value, context)))]
      else fields;
    Terminal(Some(Block), Some(FlowResponse(RateLimitStatus, JObj(body))))
  }

  /** The node types the switch of `evaluateNode` has a case for. */
  predicate HandledKind(kind: string) {
    kind == "start" || kind == "checkTier" || kind == "checkLimit" || kind == "limitResponse"
  }

  /** `evaluateNode`: the switch on the node's type; unknown types allow. */
  function EvaluateNode(node: FlowNode, context: FlowContext, upgradeUrl: Option<string>,
                        edgesBySource: map<string, seq<FlowEdge>>, nodesById: map<string, FlowNode>,
                        usage: CounterKey -> Option<Counter>, periodStart: Period -> int): (r: Result<Evaluation, TypeError>)
    ensures r.Ok? && r.value.Next? && r.value.next.Some? ==> r.value.next.value in nodesById.Values
    ensures node.kind == "start" ==> r == Ok(Next(GetNextNode(node.id, None, edgesBySource, nodesById)))
    ensures !HandledKind(node.kind) ==> r == Ok(Terminal(Some(Allow), None))
    ensures r.Err? ==> node.kind == "checkLimit"
  {
    if node.kind == "start" then Ok(Next(GetNextNode(node.id, None, edgesBySource, nodesById)))
    else if node.kind == "checkTier" then Ok(EvaluateCheckTier(node, context, edgesBySource, nodesById))
    else if node.kind == "checkLimit" then EvaluateCheckLimit(node, context, edgesBySource, nodesById, usage, periodStart)
    else if node.kind == "limitResponse" then Ok(EvaluateLimitResponse(node, context, upgradeUrl))
    else Ok(Terminal(Some(Allow), None))
  }

  // ---------------------------------------------------------------------------
  // The walk.

  /** The entry the walk records for a visit: `type:id`. */
  function Label(node: FlowNode): string {
    node.kind + ":" + node.id
  }

  /** The index of the first `start` node, or `|nodes|`. */
  function StartIndex(nodes: seq<FlowNode>): (i: nat)
    ensures i <= |nodes|
    ensures i < |nodes| ==> nodes[i].kind == "start"
    ensures forall k :: 0 <= k < i ==> nodes[k].kind != "start"
  {
    if |nodes| == 0 then 0
    else if nodes[0].kind == "start" then 0
    else 1 + StartIndex(nodes[1..])
  }

  /** The rest of the walk from `current` with `fuel` visits left, `path` recorded so far. */
  function Walk(context: FlowContext, upgradeUrl: Option<string>, edgesBySource: map<string, seq<FlowEdge>>,
                nodesById: map<string, FlowNode>, usage: CounterKey -> Option<Counter>, periodStart: Period -> int,
                current: Option<FlowNode>, fuel: nat, path: seq<string>): (r: Result<FlowResult, TypeError>)
    ensures r.Ok? ==> |path| <= |r.value.executionPath| <= |path| + fuel
    ensures r.Ok? ==> r.value.executionPath[..|path|] == path
    ensures r.Ok? && (current.None? || fuel == 0) ==> r.value == FlowResult(Some(Allow), None, path)
    ensures r.Ok? && current.Some? && fuel > 0 ==> |r.value.executionPath| > |path|
    decreases fuel
  {
    if current.None? || fuel == 0 then Ok(FlowResult(Some(Allow), None, path))
    else
      var node := current.value;
      var visited := path + [Label(node)];
      match EvaluateNode(node, context, upgradeUrl, edgesBySource, nodesById, usage, periodStart)
      case Err(e) => Err(e)
      case Ok(Terminal(action, response)) => Ok(FlowResult(action, response, visited))
      case Ok(Next(next)) =>
        var r := Walk(context, upgradeUrl, edgesBySource, nodesById, usage, periodStart, next, fuel - 1, visited);
        assert r.Ok? ==> r.value.executionPath[..|path|] == visited[..|path|] by {
          if r.Ok? { assert r.value.executionPath[..|path|] == r.value.executionPath[..|visited|][..|path|]; }
        }
        assert visited[..|path|] == path;
        r
  }

  /** What `execute` returns, as a function of the flow and the context. */
  function Execution(config: FlowConfig, context: FlowContext, upgradeUrl: Option<string>,
                     usage: CounterKey -> Option<Counter>, periodStart: Period -> int): (r: Result<FlowResult, TypeError>)
    ensures StartIndex(config.nodes) == |config.nodes| ==> r == Ok(FlowResult(Some(Allow), None, [NoStartNode]))
    ensures r.Ok? ==> 1 <= |r.value.executionPath| <= MaxIterations
  {
    var i := StartIndex(config.nodes);
    if i == |config.nodes| then Ok(FlowResult(Some(Allow), None, [NoStartNode]))
    else
      Walk(context, upgradeUrl, EdgesBySource(config.edges), NodesById(config.nodes), usage, periodStart,
           Some(config.nodes[i]), MaxIterations, [])
  }

  /** `execute`: build the maps, find the start node, and walk at most 50 nodes. */
  method Execute(config: FlowConfig, context: FlowContext, upgradeUrl: Option<string>,
                 usage: CounterKey -> Option<Counter>, periodStart: Period -> int) returns (r: Result<FlowResult, TypeError>)
    ensures r == Execution(config, context, upgradeUrl, usage, periodStart)
  {
    var nodesById, edgesBySource := BuildMaps(config);
    var start := StartIndex(config.nodes);
    if start == |config.nodes| {
      return Ok(FlowResult(Some(Allow), None, [NoStartNode]));
    }
    r := WalkFrom(config.nodes[start], context, upgradeUrl, edgesBySource, nodesById, usage, periodStart);
  }

  /** The walking loop of `execute`, from the start node. */
  method WalkFrom(start: FlowNode, context: FlowContext, upgradeUrl: Option<string>,
                  edgesBySource: map<string, seq<FlowEdge>>, nodesById: map<string, FlowNode>,
                  usage: CounterKey -> Option<Counter>, periodStart: Period -> int) returns (r: Result<FlowResult, TypeError>)
    ensures r == Walk(context, upgradeUrl, edgesBySource, nodesById, usage, periodStart, Some(start), MaxIterations, [])
  {
    ghost var goal := Walk(context, upgradeUrl, edgesBySource, nodesById, usage, periodStart, Some(start), MaxIterations, []);
    var executionPath: seq<string> := [];
    var currentNode: Option<FlowNode> := Some(start);
    var iterations := 0;
    while currentNode.Some? && iterations < MaxIterations
      invariant 0 <= iterations <= MaxIterations
      invariant Walk(context, upgradeUrl, edgesBySource, nodesById, usage, periodStart, currentNode,
                     MaxIterations - iterations, executionPath) == goal
      decreases MaxIterations - iterations
    {
      var node := currentNode.value;
      var result := EvaluateNode(node, context, upgradeUrl, edgesBySource, nodesById, usage, periodStart);
      WalkStep(context, upgradeUrl, edgesBySource, nodesById, usage, periodStart, node,
               MaxIterations - iterations, executionPath, result);
      iterations := iterations + 1;
      executionPath := executionPath + [Label(node)];
      match result {
        case Err(e) =>
          return Err(e);
        case Ok(Terminal(action, response)) =>
          return Ok(FlowResult(action, response, executionPath));
        case Ok(Next(next)) =>
          currentNode := next;
      }
    }
    r := Ok(FlowResult(Some(Allow), None, executionPath));
  }

  /** One step of the walk: evaluate the current node, then stop or go on with one unit less fuel. */
  lemma WalkStep(context: FlowContext, upgradeUrl: Option<string>, edgesBySource: map<string, seq<FlowEdge>>,
                 nodesById: map<string, FlowNode>, usage: CounterKey -> Option<Counter>, periodStart: Period -> int,
                 node: FlowNode, fuel: nat, path: seq<string>, result: Result<Evaluation, TypeError>)
    requires fuel > 0
    requires result == EvaluateNode(node, context, upgradeUrl, edgesBySource, nodesById, usage, periodStart)
    ensures Walk(context, upgradeUrl, edgesBySource, nodesById, usage, periodStart, Some(node), fuel, path)
            == match result
               case Err(e) => Err(e)
               case Ok(Terminal(action, response)) => Ok(FlowResult(action, response, path + [Label(node)]))
               case Ok(Next(next)) =>
                 Walk(context, upgradeUrl, edgesBySource, nodesById, usage, periodStart, next, fuel - 1, path + [Label(node)])
  {
  }

  /** A truthy flow value whose `nodes` is an array. */
  predicate HasNodeArray(flowConfig: Json) {
    Truthy(flowConfig) && Get(flowConfig, "nodes").Some? && Get(flowConfig, "nodes").value.JArr?
  }

  /**
   * `hasValidFlow`: true exactly for a flow value with an array of more than one
   * node, one of them a start node; the search for the start node throws on a
   * null node met before any start node.
   */
  function HasValidFlow(flowConfig: Json): (r: Result<bool, TypeError>)
    ensures !Truthy(flowConfig) ==> r == Ok(false)
    ensures r == Ok(true) <==> HasNodeArray(flowConfig) && |Get(flowConfig, "nodes").value.items| > 1
                               && SomeStart(Get(flowConfig, "nodes").value.items) == Ok(true)
    ensures r.Err? <==> HasNodeArray(flowConfig) && SomeStart(Get(flowConfig, "nodes").value.items).Err?
  {
    if !Truthy(flowConfig) then Ok(false)
    else match Get(flowConfig, "nodes")
      case Some(JArr(nodes)) =>
        if |nodes| == 0 then Ok(false)
        else
          (match SomeStart(nodes)
           case Err(e) => Err(e)
           case Ok(hasStart) => Ok(hasStart && |nodes| > 1))
      case _ => Ok(false)
  }

  /** Node `k` is a start node and no null node comes before it. */
  predicate StartAt(nodes: seq<Json>, k: int) {
    && 0 <= k < |nodes| && Get(nodes[k], "type") == Some(JStr("start"))
    && forall j :: 0 <= j < k ==> nodes[j] != JNull
  }

  /** Node `k` is null and no start node comes before it. */
  predicate NullAt(nodes: seq<Json>, k: int) {
    && 0 <= k < |nodes| && nodes[k] == JNull
    && forall j :: 0 <= j < k ==> Get(nodes[j], "type") != Some(JStr("start"))
  }

  /** `nodes.some(n => n.type === 'start')`: reading `type` of a null node throws, unless a start node came first. */
  function SomeStart(nodes: seq<Json>): (r: Result<bool, TypeError>)
    ensures r == Ok(true) <==> exists k :: StartAt(nodes, k)
    ensures r.Err? <==> exists k :: NullAt(nodes, k)
  {
    if |nodes| == 0 then Ok(false)
    else
      match Dot(Some(nodes[0]), "type")
      case Err(e) =>
        assert NullAt(nodes, 0);
        Err(e)
      case Ok(t) =>
        if t == Some(JStr("start")) then
          assert StartAt(nodes, 0);
          Ok(true)
        else
          var r := SomeStart(nodes[1..]);
          SkipNode(nodes);
          r
  }

  /** Past a non-null node that is not a start node, `some` goes on with the rest. */
  lemma SkipNode(nodes: seq<Json>)
    requires |nodes| > 0 && nodes[0] != JNull && Get(nodes[0], "type") != Some(JStr("start"))
    ensures (exists k :: StartAt(nodes, k)) <==> (exists k :: StartAt(nodes[1..], k))
    ensures (exists k :: NullAt(nodes, k)) <==> (exists k :: NullAt(nodes[1..], k))
  {
    var rest := nodes[1..];
    forall k | StartAt(nodes, k) ensures StartAt(rest, k - 1) {
      assert forall j :: 0 <= j < k - 1 ==> rest[j] == nodes[j + 1];
    }
    forall k | StartAt(rest, k) ensures StartAt(nodes, k + 1) {
      assert forall j :: 1 <= j < k + 1 ==> nodes[j] == rest[j - 1];
    }
    forall k | NullAt(nodes, k) ensures NullAt(rest, k - 1) {
      assert forall j :: 0 <= j < k - 1 ==> rest[j] == nodes[j + 1];
    }
    forall k | NullAt(rest, k) ensures NullAt(nodes, k + 1) {
      assert forall j :: 1 <= j < k + 1 ==> nodes[j] == rest[j - 1];
    }
  }

  // ---------------------------------------------------------------------------
  // Properties of the walk.

  /** Every node the lookup map holds is one of the flow's nodes. */
  lemma NodesByIdValues(nodes: seq<FlowNode>)
    ensures forall node :: node in NodesById(nodes).Values ==> node in nodes
  {
    forall node | node in NodesById(nodes).Values ensures node in nodes {
      var id :| id in NodesById(nodes) && NodesById(nodes)[id] == node;
      NodesByIdKeepsLast(nodes, id);
      var k :| 0 <= k < |nodes| && nodes[k] == NodesById(nodes)[id] && forall j :: k < j < |nodes| ==> nodes[j].id != id;
      assert nodes[k] == node;
    }
  }

  /** The labels of the nodes of `nodes`. */
  ghost function Labels(nodes: set<FlowNode>): set<string> {
    set node | node in nodes :: Label(node)
  }

  /** Every entry of `path` is the label of a node in `nodes`. */
  ghost predicate LabelsOf(path: seq<string>, nodes: set<FlowNode>) {
    forall k :: 0 <= k < |path| ==> path[k] in Labels(nodes)
  }

  /** Each recorded entry of a walk is the label of a node the walk could reach. */
  lemma {:induction false} WalkLabels(context: FlowContext, upgradeUrl: Option<string>,
                                      edgesBySource: map<string, seq<FlowEdge>>, nodesById: map<string, FlowNode>,
                                      usage: CounterKey -> Option<Counter>, periodStart: Period -> int,
                                      current: Option<FlowNode>, fuel: nat, path: seq<string>, allowed: set<FlowNode>)
    requires nodesById.Values <= allowed
    requires current.Some? ==> current.value in allowed
    requires LabelsOf(path, allowed)
    ensures var r := Walk(context, upgradeUrl, edgesBySource, nodesById, usage, periodStart, current, fuel, path);
            r.Ok? ==> LabelsOf(r.value.executionPath, allowed)
    decreases fuel
  {
    if current.Some? && fuel > 0 {
      var node := current.value;
      var visited := path + [Label(node)];
      LabelsOfSnoc(path, node, allowed);
      var e := EvaluateNode(node, context, upgradeUrl, edgesBySource, nodesById, usage, periodStart);
      WalkStep(context, upgradeUrl, edgesBySource, nodesById, usage, periodStart, node, fuel, path, e);
      if e.Ok? && e.value.Next? {
        WalkLabels(context, upgradeUrl, edgesBySource, nodesById, usage, periodStart, e.value.next, fuel - 1, visited, allowed);
      }
    }
  }

  lemma LabelsOfSnoc(path: seq<string>, node: FlowNode, allowed: set<FlowNode>)
    requires LabelsOf(path, allowed) && node in allowed
    ensures LabelsOf(path + [Label(node)], allowed)
  {
    var visited := path + [Label(node)];
    assert Label(node) in Labels(allowed);
    forall k | 0 <= k < |visited| ensures visited[k] in Labels(allowed) {
      if k == |path| { assert visited[k] == Label(node); } else { assert visited[k] == path[k]; }
    }
  }

  /** In a flow with a start node, every entry of the execution path is `type:id` of one of the flow's nodes. */
  lemma ExecutionPathLabelsNodes(config: FlowConfig, context: FlowContext, upgradeUrl: Option<string>,
                                 usage: CounterKey -> Option<Counter>, periodStart: Period -> int)
    requires Execution(config, context, upgradeUrl, usage, periodStart).Ok?
    requires StartIndex(config.nodes) < |config.nodes|
    ensures LabelsOf(Execution(config, context, upgradeUrl, usage, periodStart).value.executionPath,
                     set node | node in config.nodes)
  {
    var nodes := set node | node in config.nodes;
    NodesByIdValues(config.nodes);
    WalkLabels(context, upgradeUrl, EdgesBySource(config.edges), NodesById(config.nodes), usage, periodStart,
               Some(config.nodes[StartIndex(config.nodes)]), MaxIterations, [], nodes);
  }

  /** A start node whose first edge leads back to itself is visited until the bound, and the walk allows. */
  lemma {:induction false} SelfLoopWalk(context: FlowContext, upgradeUrl: Option<string>,
                                        edgesBySource: map<string, seq<FlowEdge>>, nodesById: map<string, FlowNode>,
                                        usage: CounterKey -> Option<Counter>, periodStart: Period -> int,
                                        node: FlowNode, fuel: nat, path: seq<string>)
    requires node.kind == "start"
    requires GetNextNode(node.id, None, edgesBySource, nodesById) == Some(node)
    ensures Walk(context, upgradeUrl, edgesBySource, nodesById, usage, periodStart, Some(node), fuel, path)
         == Ok(FlowResult(Some(Allow), None, path + seq(fuel, _ => Label(node))))
    decreases fuel
  {
    if fuel > 0 {
      SelfLoopWalk(context, upgradeUrl, edgesBySource, nodesById, usage, periodStart, node, fuel - 1, path + [Label(node)]);
      assert path + [Label(node)] + seq(fuel - 1, _ => Label(node)) == path + seq(fuel, _ => Label(node));
    } else {
      assert path + seq(0, _ => Label(node)) == path;
    }
  }

  /** With a start node that loops on itself, `execute` stops after 50 visits and allows. */
  lemma SelfLoopAllowsAfterBound(config: FlowConfig, context: FlowContext, upgradeUrl: Option<string>,
                                 usage: CounterKey -> Option<Counter>, periodStart: Period -> int)
    requires StartIndex(config.nodes) < |config.nodes|
    requires var start := config.nodes[StartIndex(config.nodes)];
             GetNextNode(start.id, None, EdgesBySource(config.edges), NodesById(config.nodes)) == Some(start)
    ensures var start := config.nodes[StartIndex(config.nodes)];
            Execution(config, context, upgradeUrl, usage, periodStart)
              == Ok(FlowResult(Some(Allow), None, seq(MaxIterations, _ => Label(start))))
  {
    var start := config.nodes[StartIndex(config.nodes)];
    SelfLoopWalk(context, upgradeUrl, EdgesBySource(config.edges), NodesById(config.nodes), usage, periodStart,
                 start, MaxIterations, []);
    assert [] + seq(MaxIterations, _ => Label(start)) == seq(MaxIterations, _ => Label(start));
  }

  /** A limit of 0, or none, is never exceeded, whatever the usage. */
  lemma ZeroOrUnsetLimitNeverExceeded(data: Json, counter: Counter)
    requires Get(data, "limit").None? || Get(data, "limit") == Some(JNum(0))
    ensures !IsExceeded(data, counter)
  {
  }

  /** A numeric limit is exceeded once the usage reaches it: tokens under 'tokens', requests otherwise. */
  lemma NumericLimitExceeded(data: Json, counter: Counter, limit: int)
    requires Get(data, "limit") == Some(JNum(limit)) && limit != 0
    ensures Get(data, "limitType") == Some(JStr("tokens")) ==> (IsExceeded(data, counter) <==> counter.tokensUsed >= limit)
    ensures Get(data, "limitType") != Some(JStr("tokens")) ==> (IsExceeded(data, counter) <==> counter.requestsUsed >= limit)
  {
  }

  /** A `checkTier` node with the request's tier edge goes there, even when an earlier edge exists. */
  lemma TierEdgeFollowed(node: FlowNode, context: FlowContext, edgesBySource: map<string, seq<FlowEdge>>,
                         nodesById: map<string, FlowNode>, k: nat)
    requires context.tier.Some? && context.tier.value != ""
    requires k < |OutEdges(edgesBySource, node.id)|
    requires OutEdges(edgesBySource, node.id)[k].sourceHandle == context.tier
    requires forall j :: 0 <= j < k ==> OutEdges(edgesBySource, node.id)[j].sourceHandle != context.tier
    ensures EvaluateCheckTier(node, context, edgesBySource, nodesById)
         == Next(Target(nodesById, OutEdges(edgesBySource, node.id)[k]))
  {
  }

  // ---------------------------------------------------------------------------
  // Properties of the upgrade URL.

  /** A text without '{' holds no placeholder, and a substitution copies it. */
  lemma NoBraceKept(text: string, key: string, value: string)
    requires '{' !in text
    ensures ReplaceAll(text, Placeholder(key), value) == text
  {
    ReplaceAllSkip(text, "", Placeholder(key), value);
    assert text + "" == text;
  }

  /** A URL without '{' comes back unchanged. */
  lemma UpgradeUrlWithoutPlaceholders(url: string, context: FlowContext)
    requires '{' !in url
    ensures InterpolateUpgradeUrl(url, context) == url
  {
    NoBraceKept(url, "identity", context.identity);
    NoBraceKept(url, "tier", context.tier.GetOr(""));
    NoBraceKept(url, "session", context.session.GetOr(""));
    NoBraceKept(url, "projectId", context.projectId);
  }

  /**
   * `{{identity}}` between two brace-free parts is filled with the identity, and
   * an identity without '{' is not substituted into by the later placeholders.
   */
  lemma UpgradeUrlFillsIdentity(prefix: string, suffix: string, context: FlowContext)
    requires '{' !in prefix && '{' !in suffix && '{' !in context.identity
    ensures InterpolateUpgradeUrl(prefix + Placeholder("identity") + suffix, context)
         == prefix + context.identity + suffix
  {
    var pat := Placeholder("identity");
    assert prefix + pat + suffix == prefix + (pat + suffix);
    ReplaceAllSkip(prefix, pat + suffix, pat, context.identity);
    ReplaceAllHead(suffix, pat, context.identity);
    NoBraceKept(suffix, "identity", context.identity);
    var filled := prefix + context.identity + suffix;
    assert ReplaceAll(prefix + pat + suffix, pat, context.identity) == filled;
    assert '{' !in filled;
    NoBraceKept(filled, "tier", context.tier.GetOr(""));
    NoBraceKept(filled, "session", context.session.GetOr(""));
    NoBraceKept(filled, "projectId", context.projectId);
  }

  /**
   * Each substitution is one left-to-right scan, so the text around a placeholder
   * can join into a new one: `{{ident{{identity}}ity}}` with an empty identity
   * comes back as `{{identity}}`.
   */
  lemma PlaceholderCanReappear(a: string, b: string, context: FlowContext)
    requires a + b == "identity" && |a| > 0 && |b| > 0
    requires context.identity == ""
    ensures InterpolateUpgradeUrl("{{" + a + Placeholder("identity") + b + "}}", context) == Placeholder("identity")
  {
    var key := a + b;
    var pat := Placeholder(key);
    assert '{' !in a && '}' !in a && '{' !in b && '}' !in b by {
      assert forall k :: 0 <= k < |a| ==> a[k] == key[k];
      assert forall k :: 0 <= k < |b| ==> b[k] == key[|a| + k];
    }
    var rest := pat + (b + "}}");
    var url := "{{" + a + pat + b + "}}";
    var inner := ['{'] + (a + rest);
    assert url == ['{'] + inner by {
      Regroup(a, b, key);
    }
    assert !StartsWith(['{'] + inner, pat) by {
      assert (a + rest)[|a|] == '{';
      assert (['{'] + inner)[2 + |a|] == '{';
      assert pat[2 + |a|] == key[|a|] == b[0];
    }
    assert !StartsWith(inner, pat) by {
      assert inner[1] == a[0] && pat[1] == '{';
    }
    calc {
      ReplaceAll(url, pat, "");
      { ReplaceAllStep('{', inner, pat, ""); }
      ['{'] + ReplaceAll(inner, pat, "");
      { ReplaceAllStep('{', a + rest, pat, ""); }
      ['{'] + (['{'] + ReplaceAll(a + rest, pat, ""));
      { ReplaceAllSkip(a, rest, pat, ""); }
      ['{'] + (['{'] + (a + ReplaceAll(rest, pat, "")));
      { ReplaceAllHead(b + "}}", pat, ""); NoBraceKept(b + "}}", key, ""); }
      ['{'] + (['{'] + (a + ("" + (b + "}}"))));
      { Regroup(a, b, key); }
      pat;
    }
    OtherPlaceholderCopied(key, "", "tier", context.tier.GetOr(""));
    OtherPlaceholderCopied(key, "", "session", context.session.GetOr(""));
    OtherPlaceholderCopied(key, "", "projectId", context.projectId);
    assert pat + "" == pat;
  }

  /** The ways of writing the joined URL and the placeholder used above. */
  lemma Regroup(a: string, b: string, key: string)
    requires a + b == key
    ensures "{{" + a + Placeholder(key) + b + "}}" == ['{'] + (['{'] + (a + (Placeholder(key) + (b + "}}"))))
    ensures ['{'] + (['{'] + (a + ("" + (b + "}}")))) == Placeholder(key)
  {
  }
}
