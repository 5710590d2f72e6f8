/** The DevTools panel's store (`panel/store/index.ts`). Its state is a
    record that each `set` replaces by an updated copy; the store's actions
    send a request to the inspected tab, and the transport's callbacks
    fold the reply into the state. Sending and answering are separate
    calls, so any interleaving of replies can be expressed. The active
    tab's id is an input (`None` when `tabs[0]` is missing). */
module InspectorStore {
  import opened Wrappers
  import opened JsValues
  import opened Protocol

  datatype Store = Store(
    connected: bool,
    connectionStatus: string,
    sceneTree: Option<SceneNode>,
    selectedNode: Option<SceneNode>,
    expandedNodes: set<string>)

  const Waiting := "等待连接..."
  const Connecting := "正在连接..."
  const Connected := "已连接"
  const NotDetected := "未检测到 Paper.js"
  const TreeFailed := "获取场景树失败"

  function CannotConnect(message: string): string {
    "无法连接, 错误信息(" + message + ")"
  }

  const Initial := Store(false, Waiting, None, None, {})

  /** What a `sendMessage` callback sees: `runtime.lastError` set, or a
      response (`None` when it is undefined). */
  datatype TransportReply = LastError(message: string) | Delivered(response: Option<Payload>)

  /** `if (!tabId) return`: a missing id and id 0 send nothing. */
  predicate HasTab(tabId: Option<int>) {
    tabId.Some? && tabId.value != 0
  }

  /** Whether an `initialize` reply reports a detected instance
      (`response && response.detected`). */
  predicate ReportsDetected(reply: TransportReply) {
    reply.Delivered? && reply.response.Some? && reply.response.value.detected == Some(true)
  }

  /** The `initialize` callback. */
  function DetectReplied(s: Store, reply: TransportReply): (t: Store)
    ensures reply.LastError? ==> !t.connected && t.connectionStatus == CannotConnect(reply.message)
    ensures ReportsDetected(reply) ==> t.connected && t.connectionStatus == Connected
    ensures reply.Delivered? && !ReportsDetected(reply) ==> !t.connected && t.connectionStatus == NotDetected
    ensures t.sceneTree == s.sceneTree && t.selectedNode == s.selectedNode && t.expandedNodes == s.expandedNodes
  {
    match reply
    case LastError(message) => s.(connected := false, connectionStatus := CannotConnect(message))
    case Delivered(_) =>
      if ReportsDetected(reply) then s.(connected := true, connectionStatus := Connected)
      else s.(connected := false, connectionStatus := NotDetected)
  }

  /** The `refreshSceneTree` callback. Any delivered response counts as a
      success, so an `{error}` reply clears the tree and marks the panel
      connected. */
  function TreeReplied(s: Store, reply: TransportReply): (t: Store)
    ensures reply.LastError? || reply.response.None? ==>
      t == s.(connected := false, connectionStatus := TreeFailed)
    ensures reply.Delivered? && reply.response.Some? ==>
      t.connected && t.sceneTree == reply.response.value.sceneTree &&
      t.connectionStatus == s.connectionStatus && t.selectedNode == s.selectedNode && t.expandedNodes == s.expandedNodes
  {
    if reply.LastError? || reply.response.None? then s.(connected := false, connectionStatus := TreeFailed)
    else s.(sceneTree := reply.response.value.sceneTree, connected := true)
  }

  /** The node a `selectNode` or `updateNodeProperty` reply carries
      (`response && response.node`); an errored transport delivers none. */
  function RepliedNode(reply: TransportReply): Option<SceneNode> {
    if reply.Delivered? && reply.response.Some? then reply.response.value.node else None
  }

  /** The `selectNode` callback, which `updateNodeProperty`'s shares. */
  function NodeReplied(s: Store, reply: TransportReply): (t: Store)
    ensures RepliedNode(reply).Some? ==> t == s.(selectedNode := RepliedNode(reply))
    ensures RepliedNode(reply).None? ==> t == s
  {
    match RepliedNode(reply)
    case Some(node) => s.(selectedNode := Some(node))
    case None => s
  }

  /** The `toggleNodeVisibility` callback: only a reply with a tree
      replaces the tree. */
  function VisibilityReplied(s: Store, reply: TransportReply): (t: Store)
    ensures reply.Delivered? && reply.response.Some? && reply.response.value.sceneTree.Some? ==>
      t == s.(sceneTree := reply.response.value.sceneTree)
    ensures !(reply.Delivered? && reply.response.Some? && reply.response.value.sceneTree.Some?) ==> t == s
  {
    if reply.Delivered? && reply.response.Some? && reply.response.value.sceneTree.Some? then
      s.(sceneTree := reply.response.value.sceneTree)
    else s
  }

  /** `toggleNodeExpanded`: a new set with `id`'s membership flipped. */
  function ToggleExpanded(nodes: set<string>, id: string): (r: set<string>)
    ensures id in r <==> id !in nodes
    ensures forall other :: other != id ==> (other in r <==> other in nodes)
  {
    if id in nodes then nodes - {id} else nodes + {id}
  }

  lemma ToggleExpandedTwice(nodes: set<string>, id: string)
    ensures ToggleExpanded(ToggleExpanded(nodes, id), id) == nodes
  {
  }

  /** A successful handshake followed by a successful refresh leaves the
      panel connected and showing the page's tree. */
  lemma ConnectThenRefresh(s: Store, tree: SceneNode)
    ensures var connected := DetectReplied(s, Delivered(Some(DetectedReply(true))));
            TreeReplied(connected, Delivered(Some(SceneTreeReply(tree)))) ==
              s.(connected := true, connectionStatus := Connected, sceneTree := Some(tree))
  {
  }

  /** A message the panel sent to a tab. */
  datatype Outgoing = Outgoing(tabId: int, request: Request)

  class PanelStore {
    var state: Store
    var sent: seq<Outgoing>
    var refreshRequests: nat

    constructor()
      ensures state == Initial && sent == [] && refreshRequests == 0
    {
      state := Initial;
      sent := [];
      refreshRequests := 0;
    }

    /** Sends `request` to the tab, if there is one. */
    method Send(tabId: Option<int>, request: Request)
      modifies this
      ensures state == old(state) && refreshRequests == old(refreshRequests)
      ensures sent == if HasTab(tabId) then old(sent) + [Outgoing(tabId.value, request)] else old(sent)
    {
      if HasTab(tabId) {
        sent := sent + [Outgoing(tabId.value, request)];
      }
    }

    method Initialize(tabId: Option<int>)
      modifies this
      ensures state == old(state).(connectionStatus := Connecting) && refreshRequests == old(refreshRequests)
      ensures sent == if HasTab(tabId) then old(sent) + [Outgoing(tabId.value, Request(Some(DetectAction), None, None, Undefined))] else old(sent)
    {
      state := state.(connectionStatus := Connecting);
      Send(tabId, Request(Some(DetectAction), None, None, Undefined));
    }

    /** The reply to `initialize`'s probe; a detected instance triggers
        `refreshSceneTree()`. */
    method OnDetectReply(reply: TransportReply)
      modifies this
      ensures state == DetectReplied(old(state), reply) && sent == old(sent)
      ensures refreshRequests == old(refreshRequests) + if ReportsDetected(reply) then 1 else 0
    {
      state := DetectReplied(state, reply);
      if ReportsDetected(reply) {
        refreshRequests := refreshRequests + 1;
      }
    }

    method RefreshSceneTree(tabId: Option<int>)
      modifies this
      ensures state == old(state) && refreshRequests == old(refreshRequests)
      ensures sent == if HasTab(tabId) then old(sent) + [Outgoing(tabId.value, Request(Some(GetSceneTreeAction), None, None, Undefined))] else old(sent)
    {
      Send(tabId, Request(Some(GetSceneTreeAction), None, None, Undefined));
    }

    method OnTreeReply(reply: TransportReply)
      modifies this
      ensures state == TreeReplied(old(state), reply) && sent == old(sent) && refreshRequests == old(refreshRequests)
    {
      state := TreeReplied(state, reply);
    }

    method SelectNode(nodeId: string, tabId: Option<int>)
      modifies this
      ensures state == old(state) && refreshRequests == old(refreshRequests)
      ensures sent == if HasTab(tabId) then old(sent) + [Outgoing(tabId.value, Request(Some(SelectNodeAction), Some(nodeId), None, Undefined))] else old(sent)
    {
      Send(tabId, Request(Some(SelectNodeAction), Some(nodeId), None, Undefined));
    }

    method OnSelectReply(reply: TransportReply)
      modifies this
      ensures state == NodeReplied(old(state), reply) && sent == old(sent) && refreshRequests == old(refreshRequests)
    {
      state := NodeReplied(state, reply);
    }

    method ToggleNodeVisibility(nodeId: string, tabId: Option<int>)
      modifies this
      ensures state == old(state) && refreshRequests == old(refreshRequests)
      ensures sent == if HasTab(tabId) then old(sent) + [Outgoing(tabId.value, Request(Some(ToggleVisibilityAction), Some(nodeId), None, Undefined))] else old(sent)
    {
      Send(tabId, Request(Some(ToggleVisibilityAction), Some(nodeId), None, Undefined));
    }

    method OnVisibilityReply(reply: TransportReply)
      modifies this
      ensures state == VisibilityReplied(old(state), reply) && sent == old(sent) && refreshRequests == old(refreshRequests)
    {
      state := VisibilityReplied(state, reply);
    }

    method ToggleNodeExpanded(nodeId: string)
      modifies this
      ensures state == old(state).(expandedNodes := ToggleExpanded(old(state).expandedNodes, nodeId))
      ensures sent == old(sent) && refreshRequests == old(refreshRequests)
    {
      var expandedNodes := state.expandedNodes;
      if nodeId in expandedNodes {
        expandedNodes := expandedNodes - {nodeId};
      } else {
        expandedNodes := expandedNodes + {nodeId};
      }
      state := state.(expandedNodes := expandedNodes);
    }

    method UpdateNodeProperty(nodeId: string, property: string, value: JsValue, tabId: Option<int>)
      modifies this
      ensures state == old(state) && refreshRequests == old(refreshRequests)
      ensures sent == if HasTab(tabId) then old(sent) + [Outgoing(tabId.value, Request(Some(UpdatePropertyAction), Some(nodeId), Some(property), value))] else old(sent)
    {
      Send(tabId, Request(Some(UpdatePropertyAction), Some(nodeId), Some(property), value));
    }

    /** The reply to an update: a returned node is selected and the tree
        refreshed; anything else changes nothing. */
    method OnUpdateReply(reply: TransportReply)
      modifies this
      ensures state == NodeReplied(old(state), reply) && sent == old(sent)
      ensures refreshRequests == old(refreshRequests) + if RepliedNode(reply).Some? then 1 else 0
    {
      state := NodeReplied(state, reply);
      if RepliedNode(reply).Some? {
        refreshRequests := refreshRequests + 1;
      }
    }
  }
}
