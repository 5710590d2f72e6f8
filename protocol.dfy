/** The messages the inspector's three contexts exchange: the serialized
    scene node, the panel's requests, the page-event envelopes that carry
    them with a correlation id, and the reply objects. */
module Protocol {
  import opened Wrappers
  import opened JsValues

  /** A serialized scene item (the panel's `PaperNode`). */
  datatype SceneNode = SceneNode(
    id: string,
    name: string,
    nodeType: string,
    children: seq<SceneNode>,
    properties: map<string, JsValue>,
    visible: bool,
    selected: bool)

  /** A request from the panel; an absent key is `None` (`Undefined` for the value). */
  datatype Request = Request(
    action: Option<string>,
    nodeId: Option<string>,
    property: Option<string>,
    value: JsValue)

  /** The detail of a `PAPER_DEVTOOLS_MESSAGE` page event: the request plus its id. */
  datatype Envelope = Envelope(id: string, request: Request)

  /** A reply object; each key is present or not. */
  datatype Payload = Payload(
    detected: Option<bool>,
    sceneTree: Option<SceneNode>,
    node: Option<SceneNode>,
    error: Option<string>)

  /** The detail of a `PAPER_DEVTOOLS_RESPONSE` page event. */
  datatype ResponseEnvelope = ResponseEnvelope(id: string, response: Payload)

  const GetSceneTreeAction := "GET_SCENE_TREE"
  const SelectNodeAction := "SELECT_NODE"
  const ToggleVisibilityAction := "TOGGLE_NODE_VISIBILITY"
  const UpdatePropertyAction := "UPDATE_NODE_PROPERTY"
  const DetectAction := "DETECT_PAPER_JS"

  function SceneTreeReply(tree: SceneNode): Payload {
    Payload(None, Some(tree), None, None)
  }

  function NodeReply(node: SceneNode): Payload {
    Payload(None, None, Some(node), None)
  }

  function ErrorReply(message: string): Payload {
    Payload(None, None, None, Some(message))
  }

  function DetectedReply(detected: bool): Payload {
    Payload(Some(detected), None, None, None)
  }

  /** A present, non-empty string (the `if (message.nodeId)` test). */
  predicate TruthyString(s: Option<string>) {
    s.Some? && s.value != ""
  }
}
