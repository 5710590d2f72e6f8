# paper-devtools in Dafny

This project models a paper.js DevTools extension and the example drawing
app that comes with it.

**The extension.** It mirrors a paper.js scene into a DevTools panel. Three
contexts pass messages:
- The page side has a scope registry and a detector that looks for
  `__PAPER_JS__`. It also has a serializer (`buildSceneTree`) that turns the
  live item tree into nodes with path ids `root_i_j…`, and a message handler
  that selects, hides or edits the item an id names.
- The content script relays the panel's requests to the page. It does this
  with a correlated pair of page events.
- The panel's store folds the replies into its state. Its properties panel
  picks an editor for each property.

**The example app.** It has a select / move / resize tool with eight control
points, five drawing tools on a common base, and a manager that switches
between them.

**Modelling conventions.**
- Stateful components are classes whose fields their methods update. Pure
  logic is functions.
- Everything a method does is either a function of its inputs and old state,
  or stated outright in its contract.
- Page events are records appended to a log, and listeners are entries in a
  table.
- Timers are explicit ticks. `Date.now()` and Chrome's callbacks are
  arguments.

Modules, one per source component:
- `Wrappers`, `Text`, `JsValues` and `Protocol`: shared values.
  - `Text` covers `parseInt`, `split`, `${i}`, `toLowerCase` and `includes`.
  - `JsValues` covers JavaScript values, truthiness, `in` and spread.
  - `Protocol` covers requests, envelopes and replies.
- `SceneTree`: `buildSceneTree`, `findPaperItemById` and `findNodeById`.
- `MessageRouter`: the `PAPER_DEVTOOLS_MESSAGE` handler.
- `Detection`: `paper-detection.js` and `index.js`.
- `ScopeRegistry`: `inject/index.ts`.
- `ContentRelay`: `content/index.ts`.
- `InspectorStore`: the panel store.
- `PropertiesPanel`: the classifier and the editors' record updates.
- `Geometry` and `PaperProject`: points, rectangles, paths, items, the
  canvas cursor and the window events the tools share.
- `Drawing`: `BaseTool`.
- `PaperTools`: `paperTools.ts`.
- `LineTool`, `FreehandTool`, `RectangleTool`, `EllipseTool` and
  `PolygonTool`.
- `ToolManager`.

Points of the code that the model keeps as they are written:
- A thrown assignment in `UPDATE_NODE_PROPERTY` is caught and logged, and
  no response is sent (`build-scene-tree.js:153-155`).
- The project root is walked through `children` like every other item, both
  when serializing and when resolving an id (`build-scene-tree.js:47-49`,
  `build-scene-tree.js:80-81`). No `layers` key is read.
- `refreshSceneTree` treats every delivered reply as a success, including an
  `{error}` reply. An `{error}` reply therefore clears the tree and marks the
  panel connected (`store/index.ts:75-86`).
- `bounds` (x, y, width, height) is classified as a point, because the point
  test comes before the rectangle test (`PropertiesPanel.tsx:44-59`).

## Model

| member | source | states |
|---|---|---|
| Text.NatToString | packages/extension/public/build-scene-tree.js:49 | the template rendering of an index is a non-empty string of decimal digits |
| Text.DigitsValueOfNatToString | packages/extension/public/build-scene-tree.js:79 | the digits rendered for an index denote that index |
| Text.TrimStartSuffix | packages/extension/public/build-scene-tree.js:79 | `parseInt` skips a leading run of JavaScript white space: the rest is a suffix that does not start with white space |
| Text.LeadingDigitsPrefix | packages/extension/public/build-scene-tree.js:79 | `parseInt` reads the longest prefix of decimal digits: a prefix made of digits, followed by a non-digit or the end |
| Text.Lower | packages/extension/src/panel/components/PropertiesPanel.tsx:26 | `toLowerCase` maps every character and keeps the length |
| JsValues.CanonicalIndex | packages/extension/src/panel/components/PropertiesPanel.tsx:106 | a key names an array index only if it is that index's own decimal rendering |
| JsValues.CanonicalIndexOfNatToString | packages/extension/src/panel/components/PropertiesPanel.tsx:106 | every index's rendering is recognised as that index |
| JsValues.Spread | packages/extension/src/panel/components/PropertiesPanel.tsx:106 | `{...v}` copies an object's own entries, and nothing from null, undefined, numbers or booleans |
| Text.NatToStringInjective | packages/extension/public/build-scene-tree.js:49 | different child indices are rendered as different strings, so sibling ids never collide |
| Text.ParseIntOfNatToString | packages/extension/public/build-scene-tree.js:79 | `parseInt` of the decimal rendering of an index gives back that index |
| Text.SplitSnoc | packages/extension/public/build-scene-tree.js:75 | splitting `a + "_" + b`, where `b` has no `_`, gives the pieces of `a` followed by `b` |
| Text.LowerIdempotent | packages/extension/src/panel/components/PropertiesPanel.tsx:26 | lower-casing twice is lower-casing once |
| Text.IncludesAt | packages/extension/src/panel/components/PropertiesPanel.tsx:29 | `includes` holds exactly when the substring occurs at some position |
| JsValues.SpreadArray | packages/extension/src/panel/components/PropertiesPanel.tsx:106 | spreading an array copies each element under its index key |
| SceneTree.PropertiesPresence | packages/extension/public/build-scene-tree.js:18-45 | each property key is present exactly when its attribute is: position and bounds when present, colours when truthy, `strokeWidth`/`opacity`/`closed` when not undefined; each holds that attribute's value and no other key exists |
| SceneTree.Serialize | packages/extension/public/build-scene-tree.js:6-16 | the node id is the given id, or `root` when it is empty; name defaults to `''`, type to `Item`, visible to true, selected to false; the properties are those of `Properties` |
| SceneTree.BuildSceneTree | packages/extension/public/build-scene-tree.js:2-56 | null for an absent item; otherwise exactly the node `Serialize` describes, built by the recursive push loop |
| SceneTree.SerializeChildren | packages/extension/public/build-scene-tree.js:47-54 | the children are the non-null slots in source order; the k-th is the node of its slot's item under id `${nodeId}_${slot}` |
| SceneTree.SerializeChildrenNoNulls | packages/extension/public/build-scene-tree.js:47-54 | with no null children, child k's node is the k-th child, with id `${nodeId}_k` |
| SceneTree.PresentAt | packages/extension/public/build-scene-tree.js:50-52 | the kept entries are exactly the non-null ones, in increasing position order |
| SceneTree.SplitPathId | packages/extension/public/build-scene-tree.js:75 | the id built for an index path splits at `_` into `root` and the rendered indices |
| SceneTree.FindPaperItemById | packages/extension/public/build-scene-tree.js:68-87 | the loop over the id segments ends exactly as `Resolve` says |
| SceneTree.WalkFound | packages/extension/public/build-scene-tree.js:78-86 | the walk finds an item exactly when every segment parses to a non-negative index and that path exists, and it then reports that path and item |
| SceneTree.WalkStep | packages/extension/public/build-scene-tree.js:79-84 | one loop turn: reading `children` of a lost item throws; a missing `children`, NaN or an index ≥ length gives null; a negative index loses the item; otherwise the walk steps into that child |
| SceneTree.ResolveFound | packages/extension/public/build-scene-tree.js:68-87 | on a page with a project, an id resolves exactly when its path exists, and it resolves to that path's item |
| SceneTree.ResolveFoundItem | packages/extension/public/build-scene-tree.js:76-86 | a found item is the one its reported path reaches in the project |
| SceneTree.ResolveNoProject | packages/extension/public/build-scene-tree.js:69 | without `__PAPER_JS__` or its project nothing is found |
| SceneTree.ResolveFirstSegmentUnchecked | packages/extension/public/build-scene-tree.js:77-78 | the first segment is never checked, so any id without `_` names the project |
| SceneTree.IdPathOfPathId | packages/extension/public/build-scene-tree.js:75-79 | the lookup reads back exactly the index path an id was built from |
| SceneTree.PathIdInjective | packages/extension/public/build-scene-tree.js:49 | different index paths get different ids |
| SceneTree.ResolvePathId | packages/extension/public/build-scene-tree.js:77-86 | the id of an existing index path resolves to the item at that path |
| SceneTree.IdRoundTrip | packages/extension/public/build-scene-tree.js:77-86 | every node of the serialized project, looked up by its id, finds the item whose serialization it is |
| SceneTree.SerializedNodesAreItems | packages/extension/public/build-scene-tree.js:47-54 | every node in a serialized subtree is the node of some existing item at its own path |
| SceneTree.NodeInTree | packages/extension/public/build-scene-tree.js:47-54 | the node of every existing item appears in the serialized project |
| SceneTree.ChildNodes | packages/extension/public/build-scene-tree.js:47-54 | one serialized slot for each child slot of the item |
| SceneTree.PreOrder | packages/extension/public/build-scene-tree.js:58-66 | a search visits the node itself first, then its children's subtrees in order |
| SceneTree.NodeOfTreeIsItem | packages/extension/public/build-scene-tree.js:2-56 | every node in the serialized project is the node of an existing item, under that item's path id |
| SceneTree.TargetInPreOrder | packages/extension/public/build-scene-tree.js:47-54 | an item below a path is serialized inside that path's subtree |
| SceneTree.FindNodeIn | packages/extension/public/build-scene-tree.js:58-66 | the recursive search returns the first pre-order node with the id |
| SceneTree.FindNodeById | packages/extension/public/build-scene-tree.js:58-66 | null for an absent root; otherwise the first pre-order node with the id, or null when no node has it |
| SceneTree.FirstWithId | packages/extension/public/build-scene-tree.js:60-65 | a found node is in the sequence and has the id; nothing found means no node has the id |
| SceneTree.FirstWithIdAppend | packages/extension/public/build-scene-tree.js:61-64 | searching a concatenation finds the first part's match if it has one, else the second part's |
| SceneTree.FindNodeByPathId | packages/extension/public/build-scene-tree.js:58-66 | since ids are unique, searching the serialized project for an existing path's id finds that item's node |
| MessageRouter.DeselectAllAt | packages/extension/public/build-scene-tree.js:105-107 | `deselectAll` keeps every path and deselects the item at each one |
| MessageRouter.DeselectedEverywhere | packages/extension/public/build-scene-tree.js:106 | after `deselectAll` no item is selected, and the `selected` attribute exists where it existed |
| MessageRouter.ReplaceAtTarget | packages/extension/public/build-scene-tree.js:136-144 | an in-place change leaves the changed item at its path |
| MessageRouter.ReplaceAtElsewhere | packages/extension/public/build-scene-tree.js:136-144 | a change that keeps the children keeps every path, and every other item's attributes |
| MessageRouter.ReplaceAtSame | packages/extension/public/build-scene-tree.js:122 | putting back the item already at a path changes nothing |
| MessageRouter.ReplaceAtTwice | packages/extension/public/build-scene-tree.js:136-137 | a second change at the same path overrides the first |
| MessageRouter.SetPosition | packages/extension/public/build-scene-tree.js:135-137 | the x/y assignment succeeds exactly when the item has a position and the value is not null, and then sets both coordinates from the value |
| MessageRouter.Dispatch | packages/extension/public/build-scene-tree.js:89-171 | every response echoes the request id; no response means the page is left as it was |
| MessageRouter.PageContext.OnDevtoolsMessage | packages/extension/public/build-scene-tree.js:89-171 | the page becomes the outcome of `Dispatch`, and the response, if any, is appended to the response log |
| MessageRouter.PageContext.SelectNode | packages/extension/public/build-scene-tree.js:100-117 | the page and the reply are those of the `SELECT_NODE` outcome |
| MessageRouter.PageContext.ToggleNodeVisibility | packages/extension/public/build-scene-tree.js:118-128 | the page and the reply are those of the `TOGGLE_NODE_VISIBILITY` outcome |
| MessageRouter.PageContext.UpdateNodeProperty | packages/extension/public/build-scene-tree.js:129-158 | the page and the reply are those of the `UPDATE_NODE_PROPERTY` outcome |
| MessageRouter.GetSceneTreeReplies | packages/extension/public/build-scene-tree.js:94-99 | the tree is sent exactly when there is a project, and it is the project's serialization under the request id |
| MessageRouter.SelectNodeSelectsOnlyTarget | packages/extension/public/build-scene-tree.js:100-117 | a reply comes exactly when the id resolves; then every path still exists and the only selected item is the target (when it has a `selected` attribute) |
| MessageRouter.ToggleTwiceRestores | packages/extension/public/build-scene-tree.js:118-128 | a reply comes exactly when the target resolves and has `visible`; the first toggle flips `visible` and replies with the whole new tree; toggling again restores the page |
| MessageRouter.ToggleResolvesAgain | packages/extension/public/build-scene-tree.js:120-124 | after a change that keeps the children, the same id resolves to the changed item |
| MessageRouter.UpdatePositionSetsCoordinates | packages/extension/public/build-scene-tree.js:135-152 | a `position` update with an object sets x and y from the value, and the reply shows the new position |
| MessageRouter.UpdatePositionThrows | packages/extension/public/build-scene-tree.js:133-155 | a position update on an item without a position, or with null, throws: no reply and no change |
| MessageRouter.ThrownAssignmentNoResponse | packages/extension/public/build-scene-tree.js:133-155 | any thrown assignment is caught: no reply and no change |
| MessageRouter.UnresolvedNoResponse | packages/extension/public/build-scene-tree.js:102-132 | an id that does not resolve gets no reply, and nothing changes |
| MessageRouter.UnknownActionIgnored | packages/extension/public/build-scene-tree.js:93-159 | a message without an action, or with an unknown one, gets no reply and changes nothing |
| Detection.Tick | packages/extension/public/paper-detection.js:9-21 | an armed tick always counts; it dispatches exactly when the global is present; it stays armed exactly when the global is absent and `tryCount ≤ 10`; a cleared interval does nothing |
| Detection.DetectionPoller.OnInterval | packages/extension/public/paper-detection.js:9-21 | the poller's new state is `Tick` of the old one |
| Detection.AbsentRun | packages/extension/public/paper-detection.js:11-20 | without the global, the detector counts 12 ticks, dispatches nothing and then falls silent |
| Detection.RunInvariant | packages/extension/public/paper-detection.js:6-20 | while armed, `tryCount` is the number of ticks so far; every reached state is `Reachable` |
| Detection.AtMostOneDetection | packages/extension/public/index.js:17-26 | whatever the page does, at most one `PAPER_JS_DETECTED` is sent, and polling has stopped after 12 ticks |
| Detection.DetectsWhenPresent | packages/extension/public/index.js:20-24 | the first armed tick that sees the global announces it and stops polling |
| Detection.LoadDetectionScript | packages/extension/public/paper-detection.js:1-30 | a first load declares the bindings and starts an interval; a repeated load fails on the redeclaration and changes nothing |
| Detection.LoadIifeScript | packages/extension/public/index.js:2-37 | every load starts a fresh interval in its own closure |
| Detection.TickPage | packages/extension/public/paper-detection.js:9 | one second runs every started interval's tick |
| Detection.AbsentPage | packages/extension/public/paper-detection.js:9-21 | after one load and k seconds without the global, the page holds one poller in the state `AbsentRun` gives |
| Detection.RetryAfterTimeoutNeverDetects | packages/extension/src/content/index.ts:45-49 | as written: once the first interval gave up, re-injecting `paper-detection.js` cannot restart detection, so a later instance is never announced |
| Detection.RetryWithIifeDetects | packages/extension/public/index.js:2-37 | with the closure form, the same retry announces the instance on its first tick |
| ScopeRegistry.Entries | packages/extension/src/inject/index.ts:50-56 | one entry per key, in the order given, carrying its canvas; `active` exactly for the active key |
| ScopeRegistry.OneActiveEntry | packages/extension/src/inject/index.ts:50-56 | each key is listed once; at most one entry is active, and one is exactly when the active key is registered |
| ScopeRegistry.Registry.constructor | packages/extension/src/inject/index.ts:15-17 | a new registry is empty with a null active key |
| ScopeRegistry.Registry.Register | packages/extension/src/inject/index.ts:20-31 | an upsert of `{scope, canvas, id}` that keeps the key's place in insertion order; the key becomes active exactly when the active key was falsy |
| ScopeRegistry.Registry.GetActiveScope | packages/extension/src/inject/index.ts:34-38 | null without a truthy active key or its entry; the entry's scope otherwise |
| ScopeRegistry.Registry.SwitchScope | packages/extension/src/inject/index.ts:41-47 | true, and the key made active, exactly when it is registered; otherwise false and nothing changes |
| ScopeRegistry.Registry.GetAllScopes | packages/extension/src/inject/index.ts:50-56 | one entry per key in insertion order, `active` exactly for the active key |
| ScopeRegistry.InstallRegistry | packages/extension/src/inject/index.ts:14-58 | an existing registry is kept; otherwise a fresh empty one is made |
| ScopeRegistry.RegistrationOf | packages/extension/src/inject/index.ts:66-71 | the defaults read through `paperScope?.view?.element` are overridden by the page object's own `canvas` and `scopeId` keys |
| ScopeRegistry.InjectTick | packages/extension/src/inject/index.ts:61-84 | with the global present, a tick is a detection tick; without it the tick throws before `tryCount++` and counts nothing |
| ScopeRegistry.InjectPoller.OnInterval | packages/extension/src/inject/index.ts:61-84 | the poller state follows `InjectTick`; an armed tick with the global registers its scope as `Register` does; otherwise the registry is untouched |
| ScopeRegistry.AbsentScopeNeverStops | packages/extension/src/inject/index.ts:63-83 | as written: on a page that never defines `__PAPER_SCOPE__`, `tryCount` stays 0 and the interval is never cleared |
| ScopeRegistry.GuardedRunIsDetectionRun | packages/extension/src/inject/index.ts:63-83 | with the read guarded, the inject tick is the detection scripts' tick |
| ScopeRegistry.GuardedInjectStops | packages/extension/src/inject/index.ts:63-83 | with the guard, polling announces at most once and stops after 12 ticks |
| ContentRelay.MatchingRemainingMembers | packages/extension/src/content/index.ts:67-76 | the listeners a response fires are exactly those waiting for its id, and those that stay attached are exactly the others |
| ContentRelay.MatchingRemainingPartition | packages/extension/src/content/index.ts:67-76 | a response splits the listener table; no listener is lost or duplicated |
| ContentRelay.Replies | packages/extension/src/content/index.ts:74 | each fired listener calls its own request's `sendResponse` with `data.response` |
| ContentRelay.ContentScript.constructor | packages/extension/src/content/index.ts:24-27 | the flag starts false and the detection script is injected once |
| ContentRelay.ContentScript.OnPaperJsDetected | packages/extension/src/content/index.ts:30-36 | the flag becomes true and the scene-tree script is injected again |
| ContentRelay.ContentScript.OnMessage | packages/extension/src/content/index.ts:39-93 | no action: ignored; `DETECT_PAPER_JS` replies `{detected}` and re-injects only while undetected; a data action before detection gets an immediate error; after detection it adds one listener and dispatches one envelope with the fresh id and returns true; an unknown action gets nothing |
| ContentRelay.ContentScript.SplitListeners | packages/extension/src/content/index.ts:67-76 | one pass over the table yields exactly the listeners waiting for the id and the others, in table order |
| ContentRelay.ContentScript.OnResponseEvent | packages/extension/src/content/index.ts:67-76 | the matching listeners detach and reply with `data.response`; all others stay |
| ContentRelay.RelayedRequestIsAnswered | packages/extension/src/content/index.ts:64-89 | the page's response to a relayed envelope answers exactly that request and removes exactly its listener |
| ContentRelay.MatchingNone | packages/extension/src/content/index.ts:69 | a response for an id no listener waits for fires nothing |
| ContentRelay.RemainingAll | packages/extension/src/content/index.ts:69 | such a response leaves every listener attached |
| InspectorStore.DetectReplied | packages/extension/src/panel/store/index.ts:44-64 | a transport error disconnects with its message; a detected reply connects; anything else reports no paper.js; tree, selection and expansion are kept |
| InspectorStore.TreeReplied | packages/extension/src/panel/store/index.ts:74-86 | an error or a missing reply disconnects with the failure status and changes nothing else; any reply replaces the tree and connects |
| InspectorStore.NodeReplied | packages/extension/src/panel/store/index.ts:99-102 | a reply with `node` selects that node; anything else changes nothing |
| InspectorStore.VisibilityReplied | packages/extension/src/panel/store/index.ts:115-118 | only a reply with a tree replaces the tree |
| InspectorStore.ToggleExpanded | packages/extension/src/panel/store/index.ts:123-133 | the id's membership flips and no other id's does |
| InspectorStore.ToggleExpandedTwice | packages/extension/src/panel/store/index.ts:123-133 | toggling twice restores the set |
| InspectorStore.ConnectThenRefresh | packages/extension/src/panel/store/index.ts:53-86 | a detected handshake followed by a tree reply leaves the panel connected and showing that tree |
| InspectorStore.PanelStore.constructor | packages/extension/src/panel/store/index.ts:29-34 | the initial state: disconnected, waiting status, no tree, no selection, nothing expanded |
| InspectorStore.PanelStore.Send | packages/extension/src/panel/store/index.ts:40-44 | a request goes out only when there is a truthy tab id |
| InspectorStore.PanelStore.Initialize | packages/extension/src/panel/store/index.ts:36-44 | the status becomes "connecting" and the probe goes to the tab, if there is one |
| InspectorStore.PanelStore.OnDetectReply | packages/extension/src/panel/store/index.ts:44-64 | the state becomes `DetectReplied`; a detected reply requests a refresh |
| InspectorStore.PanelStore.RefreshSceneTree | packages/extension/src/panel/store/index.ts:69-74 | a tree request goes to the tab, if there is one; the state is unchanged |
| InspectorStore.PanelStore.OnTreeReply | packages/extension/src/panel/store/index.ts:74-87 | the state becomes `TreeReplied` |
| InspectorStore.PanelStore.SelectNode | packages/extension/src/panel/store/index.ts:91-99 | a select request for the node goes to the tab, if there is one |
| InspectorStore.PanelStore.OnSelectReply | packages/extension/src/panel/store/index.ts:99-103 | the state becomes `NodeReplied` |
| InspectorStore.PanelStore.ToggleNodeVisibility | packages/extension/src/panel/store/index.ts:107-115 | a visibility request for the node goes to the tab, if there is one |
| InspectorStore.PanelStore.OnVisibilityReply | packages/extension/src/panel/store/index.ts:115-119 | the state becomes `VisibilityReplied` |
| InspectorStore.PanelStore.ToggleNodeExpanded | packages/extension/src/panel/store/index.ts:123-133 | only the expanded set changes, to `ToggleExpanded` of the old one |
| InspectorStore.PanelStore.UpdateNodeProperty | packages/extension/src/panel/store/index.ts:135-145 | an update request with node, property and value goes to the tab, if there is one |
| InspectorStore.PanelStore.OnUpdateReply | packages/extension/src/panel/store/index.ts:145-150 | a reply with `node` selects it and requests a refresh; anything else changes nothing |
| PropertiesPanel.TagInjective | packages/extension/src/panel/components/PropertiesPanel.tsx:236-238 | the classifier's eleven result strings are pairwise different, so the editor switch on the result tells every kind apart |
| PropertiesPanel.Rank | packages/extension/src/panel/components/PropertiesPanel.tsx:25-75 | every kind has a place in the fixed test order |
| PropertiesPanel.DetectIsFirstFit | packages/extension/src/panel/components/PropertiesPanel.tsx:25-75 | the classifier answers the first kind, in the source's order, whose own test the property passes |
| PropertiesPanel.RectangleUnreachable | packages/extension/src/panel/components/PropertiesPanel.tsx:44-59 | every value that passes the rectangle test passes the earlier point test, so `rectangle` is never answered |
| PropertiesPanel.CaseInsensitive | packages/extension/src/panel/components/PropertiesPanel.tsx:26 | the name is compared in lower case only |
| PropertiesPanel.SerializedBoundsArePoints | packages/extension/src/panel/components/PropertiesPanel.tsx:44-47 | the serializer's `bounds` and `position` records are both edited as points |
| PropertiesPanel.RecordNamedWithoutKeyword | packages/extension/src/panel/components/PropertiesPanel.tsx:29-47 | a record with x and y under `bounds` or `position` is a point |
| PropertiesPanel.ColorsByName | packages/extension/src/panel/components/PropertiesPanel.tsx:29-31 | `fillColor` and `strokeColor` are colours whatever their value |
| PropertiesPanel.BoundsNamesNoKeyword | packages/extension/src/panel/components/PropertiesPanel.tsx:29-41 | the name `bounds` passes none of the name tests |
| PropertiesPanel.PositionNamesNoKeyword | packages/extension/src/panel/components/PropertiesPanel.tsx:29-41 | the name `position` passes none of the name tests |
| PropertiesPanel.NumberFieldChange | packages/extension/src/panel/components/PropertiesPanel.tsx:105-111 | a cleared input emits nothing; otherwise the record holds the new number under the key and keeps every other spread field |
| PropertiesPanel.NestedChange | packages/extension/src/panel/components/PropertiesPanel.tsx:184-186 | the record holds the new value under the key and keeps every other spread field |
| PropertiesPanel.EditPointBothAxes | packages/extension/src/panel/components/PropertiesPanel.tsx:105-111 | editing x then y keeps every other field and holds both new coordinates |
| PropertiesPanel.NestedChangeTwice | packages/extension/src/panel/components/PropertiesPanel.tsx:184-186 | the last nested edit of a key wins |
| Geometry.Sub | packages/example/src/utils/paperTools.ts:291 | the offset between two points, added back to the second point, gives the first |
| Geometry.Translate | packages/example/src/utils/paperTools.ts:367 | moving the position keeps width and height and moves the centre by the offset |
| Geometry.TranslateTwice | packages/example/src/utils/paperTools.ts:366-368 | two moves equal one move by the sum of the offsets |
| Geometry.Between | packages/example/src/utils/tools/RectangleTool.ts:36-53 | the rectangle spanned by two corners has non-negative width and height, equal to the corners' distance along each axis |
| Geometry.FarAlongAxis | packages/example/src/utils/tools/LineTool.ts:67-72 | an end point at least 2 away along one axis is not closer than 2 |
| PaperProject.Simplify | packages/example/src/utils/tools/BaseTool.ts:86 | the path's shape and style are kept and one more simplification is counted |
| PaperProject.RemoveSegment | packages/example/src/utils/tools/LineTool.ts:55 | an existing segment is removed and the others keep their order; an out-of-range index changes nothing |
| PaperProject.Project.DeselectAll | packages/example/src/utils/tools/BaseTool.ts:121 | no item is selected afterwards; nothing else changes |
| PaperProject.Project.Dispatch | packages/example/src/utils/tools/BaseTool.ts:89-94 | the event is appended to the window-event log; nothing else changes |
| Drawing.Restyle | packages/example/src/utils/tools/BaseTool.ts:43-46 | `fill` and `strokeWidth` change when given, colours only when truthy, and each field otherwise stays the same |
| Drawing.PathStyle | packages/example/src/utils/tools/BaseTool.ts:52-79 | a path always carries the stroke colour and width, and carries the fill colour exactly when `fill` is set |
| Drawing.RestyleWithNothing | packages/example/src/utils/tools/BaseTool.ts:43-46 | options that give nothing, or only falsy colours, change nothing |
| Drawing.RestyleIdempotent | packages/example/src/utils/tools/BaseTool.ts:43-46 | applying the same options twice is applying them once |
| Drawing.FillToggle | packages/example/src/utils/tools/BaseTool.ts:58-76 | turning `fill` off drops the fill colour from new paths; turning it back on restores the kept colour |
| Drawing.BoxPath | packages/example/src/utils/tools/RectangleTool.ts:35-38 | the drawn box's bounds are the rectangle spanned by the two points, in the given style |
| Drawing.BoxKeptIffLargeEnough | packages/example/src/utils/tools/RectangleTool.ts:69-74 | a box survives the release exactly when its corners are at least 2 apart along both axes; a press without a drag never survives |
| Drawing.BaseTool.constructor | packages/example/src/utils/tools/BaseTool.ts:8-26 | fill colour `#4285F4`, stroke `#000000`, width 2, and no path, start point or current point |
| Drawing.BaseTool.SetStyle | packages/example/src/utils/tools/BaseTool.ts:37-47 | the style fields become `Restyle` of the old ones; the drawing state is kept |
| Drawing.BaseTool.PathOptions | packages/example/src/utils/tools/BaseTool.ts:68-79 | the options are `PathStyle` of the fields |
| Drawing.BaseTool.CreatePath | packages/example/src/utils/tools/BaseTool.ts:52-63 | an empty open path in the tool's style |
| Drawing.BaseTool.FinishDrawing | packages/example/src/utils/tools/BaseTool.ts:84-101 | `paper:path:created` with the simplified path is sent only if a path existed; afterwards path, start and current point are null |
| Drawing.BaseTool.CancelDrawing | packages/example/src/utils/tools/BaseTool.ts:106-114 | any path is removed and the three fields become null; no event is sent |
| Drawing.BaseTool.Activate | packages/example/src/utils/tools/BaseTool.ts:119-136 | everything is deselected, the cursor becomes a crosshair, and `paper:tool:activated` is sent |
| Drawing.BaseTool.Deactivate | packages/example/src/utils/tools/BaseTool.ts:141-155 | the drawing is cancelled, the cursor reset to default, and `paper:tool:deactivated` sent |
| PaperTools.PositionsOnePerHandle | packages/example/src/utils/paperTools.ts:144-153 | exactly one control point per handle, each at its corner or edge midpoint |
| PaperTools.PositionsDistinct | packages/example/src/utils/paperTools.ts:144-153 | no two control points share a handle |
| PaperTools.Repositioned | packages/example/src/utils/paperTools.ts:195-227 | each point keeps its handle and moves to that handle's place on the bounds |
| PaperTools.RepositionedPositions | packages/example/src/utils/paperTools.ts:195-227 | repositioning the points made for old bounds gives the points that would be made for the new bounds |
| PaperTools.FirstHandle | packages/example/src/utils/paperTools.ts:231-238 | no handle exactly when no circle contains the point; otherwise the handle of the first circle that does |
| PaperTools.ResizeSpan | packages/example/src/utils/paperTools.ts:295-341 | the span is at least 10; a dragged low edge keeps the high edge, otherwise the low edge is kept; a span that needs no clamping is the dragged one |
| PaperTools.ResizeProperties | packages/example/src/utils/paperTools.ts:295-341 | after clamping both sides are at least 10; left/top handles keep the right/bottom edge, the others the left/top edge; an unclamped drag moves exactly the handle's edges by the offset |
| PaperTools.CursorNamesAxes | packages/example/src/utils/paperTools.ts:241-258 | TL/BR give `nwse-resize`, TR/BL `nesw-resize`, top/bottom `ns-resize`, left/right `ew-resize`, each exactly for the axes the handle resizes |
| PaperTools.HandleFollowsMouse | packages/example/src/utils/paperTools.ts:295-324 | without clamping, the dragged handle follows the mouse position along its axes |
| PaperTools.DragsTelescope | packages/example/src/utils/paperTools.ts:361-368 | a drag sequence moves the item by the last point minus the first |
| PaperTools.SelectTool.constructor | packages/example/src/utils/paperTools.ts:5-10 | no selection, no control points, SELECT mode, no handle, drag start or snapshot |
| PaperTools.SelectTool.GetHandleAtPoint | packages/example/src/utils/paperTools.ts:231-238 | the loop returns `FirstHandle` of the control points |
| PaperTools.SelectTool.RemoveControlPoints | packages/example/src/utils/paperTools.ts:183-186 | the control-point list becomes empty; nothing else changes |
| PaperTools.SelectTool.CreateControlPoints | packages/example/src/utils/paperTools.ts:128-180 | with a selection, the old points are replaced by the eight of its bounds; without one nothing changes |
| PaperTools.SelectTool.UpdateControlPoints | packages/example/src/utils/paperTools.ts:189-228 | with a selection, the points become `Repositioned` on its bounds; without one nothing changes |
| PaperTools.SelectTool.UnselectItem | packages/example/src/utils/paperTools.ts:108-125 | a selected item loses its flag and its control points and `paper:item:unselected` is sent; the mode is SELECT in every case |
| PaperTools.SelectTool.SelectItem | packages/example/src/utils/paperTools.ts:87-105 | the previous item is unselected; the new one becomes the only selected item, with its eight control points and `paper:item:selected` sent |
| PaperTools.SelectTool.MoveItem | packages/example/src/utils/paperTools.ts:361-382 | the item moves by the offset from the drag start, which advances to the mouse position; `paper:item:moved` carries the new position; no-op without selection or drag start |
| PaperTools.SelectTool.ResizeItem | packages/example/src/utils/paperTools.ts:286-358 | no-op unless selection, handle, drag start and snapshot are set; otherwise the bounds become `ResizedBounds` of the snapshot and `paper:item:resized` is sent |
| PaperTools.SelectTool.StretchBounds | packages/example/src/utils/paperTools.ts:295-324 | the switch moves exactly the handle's own edges by the offset, giving `Stretched` |
| PaperTools.SelectTool.ResizeBounds | packages/example/src/utils/paperTools.ts:291-341 | the switch and the clamps compute `ResizedBounds` |
| PaperTools.SelectTool.OnMouseDown | packages/example/src/utils/paperTools.ts:18-54 | a control-point hit enters RESIZE with a bounds snapshot; a hit on the selection or inside it enters MOVE; a hit on another item selects it; empty space unselects |
| PaperTools.SelectTool.OnMouseDrag | packages/example/src/utils/paperTools.ts:57-64 | only MOVE moves and only RESIZE resizes, each emitting its `paper:item:moved` / `paper:item:resized` event; SELECT mode, and a move or resize whose drag state is unset, change nothing |
| PaperTools.SelectTool.OnMouseUp | packages/example/src/utils/paperTools.ts:67-77 | the drag state is cleared and the mode is SELECT; after a move or resize the active handle is cleared |
| PaperTools.SelectTool.OnMouseMove | packages/example/src/utils/paperTools.ts:261-283 | the cursor is the handle's resize cursor over a control point, `move` over the selection, `default` elsewhere |
| LineTool.StartedLine | packages/example/src/utils/tools/LineTool.ts:38-45 | the line starts with exactly two segments at the press point, with stroke only |
| LineTool.DraggedLine | packages/example/src/utils/tools/LineTool.ts:55-56 | a two-segment line keeps its first segment and ends at the mouse position |
| LineTool.LineTool.constructor | packages/example/src/utils/tools/LineTool.ts:10-12 | `fill` is false; everything else is the default |
| LineTool.LineTool.OnMouseDown | packages/example/src/utils/tools/LineTool.ts:30-46 | any old path is removed and the line `StartedLine` is started at the point |
| LineTool.LineTool.OnMouseDrag | packages/example/src/utils/tools/LineTool.ts:51-60 | without a path and start point nothing happens; otherwise the line is [start, mouse position] |
| LineTool.LineTool.OnMouseUp | packages/example/src/utils/tools/LineTool.ts:65-78 | without a path and start point nothing happens; a line shorter than 2 is removed; a longer one is finished; either way path, start and current point are cleared |
| LineTool.LineTool.OnKeyDown | packages/example/src/utils/tools/LineTool.ts:83-88 | escape cancels; other keys do nothing |
| FreehandTool.FreehandTool.constructor | packages/example/src/utils/tools/FreehandTool.ts:10-12 | `fill` is false; everything else is the default |
| FreehandTool.FreehandTool.OnMouseDown | packages/example/src/utils/tools/FreehandTool.ts:30-42 | any old path is removed and a path with exactly one segment, at the press point, is started |
| FreehandTool.FreehandTool.OnMouseDrag | packages/example/src/utils/tools/FreehandTool.ts:47-55 | each drag appends exactly the mouse position; without a path nothing happens |
| FreehandTool.FreehandTool.OnMouseUp | packages/example/src/utils/tools/FreehandTool.ts:60-72 | no path or fewer than 2 segments cancels; otherwise the path is simplified and finished |
| FreehandTool.FreehandTool.OnKeyDown | packages/example/src/utils/tools/FreehandTool.ts:77-82 | escape cancels; other keys do nothing |
| RectangleTool.RectangleTool.constructor | packages/example/src/utils/tools/RectangleTool.ts:9-22 | the default style and no drawing |
| RectangleTool.RectangleTool.OnMouseDown | packages/example/src/utils/tools/RectangleTool.ts:27-40 | any prior path is removed, the start recorded, and a rectangle from start to start made |
| RectangleTool.RectangleTool.OnMouseDrag | packages/example/src/utils/tools/RectangleTool.ts:45-60 | the old path is removed and replaced by the rectangle from the start to the mouse position; nothing without a path and start |
| RectangleTool.RectangleTool.OnMouseUp | packages/example/src/utils/tools/RectangleTool.ts:65-78 | width or height below 2 cancels; otherwise the rectangle is finished; either way path, start and current point are cleared |
| RectangleTool.RectangleTool.OnKeyDown | packages/example/src/utils/tools/RectangleTool.ts:83-88 | escape cancels; other keys do nothing |
| EllipseTool.EllipseTool.constructor | packages/example/src/utils/tools/EllipseTool.ts:9-22 | the default style and no drawing |
| EllipseTool.EllipseTool.OnMouseDown | packages/example/src/utils/tools/EllipseTool.ts:27-39 | any prior path is removed, the start recorded, and an ellipse in the rectangle from start to start made |
| EllipseTool.EllipseTool.OnMouseDrag | packages/example/src/utils/tools/EllipseTool.ts:44-60 | the old path is removed and replaced by the ellipse in the rectangle from the start to the mouse position; nothing without a path and start |
| EllipseTool.EllipseTool.OnMouseUp | packages/example/src/utils/tools/EllipseTool.ts:65-78 | bounds width or height below 2 cancels; otherwise the ellipse is finished; either way path, start and current point are cleared |
| EllipseTool.EllipseTool.OnKeyDown | packages/example/src/utils/tools/EllipseTool.ts:83-88 | escape cancels; other keys do nothing |
| PolygonTool.Vertices | packages/example/src/utils/tools/PolygonTool.ts:120-125 | exactly `sides` corners, the i-th being corner i of `sides` |
| PolygonTool.SidesFor | packages/example/src/utils/tools/PolygonTool.ts:32 | `max(3, floor(s))`: at least 3, and the floor from 3 up |
| PolygonTool.PolygonTool.constructor | packages/example/src/utils/tools/PolygonTool.ts:8-13 | not drawing, last click at 0, 5 sides, default style |
| PolygonTool.PolygonTool.SetSides | packages/example/src/utils/tools/PolygonTool.ts:31-33 | `sides` becomes `SidesFor(s)` |
| PolygonTool.PolygonTool.UpdatePolygonPath | packages/example/src/utils/tools/PolygonTool.ts:109-126 | a path's segments are replaced by exactly `sides` new corners; without a path nothing changes |
| PolygonTool.PolygonTool.OnMouseDown | packages/example/src/utils/tools/PolygonTool.ts:38-68 | a press within 300 ms finishes a drawing in progress, resets the last click to 0 and starts nothing; otherwise the time is recorded, and when idle the old path is cancelled and a closed polygon is started at the point |
| PolygonTool.PolygonTool.OnMouseDrag | packages/example/src/utils/tools/PolygonTool.ts:73-81 | nothing unless path, start and `isDrawing` are set; otherwise the polygon is redrawn through the mouse position |
| PolygonTool.PolygonTool.OnMouseUp | packages/example/src/utils/tools/PolygonTool.ts:86-104 | nothing unless path, start and `isDrawing` are set; otherwise the polygon is redrawn, then removed if closer than 5 and finished if not; `isDrawing` ends false |
| PolygonTool.PolygonTool.OnKeyDown | packages/example/src/utils/tools/PolygonTool.ts:131-137 | escape cancels and ends `isDrawing`; other keys do nothing |
| ToolManager.ToolManager.constructor | packages/example/src/utils/tools/ToolManager.ts:34-57 | the seven types are registered and SELECT is activated, which sends one `paper:tool:changed` |
| ToolManager.ToolManager.ActivateTool | packages/example/src/utils/tools/ToolManager.ts:62-85 | re-activating the active type returns it and changes nothing; an unregistered type returns null and changes nothing; otherwise the tool is activated, becomes active, and `paper:tool:changed` is sent |
| ToolManager.ToolManager.OnPathCreated | packages/example/src/utils/tools/ToolManager.ts:52-55 | a created path switches back to SELECT |
| ToolManager.ToolManager.GetActiveTool | packages/example/src/utils/tools/ToolManager.ts:90-96 | `{null, null}` with no active type; otherwise the active type and the tool registered under it |
| ToolManager.ToolManager.GetTool | packages/example/src/utils/tools/ToolManager.ts:101-103 | the tool exactly when the type is registered |
| ToolManager.ToolManager.SetToolStyle | packages/example/src/utils/tools/ToolManager.ts:108-118 | the named drawing tool is restyled as `SetStyle` does, its drawing state kept, and every other tool is unchanged; the SELECT tool and unknown types leave every tool unchanged |
| ToolManager.ToolManager.SetPolygonSides | packages/example/src/utils/tools/ToolManager.ts:123-128 | the polygon tool's sides become `SidesFor(s)` |

## Left out

- I/O is not modelled. This covers the Chrome APIs (`tabs.query`, `tabs.sendMessage`, `runtime.getURL`, `runtime.lastError`), script-tag injection, DOM custom events, `setInterval`/`clearInterval`, `Date.now()` and `console.log`. Each appears as an input, a counter or a log record.
- `tabs.query` and `tabs.sendMessage` are merged into one send step that carries the active tab's id.
- `sendResponse` being callable only once is not modelled. Each call is a reply record.
- Floating point is not modelled: numbers are reals without NaN or rounding. `parseInt` of very long digit strings is exact.
- Trigonometry is not modelled. A polygon corner is the symbolic `Corner(center, through, i, sides)`, not its coordinates.
- `getDistance(a, b) < d` is compared exactly through squares.
- paper.js internals that cannot be seen are abstracted:
  - `hitTest`, `contains` and `isAncestor` are given answers;
  - `simplify` only counts;
  - `Color.toCSS` is a given string;
  - an item's position is its bounds' centre;
  - the `bounds` setter takes the requested rectangle;
  - `paper.view.update()` redraws are omitted;
  - paper's own active-tool slot (`super.activate()`) is mirrored only by the manager's `activeTool`.
- The canvas element (`paper.view.element`) is assumed present. `BaseTool.activate`, `BaseTool.deactivate` and `updateCursor` skip the cursor change without it; the model always sets the cursor.
- `minDistance` and `maxDistance` of the drawing tools are left out. They filter mouse events before the handlers run, and the handlers are modelled for whatever events arrive.
- `PolygonTool`'s `doubleClickTimer` is left out; the code never uses it.
- CircleTool.ts is not part of this model. The circle tool is registered as a plain `BaseTool`.
- The select tool's control-point circles are not project items.
- The two `SelectTool` instances that share `paperTools.ts`'s module state are not distinguished. `initTools` creates one and the manager creates another; the model keeps one `SelectTool` object holding that state.
- Key order of JavaScript objects is not modelled. Objects are maps.
- Non-ASCII lower-casing is not modelled.
- A `null` and an `undefined` attribute are both "absent", except where the code tells them apart.
- Scope ids are `undefined`, `null` or strings. Numeric and object keys are not modelled.
- `MessageRouter.SetPosition`: the position update writes x and y into the item's position only. The model does not move the item's bounds with it, because the engine's geometry cannot be seen.
- Engine assignments (`item[property] = value`, the colour setters) are a given function. Each one is atomic: it either throws before changing anything or succeeds.
- The message handler assumes `__PAPER_JS__.view` is present or absent without effect. The redraw it triggers is omitted.
- `ToolManager.ToolManager.OnPathCreated` is a separate call, not something that runs from inside `finishDrawing`'s dispatch. The events it adds follow the `paper:path:created` record, in the same order as in the source.

## Findings

| source | as written | input that shows it | evidently intended | confidence | as-written member | corrected member |
|---|---|---|---|---|---|---|
| packages/extension/src/inject/index.ts:63-83 | `globalThis.__PAPER_SCOPE__.paperScope` is read unguarded before `tryCount++`. Without the global every tick throws, so `tryCount` never rises and `tryCount > MAX_TRIES` never becomes true. | a page that never defines `__PAPER_SCOPE__`: after any number of ticks `tryCount` is 0 and the interval is still armed | give up after `MAX_TRIES` like the other detectors, with the read guarded | not executed | ScopeRegistry.AbsentScopeNeverStops | ScopeRegistry.GuardedInjectStops |
| packages/extension/src/content/index.ts:45-49 | `DETECT_PAPER_JS` re-injects `paper-detection.js` while undetected. That script declares top-level `const`/`let`, so a second evaluation fails on the redeclaration and no new interval starts. | first interval gives up after 12 seconds; then paper.js appears and the panel retries: no `PAPER_JS_DETECTED` is ever sent | the retry restarts detection, as the closure form `index.js` does | not executed | Detection.RetryAfterTimeoutNeverDetects | Detection.RetryWithIifeDetects |
