# State diagram renderer: bookkeeping and geometry

This project models the state-diagram renderer `src/diagrams/state/stateRenderer.js`. The renderer draws each state of a parsed state diagram as an SVG group. It records the state's id, label and measured size in a module-level identity cache and hands that record to a layout algorithm. It then joins the states with numbered edges. The model covers the parts of this work that are decided by the renderer itself:

- **Module state** (`StateRenderer.RenderState`). This class holds:
  - the identity cache `idCache`, a map with its keys kept in insertion order;
  - the counters `stateCnt`, `total` and `edgeCount`.

  Nothing in the renderer ever clears this state, so every `draw` call inherits the entries and the edge numbers of earlier calls. The model reproduces this.
- **Label lookup** (`getGraphId`). A loop over the cache keys that returns early. It is specified by the function `FindByLabel`: the first key, in key order, whose entry carries the label, or `None` for JavaScript's `undefined`.
- **`drawState`**. The four independent guards on the state type select one drawing (`NodeShapes.Dispatch`). The method then stores the sized entry and counts the state.
- **Drawing formulas** (`NodeShapes`, `Geometry`). All are formulas over the renderer's `conf` (padding 5, divider margin 10, text height 10):
  - the start marker, and the end marker's ring and dot;
  - the simple state's label and frame;
  - the described state's title, description tspans, divider and frame;
  - the node size;
  - the edge label's backing box;
  - the node translate;
  - the viewBox.
- **`drawEdge`** (`Edges`, `RenderState.DrawEdge`). It drops the points whose `y` is NaN and names the path `edge<N>` from the counter. It attaches the `url(#dependencyEnd)` marker and adds a label box when the relation has a title.
- **`draw`** (`RenderState.Draw`). It draws and registers the states, resolves each relation's endpoints by label, and applies a translate to each laid-out node. It then draws the laid-out edges and sets the viewBox.

Every measurement (`getBBox`), the layout algorithm and the label placement are function parameters of the model:

| parameter | stands for |
|---|---|
| `measure` | the `getBBox` measurements of a state's drawing |
| `layout` | the layout algorithm (`dagre.layout` over the graphlib graph) |
| `labelPosition` | `utils.calcLabelPosition` |
| `measureLabel` | the `getBBox` of an edge label |

Modelling choices:

- JavaScript numbers are modelled as reals.
- A point coordinate is either `NaN` or a number.
- `Object.keys(idCache)` is modelled as insertion order.

## Model

| member | source | states |
|---|---|---|
| Geometry.NodeSize | src/diagrams/state/stateRenderer.js:331-334 | a node's stored size is its measured group box grown by the padding on every side: width and height exceed the box by exactly 2 * padding |
| Geometry.EdgeLabelBox | src/diagrams/state/stateRenderer.js:276-281 | the label's backing rectangle is its measured bounds grown by padding/2 on every side; it contains the bounds with that equal margin on all four sides, and shrinking it by padding/2 gives the bounds back |
| Geometry.NodeTranslate | src/diagrams/state/stateRenderer.js:414-421 | a node of the laid-out size, placed at the translate offset, has its centre exactly at the layout's (x, y) |
| Geometry.NodeTranslateUnique | src/diagrams/state/stateRenderer.js:414-421 | the translate offset is the only offset that centres the node on its layout position |
| Geometry.ViewBox | src/diagrams/state/stateRenderer.js:433 | the viewBox starts at the origin and exceeds the laid-out graph's width and height by the margin 20 |
| Geometry.ViewBoxCovers | src/diagrams/state/stateRenderer.js:433 | anything inside the graph's extent is inside the viewBox, with at least 20 to spare on the right and at the bottom |
| NodeShapes.Dispatch | src/diagrams/state/stateRenderer.js:325-329 | the branch selected satisfies its guard; any branch whose guard holds is the one selected; no branch is selected exactly when the type is none of start, end and default |
| NodeShapes.Guard | src/diagrams/state/stateRenderer.js:325-329 | the condition of each of the four `if`s; a guard only ever holds for the types start, end and default |
| NodeShapes.GuardsExclusive | src/diagrams/state/stateRenderer.js:325-329 | no two of the four guards hold for the same state |
| NodeShapes.SequentialDispatch | src/diagrams/state/stateRenderer.js:325-329 | running the four `if`s one after the other draws exactly the drawing of the selected branch, or nothing when no branch is selected, so at most one drawing is made |
| NodeShapes.Render | src/diagrams/state/stateRenderer.js:325-329 | each drawing routine draws its own kind of content and nothing else: the start marker is `StartDot`, the end marker is `EndRing` with `EndDot`, the simple state is `SimpleLabelText` of its id in `SimpleFrame`, and the described state is `DescribedState` with `Tspans` of its descriptions, so the geometry each branch draws is fixed by those members' contracts |
| NodeShapes.DrawnContents | src/diagrams/state/stateRenderer.js:325-329 | the four guarded calls run one after the other draw exactly the one drawing of a branch whose guard holds, and nothing when no guard holds |
| NodeShapes.DrawContents | src/diagrams/state/stateRenderer.js:325-329 | the four sequential guarded calls produce the drawing that `SequentialDispatch` characterises |
| NodeShapes.StartDot | src/diagrams/state/stateRenderer.js:108-115 | the start marker is a black circle whose bounds are the 10 by 10 square at (padding, padding) |
| NodeShapes.EndRing | src/diagrams/state/stateRenderer.js:194-200 | the end marker's ring is white and its bounds are the 14 by 14 square at (padding, padding) |
| NodeShapes.EndDot | src/diagrams/state/stateRenderer.js:202-208 | the end marker's dot is black, has the start dot's radius, is concentric with the ring and smaller than it, and its bounds sit inside the ring's with a margin of 2 on every side |
| NodeShapes.SimpleFrame | src/diagrams/state/stateRenderer.js:128-133 | the simple state's frame is anchored at (padding, padding), with the width and height of the label's box grown by the padding |
| NodeShapes.SimpleLabelText | src/diagrams/state/stateRenderer.js:120-125 | the simple state's text shows the state id in font size 24 at (2 * padding, text height + 2 * padding) |
| NodeShapes.SimpleFrameContains | src/diagrams/state/stateRenderer.js:120-133 | the frame contains the measured label box exactly when that box starts between padding and 3 * padding on both axes |
| NodeShapes.SimpleFrameSurrounds | src/diagrams/state/stateRenderer.js:120-133 | the frame surrounds the label box with an equal margin of padding exactly when the box starts at (2 * padding, 2 * padding) |
| NodeShapes.AddTspans | src/diagrams/state/stateRenderer.js:143-151 | one tspan is produced per description |
| NodeShapes.TspanFor | src/diagrams/state/stateRenderer.js:143-151 | one description's tspan shows that description at x = 2 * padding; it has no dy exactly when it is the first, and otherwise dy = text height |
| NodeShapes.AddTspansAt | src/diagrams/state/stateRenderer.js:143-151 | the i-th tspan is the one made for the i-th description, and it is marked first only when i is 0 and the flag was set |
| NodeShapes.TspansShape | src/diagrams/state/stateRenderer.js:143-173 | one tspan per description, in input order, each with that description's text at x = 2 * padding; the first has no dy and every later one has dy = text height |
| NodeShapes.BuildTspans | src/diagrams/state/stateRenderer.js:169-173 | the loop that carries the `isFirst` flag builds exactly the tspan list `TspansShape` describes |
| NodeShapes.DrawDescrState | src/diagrams/state/stateRenderer.js:142-193 | the described state's drawing (title, description text with its tspans, divider and frame) is the described branch's drawing |
| NodeShapes.DescribedState | src/diagrams/state/stateRenderer.js:152-190 | the described drawing shows the id as a font-size-24 title at (2 * padding, text height + 1.5 * padding); its description text, with no font size, sits at (padding, title height + 0.2 * padding + divider margin + text height) and carries the given tspans; the divider is horizontal at y = padding + title height + divider margin / 2; the frame is at (padding, padding) with the description box's width grown by the padding and the title height plus the grown description box's height |
| NodeShapes.DividerSpansFrame | src/diagrams/state/stateRenderer.js:175-190 | the divider is horizontal, runs from the frame's left edge to its right edge, lies above the description text and, for non-negative measured heights, strictly inside the frame |
| NodeShapes.DescribedFrameSize | src/diagrams/state/stateRenderer.js:181-190 | the frame's width depends only on the description block's width, whatever the titles (a title wider than the descriptions is not accounted for); its height differs by exactly the difference in title heights plus the difference in description heights, so with equal titles a taller description block gives a taller frame |
| Edges.SanitizePoints | src/diagrams/state/stateRenderer.js:225 | the filtered polyline is no longer than the input and every point left has a numeric y |
| Edges.SanitizeMembership | src/diagrams/state/stateRenderer.js:225 | a point is kept exactly when it was in the input and its y is not NaN |
| Edges.SanitizeAppend | src/diagrams/state/stateRenderer.js:225 | filtering a concatenation filters each part and keeps them in order, so the input order is preserved |
| Edges.SanitizeSubMultiset | src/diagrams/state/stateRenderer.js:225 | the filter never adds or duplicates a point: the result is a sub-multiset of the input |
| Edges.SanitizeClean | src/diagrams/state/stateRenderer.js:225 | a polyline with no NaN y is left unchanged |
| Edges.SanitizeIdempotent | src/diagrams/state/stateRenderer.js:225 | filtering twice is the same as filtering once |
| Edges.NatToString | src/diagrams/state/stateRenderer.js:244 | the counter's decimal rendering is a non-empty string of digits |
| Edges.NatToStringCanonical | src/diagrams/state/stateRenderer.js:244 | the rendering has no leading zero: it starts with 0 exactly when the counter is 0, and the counter 0 is rendered as the single digit `0`; with `DecimalRoundTrip` it is the standard decimal numeral |
| Edges.DecimalRoundTrip | src/diagrams/state/stateRenderer.js:244 | reading the decimal rendering back gives the counter value |
| Edges.EdgeId | src/diagrams/state/stateRenderer.js:244 | the id is the prefix `edge` followed by the decimal rendering of the counter |
| Edges.EdgeIdInjective | src/diagrams/state/stateRenderer.js:244 | different counter values give different `edge<N>` ids |
| Edges.RelationTypeName | src/diagrams/state/stateRenderer.js:212-223 | each relation kind maps to a non-empty marker-name stem |
| Edges.MarkerEnd | src/diagrams/state/stateRenderer.js:246-261 | the marker reference every edge gets is `url(#dependencyEnd)`, which names the one marker `insertMarkers` defines |
| Edges.EdgeDrawing | src/diagrams/state/stateRenderer.js:225-281 | the edge drawn with counter n has id `edge<n>`, is drawn through exactly the filtered points, and has the dependency marker; it has a label exactly when the relation has a title; the label shows the title, is anchored at `labelPosition` of the filtered points, and its backing box is `EdgeLabelBox` of the measured label bounds, which surrounds them with margin padding/2 |
| StateRenderer.NodeInfo | src/diagrams/state/stateRenderer.js:312-334 | the entry is keyed and labelled by the state's id, and its size is the measured group box plus 2 * padding on each axis |
| StateRenderer.FindByLabel | src/diagrams/state/stateRenderer.js:26-36 | a key that is returned is listed and cached with that label; nothing is returned exactly when no listed entry carries the label |
| StateRenderer.FindByLabelFirst | src/diagrams/state/stateRenderer.js:29-33 | when several entries carry the label, the first in key order is returned |
| StateRenderer.FindOwnLabel | src/diagrams/state/stateRenderer.js:26-36 | in a cache whose entries are labelled by their own keys, every key resolves to itself |
| StateRenderer.Infos | src/diagrams/state/stateRenderer.js:376-384 | one layout-graph node per state, in order: the j-th is `NodeInfo` of the j-th state and its measured group box, so it is keyed and labelled by the state's id and sized by its box |
| StateRenderer.DrawnNodes | src/diagrams/state/stateRenderer.js:376-384 | one drawn group per state, in order: the j-th is `DrawnNodeOf` of the j-th state and its measurements |
| StateRenderer.ResolveRelations | src/diagrams/state/stateRenderer.js:400-404 | one layout-graph edge per relation |
| StateRenderer.ResolveEdge | src/diagrams/state/stateRenderer.js:401-404 | the edge registered for a relation carries the relation and width 38; each endpoint, when present, is a cached key whose entry carries the relation's endpoint label, and is absent exactly when no listed entry carries that label |
| StateRenderer.NodeTransforms | src/diagrams/state/stateRenderer.js:411-423 | at most one transform per laid-out node |
| StateRenderer.TransformOf | src/diagrams/state/stateRenderer.js:414-421 | the transform of a node with a record targets that node and centres a box of the laid-out size on the laid-out position |
| StateRenderer.NodeTransformsExactly | src/diagrams/state/stateRenderer.js:411-423 | a transform is applied exactly for the laid-out nodes that have a record, and each one centres its node on the position the layout gave it |
| StateRenderer.NodeTransformsAppend | src/diagrams/state/stateRenderer.js:411-423 | the transforms follow the graph's node order |
| StateRenderer.EdgesDrawing | src/diagrams/state/stateRenderer.js:424-429 | one edge is drawn per edge record the layout returns, and the j-th is named `edge<n + j>` |
| StateRenderer.EdgesDrawingAppend | src/diagrams/state/stateRenderer.js:424-429 | drawing the records of `a + b` draws those of `a` and then those of `b`, numbered on from where `a` stopped |
| StateRenderer.EdgesDrawingOne | src/diagrams/state/stateRenderer.js:424-429 | a single record draws exactly the edge `EdgeDrawing` gives for it with the current counter, and a record-less entry draws nothing; with `EdgesDrawingAppend` this gives each drawn edge as `drawEdge` of its record |
| StateRenderer.EdgeIdsDistinct | src/diagrams/state/stateRenderer.js:244-301 | within one pass, no two drawn edges share an id |
| StateRenderer.EdgeIdsAcrossPasses | src/diagrams/state/stateRenderer.js:346-348 | since `draw` never resets the edge counter, a later pass never reuses an id of an earlier pass |
| StateRenderer.Store | src/diagrams/state/stateRenderer.js:336 | storing an entry adds exactly its id to the cache with that entry and changes no other entry; a new id is appended at the end of the key order, and a re-stored key keeps its place |
| StateRenderer.StoreAll | src/diagrams/state/stateRenderer.js:376-384 | storing the states' entries one after the other adds exactly their ids to the cache keys and never drops or moves a key |
| StateRenderer.StoreAllLast | src/diagrams/state/stateRenderer.js:336 | an id stored several times keeps the last entry stored under it |
| StateRenderer.StoreAllUntouched | src/diagrams/state/stateRenderer.js:336 | an id that is never stored keeps the entry it had |
| StateRenderer.StoreEffect | src/diagrams/state/stateRenderer.js:312-337 | storing one entry built by `drawState` into a valid cache keeps the cache invariant for one more counted state (keys listed once, entries keyed and labelled by their ids, no more entries than states counted); it adds exactly the entry's id with that entry, changes no other entry, keeps earlier keys in place, and afterwards the id resolves to itself |
| StateRenderer.ValidResolves | src/diagrams/state/stateRenderer.js:26-36 | in a cache meeting the invariant, every cached id resolves to itself |
| StateRenderer.ValidFind | src/diagrams/state/stateRenderer.js:26-36 | in a cache meeting the invariant, a label lookup finds nothing exactly when no cached entry carries the label |
| StateRenderer.RenderState.constructor | src/diagrams/state/stateRenderer.js:11-15 | when the module is loaded, the cache is empty and all three counters are 0 |
| StateRenderer.RenderState.GetGraphId | src/diagrams/state/stateRenderer.js:26-36 | the loop with its early return computes `FindByLabel`: a returned key's entry carries the label, and `None` comes back exactly when no cached entry carries it |
| StateRenderer.RenderState.DrawState | src/diagrams/state/stateRenderer.js:309-339 | draws the selected branch, builds the sized entry, and leaves the cache as `Store` of the old cache with that entry (one entry written, no other changed, a re-stored key keeping its place); counts the state once; keeps the invariant |
| StateRenderer.RenderState.DrawStates | src/diagrams/state/stateRenderer.js:376-396 | draws every state in order, hands `Infos` to the layout graph, stores them one after the other, and counts each state; keeps the invariant |
| StateRenderer.RenderState.RegisterEdges | src/diagrams/state/stateRenderer.js:399-409 | each relation's edge carries the label lookups of both endpoints, `None` included, and the relation with width 38 |
| StateRenderer.RenderState.DrawEdge | src/diagrams/state/stateRenderer.js:211-302 | the edge drawn is `EdgeDrawing` for the current counter value, and the counter goes up by one |
| StateRenderer.RenderState.DrawEdges | src/diagrams/state/stateRenderer.js:424-429 | draws the laid-out edges that have a record, in order, numbered on from the current counter, which advances by the number drawn |
| StateRenderer.RenderState.Draw | src/diagrams/state/stateRenderer.js:346-434 | `total` is the number of states and every state is drawn, stored and counted. Each state's id and each id cached by an earlier call resolves to itself. The layout graph holds the states' entries and the resolved relations. Transforms, edges and viewBox follow the layout's result, and edge numbering continues from earlier calls |

## Left out

- d3 DOM construction: the `append`, `insert`, `attr` and `style` calls. So are the class and style attributes, the `rx` corner radius, the text fill colours and the drawing's `height`/`width` of `100%`. Only the geometry and the ids are modelled.
- `getBBox` measurements are inputs (`Measures`, `measureLabel`). Nothing relates a measured box to the text that was drawn.
- The layout algorithm is the `layout` parameter, together with graphlib's graph construction:
  - graphlib collapses duplicate edges when `multigraph` is false;
  - graphlib creates a node for an endpoint it has not seen.

  The model hands the layout every registered edge and reads back whatever nodes and edge records it returns.
- `StateRenderer.RenderState.Draw`: the layout is a function of the graph it is given. The model does not state that the layout's nodes are the registered states.
- The `d3.curveBasis` path string through the filtered points is left out. This is floating-point spline output from a library.
- `utils.calcLabelPosition` is the `labelPosition` parameter. `utils` is not part of this model.
- The `arrowMarkerAbsolute` branch that builds the marker URL from `window.location` is not modelled. It needs browser state, and it can never run: `conf` never sets the flag and `setConf` does nothing.
- `setConf` itself is a no-op.
- `insertMarkers` is modelled only through the marker id `dependencyEnd` that the edges refer to. Its path and its size attributes are DOM output.
- `drawStart` is left out. It is never called. It also refers to variables that are not defined in the file.
- Logging, `console` calls, the parser and `stateDb` (`clear`, `parse`, `getStates`, `getRelations`) are left out. The states and relations are inputs to `Draw`.
- `Object.keys` lists integer-like keys first in numeric order. The model uses plain insertion order for both the state map and `idCache`.
- JavaScript number precision and the 2^53 limit of the edge counter are not modelled. This is because numbers are reals and the counter is unbounded.
- The filtered points are written back into the layout's edge record (`path.points = ...`). The model returns them in the drawn edge instead, because nothing in the renderer reads the record again.
- The `typeof v !== 'undefined'` and `typeof e !== 'undefined'` tests are not modelled. graphlib's node and edge lists never contain `undefined`. Only the test on the record is modelled, as `Option`.
- The renderer does not reset `idCache`, `stateCnt` or `edgeCount` between calls to `draw`. A state id cached by an earlier diagram therefore still resolves in a later one: `Draw` states this in the clause about ids from earlier calls.
