# Floating assistant panel: geometry and interaction controller

This project models the controller of the floating assistant widget in
`components/VirtualAssistantPlugin.tsx`. The widget is a fixed-position panel:
350 px of model and chat, plus an optional 400 px agent panel. It is
600 px high. The user can drag it by its handle. On release it docks against
the viewport edges. A plain click on the handle opens or closes the agent
panel. The agent panel grows to the left when there are fewer than 416 px to
the right of the base panel and more than 416 px to its left. In that case the
widget shifts left by 400 px so that the base panel stays where it was.

Three modules, one per file:

- `Geometry` (`geometry.dfy`) holds the layout constants and pure functions.
  `CurrentWidth` gives the widget's width. `DockX`, `ClampY` and `Dock` give the
  docking rule. `ExpandDirection` picks the growth side. `InitialPosition` gives
  the mount position. Lemmas cover docking examples, idempotence and its exact
  limits.
- `Controller` (`controller.dfy`) holds the state of the component as a value,
  `Panel`. That is the position, the `isDragging` flag, the agent-panel
  visibility, the growth direction, and the two refs (`dragStartOffset`,
  `hasDragged`). There is one transition function per handler: `OnMouseDown`,
  `OnMouseMove`, `OnMouseUp` and `OnClick`. The class `FloatingPanel` keeps the
  same state in mutable fields. Each of its handler methods is proved to update
  the fields exactly as the matching transition function says. Lemmas state
  each handler's promises.
- `Gestures` (`gestures.dfy`) feeds sequences of events to the controller.
  `Run` handles the events in order. The lemmas describe whole gestures: a drag
  (press, one or more moves, release, click), a plain click (press, release,
  click), and the expand/collapse round trip made of two plain clicks.

Abstractions:

- The viewport size (`window.innerWidth`/`innerHeight`) is a parameter of the
  handler that reads it. In traces it is carried by the `Up` and `Click` events.
- The panel's bounding-box corner is taken to be `position`, because the panel
  is `position: fixed` at `left: x`, `top: y`.
- `offsetWidth` is taken to be `CurrentWidth(isAgentPanelVisible)`.
- Pixel coordinates are unbounded integers.
- The window `mousemove`/`mouseup` listeners exist only while `isDragging` is
  set. A move or release that arrives while no drag is in progress therefore
  changes nothing.

Behaviour of the code worth knowing:

- A plain click (press and release with no move) also docks the panel. The
  release handler runs on every release of a session, moved or not.
  `Gestures.ClickGesture` states it: the position is docked first, then the
  agent panel is toggled.
- Docking is idempotent in y always, but not idempotent in x in general. A
  second docking moves the widget exactly when the first one snapped it right
  to a spot `vw - width - 16` that is under 150 and is not 16.
  `Geometry.DockXIdempotentIff` gives this exact condition.
  `Geometry.DockNotIdempotentWhenNarrow` gives a concrete case: a 900 px
  viewport with the agent panel open.
- Expanding and then collapsing with two click handlers and no event between
  restores everything but the remembered growth direction
  (`Controller.ExpandCollapseRoundTrip`). Two plain clicks need not restore
  even the position: the second release docks the expanded widget at
  750 px. `Gestures.PlainClickRoundTrip` gives the condition: starting from a
  settled position, the position comes back exactly when the expanded position
  is settled at 750 px. `Gestures.PlainClickRoundTripCounterexamples` gives a
  rightward case ending at 1154 instead of 1100, and a leftward case in a
  900 px viewport ending at 416 instead of 534.
- When the vertical range is empty (viewport under 632 px), the lower bound
  wins. `Math.max` is applied last, so y settles at 16.

## Model

| member | source | states |
|---|---|---|
| `Geometry.CurrentWidth` | components/VirtualAssistantPlugin.tsx:111 | the width is the base width, grown by exactly the agent-panel width if and only if the agent panel is shown |
| `Geometry.DockX` | components/VirtualAssistantPlugin.tsx:56-63 | inside the 150 px left zone x snaps to the 16 px margin; otherwise, if the right edge reaches into the right zone, the widget ends flush 16 px from the right edge; in the interior x is unchanged |
| `Geometry.ClampY` | components/VirtualAssistantPlugin.tsx:65-68 | y is at least 16 and, when vh >= 632, at most vh - 616; it is exactly 16 when that range is empty; a y already in range is kept; the result is y or one of the two bounds |
| `Geometry.Dock` | components/VirtualAssistantPlugin.tsx:54-71 | the settled position docks x and y separately; x stays put or lands on the left margin or flush right; y is at least 16; a position in the interior and in the vertical range is kept |
| `Geometry.ExpandDirection` | components/VirtualAssistantPlugin.tsx:92-95 | growing left happens only when the agent panel then stays more than 16 px inside the left edge and there is not room for it plus the margin on the right; growing right means there is room on the right or not enough on the left |
| `Geometry.ExpandDirectionIff` | components/VirtualAssistantPlugin.tsx:92-95 | the panel grows left exactly when the space on the right is under 416 and the space on the left is over 416 |
| `Geometry.InitialPosition` | components/VirtualAssistantPlugin.tsx:23-27 | the mounted widget sits flush 16 px from the right edge, never above the top margin, and 16 px above the bottom edge when the viewport is at least 632 px high |
| `Geometry.DockExamples` | components/VirtualAssistantPlugin.tsx:59-68 | releasing at x = 10 gives x = 16; releasing at y = -50 in an 800 px viewport gives y = 16 |
| `Geometry.ClampYIdempotent` | components/VirtualAssistantPlugin.tsx:65-68 | vertical docking applied to its own result changes nothing, for every viewport height |
| `Geometry.DockXIdempotent` | components/VirtualAssistantPlugin.tsx:59-63 | horizontal docking applied to its own result changes nothing when vw - width - 16 >= 150 |
| `Geometry.DockXIdempotentIff` | components/VirtualAssistantPlugin.tsx:59-63 | a second horizontal docking moves the widget exactly when the first one snapped right to a spot inside the left zone other than 16 |
| `Geometry.DockNotIdempotentWhenNarrow` | components/VirtualAssistantPlugin.tsx:59-63 | with a 750 px wide widget in a 900 px viewport, a release at x = 200 gives 134, and a release at 134 gives 16 |
| `Geometry.DockIdempotent` | components/VirtualAssistantPlugin.tsx:54-70 | the settled position is a fixed point of docking whenever the viewport is wide enough for the width |
| `Geometry.InitialPositionIsDocked` | components/VirtualAssistantPlugin.tsx:23-27 | the mount position is already a settled position of the collapsed widget when vw >= 516 |
| `Controller.Mounted` | components/VirtualAssistantPlugin.tsx:13-27 | after mounting the panel is at the initial position, collapsed at the base width, with no drag session and the drag flag clear |
| `Controller.OnMouseDown` | components/VirtualAssistantPlugin.tsx:29-40 | a non-primary press changes nothing; a primary press starts a session, clears the drag flag and records the grab offset so that position plus offset is the pointer, changing nothing else |
| `Controller.OnMouseMove` | components/VirtualAssistantPlugin.tsx:44-51 | outside a session nothing changes; during one the drag flag is set and the position moves so that position plus grab offset is the pointer, changing nothing else |
| `Controller.OnMouseUp` | components/VirtualAssistantPlugin.tsx:53-83 | outside a session nothing changes; during one the session ends and only the position changes, to the docked position for the current width and viewport |
| `Controller.OnClick` | components/VirtualAssistantPlugin.tsx:85-109 | after a drag nothing changes; otherwise visibility flips, the base panel stays where it is on screen, only x, visibility and direction change, the direction is chosen fresh on expanding and kept on collapsing |
| `Controller.FloatingPanel.Width` | components/VirtualAssistantPlugin.tsx:111 | the rendered width is 350 or 750, and 750 exactly when the agent panel is visible |
| `Controller.FloatingPanel.constructor` | components/VirtualAssistantPlugin.tsx:13-27 | after mounting the panel sits at the initial position, collapsed, growing right, with no drag in progress |
| `Controller.FloatingPanel.MouseDown` | components/VirtualAssistantPlugin.tsx:29-40 | the new state is the press transition of the old one: nothing changes for a non-primary button; otherwise the drag flag is cleared, the grab offset is recorded and a drag session starts |
| `Controller.FloatingPanel.MouseMove` | components/VirtualAssistantPlugin.tsx:44-51 | the new state is the move transition: during a session the position becomes pointer minus grab offset and the drag flag is set; outside one nothing changes |
| `Controller.FloatingPanel.MouseUp` | components/VirtualAssistantPlugin.tsx:53-83 | the new state is the release transition: during a session the position is docked for the current width and viewport and the session ends; outside one nothing changes |
| `Controller.FloatingPanel.Click` | components/VirtualAssistantPlugin.tsx:85-109 | the new state is the click transition: nothing after a drag; otherwise the agent panel toggles, with a left shift on a leftward expansion and the reverse shift on collapse |
| `Controller.NonPrimaryPressIgnored` | components/VirtualAssistantPlugin.tsx:30 | a press with a button other than the primary one leaves the whole state unchanged |
| `Controller.DragFollowsPointer` | components/VirtualAssistantPlugin.tsx:31-50 | after a primary press at p, a move to q displaces the panel by exactly q - p and marks the gesture as a drag; moving back to p restores the position |
| `Controller.MoveIsUnclamped` | components/VirtualAssistantPlugin.tsx:44-50 | while dragging, every target position, including off-screen ones, is reached by some pointer position |
| `Controller.ClickAfterDragIgnored` | components/VirtualAssistantPlugin.tsx:86 | a click after a move leaves position, visibility, direction and everything else unchanged |
| `Controller.ClickTransitions` | components/VirtualAssistantPlugin.tsx:88-108 | a click moves Collapsed to ExpandedLeft or ExpandedRight as the direction rule says, and either expanded state to Collapsed; the width changes by +400 or -400 accordingly |
| `Controller.ExpandShift` | components/VirtualAssistantPlugin.tsx:90-100 | expanding left moves x by -400, expanding right keeps x, and y never changes |
| `Controller.ExpandLeftExample` | components/VirtualAssistantPlugin.tsx:92-97 | at x = 1600 in a 1920 px viewport the panel grows left and x becomes 1200 |
| `Controller.ExpandCollapseRoundTrip` | components/VirtualAssistantPlugin.tsx:88-108 | two click handlers with no event between, expanding then collapsing, restore the whole state apart from the remembered direction, whatever the viewport width at the second click |
| `Controller.ClickKeepsAnchor` | components/VirtualAssistantPlugin.tsx:95-112 | no click ever moves the base panel on screen: the leftward shift equals the room the agent panel takes on its left |
| `Controller.ReleaseSettles` | components/VirtualAssistantPlugin.tsx:53-73 | a release outside a session is a no-op; a release during one ends it, changes only the position, leaves x unchanged or on a docking line, and brings y into the vertical range |
| `Gestures.MovesTrackPointer` | components/VirtualAssistantPlugin.tsx:44-50 | during a session any non-empty run of moves leaves the panel at the last pointer minus the grab offset, sets the drag flag and changes nothing else |
| `Gestures.DragGesture` | components/VirtualAssistantPlugin.tsx:29-86 | press, at least one move, release and click settle the panel at the docked last live position; the session ends and the expansion state is untouched |
| `Gestures.ClickGesture` | components/VirtualAssistantPlugin.tsx:53-109 | press, release and click dock the current position first, then toggle the expansion state exactly once |
| `Gestures.ExpandedPositionIsClick` | components/VirtualAssistantPlugin.tsx:88-100 | the position used in the plain-click round trip is the one the click handler gives a collapsed widget with no drag before the click |
| `Gestures.PlainClickRoundTrip` | components/VirtualAssistantPlugin.tsx:53-109 | from a settled collapsed position two plain clicks end collapsed, and restore the position if and only if the expanded position is settled at 750 px |
| `Gestures.PlainClickRoundTripCounterexamples` | components/VirtualAssistantPlugin.tsx:53-109 | two plain clicks from (1100, 300) at 1920 x 1080 end at (1154, 300); from the mount position at 900 px wide they end at x = 416, not 534 |
| `Gestures.RightDockedRoundTrip` | components/VirtualAssistantPlugin.tsx:23-109 | from the mount position with vw >= 916, one plain click grows the panel left while it stays flush right; a second plain click restores the mount position, collapsed |

## Left out

- The window listener attach and detach in the drag effect (lines 75-82) are
  not modelled as listeners. They appear only as the `isDragging` gate on move
  and release.
- React's render cycle, state batching and updater functions are not
  modelled. Each handler is one atomic step on the current state.
- The first render at `{x: 0, y: 0}`, before the mount effect runs, is not
  modelled. The constructor yields the state after that effect.
- The `?? PLUGIN_BASE_WIDTH` fallback for an unmounted element at line 55 is
  not modelled, because the element is always mounted while it handles events.
- The 300 ms CSS `transition-all` (line 117) is not modelled. It animates
  `width`, `left` and `top`. During the animation `offsetWidth` can read an
  intermediate width. A press within 300 ms of a docking or of a leftward shift
  can also read an intermediate `getBoundingClientRect()` corner, where the
  model uses the target position.
- Pointer coordinates are integers. Sub-pixel float coordinates are not
  modelled.
- Styling, borders, cursors and the flex order are not modelled, apart from
  the base panel's on-screen position (`AnchorLeft`).
- `components/VirtualAssistant.tsx`, `components/AgentSearchPanel.tsx`,
  `components/CharacterModelPlaceholder.tsx` and `App.tsx` are not part of
  this model. They are a network chat client, a form with a timed status
  flip, and static markup.
