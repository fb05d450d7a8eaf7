/** The floating panel's interaction controller: its state, one transition
    function per pointer handler, and the stateful object whose handlers are
    proved to perform exactly those transitions. */
module Controller {
  import opened Geometry

  /** Everything the controller keeps between events. */
  datatype Panel = Panel(
    pos: Point,                 // rendered as the panel's left/top
    isDragging: bool,           // window move/up listeners are attached
    agentVisible: bool,         // the agent panel is shown
    direction: Direction,       // side the agent panel grows towards
    dragStartOffset: Point,     // pointer minus panel corner at drag start
    hasDragged: bool)           // a move arrived since the last primary press

  /** The three states of the expansion machine. */
  datatype Expansion = Collapsed | ExpandedLeft | ExpandedRight

  function ExpansionOf(s: Panel): (e: Expansion)
  {
    if !s.agentVisible then Collapsed
    else if s.direction == Left then ExpandedLeft
    else ExpandedRight
  }

  /** Left edge of the base panel (model + chat). With the agent panel open to
      the left the base panel is laid out after it, AGENT_PANEL_WIDTH further right. */
  function AnchorLeft(s: Panel): (left: int)
  {
    if s.agentVisible && s.direction == Left then s.pos.x + AGENT_PANEL_WIDTH else s.pos.x
  }

  /** State right after mounting in a vw x vh viewport. */
  function Mounted(vw: int, vh: int): (s: Panel)
    ensures s.pos == InitialPosition(vw, vh)
    ensures ExpansionOf(s) == Collapsed && CurrentWidth(s.agentVisible) == PLUGIN_BASE_WIDTH
    ensures !s.isDragging && !s.hasDragged
  {
    Panel(InitialPosition(vw, vh), false, false, Right, Point(0, 0), false)
  }

  /** Primary-button press on the drag handle: starts a drag session. */
  function OnMouseDown(s: Panel, button: int, pointer: Point): (r: Panel)
    ensures button != 0 ==> r == s
    ensures button == 0 ==>
              r.isDragging && !r.hasDragged
              && Point(r.pos.x + r.dragStartOffset.x, r.pos.y + r.dragStartOffset.y) == pointer
              && r == s.(isDragging := r.isDragging, hasDragged := r.hasDragged,
                         dragStartOffset := r.dragStartOffset)
  {
    if button != 0 then s
    else s.(hasDragged := false,
            dragStartOffset := Point(pointer.x - s.pos.x, pointer.y - s.pos.y),
            isDragging := true)
  }

  /** Pointer move, observed only while a drag session has its listeners. */
  function OnMouseMove(s: Panel, pointer: Point): (r: Panel)
    ensures !s.isDragging ==> r == s
    ensures s.isDragging ==>
              r.hasDragged
              && Point(r.pos.x + r.dragStartOffset.x, r.pos.y + r.dragStartOffset.y) == pointer
              && r == s.(pos := r.pos, hasDragged := true)
  {
    if !s.isDragging then s
    else s.(hasDragged := true,
            pos := Point(pointer.x - s.dragStartOffset.x, pointer.y - s.dragStartOffset.y))
  }

  /** Pointer release, observed only while a drag session has its listeners:
      docks the panel against the current viewport and ends the session. */
  function OnMouseUp(s: Panel, vw: int, vh: int): (r: Panel)
    ensures !s.isDragging ==> r == s
    ensures s.isDragging ==>
              !r.isDragging && r == s.(pos := r.pos, isDragging := false)
              && r.pos == Dock(s.pos, CurrentWidth(s.agentVisible), vw, vh)
  {
    if !s.isDragging then s
    else s.(pos := Dock(s.pos, CurrentWidth(s.agentVisible), vw, vh), isDragging := false)
  }

  /** Click on the drag handle: ignored after a drag, otherwise toggles the
      agent panel, shifting the panel left on a leftward expansion and back on
      the matching collapse. */
  function OnClick(s: Panel, vw: int): (r: Panel)
    ensures s.hasDragged ==> r == s
    ensures !s.hasDragged ==>
              r.agentVisible == !s.agentVisible
              && AnchorLeft(r) == AnchorLeft(s)
              && r == s.(pos := s.pos.(x := r.pos.x), agentVisible := r.agentVisible,
                         direction := r.direction)
    ensures !s.hasDragged && !s.agentVisible ==> r.direction == ExpandDirection(s.pos.x, vw)
    ensures !s.hasDragged && s.agentVisible ==> r.direction == s.direction
  {
    if s.hasDragged then s
    else if !s.agentVisible then
      if ExpandDirection(s.pos.x, vw) == Left then
        s.(direction := Left, pos := s.pos.(x := s.pos.x - AGENT_PANEL_WIDTH), agentVisible := true)
      else
        s.(direction := Right, agentVisible := true)
    else if s.direction == Left then
      s.(pos := s.pos.(x := s.pos.x + AGENT_PANEL_WIDTH), agentVisible := false)
    else
      s.(agentVisible := false)
  }

  /** The controller as an object whose handlers update its fields in place. */
  class FloatingPanel {
    var position: Point
    var isDragging: bool
    var isAgentPanelVisible: bool
    var expansionDirection: Direction
    var dragStartOffset: Point
    var hasDragged: bool

    function State(): (p: Panel)
      reads this
    {
      Panel(position, isDragging, isAgentPanelVisible, expansionDirection, dragStartOffset, hasDragged)
    }

    /** Width the widget is rendered with. */
    function Width(): (w: int)
      reads this
      ensures w == PLUGIN_BASE_WIDTH || w == PLUGIN_BASE_WIDTH + AGENT_PANEL_WIDTH
      ensures isAgentPanelVisible <==> w == PLUGIN_BASE_WIDTH + AGENT_PANEL_WIDTH
    {
      CurrentWidth(isAgentPanelVisible)
    }

    /** Mounting, including the effect that moves the panel to the bottom right. */
    constructor (vw: int, vh: int)
      ensures State() == Mounted(vw, vh)
    {
      position := InitialPosition(vw, vh);
      isDragging := false;
      isAgentPanelVisible := false;
      expansionDirection := Right;
      dragStartOffset := Point(0, 0);
      hasDragged := false;
    }

    method MouseDown(button: int, pointer: Point)
      modifies this
      ensures State() == OnMouseDown(old(State()), button, pointer)
    {
      if button != 0 {
        return;
      }
      hasDragged := false;
      dragStartOffset := Point(pointer.x - position.x, pointer.y - position.y);
      isDragging := true;
    }

    method MouseMove(pointer: Point)
      modifies this
      ensures State() == OnMouseMove(old(State()), pointer)
    {
      if !isDragging {
        return;
      }
      if !hasDragged {
        hasDragged := true;
      }
      position := Point(pointer.x - dragStartOffset.x, pointer.y - dragStartOffset.y);
    }

    method MouseUp(vw: int, vh: int)
      modifies this
      ensures State() == OnMouseUp(old(State()), vw, vh)
    {
      if !isDragging {
        return;
      }
      position := Dock(position, Width(), vw, vh);
      isDragging := false;
    }

    method Click(vw: int)
      modifies this
      ensures State() == OnClick(old(State()), vw)
    {
      if hasDragged {
        return;
      }
      var nextVisible := !isAgentPanelVisible;
      if nextVisible {
        var spaceOnRight := vw - (position.x + PLUGIN_BASE_WIDTH);
        var spaceOnLeft := position.x;
        if spaceOnRight < AGENT_PANEL_WIDTH + DOCK_OFFSET && spaceOnLeft > AGENT_PANEL_WIDTH + DOCK_OFFSET {
          expansionDirection := Left;
          position := position.(x := position.x - AGENT_PANEL_WIDTH);
        } else {
          expansionDirection := Right;
        }
      } else if expansionDirection == Left {
        position := position.(x := position.x + AGENT_PANEL_WIDTH);
      }
      isAgentPanelVisible := nextVisible;
    }
  }

  // ---------------------------------------------------------------------------
  // Properties of single handlers

  /** A press with any button other than the primary one changes nothing. */
  lemma NonPrimaryPressIgnored(s: Panel, button: int, pointer: Point)
    requires button != 0
    ensures OnMouseDown(s, button, pointer) == s
  {
  }

  /** After a primary press at p, a move to q puts the panel where it was,
      displaced by q - p: the grab point stays under the pointer. In particular
      a move back to p restores the position. */
  lemma DragFollowsPointer(s: Panel, p: Point, q: Point)
    ensures OnMouseMove(OnMouseDown(s, 0, p), q).pos
            == Point(s.pos.x + (q.x - p.x), s.pos.y + (q.y - p.y))
    ensures OnMouseMove(OnMouseDown(s, 0, p), q).hasDragged
    ensures OnMouseMove(OnMouseDown(s, 0, p), p).pos == s.pos
  {
  }

  /** Moving is not clamped: while dragging, any target position, on screen or
      not, is reached by some pointer position. */
  lemma MoveIsUnclamped(s: Panel, target: Point)
    requires s.isDragging
    ensures OnMouseMove(s, Point(target.x + s.dragStartOffset.x, target.y + s.dragStartOffset.y)).pos
            == target
  {
  }

  /** Once a move has been seen, a click changes nothing. */
  lemma ClickAfterDragIgnored(s: Panel, vw: int)
    requires s.hasDragged
    ensures OnClick(s, vw) == s
  {
  }

  /** A click drives the three-state expansion machine: from Collapsed to the
      side chosen for the current position and viewport, and from either
      expanded state back to Collapsed. */
  lemma ClickTransitions(s: Panel, vw: int)
    requires !s.hasDragged
    ensures ExpansionOf(s) == Collapsed ==>
              ExpansionOf(OnClick(s, vw))
              == (if ExpandDirection(s.pos.x, vw) == Left then ExpandedLeft else ExpandedRight)
    ensures ExpansionOf(s) != Collapsed ==> ExpansionOf(OnClick(s, vw)) == Collapsed
    ensures CurrentWidth(OnClick(s, vw).agentVisible) - CurrentWidth(s.agentVisible)
            == (if s.agentVisible then -AGENT_PANEL_WIDTH else AGENT_PANEL_WIDTH)
  {
  }

  /** Expanding to the left moves the widget left by the agent panel's width;
      expanding to the right leaves it in place; y is never touched. */
  lemma ExpandShift(s: Panel, vw: int)
    requires !s.hasDragged && !s.agentVisible
    ensures OnClick(s, vw).pos.y == s.pos.y
    ensures OnClick(s, vw).pos.x
            == (if ExpandDirection(s.pos.x, vw) == Left then s.pos.x - AGENT_PANEL_WIDTH else s.pos.x)
  {
  }

  /** Scenario: 1920 px viewport, widget at x = 1600: grows left to x = 1200. */
  lemma ExpandLeftExample(s: Panel)
    requires !s.hasDragged && !s.agentVisible && s.pos.x == 1600
    ensures OnClick(s, 1920).direction == Left
    ensures OnClick(s, 1920).pos.x == 1200
  {
  }

  /** Collapsing undoes expanding: two click handlers with no event between
      them restore the whole state except the remembered growth direction,
      whatever the viewport width at the second click. In a real plain click a
      press and a release come first, and that release docks; see
      Gestures.PlainClickRoundTrip for when the round trip survives it. */
  lemma ExpandCollapseRoundTrip(s: Panel, vw1: int, vw2: int)
    requires !s.hasDragged && !s.agentVisible
    ensures OnClick(OnClick(s, vw1), vw2) == s.(direction := ExpandDirection(s.pos.x, vw1))
  {
  }

  /** A click never moves the base panel: the shift applied on a leftward
      expansion is exactly the room the agent panel takes on its left. */
  lemma ClickKeepsAnchor(s: Panel, vw: int)
    ensures AnchorLeft(OnClick(s, vw)) == AnchorLeft(s)
  {
  }

  /** Releasing with no session in progress changes nothing. Releasing a
      session ends it, keeps everything but the position, leaves x where it was
      or on one of the two docking lines, and brings y inside the vertical
      range (onto the top margin when that range is empty). */
  lemma ReleaseSettles(s: Panel, vw: int, vh: int)
    ensures !s.isDragging ==> OnMouseUp(s, vw, vh) == s
    ensures s.isDragging ==>
              var t := OnMouseUp(s, vw, vh);
              t == s.(pos := t.pos, isDragging := false)
              && (t.pos.x == s.pos.x || t.pos.x == DOCK_OFFSET
                  || t.pos.x + CurrentWidth(s.agentVisible) + DOCK_OFFSET == vw)
              && t.pos.y >= DOCK_OFFSET
              && (vh >= PLUGIN_HEIGHT + 2 * DOCK_OFFSET ==> t.pos.y <= vh - PLUGIN_HEIGHT - DOCK_OFFSET)
              && (vh < PLUGIN_HEIGHT + 2 * DOCK_OFFSET ==> t.pos.y == DOCK_OFFSET)
  {
  }
}
