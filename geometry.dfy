/** Panel geometry of the floating assistant widget: the fixed layout constants,
    the width of the widget, the docking rule applied when a drag is released,
    and the rule that picks the side the agent panel grows towards.
    Pixel coordinates are integers; the viewport size is always passed in,
    read at the moment it is used. */
module Geometry {

  const PLUGIN_BASE_WIDTH := 350  // model + chat
  const AGENT_PANEL_WIDTH := 400  // the expandable agent panel
  const DOCK_OFFSET := 16         // margin kept from a screen edge
  const DOCK_ZONE_WIDTH := 150    // distance from an edge that triggers docking
  const PLUGIN_HEIGHT := 600      // fixed height of the widget

  /** Top-left corner of the widget in viewport pixels. */
  datatype Point = Point(x: int, y: int)

  /** The side towards which the agent panel grows. */
  datatype Direction = Left | Right

  /** Width of the whole widget: the base panel, plus the agent panel when shown. */
  function CurrentWidth(agentVisible: bool): (w: int)
    ensures w >= PLUGIN_BASE_WIDTH
    ensures agentVisible <==> w > PLUGIN_BASE_WIDTH
    ensures w - PLUGIN_BASE_WIDTH <= AGENT_PANEL_WIDTH
    ensures agentVisible ==> w - PLUGIN_BASE_WIDTH == AGENT_PANEL_WIDTH
  {
    PLUGIN_BASE_WIDTH + (if agentVisible then AGENT_PANEL_WIDTH else 0)
  }

  /** Horizontal docking: inside the left zone the widget snaps to the left
      margin; otherwise, when its right edge reaches into the right zone, it
      snaps flush against the right margin; in between it stays where it is. */
  function DockX(x: int, width: int, vw: int): (r: int)
    ensures x < DOCK_ZONE_WIDTH ==> r == DOCK_OFFSET
    ensures x >= DOCK_ZONE_WIDTH && x + width > vw - DOCK_ZONE_WIDTH ==>
              r + width + DOCK_OFFSET == vw
    ensures x >= DOCK_ZONE_WIDTH && x + width <= vw - DOCK_ZONE_WIDTH ==> r == x
  {
    var targetX :=
      if x < DOCK_ZONE_WIDTH then DOCK_OFFSET
      else if x + width > vw - DOCK_ZONE_WIDTH then vw - width - DOCK_OFFSET
      else x;
    targetX
  }

  /** Vertical clamping to [DOCK_OFFSET, vh - PLUGIN_HEIGHT - DOCK_OFFSET]; the
      lower bound is applied last, so it wins when the range is empty. */
  function ClampY(y: int, vh: int): (r: int)
    ensures r >= DOCK_OFFSET
    ensures vh >= PLUGIN_HEIGHT + 2 * DOCK_OFFSET ==> r <= vh - PLUGIN_HEIGHT - DOCK_OFFSET
    ensures vh < PLUGIN_HEIGHT + 2 * DOCK_OFFSET ==> r == DOCK_OFFSET
    ensures DOCK_OFFSET <= y <= vh - PLUGIN_HEIGHT - DOCK_OFFSET ==> r == y
    ensures y < DOCK_OFFSET ==> r == DOCK_OFFSET
    ensures vh >= PLUGIN_HEIGHT + 2 * DOCK_OFFSET && y > vh - PLUGIN_HEIGHT - DOCK_OFFSET ==>
              r == vh - PLUGIN_HEIGHT - DOCK_OFFSET
    ensures r == y || r == DOCK_OFFSET || r == vh - PLUGIN_HEIGHT - DOCK_OFFSET
  {
    Max(DOCK_OFFSET, Min(y, vh - PLUGIN_HEIGHT - DOCK_OFFSET))
  }

  function Max(a: int, b: int): (m: int) { if a >= b then a else b }

  function Min(a: int, b: int): (m: int) { if a <= b then a else b }

  /** The settled position computed when a drag is released: each axis is
      docked on its own, x against the side zones and y into the vertical range.
      A position already in the interior and in range is kept. */
  function Dock(pos: Point, width: int, vw: int, vh: int): (r: Point)
    ensures r.x == DockX(pos.x, width, vw) && r.y == ClampY(pos.y, vh)
    ensures r.x == pos.x || r.x == DOCK_OFFSET || r.x + width + DOCK_OFFSET == vw
    ensures r.y >= DOCK_OFFSET
    ensures (DOCK_ZONE_WIDTH <= pos.x && pos.x + width <= vw - DOCK_ZONE_WIDTH
             && DOCK_OFFSET <= pos.y <= vh - PLUGIN_HEIGHT - DOCK_OFFSET) ==> r == pos
  {
    Point(DockX(pos.x, width, vw), ClampY(pos.y, vh))
  }

  /** Side the agent panel grows towards when it is opened with the widget's
      left edge at x: left exactly when there is too little room on the right
      and enough room on the left. */
  function ExpandDirection(x: int, vw: int): (d: Direction)
    ensures d == Left ==> x - AGENT_PANEL_WIDTH > DOCK_OFFSET
    ensures d == Left ==> x + PLUGIN_BASE_WIDTH + AGENT_PANEL_WIDTH + DOCK_OFFSET > vw
    ensures d == Right ==>
              x + PLUGIN_BASE_WIDTH + AGENT_PANEL_WIDTH + DOCK_OFFSET <= vw
              || x <= AGENT_PANEL_WIDTH + DOCK_OFFSET
  {
    var spaceOnRight := vw - (x + PLUGIN_BASE_WIDTH);
    var spaceOnLeft := x;
    if spaceOnRight < AGENT_PANEL_WIDTH + DOCK_OFFSET && spaceOnLeft > AGENT_PANEL_WIDTH + DOCK_OFFSET
    then Left
    else Right
  }

  /** Position set when the widget is mounted: bottom right, kept below the
      top margin. */
  function InitialPosition(vw: int, vh: int): (p: Point)
    ensures p.x + PLUGIN_BASE_WIDTH + DOCK_OFFSET == vw
    ensures p.y >= DOCK_OFFSET
    ensures vh >= PLUGIN_HEIGHT + 2 * DOCK_OFFSET ==> p.y + PLUGIN_HEIGHT + DOCK_OFFSET == vh
    ensures vh < PLUGIN_HEIGHT + 2 * DOCK_OFFSET ==> p.y == DOCK_OFFSET
  {
    Point(vw - PLUGIN_BASE_WIDTH - DOCK_OFFSET, Max(DOCK_OFFSET, vh - PLUGIN_HEIGHT - DOCK_OFFSET))
  }

  // ---------------------------------------------------------------------------
  // Properties of docking

  /** Releasing at x = 10 settles at the left margin; releasing at y = -50 in an
      800 px high viewport settles at the top margin. */
  lemma DockExamples()
    ensures Dock(Point(10, 300), CurrentWidth(false), 1920, 1080).x == 16
    ensures Dock(Point(500, -50), CurrentWidth(false), 1920, 800).y == 16
  {
  }

  /** Vertical docking is idempotent for every viewport height. */
  lemma ClampYIdempotent(y: int, vh: int)
    ensures ClampY(ClampY(y, vh), vh) == ClampY(y, vh)
  {
  }

  /** Horizontal docking is idempotent once a right-snapped position lies
      outside the left docking zone. */
  lemma DockXIdempotent(x: int, width: int, vw: int)
    requires vw - width - DOCK_OFFSET >= DOCK_ZONE_WIDTH
    ensures DockX(DockX(x, width, vw), width, vw) == DockX(x, width, vw)
  {
  }

  /** Exactly when horizontal docking fails to be idempotent: the first release
      snaps right to a spot inside the left zone (other than the left margin
      itself), and the second release then snaps it left. */
  lemma DockXIdempotentIff(x: int, width: int, vw: int)
    ensures DockX(DockX(x, width, vw), width, vw) != DockX(x, width, vw)
        <==> x >= DOCK_ZONE_WIDTH && x + width > vw - DOCK_ZONE_WIDTH
             && vw - width - DOCK_OFFSET < DOCK_ZONE_WIDTH
             && vw - width - DOCK_OFFSET != DOCK_OFFSET
  {
  }

  /** With the agent panel open (750 px) in a 900 px viewport, a release at
      x = 200 snaps right to x = 134, and releasing there again snaps left to 16. */
  lemma DockNotIdempotentWhenNarrow()
    ensures DockX(200, CurrentWidth(true), 900) == 134
    ensures DockX(134, CurrentWidth(true), 900) == DOCK_OFFSET
  {
  }

  /** Dock is idempotent whenever the viewport is wide enough for the width. */
  lemma DockIdempotent(pos: Point, width: int, vw: int, vh: int)
    requires vw - width - DOCK_OFFSET >= DOCK_ZONE_WIDTH
    ensures Dock(Dock(pos, width, vw, vh), width, vw, vh) == Dock(pos, width, vw, vh)
  {
    DockXIdempotent(pos.x, width, vw);
    ClampYIdempotent(pos.y, vh);
  }

  /** The mounted position is already a settled position of the collapsed
      widget whenever the viewport leaves the right-snapped spot outside the
      left docking zone. */
  lemma InitialPositionIsDocked(vw: int, vh: int)
    requires vw >= PLUGIN_BASE_WIDTH + DOCK_OFFSET + DOCK_ZONE_WIDTH
    ensures Dock(InitialPosition(vw, vh), CurrentWidth(false), vw, vh) == InitialPosition(vw, vh)
  {
  }

  /** Choosing left is exactly the room test of the click handler: too little
      space on the right and more than enough on the left. */
  lemma ExpandDirectionIff(x: int, vw: int)
    ensures ExpandDirection(x, vw) == Left
        <==> vw - (x + PLUGIN_BASE_WIDTH) < AGENT_PANEL_WIDTH + DOCK_OFFSET
             && x > AGENT_PANEL_WIDTH + DOCK_OFFSET
  {
  }
}
