/** Sequences of pointer events fed to the controller, and what whole gestures
    (press, moves, release, click) do to it. The browser delivers the click
    after the release, so a gesture ends with Up followed by Click. */
module Gestures {
  import opened Geometry
  import opened Controller

  /** One event with what its handler reads: the pointer, or the viewport size
      at the moment the handler runs. */
  datatype Event =
    | Down(button: int, at: Point)
    | Move(at: Point)
    | Up(vw: int, vh: int)
    | Click(vw: int)

  function Step(s: Panel, e: Event): (r: Panel)
  {
    match e
    case Down(button, at) => OnMouseDown(s, button, at)
    case Move(at) => OnMouseMove(s, at)
    case Up(vw, vh) => OnMouseUp(s, vw, vh)
    case Click(vw) => OnClick(s, vw)
  }

  /** The state after handling the events in order. */
  function Run(s: Panel, events: seq<Event>): (r: Panel)
    decreases |events|
  {
    if events == [] then s else Run(Step(s, events[0]), events[1..])
  }

  predicate AllMoves(events: seq<Event>)
  {
    forall i :: 0 <= i < |events| ==> events[i].Move?
  }

  /** Handling a + b is handling a, then b. */
  lemma {:induction false} RunAppend(s: Panel, a: seq<Event>, b: seq<Event>)
    ensures Run(s, a + b) == Run(Run(s, a), b)
    decreases |a|
  {
    if a == [] {
      assert a + b == b;
    } else {
      assert (a + b)[0] == a[0];
      assert (a + b)[1..] == a[1..] + b;
      RunAppend(Step(s, a[0]), a[1..], b);
    }
  }

  /** During a drag session a non-empty run of moves leaves the panel at the
      last pointer position minus the grab offset, marks the session as a
      drag, and touches nothing else. */
  lemma {:induction false} MovesTrackPointer(s: Panel, moves: seq<Event>)
    requires s.isDragging
    requires |moves| > 0 && AllMoves(moves)
    ensures Run(s, moves)
            == s.(hasDragged := true,
                  pos := Point(moves[|moves| - 1].at.x - s.dragStartOffset.x,
                               moves[|moves| - 1].at.y - s.dragStartOffset.y))
    decreases |moves|
  {
    var t := Step(s, moves[0]);
    assert moves[0].Move?;
    if |moves| == 1 {
      assert Run(t, moves[1..]) == t;
    } else {
      var rest := moves[1..];
      assert AllMoves(rest) by {
        forall i | 0 <= i < |rest| ensures rest[i].Move? {
          assert rest[i] == moves[i + 1];
        }
      }
      MovesTrackPointer(t, rest);
      assert rest[|rest| - 1] == moves[|moves| - 1];
    }
  }

  /** Position where the panel is left by the last move of a drag that was
      started at pointer p with the panel at start. */
  function LivePosition(start: Point, p: Point, last: Point): (live: Point)
  {
    Point(start.x + (last.x - p.x), start.y + (last.y - p.y))
  }

  /** A drag (primary press, at least one move, release, then the click the
      browser sends) settles the panel at the docked last live position and
      does not touch the expansion state: the click is recognised as the end
      of a drag and ignored. */
  lemma DragGesture(s: Panel, p: Point, moves: seq<Event>, vw: int, vh: int, clickVw: int)
    requires |moves| > 0 && AllMoves(moves)
    ensures var t := Run(s, [Down(0, p)] + moves + [Up(vw, vh), Click(clickVw)]);
            t.pos == Dock(LivePosition(s.pos, p, moves[|moves| - 1].at),
                          CurrentWidth(s.agentVisible), vw, vh)
            && ExpansionOf(t) == ExpansionOf(s) && t.direction == s.direction
            && !t.isDragging && t.hasDragged
  {
    var pressed := OnMouseDown(s, 0, p);
    assert Run(s, [Down(0, p)]) == pressed by {
      assert Run(pressed, []) == pressed;
    }
    MovesTrackPointer(pressed, moves);
    var moved := Run(pressed, moves);
    var released := OnMouseUp(moved, vw, vh);
    assert Run(moved, [Up(vw, vh), Click(clickVw)]) == OnClick(released, clickVw) by {
      RunClickPair(moved, vw, vh, clickVw);
    }
    RunAppend(s, [Down(0, p)], moves);
    RunAppend(s, [Down(0, p)] + moves, [Up(vw, vh), Click(clickVw)]);
  }

  /** Unfolds a release followed by a click. */
  lemma RunClickPair(s: Panel, vw: int, vh: int, clickVw: int)
    ensures Run(s, [Up(vw, vh), Click(clickVw)]) == OnClick(OnMouseUp(s, vw, vh), clickVw)
  {
    var released := OnMouseUp(s, vw, vh);
    var clicked := OnClick(released, clickVw);
    var events := [Up(vw, vh), Click(clickVw)];
    assert events[1..] == [Click(clickVw)];
    assert [Click(clickVw)][1..] == [];
    assert Run(clicked, []) == clicked;
    assert Run(released, [Click(clickVw)]) == clicked;
  }

  /** A plain click (primary press, release, click, no move) first docks the
      current position against the viewport of the release, since the release
      handler runs whether or not the pointer moved, and then toggles the agent
      panel exactly once. */
  lemma ClickGesture(s: Panel, p: Point, vw: int, vh: int, clickVw: int)
    ensures var settled := s.(pos := Dock(s.pos, CurrentWidth(s.agentVisible), vw, vh),
                              dragStartOffset := Point(p.x - s.pos.x, p.y - s.pos.y),
                              isDragging := false, hasDragged := false);
            Run(s, [Down(0, p), Up(vw, vh), Click(clickVw)]) == OnClick(settled, clickVw)
    ensures ExpansionOf(Run(s, [Down(0, p), Up(vw, vh), Click(clickVw)])) != ExpansionOf(s)
  {
    var events := [Down(0, p), Up(vw, vh), Click(clickVw)];
    assert events[1..] == [Up(vw, vh), Click(clickVw)];
    RunClickPair(OnMouseDown(s, 0, p), vw, vh, clickVw);
  }

  /** From the mounted position in a viewport at least 916 px wide, a click
      grows the agent panel to the left with the widget still flush against the
      right margin, and a second click restores the mounted state apart from
      the remembered direction and grab offset. */
  lemma RightDockedRoundTrip(vw: int, vh: int, p: Point, q: Point)
    requires vw >= PLUGIN_BASE_WIDTH + AGENT_PANEL_WIDTH + DOCK_OFFSET + DOCK_ZONE_WIDTH
    ensures var s := Mounted(vw, vh);
            var once := Run(s, [Down(0, p), Up(vw, vh), Click(vw)]);
            ExpansionOf(once) == ExpandedLeft
            && once.pos.x + CurrentWidth(true) + DOCK_OFFSET == vw
            && once.pos.y == s.pos.y
    ensures var s := Mounted(vw, vh);
            var twice := Run(s, [Down(0, p), Up(vw, vh), Click(vw), Down(0, q), Up(vw, vh), Click(vw)]);
            twice.pos == s.pos && ExpansionOf(twice) == Collapsed && !twice.isDragging
  {
    var s := Mounted(vw, vh);
    InitialPositionIsDocked(vw, vh);
    ClickGesture(s, p, vw, vh, vw);
    var once := Run(s, [Down(0, p), Up(vw, vh), Click(vw)]);
    assert ExpandDirection(s.pos.x, vw) == Left;
    assert once.pos == Point(s.pos.x - AGENT_PANEL_WIDTH, s.pos.y);
    assert Dock(once.pos, CurrentWidth(true), vw, vh) == once.pos;
    ClickGesture(once, q, vw, vh, vw);
    RunAppend(s, [Down(0, p), Up(vw, vh), Click(vw)], [Down(0, q), Up(vw, vh), Click(vw)]);
    assert [Down(0, p), Up(vw, vh), Click(vw)] + [Down(0, q), Up(vw, vh), Click(vw)]
        == [Down(0, p), Up(vw, vh), Click(vw), Down(0, q), Up(vw, vh), Click(vw)];
  }

  /** Where a click handler puts a collapsed widget whose position is at. */
  function ExpandedPosition(at: Point, vw: int): (e: Point)
  {
    if ExpandDirection(at.x, vw) == Left then at.(x := at.x - AGENT_PANEL_WIDTH) else at
  }

  /** ExpandedPosition is the position the click handler gives a collapsed
      widget with no drag before the click. */
  lemma ExpandedPositionIsClick(s: Panel, vw: int)
    requires !s.hasDragged && !s.agentVisible
    ensures OnClick(s, vw).pos == ExpandedPosition(s.pos, vw)
  {
  }

  /** Two plain clicks, each a press, a release and a click. */
  function TwoPlainClicks(p: Point, q: Point, vw: int, vh: int): (events: seq<Event>)
  {
    [Down(0, p), Up(vw, vh), Click(vw), Down(0, q), Up(vw, vh), Click(vw)]
  }

  /** The second release of two plain clicks docks the expanded widget at its
      full width. Starting collapsed at a settled position, the two clicks end
      collapsed, and they restore the position exactly when the expanded
      position is itself settled at the expanded width. */
  lemma PlainClickRoundTrip(s: Panel, p: Point, q: Point, vw: int, vh: int)
    requires !s.agentVisible
    requires Dock(s.pos, CurrentWidth(false), vw, vh) == s.pos
    ensures var twice := Run(s, TwoPlainClicks(p, q, vw, vh));
            ExpansionOf(twice) == Collapsed
            && (twice.pos == s.pos
                <==> Dock(ExpandedPosition(s.pos, vw), CurrentWidth(true), vw, vh)
                     == ExpandedPosition(s.pos, vw))
  {
    var first := [Down(0, p), Up(vw, vh), Click(vw)];
    var second := [Down(0, q), Up(vw, vh), Click(vw)];
    assert TwoPlainClicks(p, q, vw, vh) == first + second;
    RunAppend(s, first, second);
    ClickGesture(s, p, vw, vh, vw);
    var once := Run(s, first);
    var e := ExpandedPosition(s.pos, vw);
    ExpandedPositionIsClick(s.(isDragging := false, hasDragged := false,
                               dragStartOffset := Point(p.x - s.pos.x, p.y - s.pos.y)), vw);
    assert once.pos == e && once.agentVisible && once.direction == ExpandDirection(s.pos.x, vw);
    ClickGesture(once, q, vw, vh, vw);
    var twice := Run(once, second);
    var d := Dock(e, CurrentWidth(true), vw, vh);
    assert twice.pos.y == d.y == s.pos.y;
    assert twice.pos.x == d.x + (if once.direction == Left then AGENT_PANEL_WIDTH else 0);
  }

  /** Two plain clicks do not always restore the position. Collapsed at
      (1100, 300) in a 1920 x 1080 viewport the widget grows right, the 750 px
      widget then reaches into the right zone, and the second release snaps it
      to 1154. From the mount position in a 900 px wide viewport the widget
      grows left to 134, the second release snaps it to 16, and collapsing
      leaves it at 416 instead of 534. */
  lemma PlainClickRoundTripCounterexamples(p: Point, q: Point)
    ensures Run(Panel(Point(1100, 300), false, false, Right, Point(0, 0), false),
                TwoPlainClicks(p, q, 1920, 1080)).pos == Point(1154, 300)
    ensures Mounted(900, 1080).pos.x == 534
    ensures Run(Mounted(900, 1080), TwoPlainClicks(p, q, 900, 1080)).pos.x == 416
  {
    var s := Panel(Point(1100, 300), false, false, Right, Point(0, 0), false);
    TwoPlainClicksUnfold(s, p, q, 1920, 1080);
    var m := Mounted(900, 1080);
    TwoPlainClicksUnfold(m, p, q, 900, 1080);
  }

  /** Two plain clicks are: press and release, click, press and release, click. */
  lemma TwoPlainClicksUnfold(s: Panel, p: Point, q: Point, vw: int, vh: int)
    ensures Run(s, TwoPlainClicks(p, q, vw, vh))
            == OnClick(OnMouseUp(OnMouseDown(
                 OnClick(OnMouseUp(OnMouseDown(s, 0, p), vw, vh), vw), 0, q), vw, vh), vw)
  {
    var first := [Down(0, p), Up(vw, vh), Click(vw)];
    var second := [Down(0, q), Up(vw, vh), Click(vw)];
    assert TwoPlainClicks(p, q, vw, vh) == first + second;
    RunAppend(s, first, second);
    ClickGesture(s, p, vw, vh, vw);
    ClickGesture(Run(s, first), q, vw, vh, vw);
  }
}
