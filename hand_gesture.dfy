/** The hand-gesture controller (modules/hand_gesture.py): per camera frame, two fingertip
    distances select a mode (neutral, zoom or turn); in turn mode a horizontal swipe changes
    the page, in zoom mode a pinch changes the zoom level.  Fingertip positions are integer
    pixels; the two distances are real inputs standing for `np.hypot`; `now` stands for
    `time.time()`. */
module HandGesture {
  import opened Common
  import opened PageStore

  // The controller's constants (modules/hand_gesture.py:38-49).
  const ActionCooldown: real := 0.7
  const TurnThreshold: int := 70
  const MaxVerticalDrift: int := 60
  const ZoomSensitivity: real := 0.18
  const ZoomCooldown: real := 0.35
  const ZoomGestureCooldown: real := 0.5
  const ZoomStep: int := 25
  const MinZoom: int := 25
  const MaxZoom: int := 500

  /** `current_mode`: "none", "zoom" or "turn". */
  datatype Mode = Neutral | Zoom | Turn

  /** `last_zoom_direction`: "in" or "out". */
  datatype ZoomDirection = In | Out

  datatype Point = Point(x: int, y: int)

  /** The controller's fields that a frame can change. */
  datatype HandState = HandState(
    mode: Mode,
    turnStart: Option<Point>,
    zoomBaseline: Option<real>,
    lastZoomDirection: Option<ZoomDirection>,
    lastActionTime: real,
    lastZoomTime: real,
    zoomGestureStart: Option<real>)

  function InitialHand(): HandState {
    HandState(Neutral, None, None, None, 0.0, 0.0, None)
  }

  /** The anchors the two active modes rely on are present. */
  predicate Consistent(s: HandState) {
    (s.mode == Turn ==> s.turnStart.Some?) && (s.mode == Zoom ==> s.zoomBaseline.Some?)
  }

  predicate ZoomInRange(nav: Store) {
    MinZoom <= nav.zoom <= MaxZoom
  }

  // ---------------------------------------------------------------------------
  // Mode selection (modules/hand_gesture.py:87-113)
  // ---------------------------------------------------------------------------

  /** Thumb and index pinched, index and middle apart. */
  predicate ZoomPose(thumbIndex: real, indexMiddle: real) {
    thumbIndex < 40.0 && indexMiddle > 55.0
  }

  /** Index and middle pinched, thumb away. */
  predicate TurnPose(thumbIndex: real, indexMiddle: real) {
    indexMiddle < 35.0 && thumbIndex > 50.0
  }

  /** Open hand. */
  predicate OpenHand(thumbIndex: real, indexMiddle: real) {
    thumbIndex > 60.0 && indexMiddle > 60.0
  }

  /** At most one of the three poses holds in any frame. */
  lemma PosesDisjoint(thumbIndex: real, indexMiddle: real)
    ensures !(ZoomPose(thumbIndex, indexMiddle) && TurnPose(thumbIndex, indexMiddle))
    ensures !(ZoomPose(thumbIndex, indexMiddle) && OpenHand(thumbIndex, indexMiddle))
    ensures !(TurnPose(thumbIndex, indexMiddle) && OpenHand(thumbIndex, indexMiddle))
  {
  }

  /** The midpoint of two fingertips by floor division, as `(a + b) // 2`. */
  function Midpoint(a: Point, b: Point): (m: Point)
    ensures 2 * m.x <= a.x + b.x < 2 * m.x + 2
    ensures 2 * m.y <= a.y + b.y < 2 * m.y + 2
  {
    Point((a.x + b.x) / 2, (a.y + b.y) / 2)
  }

  /** The mode transition of one frame; `mid` is the index/middle midpoint of the frame. */
  function SelectMode(s: HandState, thumbIndex: real, indexMiddle: real, mid: Point, now: real): (r: HandState)
    // the cooldown timers are never touched by a mode change
    ensures r.lastActionTime == s.lastActionTime && r.lastZoomTime == s.lastZoomTime
    // entering zoom captures the baseline and arms the relax window; staying in zoom captures nothing
    ensures ZoomPose(thumbIndex, indexMiddle) && s.mode != Zoom ==>
              r == s.(mode := Zoom, zoomBaseline := Some(thumbIndex), lastZoomDirection := None,
                      zoomGestureStart := Some(now))
    // entering turn anchors the swipe at the midpoint; staying in turn re-anchors nothing
    ensures TurnPose(thumbIndex, indexMiddle) && s.mode != Turn ==> r == s.(mode := Turn, turnStart := Some(mid))
    // an open hand clears every anchor
    ensures OpenHand(thumbIndex, indexMiddle) ==>
              r == s.(mode := Neutral, turnStart := None, zoomBaseline := None, lastZoomDirection := None,
                      zoomGestureStart := None)
    // repeating the current mode's pose, or any distance pair in the hysteresis band, changes nothing
    ensures (ZoomPose(thumbIndex, indexMiddle) && s.mode == Zoom) || (TurnPose(thumbIndex, indexMiddle) && s.mode == Turn)
            || (!ZoomPose(thumbIndex, indexMiddle) && !TurnPose(thumbIndex, indexMiddle) && !OpenHand(thumbIndex, indexMiddle))
            ==> r == s
    ensures Consistent(s) ==> Consistent(r)
  {
    if ZoomPose(thumbIndex, indexMiddle) then
      if s.mode != Zoom then
        s.(mode := Zoom, zoomBaseline := Some(thumbIndex), lastZoomDirection := None, zoomGestureStart := Some(now))
      else s
    else if TurnPose(thumbIndex, indexMiddle) then
      if s.mode != Turn then s.(mode := Turn, turnStart := Some(mid)) else s
    else if OpenHand(thumbIndex, indexMiddle) then
      s.(mode := Neutral, turnStart := None, zoomBaseline := None, lastZoomDirection := None, zoomGestureStart := None)
    else s
  }

  // ---------------------------------------------------------------------------
  // What one frame does
  // ---------------------------------------------------------------------------

  datatype HandAction = NoAction | PageTurn(target: int) | ZoomChange(direction: ZoomDirection, level: int)

  datatype HandStep = HandStep(state: HandState, store: Store, action: HandAction)

  /** Only the zoom level changes, or nothing. */
  predicate PagesUnchanged(nav: Store, nav': Store) {
    nav'.currentPage == nav.currentPage && nav'.totalPages == nav.totalPages && nav'.pdfPath == nav.pdfPath
  }

  // ---------------------------------------------------------------------------
  // Turn mode (modules/hand_gesture.py:190-225)
  // ---------------------------------------------------------------------------

  /** The page a swipe from the anchor to `cur` asks for, if the swipe fires. */
  function TurnTarget(s: HandState, nav: Store, cur: Point, now: real): Option<int>
    requires s.turnStart.Some?
  {
    var dx := cur.x - s.turnStart.value.x;
    var dy := cur.y - s.turnStart.value.y;
    if Abs(dy) > MaxVerticalDrift then None
    else if now - s.lastActionTime < ActionCooldown then None
    else if dx <= -TurnThreshold then
      var target := Min(nav.totalPages - 1, nav.currentPage + 1);
      if target != nav.currentPage then Some(target) else None
    else if dx >= TurnThreshold then
      var target := Max(0, nav.currentPage - 1);
      if target != nav.currentPage then Some(target) else None
    else None
  }

  /** `_handle_turn_mode`: a swipe left asks for the next page, a swipe right for the previous
      one; a fired swipe stamps the cooldown and re-anchors at the current point, whether or
      not `update_page` accepted the target. */
  function HandleTurn(s: HandState, nav: Store, cur: Point, now: real): (r: HandStep)
    requires s.turnStart.Some?
    ensures r.store.totalPages == nav.totalPages && r.store.pdfPath == nav.pdfPath && r.store.zoom == nav.zoom
    ensures Bounded(nav) ==> Bounded(r.store)
    ensures r.action.NoAction? || r.action.PageTurn?
    ensures r.action.NoAction? ==> r.state == s && r.store == nav
    ensures r.action.PageTurn? ==>
              var dx := cur.x - s.turnStart.value.x;
              var dy := cur.y - s.turnStart.value.y;
              && Abs(dy) <= MaxVerticalDrift
              && now - s.lastActionTime >= ActionCooldown
              && (dx <= -TurnThreshold || dx >= TurnThreshold)
              && r.state == s.(lastActionTime := now, turnStart := Some(cur))
              && r.store == WithPage(nav, r.action.target)
    // a qualifying swipe does fire: left asks for the next page, right for the previous one
    ensures var dx := cur.x - s.turnStart.value.x;
            var dy := cur.y - s.turnStart.value.y;
            Abs(dy) <= MaxVerticalDrift && now - s.lastActionTime >= ActionCooldown && dx <= -TurnThreshold
            && Min(nav.totalPages - 1, nav.currentPage + 1) != nav.currentPage ==>
              r.action == PageTurn(Min(nav.totalPages - 1, nav.currentPage + 1))
    ensures var dx := cur.x - s.turnStart.value.x;
            var dy := cur.y - s.turnStart.value.y;
            Abs(dy) <= MaxVerticalDrift && now - s.lastActionTime >= ActionCooldown && dx >= TurnThreshold
            && Max(0, nav.currentPage - 1) != nav.currentPage ==>
              r.action == PageTurn(Max(0, nav.currentPage - 1))
    // inside a document with pages, a fired swipe moves exactly one page, left = forward
    ensures Bounded(nav) && nav.totalPages > 0 && r.action.PageTurn? ==>
              var dx := cur.x - s.turnStart.value.x;
              && (dx <= -TurnThreshold ==> r.store.currentPage == nav.currentPage + 1)
              && (dx > -TurnThreshold ==> r.store.currentPage == nav.currentPage - 1)
  {
    match TurnTarget(s, nav, cur, now)
    case None => HandStep(s, nav, NoAction)
    case Some(target) =>
      HandStep(s.(lastActionTime := now, turnStart := Some(cur)), WithPage(nav, target), PageTurn(target))
  }

  /** At the last page a left swipe does nothing, at the first page a right swipe does nothing. */
  lemma TurnAtBoundary(s: HandState, nav: Store, cur: Point, now: real)
    requires s.turnStart.Some? && Bounded(nav) && nav.totalPages > 0
    ensures cur.x - s.turnStart.value.x <= -TurnThreshold && nav.currentPage == nav.totalPages - 1 ==>
              HandleTurn(s, nav, cur, now) == HandStep(s, nav, NoAction)
    ensures cur.x - s.turnStart.value.x >= TurnThreshold && nav.currentPage == 0 ==>
              HandleTurn(s, nav, cur, now) == HandStep(s, nav, NoAction)
  {
  }

  // ---------------------------------------------------------------------------
  // Zoom mode (modules/hand_gesture.py:230-273)
  // ---------------------------------------------------------------------------

  /** The relative pinch change against the episode's baseline. */
  function Ratio(d: real, baseline: real): real {
    (d - baseline) / RealMax(baseline, 1.0)
  }

  /** Both zoom timers have run out: the relax window since the gesture was (re)armed and the
      cooldown since the last zoom action. */
  predicate ZoomGatesOpen(s: HandState, now: real) {
    !(IsSet(s.zoomGestureStart) && now - s.zoomGestureStart.value < ZoomGestureCooldown)
    && now - s.lastZoomTime >= ZoomCooldown
  }

  /** The zoom direction a pinch fires, if any. */
  function ZoomDecision(s: HandState, d: real, now: real): (r: Option<ZoomDirection>)
    requires s.zoomBaseline.Some?
    ensures r == Some(Out) <==>
              ZoomGatesOpen(s, now) && Ratio(d, s.zoomBaseline.value) > ZoomSensitivity && s.lastZoomDirection != Some(Out)
    ensures r == Some(In) <==>
              ZoomGatesOpen(s, now) && Ratio(d, s.zoomBaseline.value) < -ZoomSensitivity && s.lastZoomDirection != Some(In)
    // the same direction never fires twice in a row
    ensures r.Some? ==> r != s.lastZoomDirection
  {
    if !ZoomGatesOpen(s, now) then None
    else
      var ratio := Ratio(d, s.zoomBaseline.value);
      if ratio > ZoomSensitivity then
        if s.lastZoomDirection != Some(Out) then Some(Out) else None
      else if ratio < -ZoomSensitivity then
        if s.lastZoomDirection != Some(In) then Some(In) else None
      else None
  }

  /** The level a zoom action stores: +25 capped at 500 when the fingers move apart, -25
      floored at 25 when they close. */
  function ZoomLevel(direction: ZoomDirection, zoom: int): (level: int)
    ensures direction == Out ==> level == Min(MaxZoom, zoom + ZoomStep)
    ensures direction == In ==> level == Max(MinZoom, zoom - ZoomStep)
    ensures MinZoom <= zoom <= MaxZoom ==> MinZoom <= level <= MaxZoom
    ensures direction == Out ==> level >= Min(zoom, MaxZoom) && level <= zoom + ZoomStep
    ensures direction == In ==> level <= Max(zoom, MinZoom) && level >= zoom - ZoomStep
  {
    if direction == Out then Min(MaxZoom, zoom + ZoomStep) else Max(MinZoom, zoom - ZoomStep)
  }

  /** `_handle_zoom_mode`, with the pinch distance of the current frame. */
  function HandleZoom(s: HandState, nav: Store, d: real, now: real): (r: HandStep)
    ensures PagesUnchanged(nav, r.store)
    ensures ZoomInRange(nav) ==> ZoomInRange(r.store)
    ensures r.action.NoAction? || r.action.ZoomChange?
    ensures r.state.mode == s.mode && r.state.turnStart == s.turnStart && r.state.lastActionTime == s.lastActionTime
    ensures r.action.NoAction? ==> r.store == nav && r.state.lastZoomDirection == s.lastZoomDirection
    ensures r.action.NoAction? && s.zoomBaseline.Some? ==> r.state == s
    // the first zoom frame without a baseline only captures it
    ensures s.zoomBaseline.None? ==> r == HandStep(s.(zoomBaseline := Some(d)), nav, NoAction)
    // a decided zoom does fire
    ensures s.zoomBaseline.Some? && ZoomDecision(s, d, now).Some? ==>
              r.action == ZoomChange(ZoomDecision(s, d, now).value, ZoomLevel(ZoomDecision(s, d, now).value, nav.zoom))
    ensures r.action.ZoomChange? ==>
              && s.zoomBaseline.Some?
              && ZoomDecision(s, d, now) == Some(r.action.direction)
              && r.action.level == ZoomLevel(r.action.direction, nav.zoom)
              && r.store == WithZoom(nav, r.action.level)
              && r.state == s.(lastZoomDirection := Some(r.action.direction), lastZoomTime := now,
                               zoomGestureStart := Some(now))
  {
    if s.zoomBaseline.None? then HandStep(s.(zoomBaseline := Some(d)), nav, NoAction)
    else
      match ZoomDecision(s, d, now)
      case None => HandStep(s, nav, NoAction)
      case Some(direction) =>
        var level := ZoomLevel(direction, nav.zoom);
        HandStep(s.(lastZoomDirection := Some(direction), lastZoomTime := now, zoomGestureStart := Some(now)),
                 WithZoom(nav, level), ZoomChange(direction, level))
  }

  /** Inside the dead zone `|ratio| <= 0.18`, or before either timer has run out, a pinch does nothing. */
  lemma ZoomDeadZone(s: HandState, nav: Store, d: real, now: real)
    requires s.zoomBaseline.Some?
    requires -ZoomSensitivity <= Ratio(d, s.zoomBaseline.value) <= ZoomSensitivity || !ZoomGatesOpen(s, now)
    ensures HandleZoom(s, nav, d, now) == HandStep(s, nav, NoAction)
  {
  }

  // ---------------------------------------------------------------------------
  // A whole frame (modules/hand_gesture.py:80-122)
  // ---------------------------------------------------------------------------

  /** One frame's measurements: the thumb-index and index-middle distances and two fingertips. */
  datatype HandInput = HandInput(thumbIndex: real, indexMiddle: real, indexTip: Point, middleTip: Point, now: real)

  /** `process_gestures` for a frame in which a hand was found. */
  function HandFrame(s: HandState, nav: Store, inp: HandInput): (r: HandStep)
    ensures r.store.totalPages == nav.totalPages && r.store.pdfPath == nav.pdfPath
    ensures Bounded(nav) ==> Bounded(r.store)
    ensures ZoomInRange(nav) ==> ZoomInRange(r.store)
    ensures Consistent(s) ==> Consistent(r.state)
    // the turn cooldown: a page turn fires only 0.7 s after the previous one, and stamps the time
    ensures r.action.PageTurn? ==> inp.now - s.lastActionTime >= ActionCooldown && r.state.lastActionTime == inp.now
    ensures !r.action.PageTurn? ==> r.state.lastActionTime == s.lastActionTime
    ensures r.action.NoAction? ==> r.store == nav
    ensures r.action.ZoomChange? ==> PagesUnchanged(nav, r.store) && r.store.zoom == r.action.level
    // a frame in turn mode (anchored, and no pose that leaves it) is judged as a swipe from the anchor
    ensures s.mode == Turn && s.turnStart.Some? && !ZoomPose(inp.thumbIndex, inp.indexMiddle)
            && !OpenHand(inp.thumbIndex, inp.indexMiddle) ==>
              r == HandleTurn(s, nav, Midpoint(inp.indexTip, inp.middleTip), inp.now)
    // a frame in zoom mode (with a baseline, and no pose that leaves it) is judged as a pinch
    ensures s.mode == Zoom && s.zoomBaseline.Some? && !TurnPose(inp.thumbIndex, inp.indexMiddle)
            && !OpenHand(inp.thumbIndex, inp.indexMiddle) ==>
              r == HandleZoom(s, nav, inp.thumbIndex, inp.now)
    // the frame that forms the zoom pose starts an episode and fires nothing yet
    ensures ZoomPose(inp.thumbIndex, inp.indexMiddle) && s.mode != Zoom ==>
              r.action.NoAction? && r.state.mode == Zoom && r.state.zoomBaseline == Some(inp.thumbIndex)
    ensures ZoomPose(inp.thumbIndex, inp.indexMiddle) && s.mode != Zoom ==>
              r == HandStep(SelectMode(s, inp.thumbIndex, inp.indexMiddle, Midpoint(inp.indexTip, inp.middleTip), inp.now),
                            nav, NoAction)
    // the frame that forms the turn pose anchors the swipe and fires nothing yet
    ensures TurnPose(inp.thumbIndex, inp.indexMiddle) && s.mode != Turn ==>
              r.action.NoAction? && r.state.mode == Turn
              && r.state.turnStart == Some(Midpoint(inp.indexTip, inp.middleTip))
    ensures TurnPose(inp.thumbIndex, inp.indexMiddle) && s.mode != Turn ==>
              r == HandStep(SelectMode(s, inp.thumbIndex, inp.indexMiddle, Midpoint(inp.indexTip, inp.middleTip), inp.now),
                            nav, NoAction)
    // an open hand leaves every mode, clears the anchors and fires nothing
    ensures OpenHand(inp.thumbIndex, inp.indexMiddle) ==>
              r == HandStep(SelectMode(s, inp.thumbIndex, inp.indexMiddle, Midpoint(inp.indexTip, inp.middleTip), inp.now),
                            nav, NoAction)
    ensures OpenHand(inp.thumbIndex, inp.indexMiddle) ==> r.state.mode == Neutral && r.state.turnStart.None?
    // without a mode and without a pose that enters one, nothing happens
    ensures s.mode == Neutral && !ZoomPose(inp.thumbIndex, inp.indexMiddle) && !TurnPose(inp.thumbIndex, inp.indexMiddle) ==>
              r == HandStep(SelectMode(s, inp.thumbIndex, inp.indexMiddle, Midpoint(inp.indexTip, inp.middleTip), inp.now),
                            nav, NoAction)
    ensures s.mode == Neutral && !ZoomPose(inp.thumbIndex, inp.indexMiddle) && !TurnPose(inp.thumbIndex, inp.indexMiddle)
            && !OpenHand(inp.thumbIndex, inp.indexMiddle) ==>
              r == HandStep(s, nav, NoAction)
    // inside a zoom episode the mode stays, and zoom actions alternate direction
    ensures s.mode == Zoom && !TurnPose(inp.thumbIndex, inp.indexMiddle) && !OpenHand(inp.thumbIndex, inp.indexMiddle) ==>
              && r.state.mode == Zoom
              && !r.action.PageTurn?
              && (r.action.ZoomChange? ==>
                    Some(r.action.direction) != s.lastZoomDirection
                    && r.state.lastZoomDirection == Some(r.action.direction))
              && (r.action.NoAction? ==> r.state.lastZoomDirection == s.lastZoomDirection)
  {
    var mid := Midpoint(inp.indexTip, inp.middleTip);
    var s1 := SelectMode(s, inp.thumbIndex, inp.indexMiddle, mid, inp.now);
    if s1.mode == Turn && s1.turnStart.Some? then HandleTurn(s1, nav, mid, inp.now)
    else if s1.mode == Zoom && s1.zoomBaseline.Some? then HandleZoom(s1, nav, inp.thumbIndex, inp.now)
    else HandStep(s1, nav, NoAction)
  }

  // ---------------------------------------------------------------------------
  // Runs of frames
  // ---------------------------------------------------------------------------

  /** An action together with the time of the frame that fired it. */
  datatype Fired = Fired(at: real, action: HandAction)

  datatype HandRun = HandRun(state: HandState, store: Store, fired: seq<Fired>)

  /** The frames processed one after another; `fired` lists the actions in order. */
  function RunHand(s: HandState, nav: Store, inputs: seq<HandInput>): HandRun
    decreases |inputs|
  {
    if inputs == [] then HandRun(s, nav, [])
    else
      var st := HandFrame(s, nav, inputs[0]);
      var rest := RunHand(st.state, st.store, inputs[1..]);
      var now := if st.action.NoAction? then [] else [Fired(inputs[0].now, st.action)];
      HandRun(rest.state, rest.store, now + rest.fired)
  }

  /** Over any run, the page stays inside the document and the zoom inside [25, 500]. */
  lemma {:induction false} RunHandKeepsBounds(s: HandState, nav: Store, inputs: seq<HandInput>)
    requires Bounded(nav) && ZoomInRange(nav)
    ensures Bounded(RunHand(s, nav, inputs).store) && ZoomInRange(RunHand(s, nav, inputs).store)
    decreases |inputs|
  {
    if inputs != [] {
      var st := HandFrame(s, nav, inputs[0]);
      RunHandKeepsBounds(st.state, st.store, inputs[1..]);
    }
  }

  /** Every page turn in `f` fired at time `t` or later. */
  predicate TurnsNotBefore(f: seq<Fired>, t: real) {
    forall j :: 0 <= j < |f| && f[j].action.PageTurn? ==> f[j].at >= t
  }

  /** Any two page turns in `f` are at least `gap` apart. */
  predicate TurnsSpacedBy(f: seq<Fired>, gap: real) {
    forall i, j :: 0 <= i < j < |f| && f[i].action.PageTurn? && f[j].action.PageTurn? ==> f[j].at - f[i].at >= gap
  }

  /** `f` holds only zoom actions, the first differs from `last` and each differs from the one before. */
  predicate ZoomsAlternate(f: seq<Fired>, last: Option<ZoomDirection>) {
    && (forall k :: 0 <= k < |f| ==> f[k].action.ZoomChange?)
    && (|f| > 0 ==> Some(f[0].action.direction) != last)
    && (forall k :: 0 <= k < |f| - 1 ==> f[k].action.direction != f[k + 1].action.direction)
  }

  /** Every page turn of a run comes at least 0.7 s after the `last_action_time` it started with. */
  lemma {:induction false} TurnsAfterLastAction(s: HandState, nav: Store, inputs: seq<HandInput>)
    ensures TurnsNotBefore(RunHand(s, nav, inputs).fired, s.lastActionTime + ActionCooldown)
    decreases |inputs|
  {
    if inputs != [] {
      var st := HandFrame(s, nav, inputs[0]);
      var rest := RunHand(st.state, st.store, inputs[1..]);
      TurnsAfterLastAction(st.state, st.store, inputs[1..]);
      var head := if st.action.NoAction? then [] else [Fired(inputs[0].now, st.action)];
      assert RunHand(s, nav, inputs).fired == head + rest.fired;
      assert st.state.lastActionTime >= s.lastActionTime;
    }
  }

  /** Any two page turns of a run are at least 0.7 s apart. */
  lemma {:induction false} TurnsSpaced(s: HandState, nav: Store, inputs: seq<HandInput>)
    ensures TurnsSpacedBy(RunHand(s, nav, inputs).fired, ActionCooldown)
    decreases |inputs|
  {
    if inputs != [] {
      var st := HandFrame(s, nav, inputs[0]);
      var rest := RunHand(st.state, st.store, inputs[1..]);
      TurnsSpaced(st.state, st.store, inputs[1..]);
      var head := if st.action.NoAction? then [] else [Fired(inputs[0].now, st.action)];
      assert RunHand(s, nav, inputs).fired == head + rest.fired;
      if st.action.PageTurn? {
        TurnsAfterLastAction(st.state, st.store, inputs[1..]);
      }
    }
  }

  /** Inside one zoom episode (no open hand, no turn pose) the zoom actions alternate:
      the first differs from the direction the episode started with, and each differs from
      the one before it. */
  lemma {:induction false} ZoomAlternates(s: HandState, nav: Store, inputs: seq<HandInput>)
    requires s.mode == Zoom
    requires forall k :: 0 <= k < |inputs| ==>
               !TurnPose(inputs[k].thumbIndex, inputs[k].indexMiddle) && !OpenHand(inputs[k].thumbIndex, inputs[k].indexMiddle)
    ensures ZoomsAlternate(RunHand(s, nav, inputs).fired, s.lastZoomDirection)
    decreases |inputs|
  {
    if inputs != [] {
      var st := HandFrame(s, nav, inputs[0]);
      var rest := RunHand(st.state, st.store, inputs[1..]);
      ZoomAlternates(st.state, st.store, inputs[1..]);
      var head := if st.action.NoAction? then [] else [Fired(inputs[0].now, st.action)];
      assert RunHand(s, nav, inputs).fired == head + rest.fired;
    }
  }

  // ---------------------------------------------------------------------------
  // The controller object
  // ---------------------------------------------------------------------------

  class HandGestureController {
    const shared: SharedState
    var currentMode: Mode
    var turnStart: Option<Point>
    var zoomBaselineDist: Option<real>
    var lastZoomDirection: Option<ZoomDirection>
    var lastActionTime: real
    var lastZoomTime: real
    var zoomGestureStartTime: Option<real>

    ghost function State(): HandState
      reads this
    {
      HandState(currentMode, turnStart, zoomBaselineDist, lastZoomDirection, lastActionTime, lastZoomTime,
                zoomGestureStartTime)
    }

    constructor (shared: SharedState)
      ensures this.shared == shared && State() == InitialHand()
    {
      this.shared := shared;
      currentMode := Neutral;
      turnStart := None;
      zoomBaselineDist := None;
      lastZoomDirection := None;
      lastActionTime := 0.0;
      lastZoomTime := 0.0;
      zoomGestureStartTime := None;
    }

    /** `process_gestures` for a frame with a hand: mode selection, then the active mode's handler. */
    method ProcessGestures(thumbIndexDist: real, indexMiddleDist: real, indexTip: Point, middleTip: Point, now: real)
      requires shared.Valid()
      modifies this, shared
      ensures shared.Valid()
      ensures var r := HandFrame(old(State()), old(shared.Model()),
                                 HandInput(thumbIndexDist, indexMiddleDist, indexTip, middleTip, now));
              State() == r.state && shared.Model() == r.store
    {
      if thumbIndexDist < 40.0 && indexMiddleDist > 55.0 {
        if currentMode != Zoom {
          currentMode := Zoom;
          zoomBaselineDist := Some(thumbIndexDist);
          lastZoomDirection := None;
          zoomGestureStartTime := Some(now);
        }
      } else if indexMiddleDist < 35.0 && thumbIndexDist > 50.0 {
        if currentMode != Turn {
          currentMode := Turn;
          turnStart := Some(Midpoint(indexTip, middleTip));
        }
      } else if thumbIndexDist > 60.0 && indexMiddleDist > 60.0 {
        currentMode := Neutral;
        turnStart := None;
        zoomBaselineDist := None;
        lastZoomDirection := None;
        zoomGestureStartTime := None;
      }

      if currentMode == Turn && turnStart.Some? {
        HandleTurnMode(indexTip, middleTip, now);
      } else if currentMode == Zoom && zoomBaselineDist.Some? {
        HandleZoomMode(thumbIndexDist, now);
      }
    }

    /** `_handle_turn_mode` */
    method HandleTurnMode(indexTip: Point, middleTip: Point, now: real)
      requires shared.Valid() && turnStart.Some?
      modifies this, shared
      ensures shared.Valid()
      ensures var r := HandleTurn(old(State()), old(shared.Model()), Midpoint(indexTip, middleTip), now);
              State() == r.state && shared.Model() == r.store
    {
      var currentPoint := Midpoint(indexTip, middleTip);
      var dx := currentPoint.x - turnStart.value.x;
      var dy := currentPoint.y - turnStart.value.y;
      if Abs(dy) > MaxVerticalDrift {
        return;
      }
      if now - lastActionTime < ActionCooldown {
        return;
      }
      if dx <= -TurnThreshold {
        var currentPage := shared.GetPage();
        var newPage := Min(shared.totalPages - 1, currentPage + 1);
        if newPage != currentPage {
          var _ := shared.UpdatePage(newPage);
          lastActionTime := now;
          turnStart := Some(currentPoint);
        }
      } else if dx >= TurnThreshold {
        var currentPage := shared.GetPage();
        var newPage := Max(0, currentPage - 1);
        if newPage != currentPage {
          var _ := shared.UpdatePage(newPage);
          lastActionTime := now;
          turnStart := Some(currentPoint);
        }
      }
    }

    /** `_handle_zoom_mode`, given the current thumb-index distance. */
    method HandleZoomMode(currentDist: real, now: real)
      requires shared.Valid()
      modifies this, shared
      ensures shared.Valid()
      ensures var r := HandleZoom(old(State()), old(shared.Model()), currentDist, now);
              State() == r.state && shared.Model() == r.store
    {
      if zoomBaselineDist.None? {
        zoomBaselineDist := Some(currentDist);
        return;
      }
      if IsSet(zoomGestureStartTime) && now - zoomGestureStartTime.value < ZoomGestureCooldown {
        return;
      }
      if now - lastZoomTime < ZoomCooldown {
        return;
      }
      var ratio := Ratio(currentDist, zoomBaselineDist.value);
      if ratio > ZoomSensitivity {
        if lastZoomDirection != Some(Out) {
          var currentZoom := shared.GetZoom();
          var newZoom := Min(MaxZoom, currentZoom + ZoomStep);
          var _ := shared.UpdateZoom(newZoom);
          lastZoomDirection := Some(Out);
          lastZoomTime := now;
          zoomGestureStartTime := Some(now);
        }
      } else if ratio < -ZoomSensitivity {
        if lastZoomDirection != Some(In) {
          var currentZoom := shared.GetZoom();
          var newZoom := Max(MinZoom, currentZoom - ZoomStep);
          var _ := shared.UpdateZoom(newZoom);
          lastZoomDirection := Some(In);
          lastZoomTime := now;
          zoomGestureStartTime := Some(now);
        }
      }
    }
  }
}
