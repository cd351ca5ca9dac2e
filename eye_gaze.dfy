/** The eye-gaze controller (modules/eye_gaze.py): each camera frame is classified into a raw
    gaze direction from the iris offset `(dx, dy)`; the last ten raw directions feed a
    majority vote; a voted direction held for more than 1.5 s fires one page action. The
    offsets are real inputs standing for the landmark geometry; `now` stands for
    `time.time()`. */
module EyeGaze {
  import opened Common
  import opened PageStore

  // The controller's constants (modules/eye_gaze.py:31-35, 139, 148).
  const ActionCooldown: real := 1.5
  const DwellTime: real := 1.5
  const BufferSize: nat := 10
  const MinSamples: nat := 5

  datatype Gaze = Left | Right | Up | Down | Center

  // ---------------------------------------------------------------------------
  // Classification (modules/eye_gaze.py:49-74)
  // ---------------------------------------------------------------------------

  /** `detect_gaze`: `resolved` says both iris centres were found, `(dx, dy)` is the averaged
      iris position relative to the eye-corner midpoint. */
  function DetectGaze(resolved: bool, dx: real, dy: real): (g: Gaze)
    // an unresolved iris looks straight ahead
    ensures !resolved ==> g == Center
    // a horizontal decision wins over any vertical offset
    ensures g == Left <==> resolved && dx < -10.0
    ensures g == Right <==> resolved && dx > 10.0
    ensures g == Up <==> resolved && -10.0 <= dx <= 10.0 && dy < -5.0
    ensures g == Down <==> resolved && -10.0 <= dx <= 10.0 && dy > 1.0
  {
    if !resolved then Center
    else if dx < -10.0 then Left
    else if dx > 10.0 then Right
    else if dy < -5.0 then Up
    else if dy > 1.0 then Down
    else Center
  }

  /** Centre is exactly the dead box: unresolved, or both offsets inside their thresholds. */
  lemma CenterIsDeadBox(resolved: bool, dx: real, dy: real)
    ensures DetectGaze(resolved, dx, dy) == Center <==>
              !resolved || (-10.0 <= dx <= 10.0 && -5.0 <= dy <= 1.0)
  {
  }

  /** The vertical offset never matters once the horizontal one is past its threshold. */
  lemma HorizontalOverrides(dx: real, dy1: real, dy2: real)
    requires dx < -10.0 || dx > 10.0
    ensures DetectGaze(true, dx, dy1) == DetectGaze(true, dx, dy2)
  {
  }

  // ---------------------------------------------------------------------------
  // The smoothing buffer (modules/eye_gaze.py:31, 138-140)
  // ---------------------------------------------------------------------------

  /** `recent_gazes.append(g)` on a `deque(maxlen=10)`: the ten most recent directions. */
  function Pushed(buf: seq<Gaze>, g: Gaze): (r: seq<Gaze>)
    ensures |r| == Min(|buf| + 1, BufferSize)
    ensures |r| > 0 && r[|r| - 1] == g
    // what is kept is the newest suffix: the oldest entries are the ones evicted
    ensures r == (buf + [g])[|buf| + 1 - |r|..]
    ensures |buf| < BufferSize ==> r == buf + [g]
  {
    var all := buf + [g];
    if |all| <= BufferSize then all else all[|all| - BufferSize..]
  }

  /** `buf.count(g)` */
  function Count(buf: seq<Gaze>, g: Gaze): nat {
    multiset(buf)[g]
  }

  /** `m` occurs in the buffer and no direction occurs more often. */
  predicate IsMajority(buf: seq<Gaze>, m: Gaze) {
    m in buf && forall g :: Count(buf, g) <= Count(buf, m)
  }

  /** `max(set(buf), key=buf.count)`: a most frequent direction of the whole buffer; which one
      of several tied directions is returned is left open. */
  method MostCommon(buf: seq<Gaze>) returns (m: Gaze)
    requires |buf| > 0
    ensures IsMajority(buf, m)
  {
    m := buf[0];
    var best := Count(buf, m);
    var i := 1;
    while i < |buf|
      invariant 1 <= i <= |buf|
      invariant m in buf && best == Count(buf, m)
      invariant forall k :: 0 <= k < i ==> Count(buf, buf[k]) <= best
    {
      var c := Count(buf, buf[i]);
      if c > best {
        m, best := buf[i], c;
      }
      i := i + 1;
    }
    forall g
      ensures Count(buf, g) <= best
    {
      if g in buf {
        var k :| 0 <= k < |buf| && buf[k] == g;
      }
    }
  }

  /** A buffer of ten equal directions elects that direction, and no other. */
  lemma UnanimousBuffer(buf: seq<Gaze>, g: Gaze, m: Gaze)
    requires |buf| > 0 && forall k :: 0 <= k < |buf| ==> buf[k] == g
    ensures IsMajority(buf, m) <==> m == g
  {
    assert buf[0] == g;
    forall h | h != g
      ensures Count(buf, h) == 0
    {
      assert h !in buf;
    }
  }

  // ---------------------------------------------------------------------------
  // The page action (modules/eye_gaze.py:76-104)
  // ---------------------------------------------------------------------------

  /** The page `handle_gaze_action` asks for: one forward for Right unless on the last page,
      one back for Left unless on the first, the first page for Up, the last for Down. */
  function GazeTarget(nav: Store, g: Gaze): (t: int)
    ensures g == Center ==> t == nav.currentPage
    ensures g == Up ==> t == 0
    ensures g == Down ==> t == nav.totalPages - 1
    ensures g == Right ==> t == (if nav.currentPage < nav.totalPages - 1 then nav.currentPage + 1 else nav.currentPage)
    ensures g == Left ==> t == (if nav.currentPage > 0 then nav.currentPage - 1 else nav.currentPage)
    // inside a document with pages, every target is a page of the document
    ensures Bounded(nav) && nav.totalPages > 0 ==> 0 <= t < nav.totalPages
  {
    match g
    case Right => if nav.currentPage < nav.totalPages - 1 then nav.currentPage + 1 else nav.currentPage
    case Left => if nav.currentPage > 0 then nav.currentPage - 1 else nav.currentPage
    case Up => 0
    case Down => nav.totalPages - 1
    case Center => nav.currentPage
  }

  /** What `handle_gaze_action` leaves behind: its `last_action_time` and the store. */
  datatype ActionResult = ActionResult(lastActionTime: real, store: Store)

  /** `handle_gaze_action(g)` at time `now`, after the last committed action at `last`. */
  function GazeAction(last: real, nav: Store, g: Gaze, now: real): (r: ActionResult)
    ensures r.store.totalPages == nav.totalPages && r.store.pdfPath == nav.pdfPath && r.store.zoom == nav.zoom
    ensures Bounded(nav) ==> Bounded(r.store)
    // inside the cooldown nothing happens
    ensures now - last < ActionCooldown ==> r == ActionResult(last, nav)
    // the page moves exactly when the cooldown is over, the target differs and the store
    // accepts it, and then it moves to the target and the action time is stamped
    ensures r.store != nav <==>
              now - last >= ActionCooldown && GazeTarget(nav, g) != nav.currentPage
              && Accepts(nav, GazeTarget(nav, g))
    ensures r.store != nav ==> r.store.currentPage == GazeTarget(nav, g) && r.lastActionTime == now
    // the action time is stamped only by a committed page change
    ensures r.store == nav ==> r.lastActionTime == last
  {
    if now - last < ActionCooldown then ActionResult(last, nav)
    else
      var t := GazeTarget(nav, g);
      if t != nav.currentPage && Accepts(nav, t) then ActionResult(now, WithPage(nav, t))
      else ActionResult(last, nav)
  }

  /** Looking down from a document without pages asks for page -1, which the store rejects. */
  lemma DownWithoutPages(last: real, nav: Store, now: real)
    requires nav.totalPages == 0 && nav.currentPage == 0
    ensures GazeAction(last, nav, Down, now) == ActionResult(last, nav)
  {
  }

  // ---------------------------------------------------------------------------
  // Stabilisation and dwell (modules/eye_gaze.py:137-152)
  // ---------------------------------------------------------------------------

  /** The controller's fields that a frame can change. */
  datatype GazeState = GazeState(recent: seq<Gaze>, stable: Gaze, dwellStart: Option<real>, lastActionTime: real)

  function InitialGaze(): GazeState {
    GazeState([], Center, None, 0.0)
  }

  /** The condition under which a frame calls `handle_gaze_action`: enough samples, the vote
      agrees with the stable direction, the dwell timer is set and has run for more than 1.5 s,
      and the direction is not Center. */
  predicate AttemptsAction(s: GazeState, g: Gaze, majority: Gaze, now: real) {
    && |Pushed(s.recent, g)| >= MinSamples
    && majority == s.stable
    && IsSet(s.dwellStart) && now - s.dwellStart.value > DwellTime
    && majority != Center
  }

  /** One frame's result; `attempted` says `handle_gaze_action` was called. */
  datatype GazeStep = GazeStep(state: GazeState, store: Store, attempted: bool)

  /** The smoothing block of `run` for a frame whose raw direction is `g`; `majority` is the
      vote `most_common` picked over the buffer after `g` was appended (it is only consulted
      once the buffer holds five samples). */
  function GazeFrame(s: GazeState, nav: Store, g: Gaze, majority: Gaze, now: real): (r: GazeStep)
    ensures r.state.recent == Pushed(s.recent, g) && |r.state.recent| <= BufferSize
    ensures r.store.totalPages == nav.totalPages && r.store.pdfPath == nav.pdfPath && r.store.zoom == nav.zoom
    ensures Bounded(nav) ==> Bounded(r.store)
    // fewer than five samples: only the buffer changes
    ensures |Pushed(s.recent, g)| < MinSamples ==> r == GazeStep(s.(recent := Pushed(s.recent, g)), nav, false)
    // a new vote starts a new episode: the stable direction and the dwell timer are reset,
    // and nothing else happens in that frame
    ensures |Pushed(s.recent, g)| >= MinSamples && majority != s.stable ==>
              r == GazeStep(s.(recent := Pushed(s.recent, g), stable := majority, dwellStart := Some(now)), nav, false)
    ensures r.attempted <==> AttemptsAction(s, g, majority, now)
    // the same vote without an attempt is a waiting frame: the episode and its timer carry on
    ensures |Pushed(s.recent, g)| >= MinSamples && majority == s.stable && !AttemptsAction(s, g, majority, now) ==>
              r == GazeStep(s.(recent := Pushed(s.recent, g)), nav, false)
    // an attempt clears the timer whether or not the page moved
    ensures r.attempted ==>
              && r.state == s.(recent := Pushed(s.recent, g), dwellStart := None,
                               lastActionTime := GazeAction(s.lastActionTime, nav, majority, now).lastActionTime)
              && r.store == GazeAction(s.lastActionTime, nav, majority, now).store
    ensures !r.attempted ==> r.store == nav && r.state.lastActionTime == s.lastActionTime
    // with a genuine vote, the stable direction is a majority of the buffer
    ensures |Pushed(s.recent, g)| >= MinSamples && IsMajority(Pushed(s.recent, g), majority) ==>
              IsMajority(r.state.recent, r.state.stable)
  {
    var buf := Pushed(s.recent, g);
    if |buf| < MinSamples then GazeStep(s.(recent := buf), nav, false)
    else if majority != s.stable then GazeStep(s.(recent := buf, stable := majority, dwellStart := Some(now)), nav, false)
    else if IsSet(s.dwellStart) && now - s.dwellStart.value > DwellTime && majority != Center then
      var a := GazeAction(s.lastActionTime, nav, majority, now);
      GazeStep(s.(recent := buf, dwellStart := None, lastActionTime := a.lastActionTime), a.store, true)
    else GazeStep(s.(recent := buf), nav, false)
  }

  // ---------------------------------------------------------------------------
  // Runs of frames
  // ---------------------------------------------------------------------------

  /** One frame: its raw direction, the vote picked for it, and its time. */
  datatype GazeInput = GazeInput(raw: Gaze, majority: Gaze, now: real)

  /** `attempts` counts the calls of `handle_gaze_action`; `moves` lists the times at which the
      page changed. */
  datatype GazeRun = GazeRun(state: GazeState, store: Store, attempts: nat, moves: seq<real>)

  function RunGaze(s: GazeState, nav: Store, frames: seq<GazeInput>): GazeRun
    decreases |frames|
  {
    if frames == [] then GazeRun(s, nav, 0, [])
    else
      var st := GazeFrame(s, nav, frames[0].raw, frames[0].majority, frames[0].now);
      var rest := RunGaze(st.state, st.store, frames[1..]);
      var moved := if st.store != nav then [frames[0].now] else [];
      GazeRun(rest.state, rest.store, rest.attempts + (if st.attempted then 1 else 0), moved + rest.moves)
  }

  /** No action while the dwell timer is clear and the vote keeps agreeing with the stable
      direction: after an attempt, the next one needs a new episode. */
  lemma {:induction false} NoAttemptWithoutNewEpisode(s: GazeState, nav: Store, frames: seq<GazeInput>)
    requires !IsSet(s.dwellStart)
    requires forall k :: 0 <= k < |frames| ==> frames[k].majority == s.stable
    ensures RunGaze(s, nav, frames).attempts == 0
    decreases |frames|
  {
    if frames != [] {
      var st := GazeFrame(s, nav, frames[0].raw, frames[0].majority, frames[0].now);
      assert st.state.stable == s.stable && st.state.dwellStart == s.dwellStart;
      NoAttemptWithoutNewEpisode(st.state, st.store, frames[1..]);
    }
  }

  /** At most one action attempt per stabilisation episode: over frames whose vote never leaves
      the stable direction, `handle_gaze_action` is called at most once. */
  lemma {:induction false} OneAttemptPerEpisode(s: GazeState, nav: Store, frames: seq<GazeInput>)
    requires forall k :: 0 <= k < |frames| ==> frames[k].majority == s.stable
    ensures RunGaze(s, nav, frames).attempts <= 1
    decreases |frames|
  {
    if frames != [] {
      var st := GazeFrame(s, nav, frames[0].raw, frames[0].majority, frames[0].now);
      assert st.state.stable == s.stable;
      if st.attempted {
        NoAttemptWithoutNewEpisode(st.state, st.store, frames[1..]);
      } else {
        OneAttemptPerEpisode(st.state, st.store, frames[1..]);
      }
    }
  }

  /** Every page change of a run comes at least 1.5 s after the `last_action_time` it started with. */
  lemma {:induction false} MovesAfterLastAction(s: GazeState, nav: Store, frames: seq<GazeInput>)
    ensures forall j :: 0 <= j < |RunGaze(s, nav, frames).moves| ==>
              RunGaze(s, nav, frames).moves[j] >= s.lastActionTime + ActionCooldown
    decreases |frames|
  {
    if frames != [] {
      var st := GazeFrame(s, nav, frames[0].raw, frames[0].majority, frames[0].now);
      var rest := RunGaze(st.state, st.store, frames[1..]);
      MovesAfterLastAction(st.state, st.store, frames[1..]);
      var head := if st.store != nav then [frames[0].now] else [];
      assert RunGaze(s, nav, frames).moves == head + rest.moves;
      assert st.state.lastActionTime >= s.lastActionTime;
    }
  }

  /** Any two page changes of a run are at least 1.5 s apart. */
  lemma {:induction false} MovesSpaced(s: GazeState, nav: Store, frames: seq<GazeInput>)
    ensures forall i, j :: 0 <= i < j < |RunGaze(s, nav, frames).moves| ==>
              RunGaze(s, nav, frames).moves[j] - RunGaze(s, nav, frames).moves[i] >= ActionCooldown
    decreases |frames|
  {
    if frames != [] {
      var st := GazeFrame(s, nav, frames[0].raw, frames[0].majority, frames[0].now);
      var rest := RunGaze(st.state, st.store, frames[1..]);
      MovesSpaced(st.state, st.store, frames[1..]);
      var head := if st.store != nav then [frames[0].now] else [];
      assert RunGaze(s, nav, frames).moves == head + rest.moves;
      if st.store != nav {
        MovesAfterLastAction(st.state, st.store, frames[1..]);
      }
    }
  }

  /** Over any run the page stays inside the document and the buffer holds at most ten entries. */
  lemma {:induction false} RunGazeKeepsBounds(s: GazeState, nav: Store, frames: seq<GazeInput>)
    requires Bounded(nav) && |s.recent| <= BufferSize
    ensures Bounded(RunGaze(s, nav, frames).store) && |RunGaze(s, nav, frames).state.recent| <= BufferSize
    decreases |frames|
  {
    if frames != [] {
      var st := GazeFrame(s, nav, frames[0].raw, frames[0].majority, frames[0].now);
      RunGazeKeepsBounds(st.state, st.store, frames[1..]);
    }
  }

  // ---------------------------------------------------------------------------
  // The controller object
  // ---------------------------------------------------------------------------

  class EyeGazeController {
    const shared: SharedState
    var recentGazes: seq<Gaze>
    var stableGaze: Gaze
    var gazeStartTime: Option<real>
    var lastActionTime: real

    ghost function State(): GazeState
      reads this
    {
      GazeState(recentGazes, stableGaze, gazeStartTime, lastActionTime)
    }

    constructor (shared: SharedState)
      ensures this.shared == shared && State() == InitialGaze()
    {
      this.shared := shared;
      recentGazes := [];
      stableGaze := Center;
      gazeStartTime := None;
      lastActionTime := 0.0;
    }

    /** `handle_gaze_action` */
    method HandleGazeAction(direction: Gaze, now: real)
      requires shared.Valid()
      modifies this, shared
      ensures shared.Valid()
      ensures var a := GazeAction(old(lastActionTime), old(shared.Model()), direction, now);
              lastActionTime == a.lastActionTime && shared.Model() == a.store
      ensures recentGazes == old(recentGazes) && stableGaze == old(stableGaze) && gazeStartTime == old(gazeStartTime)
    {
      if now - lastActionTime < ActionCooldown {
        return;
      }
      var currentPage := shared.GetPage();
      var newPage := currentPage;
      if direction == Right {
        if currentPage < shared.totalPages - 1 {
          newPage := currentPage + 1;
        }
      } else if direction == Left {
        if currentPage > 0 {
          newPage := currentPage - 1;
        }
      } else if direction == Up {
        newPage := 0;
      } else if direction == Down {
        newPage := shared.totalPages - 1;
      }
      if newPage != currentPage {
        var ok := shared.UpdatePage(newPage);
        if ok {
          lastActionTime := now;
        }
      }
    }

    /** The body of `run` for a frame with a face: classify, append, vote, dwell. `majority`
        is the vote taken, when the buffer was long enough for one. */
    method ProcessFrame(resolved: bool, dx: real, dy: real, now: real) returns (majority: Gaze)
      requires shared.Valid()
      modifies this, shared
      ensures shared.Valid()
      ensures |recentGazes| >= MinSamples ==> IsMajority(recentGazes, majority)
      ensures var r := GazeFrame(old(State()), old(shared.Model()), DetectGaze(resolved, dx, dy), majority, now);
              State() == r.state && shared.Model() == r.store
    {
      ghost var s0 := State();
      var direction := DetectGaze(resolved, dx, dy);
      recentGazes := Pushed(recentGazes, direction);
      majority := stableGaze;
      if |recentGazes| >= MinSamples {
        majority := MostCommon(recentGazes);
        if majority != stableGaze {
          gazeStartTime := Some(now);
          stableGaze := majority;
        } else if IsSet(gazeStartTime) && now - gazeStartTime.value > DwellTime && majority != Center {
          assert AttemptsAction(s0, direction, majority, now);
          HandleGazeAction(majority, now);
          gazeStartTime := None;
        }
      }
    }
  }
}
