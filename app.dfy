/** The controller slot of the web server (app.py): `start_control` replaces the running
    input controller by a new one of the requested kind, `stop_control` empties the slot,
    and `goto_page` moves the shared page and announces the move to the browser. */
module App {
  import opened Common
  import opened PageStore

  /** The three controllers `start_control` can create (app.py:124-131). */
  datatype ControlKind = EyeGaze | HandGesture | KeyboardVoice

  /** The `control_type` field of the request; a missing field is `None`. */
  function KindOf(ctype: Option<string>): Option<ControlKind> {
    if ctype == Some("eye_gaze") then Some(EyeGaze)
    else if ctype == Some("hand_gesture") then Some(HandGesture)
    else if ctype == Some("voice") then Some(KeyboardVoice)
    else None
  }

  /** The JSON replies: `{"success": True, "message": …}` or `{"success": False, "error": …}`. */
  datatype Reply = Success(message: string) | Failure(error: string)

  const NoDocumentError := "Upload PDF first"
  const InvalidTypeError := "Invalid control type"
  const StoppedMessage := "Control stopped"

  /** `f"{ctype} started"` */
  function StartedMessage(ctype: string): string {
    ctype + " started"
  }

  /** Python truthiness of `shared_state.pdf_path`: set and not the empty string. */
  predicate HasDocument(path: Option<string>) {
    path.Some? && path.value != []
  }

  // ---------------------------------------------------------------------------
  // Every controller the server has created, and the slot
  // ---------------------------------------------------------------------------

  /** A created controller: its kind and whether its thread is meant to run. */
  datatype Controller = Controller(kind: ControlKind, running: bool)

  /** All controllers created so far, oldest first, and the index of the one in
      `current_controller`, if any. */
  datatype Fleet = Fleet(controllers: seq<Controller>, current: Option<nat>)

  predicate WellFormed(f: Fleet) {
    f.current.Some? ==> f.current.value < |f.controllers|
  }

  /** Only the controller in the slot runs: `start_control` stops the old one before replacing it
      (app.py:121-122), and `stop_control` stops it before emptying the slot (app.py:151-153). */
  predicate OnlyCurrentRuns(f: Fleet) {
    WellFormed(f)
    && forall i :: 0 <= i < |f.controllers| && f.current != Some(i) ==> !f.controllers[i].running
  }

  /** `current_controller.stop()` when the slot holds one; nothing else changes. */
  function StopCurrent(f: Fleet): (r: Fleet)
    requires WellFormed(f)
    ensures WellFormed(r) && r.current == f.current && |r.controllers| == |f.controllers|
    ensures f.current.Some? ==> !r.controllers[f.current.value].running
    ensures forall i :: 0 <= i < |f.controllers| && f.current != Some(i) ==> r.controllers[i] == f.controllers[i]
    ensures forall i :: 0 <= i < |f.controllers| ==> r.controllers[i].kind == f.controllers[i].kind
  {
    match f.current
    case None => f
    case Some(i) => f.(controllers := f.controllers[i := f.controllers[i].(running := false)])
  }

  /** `start_control` on the fleet: no document means an error and no change at all; otherwise
      the old controller is stopped, and then either the slot receives a new, started
      controller of the requested kind or, for an unknown kind, the error is returned with
      the stopped controller left in the slot. */
  function StartStep(f: Fleet, hasDocument: bool, ctype: Option<string>): (r: (Fleet, Reply))
    requires WellFormed(f)
    ensures WellFormed(r.0)
    ensures !hasDocument ==> r == (f, Failure(NoDocumentError))
    ensures hasDocument && KindOf(ctype).None? ==> r == (StopCurrent(f), Failure(InvalidTypeError))
    ensures hasDocument && KindOf(ctype).Some? ==>
              r.1 == Success(StartedMessage(ctype.value))
              && r.0.current == Some(|f.controllers|)
              && r.0.controllers == StopCurrent(f).controllers + [Controller(KindOf(ctype).value, true)]
  {
    if !hasDocument then (f, Failure(NoDocumentError))
    else
      var stopped := StopCurrent(f);
      match KindOf(ctype)
      case None => (stopped, Failure(InvalidTypeError))
      case Some(k) =>
        (Fleet(stopped.controllers + [Controller(k, true)], Some(|f.controllers|)),
         Success(StartedMessage(ctype.value)))
  }

  /** `stop_control`: stops the controller in the slot and empties it. */
  function StopStep(f: Fleet): (r: Fleet)
    requires WellFormed(f)
    ensures WellFormed(r) && r.current.None?
    // only the slot's controller is stopped; an empty slot makes the request a no-op
    ensures r.controllers == StopCurrent(f).controllers
    ensures f.current.None? ==> r == f
  {
    Fleet(StopCurrent(f).controllers, None)
  }

  /** The replaced controller is stopped before anything else happens, and so is every
      controller a successful start leaves behind: starting keeps "only the slot runs". */
  lemma StartKeepsOneRunning(f: Fleet, hasDocument: bool, ctype: Option<string>)
    requires OnlyCurrentRuns(f)
    ensures OnlyCurrentRuns(StartStep(f, hasDocument, ctype).0)
    ensures hasDocument && f.current.Some? ==>
              !StartStep(f, hasDocument, ctype).0.controllers[f.current.value].running
  {
    var r := StartStep(f, hasDocument, ctype).0;
    if hasDocument && KindOf(ctype).Some? {
      var s := StopCurrent(f);
      assert forall i :: 0 <= i < |f.controllers| ==> r.controllers[i] == s.controllers[i];
    }
  }

  /** After `stop_control` nothing runs. */
  lemma StopStopsAll(f: Fleet)
    requires OnlyCurrentRuns(f)
    ensures OnlyCurrentRuns(StopStep(f))
    ensures forall i :: 0 <= i < |f.controllers| ==> !StopStep(f).controllers[i].running
  {
  }

  /** A request to the controller endpoints. */
  datatype Request = StartRequest(hasDocument: bool, ctype: Option<string>) | StopRequest

  function Serve(f: Fleet, reqs: seq<Request>): (r: Fleet)
    requires WellFormed(f)
    ensures WellFormed(r)
    decreases |reqs|
  {
    if reqs == [] then f
    else
      var g := match reqs[0]
        case StartRequest(d, c) => StartStep(f, d, c).0
        case StopRequest => StopStep(f);
      Serve(g, reqs[1..])
  }

  /** Whatever the order of requests: at most one controller runs, it is the one in the slot,
      controllers are never forgotten or changed in kind, and a stopped controller never runs
      again. */
  lemma {:induction false} ServeKeepsOneRunning(f: Fleet, reqs: seq<Request>)
    requires OnlyCurrentRuns(f)
    ensures OnlyCurrentRuns(Serve(f, reqs))
    ensures |Serve(f, reqs).controllers| >= |f.controllers|
    ensures forall i :: 0 <= i < |f.controllers| ==> Serve(f, reqs).controllers[i].kind == f.controllers[i].kind
    ensures forall i :: 0 <= i < |f.controllers| && !f.controllers[i].running ==>
              !Serve(f, reqs).controllers[i].running
    decreases |reqs|
  {
    if reqs != [] {
      var g := match reqs[0]
        case StartRequest(d, c) => StartStep(f, d, c).0
        case StopRequest => StopStep(f);
      match reqs[0] {
        case StartRequest(d, c) => StartKeepsOneRunning(f, d, c);
        case StopRequest => StopStopsAll(f);
      }
      assert |g.controllers| >= |f.controllers|;
      ServeKeepsOneRunning(g, reqs[1..]);
    }
  }

  /** With `OnlyCurrentRuns`, two running controllers are the same one. */
  lemma AtMostOneRuns(f: Fleet, i: nat, j: nat)
    requires OnlyCurrentRuns(f)
    requires i < |f.controllers| && j < |f.controllers|
    requires f.controllers[i].running && f.controllers[j].running
    ensures i == j && f.current == Some(i)
  {
  }

  // ---------------------------------------------------------------------------
  // goto_page (app.py:160-174)
  // ---------------------------------------------------------------------------

  /** The `page_update` event: a 1-based page number and the page count. */
  datatype PageUpdate = PageUpdate(pageNumber: int, totalPages: int)

  /** The events a sequence of `goto_page` requests emits, and the store afterwards. */
  function GotoEvents(nav: Store, pageNums: seq<int>): (seq<PageUpdate>, Store)
    decreases |pageNums|
  {
    if pageNums == [] then ([], nav)
    else
      var p := pageNums[0];
      var next := WithPage(nav, p);
      var rest := GotoEvents(next, pageNums[1..]);
      (if Accepts(nav, p) then [PageUpdate(p + 1, nav.totalPages)] + rest.0 else rest.0, rest.1)
  }

  /** Every announced page is a real page of the document, 1-based, announced with the
      document's page count; at most one event per request, and a single request is announced
      exactly when the store accepts it; and when anything was announced, the last announcement
      is where the reader is. */
  lemma {:induction false} GotoAnnouncesOnlyRealPages(nav: Store, pageNums: seq<int>)
    ensures var (events, after) := GotoEvents(nav, pageNums);
            (forall k :: 0 <= k < |events| ==>
               1 <= events[k].pageNumber <= nav.totalPages && events[k].totalPages == nav.totalPages)
            && |events| <= |pageNums|
            && after.totalPages == nav.totalPages
            && (events != [] ==> after.currentPage == events[|events| - 1].pageNumber - 1)
            && (events == [] ==> after == nav)
    ensures |pageNums| == 1 ==>
              GotoEvents(nav, pageNums).0 == (if Accepts(nav, pageNums[0]) then [PageUpdate(pageNums[0] + 1, nav.totalPages)] else [])
    decreases |pageNums|
  {
    if pageNums != [] {
      GotoAnnouncesOnlyRealPages(WithPage(nav, pageNums[0]), pageNums[1..]);
    }
  }

  // ---------------------------------------------------------------------------
  // The objects
  // ---------------------------------------------------------------------------

  /** A controller object as the server sees it: its kind and the running flag that its
      `start` sets and its `stop` clears. */
  class ControllerHandle {
    const kind: ControlKind
    var running: bool

    /** The controllers' constructors leave them stopped. */
    constructor (kind: ControlKind)
      ensures this.kind == kind && !running
    {
      this.kind := kind;
      running := false;
    }

    method Start()
      modifies this
      ensures running
    {
      running := true;
    }

    method Stop()
      modifies this
      ensures !running
    {
      running := false;
    }
  }

  /** The module-level `current_controller`, the shared state and the emitted events, with
      every controller created so far kept as ghost state. */
  class ControlServer {
    const shared: SharedState
    var current: ControllerHandle?
    var emitted: seq<PageUpdate>
    ghost var spawned: seq<ControllerHandle>
    ghost var currentIndex: Option<nat>

    ghost function View(): Fleet
      reads this, spawned
    {
      Fleet(seq(|spawned|, i reads this, spawned requires 0 <= i < |spawned| =>
                  Controller(spawned[i].kind, spawned[i].running)),
            currentIndex)
    }

    ghost predicate Valid()
      reads this, spawned
    {
      WellFormed(View())
      && (current == null <==> currentIndex.None?)
      && (currentIndex.Some? ==> spawned[currentIndex.value] == current)
      && (forall i, j :: 0 <= i < j < |spawned| ==> spawned[i] != spawned[j])
      && OnlyCurrentRuns(View())
    }

    constructor (shared: SharedState)
      ensures this.shared == shared && current == null && emitted == []
      ensures Valid() && View() == Fleet([], None)
    {
      this.shared := shared;
      current := null;
      emitted := [];
      spawned := [];
      currentIndex := None;
    }

    /** `start_control` */
    method StartControl(ctype: Option<string>) returns (reply: Reply)
      requires Valid()
      modifies this, spawned
      ensures Valid()
      ensures (View(), reply) == StartStep(old(View()), HasDocument(old(shared.pdfPath)), ctype)
      ensures current != old(current) ==> current != null && fresh(current) && current.running
      ensures emitted == old(emitted)
    {
      if !HasDocument(shared.pdfPath) {
        return Failure(NoDocumentError);
      }
      if current != null {
        StopHandle();
      }
      var kind := KindOf(ctype);
      if kind.None? {
        return Failure(InvalidTypeError);
      }
      Install(kind.value);
      return Success(StartedMessage(ctype.value));
    }

    /** `current_controller = Controller(...)` followed by `current_controller.start()`, once
        every earlier controller is stopped. */
    method Install(kind: ControlKind)
      requires Valid() && forall i :: 0 <= i < |View().controllers| ==> !View().controllers[i].running
      modifies this
      ensures Valid() && fresh(current) && current.kind == kind && current.running
      ensures View() == Fleet(old(View()).controllers + [Controller(kind, true)], Some(|old(View()).controllers|))
      ensures emitted == old(emitted)
    {
      ghost var before := View();
      var c := new ControllerHandle(kind);
      current := c;
      spawned := spawned + [c];
      currentIndex := Some(|spawned| - 1);
      c.Start();
      assert View().controllers == before.controllers + [Controller(kind, true)] by {
        forall i | 0 <= i < |before.controllers|
          ensures View().controllers[i] == before.controllers[i]
        {
          assert spawned[i] != c;
        }
      }
    }

    /** `current_controller.stop()` on the controller in the slot. */
    method StopHandle()
      requires Valid() && current != null
      modifies spawned
      ensures Valid()
      ensures View() == StopCurrent(old(View()))
    {
      ghost var before := View();
      ghost var idx := currentIndex.value;
      current.Stop();
      forall i | 0 <= i < |spawned| && i != idx
        ensures View().controllers[i] == before.controllers[i]
      {
        assert spawned[i] != spawned[idx];
      }
    }

    /** `stop_control` */
    method StopControl() returns (reply: Reply)
      requires Valid()
      modifies this, spawned
      ensures Valid()
      ensures View() == StopStep(old(View())) && current == null
      ensures reply == Success(StoppedMessage) && emitted == old(emitted)
    {
      if current != null {
        StopHandle();
        current := null;
        currentIndex := None;
      }
      return Success(StoppedMessage);
    }

    /** `goto_page`: the page moves and `page_update` is emitted exactly when `update_page`
        accepts the page. */
    method GotoPage(pageNum: int) returns (success: bool)
      requires shared.Valid()
      modifies shared, this
      ensures shared.Valid()
      ensures success <==> Accepts(old(shared.Model()), pageNum)
      ensures shared.Model() == GotoEvents(old(shared.Model()), [pageNum]).1
      ensures emitted == old(emitted) + GotoEvents(old(shared.Model()), [pageNum]).0
      ensures current == old(current) && spawned == old(spawned) && currentIndex == old(currentIndex)
    {
      success := shared.UpdatePage(pageNum);
      if success {
        emitted := emitted + [PageUpdate(pageNum + 1, shared.totalPages)];
      }
    }
  }
}
