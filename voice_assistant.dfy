/** The microphone voice controller (modules/voice_assistant.py): a recognised utterance is
    normalised and run through a priority-ordered cascade of substring tests and regular
    expressions that yields one intent (quit, help, status, zoom, repeat or a page target);
    a page target is then applied through the shared store, and the last successful target
    is remembered for "repeat". The utterance is an input; speech recognition is not part of
    this model. */
module VoiceAssistant {
  import opened Common
  import opened Text
  import opened PageStore

  // The zoom bounds and step of `_handle_zoom_commands` (modules/voice_assistant.py:245-268).
  const MinZoom: int := 25
  const MaxZoom: int := 500
  const ZoomStep: int := 25

  // ---------------------------------------------------------------------------
  // The phrase sets and patterns, in the order the cascade tests them
  // ---------------------------------------------------------------------------

  const QuitPhrases: seq<string> := ["quit", "exit", "stop listening", "stop voice"]
  const StatusPhrases: seq<string> := ["status", "where am i", "which page"]
  const NextPhrases: seq<string> := ["next page", "next", "forward"]
  const PreviousPhrases: seq<string> := ["previous page", "previous", "back", "back page"]
  const FirstPhrases: seq<string> := ["first page", "go to start", "beginning", "home page"]
  const LastPhrases: seq<string> := ["last page", "go to end", "final page", "end page"]
  const MiddlePhrases: seq<string> := ["middle", "center", "halfway"]
  const ResetPhrases: seq<string> := ["back to normal", "normal zoom", "reset zoom"]
  const HundredPhrases: seq<string> := ["zoom 100", "hundred percent"]

  /** `jump (forward|ahead) (\d+)` */
  const JumpForward: Pattern := LiteralNumber(["jump forward ", "jump ahead "])
  /** `jump (back|backward) (\d+)` */
  const JumpBack: Pattern := LiteralNumber(["jump back ", "jump backward "])
  /** `page\s+(\d+)` */
  const PageNumber: Pattern := KeywordNumber("page")
  /** `\b(\d+)\b` */
  const BareNumber: Pattern := StandaloneNumber
  /** `zoom\s+(\d+)%?`: the optional percent sign does not change the capture. */
  const ZoomNumber: Pattern := KeywordNumber("zoom")

  // ---------------------------------------------------------------------------
  // Zoom phrases (modules/voice_assistant.py:241-274)
  // ---------------------------------------------------------------------------

  datatype ZoomCommand =
    | ZoomIn
    | ZoomOut
    | ZoomReset
    | ZoomTo(level: nat)
    | ZoomRejected(level: nat)   // "zoom N" with N outside [25, 500]
    | ZoomUnrecognised

  /** The zoom phrase a normalised utterance holds, tested in the order of `_handle_zoom_commands`. */
  function ZoomCommandOf(t: string): (c: ZoomCommand)
    ensures Contains(t, "zoom in") ==> c == ZoomIn
    ensures c == ZoomIn ==> Contains(t, "zoom in")
    ensures !Contains(t, "zoom in") && Contains(t, "zoom out") ==> c == ZoomOut
    ensures c == ZoomOut ==> Contains(t, "zoom out") && !Contains(t, "zoom in")
    // then the reset phrases, then the hundred-percent phrases
    ensures !Contains(t, "zoom in") && !Contains(t, "zoom out") && ContainsAny(t, ResetPhrases) ==> c == ZoomReset
    ensures !Contains(t, "zoom in") && !Contains(t, "zoom out") && ContainsAny(t, HundredPhrases) ==> c == ZoomReset
    ensures c == ZoomReset ==> ContainsAny(t, ResetPhrases) || ContainsAny(t, HundredPhrases)
    // "zoom 100" is a substring test, so any number starting with 100 resets
    ensures Contains(t, "zoom 100") && !Contains(t, "zoom in") && !Contains(t, "zoom out") ==> c == ZoomReset
    ensures c.ZoomTo? ==> MinZoom <= c.level <= MaxZoom && Search(t, ZoomNumber) == Some(c.level)
    ensures c.ZoomRejected? ==> !(MinZoom <= c.level <= MaxZoom) && Search(t, ZoomNumber) == Some(c.level)
    ensures c == ZoomUnrecognised ==> Search(t, ZoomNumber).None?
    // past every phrase, "zoom N" names the level, accepted or not
    ensures !Contains(t, "zoom in") && !Contains(t, "zoom out") && !ContainsAny(t, ResetPhrases)
            && !ContainsAny(t, HundredPhrases) && Search(t, ZoomNumber).Some? ==>
              (c.ZoomTo? || c.ZoomRejected?) && c.level == Search(t, ZoomNumber).value
  {
    if Contains(t, "zoom in") then ZoomIn
    else if Contains(t, "zoom out") then ZoomOut
    else if ContainsAny(t, ResetPhrases) then ZoomReset
    else if ContainsAny(t, HundredPhrases) then ZoomReset
    else
      match Search(t, ZoomNumber)
      case Some(n) => if MinZoom <= n <= MaxZoom then ZoomTo(n) else ZoomRejected(n)
      case None => ZoomUnrecognised
  }

  /** The store after a zoom phrase: +25 capped at 500, -25 floored at 25, 100 on a reset,
      N for an accepted "zoom N", unchanged otherwise. */
  function ApplyZoom(c: ZoomCommand, nav: Store): (r: Store)
    ensures r.currentPage == nav.currentPage && r.totalPages == nav.totalPages && r.pdfPath == nav.pdfPath
    ensures MinZoom <= nav.zoom <= MaxZoom && (c.ZoomTo? ==> MinZoom <= c.level <= MaxZoom) ==>
              MinZoom <= r.zoom <= MaxZoom
    ensures c == ZoomIn ==> r.zoom == Min(MaxZoom, nav.zoom + ZoomStep)
    ensures c == ZoomOut ==> r.zoom == Max(MinZoom, nav.zoom - ZoomStep)
    ensures c == ZoomReset ==> r.zoom == ResetZoomLevel
    ensures c.ZoomTo? ==> r.zoom == c.level
    ensures c.ZoomRejected? || c == ZoomUnrecognised ==> r == nav
  {
    match c
    case ZoomIn => WithZoom(nav, Min(MaxZoom, nav.zoom + ZoomStep))
    case ZoomOut => WithZoom(nav, Max(MinZoom, nav.zoom - ZoomStep))
    case ZoomReset => WithZoom(nav, ResetZoomLevel)
    case ZoomTo(n) => WithZoom(nav, n)
    case ZoomRejected(_) => nav
    case ZoomUnrecognised => nav
  }

  // ---------------------------------------------------------------------------
  // The intent cascade (modules/voice_assistant.py:120-238)
  // ---------------------------------------------------------------------------

  datatype Intent =
    | Quit
    | Help
    | Status
    | ZoomIntent(cmd: ZoomCommand)
    | Repeat(target: int)       // "repeat" with a remembered target
    | Move(target: int)         // a page target to hand to `_apply_page_change`
    | OutOfRange                // a page number outside the document
    | NoPageNumber              // "page" without any number
    | Unknown

  /** A one-based page number as a target: `N - 1` when it lies in `[0, total)`. */
  function OneBased(n: int, total: int): (r: Intent)
    ensures r.Move? <==> 1 <= n <= total
    ensures r.Move? ==> r.target == n - 1 && 0 <= r.target < total
    ensures !r.Move? ==> r == OutOfRange
  {
    if 0 <= n - 1 < total then Move(n - 1) else OutOfRange
  }

  /** The relative jump of "jump forward|ahead N" or "jump back|backward N", when one matches. */
  function JumpTarget(t: string, cur: int, total: int): (r: Option<int>)
    ensures r.Some? <==> Search(t, JumpForward).Some? || Search(t, JumpBack).Some?
    ensures Search(t, JumpForward).Some? ==> r == Some(Min(total - 1, cur + Search(t, JumpForward).value))
    ensures Search(t, JumpForward).None? && Search(t, JumpBack).Some? ==>
              r == Some(Max(0, cur - Search(t, JumpBack).value))
  {
    match Search(t, JumpForward)
    case Some(n) => Some(Min(total - 1, cur + n))
    case None =>
      match Search(t, JumpBack)
      case Some(n) => Some(Max(0, cur - n))
      case None => None
  }

  /** The "page" branch: an explicit "page N", else the first standalone number. */
  function PageNumberIntent(t: string, total: int): (r: Intent)
    ensures r.Move? || r == OutOfRange || r == NoPageNumber
    ensures r.Move? ==> 0 <= r.target < total
    ensures Search(t, PageNumber).Some? ==> r == OneBased(Search(t, PageNumber).value, total)
    ensures r == NoPageNumber <==> Search(t, PageNumber).None? && Search(t, BareNumber).None?
    // without "page N", the first standalone number is read as the page
    ensures Search(t, PageNumber).None? && Search(t, BareNumber).Some? ==>
              r == OneBased(Search(t, BareNumber).value, total)
  {
    match Search(t, PageNumber)
    case Some(n) => OneBased(n, total)
    case None =>
      match Search(t, BareNumber)
      case Some(n) => OneBased(n, total)
      case None => NoPageNumber
  }

  /** `max(0, total // 2)`, the target of "middle"; `//` floors, like Dafny's `/` here. */
  function MiddlePage(total: int): (r: int)
    ensures 0 < total ==> 0 <= r < total
  {
    Max(0, total / 2)
  }

  /** The navigation rules after "next" and "previous", in the order the code tests them. */
  function LaterNavigation(t: string, cur: int, total: int): (r: Intent)
    ensures r.Move? || r == OutOfRange || r == NoPageNumber || r == Unknown
    ensures 0 <= cur < total && r.Move? ==> 0 <= r.target < total
    // first, last and middle, in that order
    ensures ContainsAny(t, FirstPhrases) ==> r == Move(0)
    ensures !ContainsAny(t, FirstPhrases) && ContainsAny(t, LastPhrases) ==> r == Move(total - 1)
    ensures !ContainsAny(t, FirstPhrases) && !ContainsAny(t, LastPhrases) && ContainsAny(t, MiddlePhrases) ==>
              r == Move(MiddlePage(total))
    // then a relative jump, which stays on the current page when no jump pattern matches
    ensures !ContainsAny(t, FirstPhrases) && !ContainsAny(t, LastPhrases) && !ContainsAny(t, MiddlePhrases)
            && Contains(t, "jump") && Contains(t, "page") ==>
              r == Move(if JumpTarget(t, cur, total).Some? then JumpTarget(t, cur, total).value else cur)
    // then "page" with a number, then an utterance that is only digits
    ensures !ContainsAny(t, FirstPhrases) && !ContainsAny(t, LastPhrases) && !ContainsAny(t, MiddlePhrases)
            && !Contains(t, "jump") && Contains(t, "page") ==>
              r == PageNumberIntent(t, total)
    ensures !ContainsAny(t, FirstPhrases) && !ContainsAny(t, LastPhrases) && !ContainsAny(t, MiddlePhrases)
            && !Contains(t, "page") && IsDigits(t) ==>
              r == OneBased(Value(t), total)
    // an utterance none of the rules catches is not understood
    ensures r == Unknown <==>
              !ContainsAny(t, FirstPhrases) && !ContainsAny(t, LastPhrases) && !ContainsAny(t, MiddlePhrases)
              && !Contains(t, "page") && !IsDigits(t)
  {
    if ContainsAny(t, FirstPhrases) then Move(0)
    else if ContainsAny(t, LastPhrases) then Move(total - 1)
    else if ContainsAny(t, MiddlePhrases) then Move(MiddlePage(total))
    else if Contains(t, "jump") && Contains(t, "page") then
      match JumpTarget(t, cur, total)
      case Some(p) => Move(p)
      case None => Move(cur)
    else if Contains(t, "page") then PageNumberIntent(t, total)
    else if IsDigits(t) then OneBased(Value(t), total)
    else Unknown
  }

  /** The navigation rules of `handle_command` in the order the code tests them. */
  function NavigationAsWritten(t: string, cur: int, total: int): (r: Intent)
    ensures r.Move? || r == OutOfRange || r == NoPageNumber || r == Unknown
    // any "next"/"forward" wins over every later rule, and any "previous"/"back" over all but that
    ensures ContainsAny(t, NextPhrases) ==> r == Move(Min(total - 1, cur + 1))
    ensures !ContainsAny(t, NextPhrases) && ContainsAny(t, PreviousPhrases) ==> r == Move(Max(0, cur - 1))
    // every other utterance is judged by the later rules
    ensures !ContainsAny(t, NextPhrases) && !ContainsAny(t, PreviousPhrases) ==> r == LaterNavigation(t, cur, total)
    // inside a document with pages, every target is a page of it
    ensures 0 <= cur < total && r.Move? ==> 0 <= r.target < total
  {
    if ContainsAny(t, NextPhrases) then Move(Min(total - 1, cur + 1))
    else if ContainsAny(t, PreviousPhrases) then Move(Max(0, cur - 1))
    else LaterNavigation(t, cur, total)
  }


  /** The navigation rules with a matching relative jump tested first, which is what the
      jump branch is there for: "jump back 2 pages" moves two pages back. */
  function Navigation(t: string, cur: int, total: int): (r: Intent)
    ensures r.Move? || r == OutOfRange || r == NoPageNumber || r == Unknown
    ensures Contains(t, "jump") && Contains(t, "page") && JumpTarget(t, cur, total).Some? ==>
              r == Move(JumpTarget(t, cur, total).value)
    ensures !(Contains(t, "jump") && Contains(t, "page") && JumpTarget(t, cur, total).Some?) ==>
              r == NavigationAsWritten(t, cur, total)
    ensures 0 <= cur < total && r.Move? ==> 0 <= r.target < total
  {
    if Contains(t, "jump") && Contains(t, "page") && JumpTarget(t, cur, total).Some? then
      Move(JumpTarget(t, cur, total).value)
    else NavigationAsWritten(t, cur, total)
  }

  /** The meta commands that come before navigation: quit, help, status, zoom, repeat. */
  function MetaIntent(t: string, lastNav: Option<int>): (r: Option<Intent>)
    // a quit phrase wins over everything; plain "stop" is not one
    ensures ContainsAny(t, QuitPhrases) <==> r == Some(Quit)
    ensures r.Some? && r.value.Repeat? ==> lastNav == Some(r.value.target)
    ensures r.Some? ==> r.value.Quit? || r.value.Help? || r.value.Status? || r.value.ZoomIntent? || r.value.Repeat?
    // then help, status, zoom and repeat, each only when no earlier test holds
    ensures !ContainsAny(t, QuitPhrases) && Contains(t, "help") ==> r == Some(Help)
    ensures !ContainsAny(t, QuitPhrases) && !Contains(t, "help") && ContainsAny(t, StatusPhrases) ==> r == Some(Status)
    ensures !ContainsAny(t, QuitPhrases) && !Contains(t, "help") && !ContainsAny(t, StatusPhrases)
            && Contains(t, "zoom") ==>
              r == Some(ZoomIntent(ZoomCommandOf(t)))
    ensures !ContainsAny(t, QuitPhrases) && !Contains(t, "help") && !ContainsAny(t, StatusPhrases)
            && !Contains(t, "zoom") && Contains(t, "repeat") && lastNav.Some? ==>
              r == Some(Repeat(lastNav.value))
    // navigation is reached exactly when none of them holds
    ensures r.None? <==>
              !ContainsAny(t, QuitPhrases) && !Contains(t, "help") && !ContainsAny(t, StatusPhrases)
              && !Contains(t, "zoom") && !(Contains(t, "repeat") && lastNav.Some?)
  {
    if ContainsAny(t, QuitPhrases) then Some(Quit)
    else if Contains(t, "help") then Some(Help)
    else if ContainsAny(t, StatusPhrases) then Some(Status)
    else if Contains(t, "zoom") then Some(ZoomIntent(ZoomCommandOf(t)))
    else if Contains(t, "repeat") && lastNav.Some? then Some(Repeat(lastNav.value))
    else None
  }

  /** `handle_command` on the normalised utterance `t`, as the code is written. */
  function InterpretAsWritten(t: string, cur: int, total: int, lastNav: Option<int>): (r: Intent)
    // past the meta commands, an utterance containing "forward" always moves one page on and
    // one containing "back" (and no "next"/"forward") one page back: "jump forward N",
    // "jump back N" and "jump backward N" never reach the jump rule ("jump ahead N" does)
    ensures MetaIntent(t, lastNav).None? && Contains(t, "forward") ==> r == Move(Min(total - 1, cur + 1))
    ensures MetaIntent(t, lastNav).None? && !ContainsAny(t, NextPhrases) && Contains(t, "back") ==>
              r == Move(Max(0, cur - 1))
    // the meta commands first, then the navigation rules
    ensures MetaIntent(t, lastNav).Some? ==> r == MetaIntent(t, lastNav).value
    ensures MetaIntent(t, lastNav).None? ==> r == NavigationAsWritten(t, cur, total)
    ensures r == Quit <==> ContainsAny(t, QuitPhrases)
    ensures 0 <= cur < total && (lastNav.Some? ==> 0 <= lastNav.value < total) ==>
              (r.Move? ==> 0 <= r.target < total) && (r.Repeat? ==> 0 <= r.target < total)
  {
    match MetaIntent(t, lastNav)
    case Some(i) => i
    case None => NavigationAsWritten(t, cur, total)
  }

  /** `handle_command` on the normalised utterance `t`, with a matching relative jump tested first. */
  function Interpret(t: string, cur: int, total: int, lastNav: Option<int>): (r: Intent)
    ensures r == Quit <==> ContainsAny(t, QuitPhrases)
    // the meta commands first, then the navigation rules
    ensures MetaIntent(t, lastNav).Some? ==> r == MetaIntent(t, lastNav).value
    ensures MetaIntent(t, lastNav).None? ==> r == Navigation(t, cur, total)
    // every target handed to the store lies in the document when the current page and the
    // remembered target do
    ensures 0 <= cur < total && (lastNav.Some? ==> 0 <= lastNav.value < total) ==>
              (r.Move? ==> 0 <= r.target < total) && (r.Repeat? ==> 0 <= r.target < total)
  {
    match MetaIntent(t, lastNav)
    case Some(i) => i
    case None => Navigation(t, cur, total)
  }

  /** The two interpreters differ only on an utterance with a matching relative jump, and
      there the corrected one moves by the jump. */
  lemma InterpretersDifferOnlyOnJumps(t: string, cur: int, total: int, lastNav: Option<int>)
    ensures Interpret(t, cur, total, lastNav) != InterpretAsWritten(t, cur, total, lastNav) ==>
              && MetaIntent(t, lastNav).None?
              && Contains(t, "jump") && Contains(t, "page") && JumpTarget(t, cur, total).Some?
              && Interpret(t, cur, total, lastNav) == Move(JumpTarget(t, cur, total).value)
  {
  }

  /** As written, an utterance that none of the earlier phrases catches, with "jump" and "page"
      and a match of `jump (forward|ahead) (\d+)` ("jump ahead 3 pages"), does reach the jump
      rule, and both interpreters move forward by its number. */
  lemma JumpAheadReachedAsWritten(t: string, cur: int, total: int, lastNav: Option<int>)
    requires MetaIntent(t, lastNav).None?
    requires !ContainsAny(t, NextPhrases) && !ContainsAny(t, PreviousPhrases)
    requires !ContainsAny(t, FirstPhrases) && !ContainsAny(t, LastPhrases) && !ContainsAny(t, MiddlePhrases)
    requires Contains(t, "jump") && Contains(t, "page") && Search(t, JumpForward).Some?
    ensures InterpretAsWritten(t, cur, total, lastNav) == Move(Min(total - 1, cur + Search(t, JumpForward).value))
    ensures Interpret(t, cur, total, lastNav) == InterpretAsWritten(t, cur, total, lastNav)
  {
  }

  /** Every match of `jump (back|backward) (\d+)` contains "jump" and "back". */
  lemma JumpBackWords(t: string)
    requires Search(t, JumpBack).Some?
    ensures Contains(t, "jump") && Contains(t, "back")
  {
    var alts := ["jump back ", "jump backward "];
    SearchLiteralSome(t, alts);
    assert alts[0][..4] == "jump" && alts[0][5..9] == "back";
    assert alts[1][..4] == "jump" && alts[1][5..9] == "back";
    SomeJumpBackAt(t, alts);
  }

  /** Some phrase of `alts`, each of which starts with "jump" and has "back" at offset 5,
      occurs in `t`. */
  lemma SomeJumpBackAt(t: string, alts: seq<string>)
    requires exists i, k :: 0 <= i <= |t| && 0 <= k < |alts| && alts[k] <= t[i..]
    requires forall k :: 0 <= k < |alts| ==> |alts[k]| >= 9 && alts[k][..4] == "jump" && alts[k][5..9] == "back"
    ensures Contains(t, "jump") && Contains(t, "back")
  {
    var i, k :| 0 <= i <= |t| && 0 <= k < |alts| && alts[k] <= t[i..];
    JumpBackAt(t, i, alts[k]);
  }

  /** A phrase that starts with "jump" and has "back" at offset 5, found at position `i`. */
  lemma JumpBackAt(t: string, i: nat, alt: string)
    requires i <= |t| && alt <= t[i..]
    requires |alt| >= 9 && alt[..4] == "jump" && alt[5..9] == "back"
    ensures Contains(t, "jump") && Contains(t, "back")
  {
    assert t[i..][..4] == "jump" && t[i..][5..9] == "back";
    assert "jump" <= t[i..];
    assert t[i + 5..] == t[i..][5..];
    assert "back" <= t[i + 5..];
    ContainsAt(t, "jump", i);
    ContainsAt(t, "back", i + 5);
  }

  /** As written, an utterance matching `jump (back|backward) (\d+)` is caught by the
      previous-page rule: it moves one page back, whatever number it names. */
  lemma JumpBackUnreachableAsWritten(t: string, cur: int, total: int, lastNav: Option<int>)
    requires MetaIntent(t, lastNav).None? && !ContainsAny(t, NextPhrases)
    requires Search(t, JumpBack).Some?
    ensures InterpretAsWritten(t, cur, total, lastNav) == Move(Max(0, cur - 1))
  {
    JumpBackWords(t);
  }

  /** With a matching relative jump tested first, the same utterance moves back by the number it names. */
  lemma JumpBackReached(t: string, cur: int, total: int, lastNav: Option<int>)
    requires MetaIntent(t, lastNav).None? && Contains(t, "page")
    requires Search(t, JumpForward).None? && Search(t, JumpBack).Some?
    ensures Interpret(t, cur, total, lastNav) == Move(Max(0, cur - Search(t, JumpBack).value))
  {
    JumpBackWords(t);
  }

  // ---------------------------------------------------------------------------
  // Applying an intent (modules/voice_assistant.py:120-124, 277-288)
  // ---------------------------------------------------------------------------

  /** The controller's own fields: `last_command_text`, `last_nav_target`, `is_running`. */
  datatype VoiceState = VoiceState(lastCommandText: Option<string>, lastNavTarget: Option<int>, running: bool)

  function InitialVoice(): VoiceState {
    VoiceState(None, None, false)
  }

  datatype VoiceStep = VoiceStep(state: VoiceState, store: Store)

  /** `_apply_page_change(current, target)`: nothing if the target is the current page;
      otherwise `update_page`, and only a successful one is remembered. */
  function PageChange(vs: VoiceState, nav: Store, target: int): (r: VoiceStep)
    ensures r.store == (if target == nav.currentPage then nav else WithPage(nav, target))
    ensures r.state.lastNavTarget != vs.lastNavTarget ==> r.state.lastNavTarget == Some(target)
    ensures r.state.lastNavTarget == Some(target) && vs.lastNavTarget != Some(target) ==>
              Accepts(nav, target) && r.store.currentPage == target
    ensures r.state.lastCommandText == vs.lastCommandText && r.state.running == vs.running
    // a new page the store accepts is moved to and remembered; any other target changes nothing
    ensures target != nav.currentPage && Accepts(nav, target) ==>
              r.state.lastNavTarget == Some(target) && r.store.currentPage == target
    ensures target == nav.currentPage || !Accepts(nav, target) ==> r == VoiceStep(vs, nav)
  {
    if target == nav.currentPage then VoiceStep(vs, nav)
    else if Accepts(nav, target) then VoiceStep(vs.(lastNavTarget := Some(target)), WithPage(nav, target))
    else VoiceStep(vs, nav)
  }

  /** The remembered target is a page of the document. */
  predicate TargetInDocument(vs: VoiceState, nav: Store) {
    vs.lastNavTarget.Some? ==> Accepts(nav, vs.lastNavTarget.value)
  }

  /** What an intent does: quit stops the controller and touches nothing else; a zoom phrase
      changes only the zoom; a target (a page or the remembered one) goes through
      `_apply_page_change`; help, status and the failures change nothing. */
  function Effect(vs: VoiceState, nav: Store, i: Intent): (r: VoiceStep)
    ensures i == Quit ==> r == VoiceStep(vs.(running := false), nav)
    ensures i.ZoomIntent? ==> r == VoiceStep(vs, ApplyZoom(i.cmd, nav))
    ensures i.Repeat? || i.Move? ==> r == PageChange(vs, nav, i.target)
    ensures i.Help? || i.Status? || i.OutOfRange? || i.NoPageNumber? || i.Unknown? ==> r == VoiceStep(vs, nav)
    ensures r.state.lastCommandText == vs.lastCommandText
    ensures r.store.totalPages == nav.totalPages && r.store.pdfPath == nav.pdfPath
  {
    match i
    case Quit => VoiceStep(vs.(running := false), nav)
    case ZoomIntent(c) => VoiceStep(vs, ApplyZoom(c, nav))
    case Repeat(p) => PageChange(vs, nav, p)
    case Move(p) => PageChange(vs, nav, p)
    case _ => VoiceStep(vs, nav)
  }

  /** Whatever the intent, the page stays inside the document and the remembered target
      stays a page of it: an intent's target only takes effect once the store accepts it. */
  lemma EffectKeepsInvariant(vs: VoiceState, nav: Store, i: Intent)
    requires Bounded(nav) && TargetInDocument(vs, nav)
    ensures Bounded(Effect(vs, nav, i).store) && TargetInDocument(Effect(vs, nav, i).state, Effect(vs, nav, i).store)
  {
  }

  /** The effect of the normalised utterance `t` with a matching relative jump tested first. */
  function Respond(vs: VoiceState, nav: Store, t: string): (r: VoiceStep)
    ensures r == Effect(vs, nav, Interpret(t, nav.currentPage, nav.totalPages, vs.lastNavTarget))
    ensures ContainsAny(t, QuitPhrases) ==> r == VoiceStep(vs.(running := false), nav)
  {
    Effect(vs, nav, Interpret(t, nav.currentPage, nav.totalPages, vs.lastNavTarget))
  }

  /** The effect of the normalised utterance `t` as `handle_command` is written. */
  function RespondAsWritten(vs: VoiceState, nav: Store, t: string): (r: VoiceStep)
    ensures r == Effect(vs, nav, InterpretAsWritten(t, nav.currentPage, nav.totalPages, vs.lastNavTarget))
    ensures ContainsAny(t, QuitPhrases) ==> r == VoiceStep(vs.(running := false), nav)
  {
    Effect(vs, nav, InterpretAsWritten(t, nav.currentPage, nav.totalPages, vs.lastNavTarget))
  }

  /** `handle_command(text)` with a matching relative jump tested first: the utterance is always
      remembered, then the intent of its normalised form applied. */
  function CommandStep(vs: VoiceState, nav: Store, text: string): (r: VoiceStep)
    ensures r.state.lastCommandText == Some(text)
    ensures r.store.totalPages == nav.totalPages && r.store.pdfPath == nav.pdfPath
    ensures r == Effect(vs.(lastCommandText := Some(text)), nav,
                        Interpret(Normalize(text), nav.currentPage, nav.totalPages, vs.lastNavTarget))
  {
    Respond(vs.(lastCommandText := Some(text)), nav, Normalize(text))
  }

  /** `handle_command(text)` as written. */
  function CommandStepAsWritten(vs: VoiceState, nav: Store, text: string): (r: VoiceStep)
    ensures r.state.lastCommandText == Some(text)
    ensures r.store.totalPages == nav.totalPages && r.store.pdfPath == nav.pdfPath
    ensures r == Effect(vs.(lastCommandText := Some(text)), nav,
                        InterpretAsWritten(Normalize(text), nav.currentPage, nav.totalPages, vs.lastNavTarget))
  {
    RespondAsWritten(vs.(lastCommandText := Some(text)), nav, Normalize(text))
  }

  /** One utterance keeps the store's invariant and keeps the remembered target in the document. */
  lemma {:induction false} CommandStepKeepsInvariant(vs: VoiceState, nav: Store, text: string)
    requires Bounded(nav) && TargetInDocument(vs, nav)
    ensures Bounded(CommandStep(vs, nav, text).store)
    ensures TargetInDocument(CommandStep(vs, nav, text).state, CommandStep(vs, nav, text).store)
  {
    EffectKeepsInvariant(vs.(lastCommandText := Some(text)), nav,
                         Interpret(Normalize(text), nav.currentPage, nav.totalPages, vs.lastNavTarget));
  }

  /** The same holds for the step as written. */
  lemma {:induction false} CommandStepAsWrittenKeepsInvariant(vs: VoiceState, nav: Store, text: string)
    requires Bounded(nav) && TargetInDocument(vs, nav)
    ensures Bounded(CommandStepAsWritten(vs, nav, text).store)
    ensures TargetInDocument(CommandStepAsWritten(vs, nav, text).state, CommandStepAsWritten(vs, nav, text).store)
  {
    EffectKeepsInvariant(vs.(lastCommandText := Some(text)), nav,
                         InterpretAsWritten(Normalize(text), nav.currentPage, nav.totalPages, vs.lastNavTarget));
  }

  /** The two steps differ only on an utterance with a matching relative jump. */
  lemma CommandStepsDifferOnlyOnJumps(vs: VoiceState, nav: Store, text: string)
    ensures var t := Normalize(text);
            CommandStep(vs, nav, text) != CommandStepAsWritten(vs, nav, text) ==>
              Contains(t, "jump") && Contains(t, "page") && JumpTarget(t, nav.currentPage, nav.totalPages).Some?
  {
    InterpretersDifferOnlyOnJumps(Normalize(text), nav.currentPage, nav.totalPages, vs.lastNavTarget);
  }

  /** The page changes only through an accepted `update_page`, the target is then remembered,
      and the remembered target changes only that way. */
  lemma {:induction false} CommandStepMovesOnlyBySuccess(vs: VoiceState, nav: Store, text: string)
    ensures var r := CommandStep(vs, nav, text);
            r.store.currentPage != nav.currentPage ==>
              Accepts(nav, r.store.currentPage) && r.state.lastNavTarget == Some(r.store.currentPage)
    ensures var r := CommandStep(vs, nav, text);
            r.state.lastNavTarget != vs.lastNavTarget ==>
              r.state.lastNavTarget == Some(r.store.currentPage) && r.store.currentPage != nav.currentPage
  {
    EffectMovesOnlyBySuccess(vs.(lastCommandText := Some(text)), nav,
                             Interpret(Normalize(text), nav.currentPage, nav.totalPages, vs.lastNavTarget));
  }

  /** Whatever the intent, the page changes only to a page the store accepts, which is then
      remembered, and the remembered target changes only that way. */
  lemma EffectMovesOnlyBySuccess(vs: VoiceState, nav: Store, i: Intent)
    ensures var r := Effect(vs, nav, i);
            r.store.currentPage != nav.currentPage ==>
              Accepts(nav, r.store.currentPage) && r.state.lastNavTarget == Some(r.store.currentPage)
    ensures var r := Effect(vs, nav, i);
            r.state.lastNavTarget != vs.lastNavTarget ==>
              r.state.lastNavTarget == Some(r.store.currentPage) && r.store.currentPage != nav.currentPage
  {
  }

  /** Only a quit phrase changes `is_running`, and it stops the controller. */
  lemma CommandStepQuit(vs: VoiceState, nav: Store, text: string)
    ensures CommandStep(vs, nav, text).state.running != vs.running ==>
              ContainsAny(Normalize(text), QuitPhrases) && !CommandStep(vs, nav, text).state.running
    ensures ContainsAny(Normalize(text), QuitPhrases) ==>
              CommandStep(vs, nav, text) == VoiceStep(vs.(lastCommandText := Some(text), running := false), nav)
  {
  }

  /** "repeat" right after a successful move to `p` keeps the reader on `p`. */
  lemma RepeatStays(vs: VoiceState, nav: Store, text: string, p: int)
    requires vs.lastNavTarget == Some(p) && nav.currentPage == p
    // "repeat", and none of the commands tested before it
    requires Contains(Normalize(text), "repeat") && !ContainsAny(Normalize(text), QuitPhrases)
    requires !Contains(Normalize(text), "help") && !ContainsAny(Normalize(text), StatusPhrases)
    requires !Contains(Normalize(text), "zoom")
    ensures CommandStep(vs, nav, text).store == nav
    ensures CommandStep(vs, nav, text).state == vs.(lastCommandText := Some(text))
  {
  }

  // ---------------------------------------------------------------------------
  // Sequences of utterances
  // ---------------------------------------------------------------------------

  function RunVoice(vs: VoiceState, nav: Store, texts: seq<string>): VoiceStep
    decreases |texts|
  {
    if texts == [] then VoiceStep(vs, nav)
    else
      var st := CommandStep(vs, nav, texts[0]);
      RunVoice(st.state, st.store, texts[1..])
  }

  /** Over any sequence of utterances the page stays inside the document and the remembered
      target stays a page of it. */
  lemma {:induction false} RunVoiceKeepsInvariant(vs: VoiceState, nav: Store, texts: seq<string>)
    requires Bounded(nav) && TargetInDocument(vs, nav)
    ensures Bounded(RunVoice(vs, nav, texts).store) && TargetInDocument(RunVoice(vs, nav, texts).state, RunVoice(vs, nav, texts).store)
    decreases |texts|
  {
    if texts != [] {
      var st := CommandStep(vs, nav, texts[0]);
      CommandStepKeepsInvariant(vs, nav, texts[0]);
      RunVoiceKeepsInvariant(st.state, st.store, texts[1..]);
    }
  }

  /** Utterances never change the document or the page count. */
  lemma {:induction false} RunVoiceKeepsDocument(vs: VoiceState, nav: Store, texts: seq<string>)
    ensures RunVoice(vs, nav, texts).store.totalPages == nav.totalPages
    ensures RunVoice(vs, nav, texts).store.pdfPath == nav.pdfPath
    ensures texts != [] ==> RunVoice(vs, nav, texts).state.lastCommandText == Some(texts[|texts| - 1])
    decreases |texts|
  {
    if texts != [] {
      var st := CommandStep(vs, nav, texts[0]);
      RunVoiceKeepsDocument(st.state, st.store, texts[1..]);
      if |texts| > 1 {
        assert texts[1..][|texts[1..]| - 1] == texts[|texts| - 1];
      }
    }
  }

  // ---------------------------------------------------------------------------
  // The controller object
  // ---------------------------------------------------------------------------

  class VoiceAssistantController {
    const shared: SharedState
    var lastCommandText: Option<string>
    var lastNavTarget: Option<int>
    var isRunning: bool

    ghost function State(): VoiceState
      reads this
    {
      VoiceState(lastCommandText, lastNavTarget, isRunning)
    }

    constructor (shared: SharedState)
      ensures this.shared == shared && State() == InitialVoice()
    {
      this.shared := shared;
      lastCommandText := None;
      lastNavTarget := None;
      isRunning := false;
    }

    /** `_apply_page_change` */
    method ApplyPageChange(currentPage: int, newPage: int)
      requires shared.Valid() && currentPage == shared.currentPage
      modifies this, shared
      ensures shared.Valid()
      ensures var r := PageChange(old(State()), old(shared.Model()), newPage);
              State() == r.state && shared.Model() == r.store
    {
      if newPage == currentPage {
        return;
      }
      var ok := shared.UpdatePage(newPage);
      if ok {
        lastNavTarget := Some(newPage);
      }
    }

    /** `_handle_zoom_commands` */
    method HandleZoomCommands(t: string)
      requires shared.Valid()
      modifies shared
      ensures shared.Valid()
      ensures shared.Model() == ApplyZoom(ZoomCommandOf(t), old(shared.Model()))
    {
      var currentZoom := shared.GetZoom();
      if Contains(t, "zoom in") {
        var _ := shared.UpdateZoom(Min(MaxZoom, currentZoom + ZoomStep));
      } else if Contains(t, "zoom out") {
        var _ := shared.UpdateZoom(Max(MinZoom, currentZoom - ZoomStep));
      } else if ContainsAny(t, ResetPhrases) {
        var _ := shared.ResetZoom();
      } else if ContainsAny(t, HundredPhrases) {
        var _ := shared.ResetZoom();
      } else {
        var zoomMatch := Search(t, ZoomNumber);
        if zoomMatch.Some? {
          var zoomValue := zoomMatch.value;
          if MinZoom <= zoomValue <= MaxZoom {
            var _ := shared.UpdateZoom(zoomValue);
          }
        }
      }
    }

    /** `handle_command` */
    method HandleCommand(text: string)
      requires shared.Valid()
      modifies this, shared
      ensures shared.Valid()
      ensures var r := CommandStep(old(State()), old(shared.Model()), text);
              State() == r.state && shared.Model() == r.store
    {
      lastCommandText := Some(text);
      ghost var remembered := State();
      assert remembered == old(State()).(lastCommandText := Some(text));
      var t := Normalize(text);
      RespondTo(t);
      assert CommandStep(old(State()), old(shared.Model()), text) == Respond(remembered, old(shared.Model()), t);
    }

    /** The body of `handle_command` after the utterance is remembered, on the normalised
        utterance `t`. */
    method RespondTo(t: string)
      requires shared.Valid()
      modifies this, shared
      ensures shared.Valid()
      ensures var r := Respond(old(State()), old(shared.Model()), t);
              State() == r.state && shared.Model() == r.store
    {
      ghost var last0 := lastNavTarget;
      var currentPage := shared.GetPage();
      var total := shared.totalPages;
      ghost var intent := Interpret(t, currentPage, total, last0);

      if ContainsAny(t, QuitPhrases) {
        isRunning := false;
        return;
      }
      if Contains(t, "help") {
        assert intent == Help;
        return;
      }
      if ContainsAny(t, StatusPhrases) {
        assert intent == Status;
        var _ := shared.GetZoom();
        return;
      }
      if Contains(t, "zoom") {
        assert intent == ZoomIntent(ZoomCommandOf(t));
        HandleZoomCommands(t);
        return;
      }
      if Contains(t, "repeat") && lastNavTarget.Some? {
        assert intent == Repeat(lastNavTarget.value);
        ApplyPageChange(currentPage, lastNavTarget.value);
        return;
      }

      assert intent == Navigation(t, currentPage, total);
      var target := ResolveNavigation(t, currentPage, total);
      if target.Some? {
        ApplyPageChange(currentPage, target.value);
      }
    }

    /** The navigation branches after "next" and "previous". Reads nothing. */
    method ResolveLater(t: string, cur: int, total: int) returns (target: Option<int>)
      ensures LaterNavigation(t, cur, total).Move? <==> target.Some?
      ensures target.Some? ==> LaterNavigation(t, cur, total) == Move(target.value)
    {
      var newPage := cur;
      if ContainsAny(t, FirstPhrases) {
        newPage := 0;
      } else if ContainsAny(t, LastPhrases) {
        newPage := total - 1;
      } else if ContainsAny(t, MiddlePhrases) {
        newPage := MiddlePage(total);
      } else if Contains(t, "jump") && Contains(t, "page") {
        var jump := JumpTarget(t, cur, total);
        if jump.Some? {
          newPage := jump.value;
        }
      } else if Contains(t, "page") {
        var m := Search(t, PageNumber);
        if m.Some? {
          var p := m.value - 1;
          if 0 <= p < total {
            newPage := p;
          } else {
            return None;
          }
        } else {
          var m2 := Search(t, BareNumber);
          if m2.Some? {
            var p := m2.value - 1;
            if 0 <= p < total {
              newPage := p;
            } else {
              return None;
            }
          } else {
            return None;
          }
        }
      } else if IsDigits(t) {
        var p := Value(t) - 1;
        if 0 <= p < total {
          newPage := p;
        } else {
          return None;
        }
      } else {
        return None;
      }
      return Some(newPage);
    }

    /** The navigation block of `handle_command` (everything after "repeat"): the page to hand
        to `_apply_page_change`, or `None` where the command ends without one. Reads nothing. */
    method ResolveNavigation(t: string, cur: int, total: int) returns (target: Option<int>)
      ensures Navigation(t, cur, total).Move? <==> target.Some?
      ensures target.Some? ==> Navigation(t, cur, total) == Move(target.value)
      ensures 0 <= cur < total && target.Some? ==> 0 <= target.value < total
    {
      var newPage := cur;
      var jump := JumpTarget(t, cur, total);
      if Contains(t, "jump") && Contains(t, "page") && jump.Some? {
        newPage := jump.value;
      } else if ContainsAny(t, NextPhrases) {
        newPage := Min(total - 1, cur + 1);
      } else if ContainsAny(t, PreviousPhrases) {
        newPage := Max(0, cur - 1);
      } else {
        target := ResolveLater(t, cur, total);
        return;
      }
      return Some(newPage);
    }
  }
}
