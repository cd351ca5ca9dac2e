/** The keyboard stand-in for the voice controller (modules/simple_voice_assistant.py): a typed
    command is classified by exact shortcuts, then substring fallbacks, then a scan for
    "page N", and the resolved page is handed to `update_page` when it differs from the
    current one. */
module KeyboardAssistant {
  import opened Common
  import opened Text
  import opened PageStore

  // The word lists of `process_command` (modules/simple_voice_assistant.py:72-127).
  const NextKeys: seq<string> := ["n", "next"]
  const PreviousKeys: seq<string> := ["p", "prev", "previous", "back"]
  const FirstKeys: seq<string> := ["f", "first", "home"]
  const LastKeys: seq<string> := ["l", "last", "end"]
  const NextWords: seq<string> := ["next page", "next"]
  const PreviousWords: seq<string> := ["previous page", "prev page", "back"]
  const FirstWords: seq<string> := ["first page", "start"]
  const LastWords: seq<string> := ["last page", "end"]
  const QuitKeys: seq<string> := ["q", "quit", "exit", "stop"]
  const HelpKeys: seq<string> := ["h", "help"]

  // ---------------------------------------------------------------------------
  // The "page N" word scan (modules/simple_voice_assistant.py:105-116)
  // ---------------------------------------------------------------------------

  /** How the scan over the words ends: an in-range page, no usable "page N" pair at all, or
      the `ValueError` of a word after "page" that is no integer (which ends the scan). */
  datatype Scan = Found(page: int) | NotFound | BadNumber

  /** Position `j` neither ends the scan nor supplies a page: it is not a "page" word followed
      by another word, or the word after it is an integer `N` with `N-1` outside the document. */
  predicate Misses(words: seq<string>, j: nat, total: int)
    requires j < |words|
  {
    !(words[j] == "page" && j + 1 < |words|)
    || (ParseInt(words[j + 1]).Some? && !(0 <= ParseInt(words[j + 1]).value - 1 < total))
  }

  /** What a position that does not miss decides. */
  function Decided(words: seq<string>, j: nat): Scan
    requires j + 1 < |words|
  {
    match ParseInt(words[j + 1])
    case None => BadNumber
    case Some(v) => Found(v - 1)
  }

  /** The `for i, word in enumerate(words)` loop, from word `i` on. */
  function ScanFrom(words: seq<string>, i: nat, total: int): (r: Scan)
    ensures r.Found? ==> 0 <= r.page < total
    decreases |words| - i
  {
    if i >= |words| then NotFound
    else if words[i] == "page" && i + 1 < |words| then
      match ParseInt(words[i + 1])
      case None => BadNumber
      case Some(v) =>
        if 0 <= v - 1 < total then Found(v - 1) else ScanFrom(words, i + 1, total)
    else ScanFrom(words, i + 1, total)
  }

  /** Positions that miss are skipped. */
  lemma {:induction false} ScanSkips(words: seq<string>, k: nat, i: nat, total: int)
    requires k <= i <= |words|
    requires forall j :: k <= j < i ==> Misses(words, j, total)
    ensures ScanFrom(words, k, total) == ScanFrom(words, i, total)
    decreases i - k
  {
    if k < i {
      assert Misses(words, k, total);
      ScanSkips(words, k + 1, i, total);
    }
  }

  /** The first position that does not miss decides the scan: the page after the first
      "page" whose successor is an in-range integer, or the abort of the first non-integer. */
  lemma ScanFirstDecides(words: seq<string>, i: nat, total: int)
    requires i < |words| && !Misses(words, i, total)
    requires forall j :: 0 <= j < i ==> Misses(words, j, total)
    ensures i + 1 < |words| && ScanFrom(words, 0, total) == Decided(words, i)
  {
    ScanSkips(words, 0, i, total);
  }

  /** No "page N" pair is usable exactly when every position misses. */
  lemma {:induction false} ScanNotFoundIff(words: seq<string>, i: nat, total: int)
    requires i <= |words|
    ensures ScanFrom(words, i, total) == NotFound
            <==> forall j :: i <= j < |words| ==> Misses(words, j, total)
    decreases |words| - i
  {
    if i < |words| {
      ScanNotFoundIff(words, i + 1, total);
      assert (forall j :: i <= j < |words| ==> Misses(words, j, total))
             <==> Misses(words, i, total) && (forall j :: i + 1 <= j < |words| ==> Misses(words, j, total));
    }
  }

  /** The loop itself, returning at the `break` and at the `ValueError`. */
  method ScanPageWords(words: seq<string>, total: int) returns (r: Scan)
    ensures r == ScanFrom(words, 0, total)
    ensures r.Found? ==> 0 <= r.page < total
  {
    var i := 0;
    while i < |words|
      invariant 0 <= i <= |words|
      invariant ScanFrom(words, i, total) == ScanFrom(words, 0, total)
    {
      if words[i] == "page" && i + 1 < |words| {
        var pageNum := ParseInt(words[i + 1]);
        if pageNum.None? {
          return BadNumber;
        }
        if 0 <= pageNum.value - 1 < total {
          return Found(pageNum.value - 1);
        }
      }
      i := i + 1;
    }
    return NotFound;
  }

  // ---------------------------------------------------------------------------
  // Classification (modules/simple_voice_assistant.py:55-129)
  // ---------------------------------------------------------------------------

  /** What `process_command` decides: the `new_page` it ends with, quitting, help, an unknown
      command, or the empty command it returns on at once. */
  datatype Outcome = Target(page: int) | Quit | Help | Unknown | Ignored

  /** The page an all-digit command asks for: `int(command) - 1` when that is inside the
      document, the current page otherwise. */
  function DigitTarget(command: string, cur: int, total: int): int
    requires IsDigits(command)
  {
    if 0 <= Value(command) - 1 < total then Value(command) - 1 else cur
  }

  /** The exact shortcuts (modules/simple_voice_assistant.py:72-86). */
  function ExactTarget(c: string, cur: int, total: int): (r: Option<int>)
    ensures r.Some? && 0 <= cur < total ==> 0 <= r.value < total
    // next, previous, first and last keys, in that order
    ensures c in NextKeys ==> r == Some(Min(total - 1, cur + 1))
    ensures c !in NextKeys && c in PreviousKeys ==> r == Some(Max(0, cur - 1))
    ensures c !in NextKeys && c !in PreviousKeys && c in FirstKeys ==> r == Some(0)
    ensures c !in NextKeys && c !in PreviousKeys && c !in FirstKeys && c in LastKeys ==> r == Some(total - 1)
    ensures r.None? <==> c !in NextKeys && c !in PreviousKeys && c !in FirstKeys && c !in LastKeys
  {
    if c in NextKeys then Some(Min(total - 1, cur + 1))
    else if c in PreviousKeys then Some(Max(0, cur - 1))
    else if c in FirstKeys then Some(0)
    else if c in LastKeys then Some(total - 1)
    else None
  }

  /** The substring fallbacks, tried in order (modules/simple_voice_assistant.py:89-103). */
  function FallbackTarget(c: string, cur: int, total: int): (r: Option<int>)
    ensures r.Some? && 0 <= cur < total ==> 0 <= r.value < total
    // next, previous, first and last, in that order
    ensures ContainsAny(c, NextWords) ==> r == Some(Min(total - 1, cur + 1))
    ensures !ContainsAny(c, NextWords) && ContainsAny(c, PreviousWords) ==> r == Some(Max(0, cur - 1))
    ensures !ContainsAny(c, NextWords) && !ContainsAny(c, PreviousWords) && ContainsAny(c, FirstWords) ==>
              r == Some(0)
    ensures !ContainsAny(c, NextWords) && !ContainsAny(c, PreviousWords) && !ContainsAny(c, FirstWords)
            && ContainsAny(c, LastWords) ==>
              r == Some(total - 1)
    ensures r.None? <==>
              !ContainsAny(c, NextWords) && !ContainsAny(c, PreviousWords) && !ContainsAny(c, FirstWords)
              && !ContainsAny(c, LastWords)
  {
    if ContainsAny(c, NextWords) then Some(Min(total - 1, cur + 1))
    else if ContainsAny(c, PreviousWords) then Some(Max(0, cur - 1))
    else if ContainsAny(c, FirstWords) then Some(0)
    else if ContainsAny(c, LastWords) then Some(total - 1)
    else None
  }

  /** The rest of the cascade (modules/simple_voice_assistant.py:105-129): a "page" command
      whose scan finds nothing keeps `new_page` on the current page, so it ends in
      `Target(cur)`; then the quit and help words. */
  function WordOutcome(c: string, cur: int, total: int): (r: Outcome)
    ensures !r.Ignored?
    ensures r.Quit? ==> c in QuitKeys
    ensures r.Help? ==> c in HelpKeys
    ensures 0 <= cur < total && r.Target? ==> 0 <= r.page < total
    // a "page" command moves to the page the scan finds, or stays where it is
    ensures Contains(c, "page") ==> r.Target?
    ensures Contains(c, "page") && ScanFrom(Split(c), 0, total).Found? ==> r.page == ScanFrom(Split(c), 0, total).page
    ensures Contains(c, "page") && !ScanFrom(Split(c), 0, total).Found? ==> r.page == cur
    // otherwise the exact quit and help words, and nothing else
    ensures !Contains(c, "page") && c in QuitKeys ==> r == Quit
    ensures !Contains(c, "page") && c !in QuitKeys && c in HelpKeys ==> r == Help
    ensures r.Unknown? <==> !Contains(c, "page") && c !in QuitKeys && c !in HelpKeys
  {
    if Contains(c, "page") then
      var scan := ScanFrom(Split(c), 0, total);
      Target(if scan.Found? then scan.page else cur)
    else if c in QuitKeys then Quit
    else if c in HelpKeys then Help
    else Unknown
  }

  /** Everything after the digit test, on the normalised text `c`. */
  function WordDecide(c: string, cur: int, total: int): (r: Outcome)
    ensures !r.Ignored?
    ensures r.Quit? ==> c in QuitKeys
    ensures r.Help? ==> c in HelpKeys
    ensures 0 <= cur < total && r.Target? ==> 0 <= r.page < total
    // an exact shortcut first, then the substring fallbacks, then the "page" scan, quit and help
    ensures ExactTarget(c, cur, total).Some? ==> r == Target(ExactTarget(c, cur, total).value)
    ensures ExactTarget(c, cur, total).None? && FallbackTarget(c, cur, total).Some? ==>
              r == Target(FallbackTarget(c, cur, total).value)
    ensures ExactTarget(c, cur, total).None? && FallbackTarget(c, cur, total).None? ==>
              r == WordOutcome(c, cur, total)
  {
    var exact := ExactTarget(c, cur, total);
    var fallback := FallbackTarget(c, cur, total);
    if exact.Some? then Target(exact.value)
    else if fallback.Some? then Target(fallback.value)
    else WordOutcome(c, cur, total)
  }

  /** The decision cascade. The digit test is on the raw command, every other test on
      `command.lower().strip()`. */
  function Decide(command: string, cur: int, total: int): (r: Outcome)
    ensures r.Ignored? <==> command == []
    ensures command != [] && IsDigits(command) ==> r == Target(DigitTarget(command, cur, total))
    ensures r.Quit? ==> Normalize(command) in QuitKeys
    ensures r.Help? ==> Normalize(command) in HelpKeys
    ensures 0 <= cur < total && r.Target? ==> 0 <= r.page < total
  {
    if command == [] then Ignored
    else if IsDigits(command) then Target(DigitTarget(command, cur, total))
    else WordDecide(Normalize(command), cur, total)
  }


  /** A string of digits is left alone by `lower().strip()`. */
  lemma DigitsNormalized(s: string)
    requires IsDigits(s)
    ensures Normalize(s) == s
  {
    var l := Lower(s);
    assert forall i :: 0 <= i < |s| ==> l[i] == s[i];
    assert l == s;
    assert !IsSpace(s[0]) && !IsSpace(s[|s| - 1]);
    assert TrimLeft(s) == s;
    assert TrimRight(s) == s;
  }

  /** A word of at most four letters without a 'd' that is none of "next", "back" and "page"
      escapes every substring fallback and the "page" branch. */
  predicate ShortPlainWord(c: string) {
    |c| <= 4 && 'd' !in c && c != "next" && c != "back" && c != "page"
  }

  lemma ShortWordMissesNext(c: string)
    requires ShortPlainWord(c)
    ensures !ContainsAny(c, NextWords)
  {
    NotContainsByLength(c, "next page");
    if |c| == 4 { ContainsSameLength(c, "next"); } else { NotContainsByLength(c, "next"); }
    NoneContained(c, NextWords);
  }

  lemma ShortWordMissesPrevious(c: string)
    requires ShortPlainWord(c)
    ensures !ContainsAny(c, PreviousWords)
  {
    NotContainsByLength(c, "previous page");
    NotContainsByLength(c, "prev page");
    if |c| == 4 { ContainsSameLength(c, "back"); } else { NotContainsByLength(c, "back"); }
    NoneContained(c, PreviousWords);
  }

  lemma ShortWordMissesFirstLast(c: string)
    requires ShortPlainWord(c)
    ensures !ContainsAny(c, FirstWords) && !ContainsAny(c, LastWords)
  {
    NotContainsByLength(c, "first page");
    NotContainsByLength(c, "start");
    NoneContained(c, FirstWords);
    NotContainsByLength(c, "last page");
    NotContainsByChar(c, "end", 2);
    NoneContained(c, LastWords);
  }

  lemma ShortWordMissesFallbacks(c: string, cur: int, total: int)
    requires ShortPlainWord(c)
    ensures FallbackTarget(c, cur, total).None? && !Contains(c, "page")
  {
    ShortWordMissesNext(c);
    ShortWordMissesPrevious(c);
    ShortWordMissesFirstLast(c);
    if |c| == 4 { ContainsSameLength(c, "page"); } else { NotContainsByLength(c, "page"); }
  }

  /** A command whose normalised text starts with a non-digit is no digit command. */
  lemma NotDigitsIfLetter(command: string)
    requires Normalize(command) != [] && !IsDigit(Normalize(command)[0])
    ensures !IsDigits(command)
  {
    if IsDigits(command) {
      DigitsNormalized(command);
    }
  }

  /** Everything but the digit test, for a command that is not all digits. */
  lemma DecideByWords(command: string, cur: int, total: int)
    requires command != [] && !IsDigits(command)
    ensures Decide(command, cur, total) == WordDecide(Normalize(command), cur, total)
  {
  }

  /** The quit words are never shadowed by an earlier branch: each of them quits. */
  lemma QuitWordsQuit(c: string, cur: int, total: int)
    requires c in QuitKeys
    ensures c != [] && !IsDigit(c[0])
    ensures WordDecide(c, cur, total) == Quit
  {
    assert ExactTarget(c, cur, total).None?;
    ShortWordMissesFallbacks(c, cur, total);
  }

  /** The help words are never shadowed by an earlier branch either. */
  lemma HelpWordsHelp(c: string, cur: int, total: int)
    requires c in HelpKeys
    ensures c != [] && !IsDigit(c[0])
    ensures WordDecide(c, cur, total) == Help
  {
    assert ExactTarget(c, cur, total).None?;
    ShortWordMissesFallbacks(c, cur, total);
  }

  /** A typed quit word, with any case and surrounding blanks, quits. */
  lemma QuitKeysQuit(command: string, cur: int, total: int)
    requires Normalize(command) in QuitKeys
    ensures Decide(command, cur, total) == Quit
  {
    QuitWordsQuit(Normalize(command), cur, total);
    NotDigitsIfLetter(command);
    DecideByWords(command, cur, total);
  }

  /** A typed help word shows the help. */
  lemma HelpKeysHelp(command: string, cur: int, total: int)
    requires Normalize(command) in HelpKeys
    ensures Decide(command, cur, total) == Help
  {
    HelpWordsHelp(Normalize(command), cur, total);
    NotDigitsIfLetter(command);
    DecideByWords(command, cur, total);
  }

  /** The exact shortcuts win over every substring fallback. */
  lemma ShortcutTargets(c: string, cur: int, total: int)
    ensures c in NextKeys ==> WordDecide(c, cur, total) == Target(Min(total - 1, cur + 1))
    ensures c in PreviousKeys ==> WordDecide(c, cur, total) == Target(Max(0, cur - 1))
    ensures c in FirstKeys ==> WordDecide(c, cur, total) == Target(0)
    ensures c in LastKeys ==> WordDecide(c, cur, total) == Target(total - 1)
  {
    if c in PreviousKeys {
      assert c !in NextKeys;
    } else if c in FirstKeys {
      assert c !in NextKeys && c !in PreviousKeys;
    } else if c in LastKeys {
      assert c !in NextKeys && c !in PreviousKeys && c !in FirstKeys;
    }
  }

  // ---------------------------------------------------------------------------
  // The effect of one command (modules/simple_voice_assistant.py:118-136, 189-192)
  // ---------------------------------------------------------------------------

  /** The shared store and the `is_running` flag after a command. */
  datatype Step = Step(store: Store, running: bool)

  /** `process_command`: `update_page(new_page)` only when `new_page` differs from the current
      page, and `stop()` on a quit word. */
  function CommandStep(nav: Store, running: bool, command: string): (r: Step)
    ensures r.store.totalPages == nav.totalPages && r.store.pdfPath == nav.pdfPath
    ensures r.store.zoom == nav.zoom
    ensures Bounded(nav) ==> Bounded(r.store)
    ensures r.running <==> running && !Decide(command, nav.currentPage, nav.totalPages).Quit?
    ensures r.store.currentPage != nav.currentPage ==>
              Decide(command, nav.currentPage, nav.totalPages) == Target(r.store.currentPage)
    ensures !Decide(command, nav.currentPage, nav.totalPages).Target? ==> r.store == nav
  {
    match Decide(command, nav.currentPage, nav.totalPages)
    case Target(p) => Step(if p != nav.currentPage then WithPage(nav, p) else nav, running)
    case Quit => Step(nav, false)
    case _ => Step(nav, running)
  }

  /** Inside a document with pages every target is reached: the page afterwards is exactly
      the resolved one. */
  lemma TargetReached(nav: Store, running: bool, command: string)
    requires Bounded(nav) && nav.totalPages > 0
    requires Decide(command, nav.currentPage, nav.totalPages).Target?
    ensures CommandStep(nav, running, command).store.currentPage
            == Decide(command, nav.currentPage, nav.totalPages).page
  {
  }

  /** A sequence of typed commands. */
  function RunCommands(nav: Store, running: bool, commands: seq<string>): Step
    decreases |commands|
  {
    if commands == [] then Step(nav, running)
    else
      var s := CommandStep(nav, running, commands[0]);
      RunCommands(s.store, s.running, commands[1..])
  }

  /** Typed commands keep the page inside the document, leave the document alone, and never
      restart an assistant that has stopped. */
  lemma {:induction false} RunCommandsKeeps(nav: Store, running: bool, commands: seq<string>)
    requires Bounded(nav)
    ensures Bounded(RunCommands(nav, running, commands).store)
    ensures RunCommands(nav, running, commands).store.totalPages == nav.totalPages
    ensures RunCommands(nav, running, commands).store.pdfPath == nav.pdfPath
    ensures !running ==> !RunCommands(nav, running, commands).running
    decreases |commands|
  {
    if commands != [] {
      var s := CommandStep(nav, running, commands[0]);
      RunCommandsKeeps(s.store, s.running, commands[1..]);
    }
  }

  /** A quit word anywhere in the sequence leaves the assistant stopped. */
  lemma {:induction false} QuitStops(nav: Store, running: bool, commands: seq<string>, k: nat)
    requires Bounded(nav)
    requires k < |commands| && Normalize(commands[k]) in QuitKeys
    ensures !RunCommands(nav, running, commands).running
    decreases |commands|
  {
    var s := CommandStep(nav, running, commands[0]);
    if k == 0 {
      QuitKeysQuit(commands[0], nav.currentPage, nav.totalPages);
      RunCommandsKeeps(s.store, s.running, commands[1..]);
    } else {
      assert commands[1..][k - 1] == commands[k];
      QuitStops(s.store, s.running, commands[1..], k - 1);
    }
  }

  // ---------------------------------------------------------------------------
  // The object
  // ---------------------------------------------------------------------------

  class SimpleVoiceAssistant {
    const pdfPath: string
    const shared: SharedState
    var isRunning: bool

    /** `__init__`: not running. */
    constructor (pdfPath: string, shared: SharedState)
      ensures this.pdfPath == pdfPath && this.shared == shared && !isRunning
    {
      this.pdfPath := pdfPath;
      this.shared := shared;
      isRunning := false;
    }

    /** The branches of `process_command` after the digit test, on the normalised text: the
        page `new_page` ends with, or the quit, help and unknown exits. Changes nothing. */
    method ClassifyWord(c: string, currentPage: int, total: int) returns (outcome: Outcome)
      ensures outcome == WordDecide(c, currentPage, total)
    {
      if c in NextKeys {
        outcome := Target(Min(total - 1, currentPage + 1));
      } else if c in PreviousKeys {
        outcome := Target(Max(0, currentPage - 1));
      } else if c in FirstKeys {
        outcome := Target(0);
      } else if c in LastKeys {
        outcome := Target(total - 1);
      } else if ContainsAny(c, NextWords) {
        outcome := Target(Min(total - 1, currentPage + 1));
      } else if ContainsAny(c, PreviousWords) {
        outcome := Target(Max(0, currentPage - 1));
      } else if ContainsAny(c, FirstWords) {
        outcome := Target(0);
      } else if ContainsAny(c, LastWords) {
        outcome := Target(total - 1);
      } else if Contains(c, "page") {
        var words := Split(c);
        var scan := ScanPageWords(words, total);
        outcome := Target(if scan.Found? then scan.page else currentPage);
      } else if c in QuitKeys {
        outcome := Quit;
      } else if c in HelpKeys {
        outcome := Help;
      } else {
        outcome := Unknown;
      }
    }

    /** `start`: sets the flag (the reading thread is not modelled). */
    method Start()
      modifies this
      ensures isRunning
    {
      isRunning := true;
    }

    /** `stop` */
    method Stop()
      modifies this
      ensures !isRunning
    {
      isRunning := false;
    }

    /** `process_command` */
    method ProcessCommand(command: string)
      requires shared.Valid()
      modifies this, shared
      ensures shared.Valid()
      ensures CommandStep(old(shared.Model()), old(isRunning), command) == Step(shared.Model(), isRunning)
    {
      if command == [] {
        return;
      }
      var c := Normalize(command);
      var currentPage := shared.GetPage();
      var total := shared.totalPages;
      var newPage := currentPage;

      if IsDigits(command) {
        var pageNum := Value(command) - 1;
        if 0 <= pageNum < total {
          newPage := pageNum;
        }
      } else {
        var outcome := ClassifyWord(c, currentPage, total);
        if outcome.Quit? {
          Stop();
          return;
        } else if outcome.Target? {
          newPage := outcome.page;
        } else {
          return;
        }
      }

      assert Decide(command, currentPage, total) == Target(newPage);
      if newPage != currentPage {
        var _ := shared.UpdatePage(newPage);
      }
    }
  }
}
