/** Worked utterances for the voice interpreter, taken from the commands the assistant's own
    docstring and help text advertise (modules/voice_assistant.py:18-31, 291-303), mostly on a
    ten-page document read at page 5 (index 4). Each example is split into small steps: which
    letters the utterance lacks, which phrases that rules out, which pattern matches where,
    the intent, and the resulting step. The steps take the utterance as a string `t` given
    character by character (`Spells`, which is equality: `SpellsIsEquality`); this keeps the
    solver from evaluating every phrase test on a string literal at once. */
module VoiceExamples {
  import opened Common
  import opened Text
  import opened PageStore
  import opened VoiceAssistant

  /** `t` has the characters of `s`, one by one. */
  predicate Spells(t: string, s: string) {
    |t| == |s| && forall i :: 0 <= i < |t| ==> t[i] == s[i]
  }

  lemma SpellsIsEquality(t: string, s: string)
    ensures Spells(t, s) <==> t == s
  {
  }

  /** A letter that `s` lacks, `t` lacks. */
  lemma LacksLetter(t: string, s: string, c: char)
    requires Spells(t, s) && c !in s
    ensures c !in t
  {
    SpellsIsEquality(t, s);
  }

  /** A phrase that `s` has at position `i` occurs in `t`. */
  lemma Occurs(t: string, s: string, lit: string, i: nat)
    requires Spells(t, s)
    requires i <= |s| && lit <= s[i..]
    ensures lit <= t[i..] && Contains(t, lit)
  {
    SpellsIsEquality(t, s);
    ContainsAt(t, lit, i);
  }

  // ---------------------------------------------------------------------------
  // Absence of a whole phrase set, from the absence of each phrase
  // ---------------------------------------------------------------------------

  lemma QuitAbsent(t: string)
    requires !Contains(t, "quit") && !Contains(t, "exit")
    requires !Contains(t, "stop listening") && !Contains(t, "stop voice")
    ensures !ContainsAny(t, QuitPhrases)
  {
    NoneContained(t, QuitPhrases);
  }

  lemma StatusAbsent(t: string)
    requires !Contains(t, "status")
    requires !Contains(t, "where am i") && !Contains(t, "which page")
    ensures !ContainsAny(t, StatusPhrases)
  {
    NoneContained(t, StatusPhrases);
  }

  lemma NextAbsent(t: string)
    requires !Contains(t, "next page") && !Contains(t, "next") && !Contains(t, "forward")
    ensures !ContainsAny(t, NextPhrases)
  {
    NoneContained(t, NextPhrases);
  }

  lemma PreviousAbsent(t: string)
    requires !Contains(t, "previous page") && !Contains(t, "previous")
    requires !Contains(t, "back") && !Contains(t, "back page")
    ensures !ContainsAny(t, PreviousPhrases)
  {
    NoneContained(t, PreviousPhrases);
  }

  lemma FirstAbsent(t: string)
    requires !Contains(t, "first page") && !Contains(t, "go to start")
    requires !Contains(t, "beginning") && !Contains(t, "home page")
    ensures !ContainsAny(t, FirstPhrases)
  {
    NoneContained(t, FirstPhrases);
  }

  lemma LastAbsent(t: string)
    requires !Contains(t, "last page") && !Contains(t, "go to end")
    requires !Contains(t, "final page") && !Contains(t, "end page")
    ensures !ContainsAny(t, LastPhrases)
  {
    NoneContained(t, LastPhrases);
  }

  lemma MiddleAbsent(t: string)
    requires !Contains(t, "middle") && !Contains(t, "center") && !Contains(t, "halfway")
    ensures !ContainsAny(t, MiddlePhrases)
  {
    NoneContained(t, MiddlePhrases);
  }

  lemma ResetAbsent(t: string)
    requires !Contains(t, "back to normal")
    requires !Contains(t, "normal zoom") && !Contains(t, "reset zoom")
    ensures !ContainsAny(t, ResetPhrases)
  {
    NoneContained(t, ResetPhrases);
  }

  /** No meta command is found when none of its phrases occurs. */
  lemma MetaNone(t: string, lastNav: Option<int>)
    requires !ContainsAny(t, QuitPhrases) && !ContainsAny(t, StatusPhrases)
    requires !Contains(t, "help") && !Contains(t, "zoom") && !Contains(t, "repeat")
    ensures MetaIntent(t, lastNav).None?
  {
  }

  /** No reset phrase fits in fewer than ten characters. */
  lemma ShortNoReset(t: string)
    requires |t| < 10
    ensures !ContainsAny(t, ResetPhrases)
  {
    NotContainsByLength(t, "back to normal");
    NotContainsByLength(t, "normal zoom");
    NotContainsByLength(t, "reset zoom");
    ResetAbsent(t);
  }

  // ---------------------------------------------------------------------------
  // "page 7"
  // ---------------------------------------------------------------------------

  /** The length and the letters that rule phrases out of "page 7". */
  predicate PageSevenLetters(t: string) {
    |t| == 6 && 'q' !in t && 'x' !in t && 's' !in t && 'h' !in t && 'z' !in t && 'r' !in t
    && 'b' !in t && 'm' !in t
  }

  lemma PageSevenLacksQXS(t: string)
    requires Spells(t, "page 7")
    ensures 'q' !in t && 'x' !in t && 's' !in t
  {
    LacksLetter(t, "page 7", 'q');
    LacksLetter(t, "page 7", 'x');
    LacksLetter(t, "page 7", 's');
  }

  lemma PageSevenLacksHZR(t: string)
    requires Spells(t, "page 7")
    ensures 'h' !in t && 'z' !in t && 'r' !in t
  {
    LacksLetter(t, "page 7", 'h');
    LacksLetter(t, "page 7", 'z');
    LacksLetter(t, "page 7", 'r');
  }

  lemma PageSevenLacksBM(t: string)
    requires Spells(t, "page 7")
    ensures 'b' !in t && 'm' !in t
  {
    LacksLetter(t, "page 7", 'b');
    LacksLetter(t, "page 7", 'm');
  }

  lemma PageSevenSpelling(t: string)
    requires Spells(t, "page 7")
    ensures PageSevenLetters(t)
  {
    PageSevenLacksQXS(t);
    PageSevenLacksHZR(t);
    PageSevenLacksBM(t);
  }

  lemma PageSevenNoQuit(t: string)
    requires PageSevenLetters(t)
    ensures !ContainsAny(t, QuitPhrases)
  {
    NotContainsByChar(t, "quit", 0);
    NotContainsByChar(t, "exit", 1);
    NotContainsByLength(t, "stop listening");
    NotContainsByLength(t, "stop voice");
    QuitAbsent(t);
  }

  lemma PageSevenNoStatus(t: string)
    requires PageSevenLetters(t)
    ensures !ContainsAny(t, StatusPhrases)
  {
    NotContainsByChar(t, "status", 0);
    NotContainsByLength(t, "where am i");
    NotContainsByLength(t, "which page");
    StatusAbsent(t);
  }

  lemma PageSevenNoMeta(t: string, lastNav: Option<int>)
    requires PageSevenLetters(t)
    ensures MetaIntent(t, lastNav).None?
  {
    PageSevenNoQuit(t);
    PageSevenNoStatus(t);
    NotContainsByChar(t, "help", 0);
    NotContainsByChar(t, "zoom", 0);
    NotContainsByChar(t, "repeat", 0);
    MetaNone(t, lastNav);
  }

  lemma PageSevenNoNext(t: string)
    requires PageSevenLetters(t)
    ensures !ContainsAny(t, NextPhrases)
  {
    NotContainsByLength(t, "next page");
    NotContainsByChar(t, "next", 2);
    NotContainsByLength(t, "forward");
    NextAbsent(t);
  }

  lemma PageSevenNoPrevious(t: string)
    requires PageSevenLetters(t)
    ensures !ContainsAny(t, PreviousPhrases)
  {
    NotContainsByLength(t, "previous page");
    NotContainsByLength(t, "previous");
    NotContainsByChar(t, "back", 0);
    NotContainsByLength(t, "back page");
    PreviousAbsent(t);
  }

  lemma PageSevenNoFirst(t: string)
    requires PageSevenLetters(t)
    ensures !ContainsAny(t, FirstPhrases)
  {
    NotContainsByLength(t, "first page");
    NotContainsByLength(t, "go to start");
    NotContainsByLength(t, "beginning");
    NotContainsByLength(t, "home page");
    FirstAbsent(t);
  }

  lemma PageSevenNoLast(t: string)
    requires PageSevenLetters(t)
    ensures !ContainsAny(t, LastPhrases)
  {
    NotContainsByLength(t, "last page");
    NotContainsByLength(t, "go to end");
    NotContainsByLength(t, "final page");
    NotContainsByLength(t, "end page");
    LastAbsent(t);
  }

  lemma PageSevenNoMiddle(t: string)
    requires PageSevenLetters(t)
    ensures !ContainsAny(t, MiddlePhrases)
  {
    NotContainsByChar(t, "middle", 0);
    NotContainsByChar(t, "center", 5);
    NotContainsByLength(t, "halfway");
    MiddleAbsent(t);
  }

  /** `page\s+(\d+)` captures 7 in "page 7". */
  lemma PageSevenNumber(t: string)
    requires Spells(t, "page 7")
    ensures Contains(t, "page") && Search(t, PageNumber) == Some(7)
  {
    Occurs(t, "page 7", "page", 0);
    assert SpaceRun(t, 5) == 0;
    assert SpaceRun(t, 4) == 1;
    assert DigitRun(t, 6) == 0;
    assert DigitRun(t, 5) == 1;
    assert t[5..6] == "7";
    assert Value("7") == 7;
    assert MatchAt(t, 0, PageNumber) == Some(7);
    SearchAtStart(t, PageNumber);
  }

  lemma PageSevenNavigation(t: string)
    requires PageSevenLetters(t) && Contains(t, "page") && Search(t, PageNumber) == Some(7)
    ensures Navigation(t, 4, 10) == Move(6)
  {
    PageSevenNoNext(t);
    PageSevenNoPrevious(t);
    PageSevenNoFirst(t);
    PageSevenNoLast(t);
    PageSevenNoMiddle(t);
    NotContainsByChar(t, "jump", 2);
  }

  lemma PageSevenIntent(t: string, lastNav: Option<int>)
    requires Spells(t, "page 7")
    ensures Interpret(t, 4, 10, lastNav) == Move(6)
  {
    PageSevenSpelling(t);
    PageSevenNumber(t);
    PageSevenNoMeta(t, lastNav);
    PageSevenNavigation(t);
  }

  /** An utterance whose intent is a new page the store accepts moves there and remembers it. */
  lemma MoveTaken(vs: VoiceState, nav: Store, text: string, p: int)
    requires Interpret(Normalize(text), nav.currentPage, nav.totalPages, vs.lastNavTarget) == Move(p)
    requires p != nav.currentPage && Accepts(nav, p)
    ensures CommandStep(vs, nav, text).store.currentPage == p
    ensures CommandStep(vs, nav, text).state.lastNavTarget == Some(p)
  {
  }

  /** "page 7" goes to index 6 and remembers it. */
  lemma ExamplePageSeven(vs: VoiceState, nav: Store)
    requires nav.currentPage == 4 && nav.totalPages == 10
    ensures CommandStep(vs, nav, "page 7").store.currentPage == 6
    ensures CommandStep(vs, nav, "page 7").state.lastNavTarget == Some(6)
  {
    NormalizeFixed("page 7");
    PageSevenIntent("page 7", vs.lastNavTarget);
    MoveTaken(vs, nav, "page 7", 6);
  }

  // ---------------------------------------------------------------------------
  // "next page"
  // ---------------------------------------------------------------------------

  /** The length and the letters that rule phrases out of "next page". */
  predicate NextPageLetters(t: string) {
    |t| == 9 && 'q' !in t && 'i' !in t && 's' !in t && 'h' !in t && 'z' !in t && 'r' !in t
    && 'j' !in t
  }

  lemma NextPageLacksQIS(t: string)
    requires Spells(t, "next page")
    ensures 'q' !in t && 'i' !in t && 's' !in t
  {
    LacksLetter(t, "next page", 'q');
    LacksLetter(t, "next page", 'i');
    LacksLetter(t, "next page", 's');
  }

  lemma NextPageLacksHZR(t: string)
    requires Spells(t, "next page")
    ensures 'h' !in t && 'z' !in t && 'r' !in t
  {
    LacksLetter(t, "next page", 'h');
    LacksLetter(t, "next page", 'z');
    LacksLetter(t, "next page", 'r');
  }

  lemma NextPageLacksJ(t: string)
    requires Spells(t, "next page")
    ensures 'j' !in t
  {
    LacksLetter(t, "next page", 'j');
  }

  lemma NextPageSpelling(t: string)
    requires Spells(t, "next page")
    ensures NextPageLetters(t)
  {
    NextPageLacksQIS(t);
    NextPageLacksHZR(t);
    NextPageLacksJ(t);
  }

  lemma NextPageNoQuit(t: string)
    requires NextPageLetters(t)
    ensures !ContainsAny(t, QuitPhrases)
  {
    NotContainsByChar(t, "quit", 0);
    NotContainsByChar(t, "exit", 2);
    NotContainsByLength(t, "stop listening");
    NotContainsByLength(t, "stop voice");
    QuitAbsent(t);
  }

  lemma NextPageNoStatus(t: string)
    requires NextPageLetters(t)
    ensures !ContainsAny(t, StatusPhrases)
  {
    NotContainsByChar(t, "status", 0);
    NotContainsByLength(t, "where am i");
    NotContainsByLength(t, "which page");
    StatusAbsent(t);
  }

  lemma NextPageNoMeta(t: string, lastNav: Option<int>)
    requires NextPageLetters(t)
    ensures MetaIntent(t, lastNav).None?
  {
    NextPageNoQuit(t);
    NextPageNoStatus(t);
    NotContainsByChar(t, "help", 0);
    NotContainsByChar(t, "zoom", 0);
    NotContainsByChar(t, "repeat", 0);
    MetaNone(t, lastNav);
  }

  lemma NextPageIntent(t: string, lastNav: Option<int>)
    requires Spells(t, "next page")
    ensures Interpret(t, 4, 10, lastNav) == Move(5)
  {
    NextPageSpelling(t);
    NextPageNoMeta(t, lastNav);
    NotContainsByChar(t, "jump", 0);
    Occurs(t, "next page", "next page", 0);
    OneContained(t, NextPhrases, 0);
  }

  /** "next page" moves one page on. */
  lemma ExampleNextPage(vs: VoiceState, nav: Store)
    requires nav.currentPage == 4 && nav.totalPages == 10
    ensures CommandStep(vs, nav, "next page").store.currentPage == 5
  {
    NormalizeFixed("next page");
    NextPageIntent("next page", vs.lastNavTarget);
    MoveTaken(vs, nav, "next page", 5);
  }

  // ---------------------------------------------------------------------------
  // "jump back 2 pages": the relative jump, and what the code as written does instead
  // ---------------------------------------------------------------------------

  /** The length and the letters that rule phrases out of "jump back 2 pages". */
  predicate JumpBackLetters(t: string) {
    'q' !in t && 'x' !in t && 't' !in t && 'w' !in t && 'h' !in t && 'z' !in t
  }

  lemma JumpBackLacksQXT(t: string)
    requires Spells(t, "jump back 2 pages")
    ensures 'q' !in t && 'x' !in t && 't' !in t
  {
    LacksLetter(t, "jump back 2 pages", 'q');
    LacksLetter(t, "jump back 2 pages", 'x');
    LacksLetter(t, "jump back 2 pages", 't');
  }

  lemma JumpBackLacksWHZ(t: string)
    requires Spells(t, "jump back 2 pages")
    ensures 'w' !in t && 'h' !in t && 'z' !in t
  {
    LacksLetter(t, "jump back 2 pages", 'w');
    LacksLetter(t, "jump back 2 pages", 'h');
    LacksLetter(t, "jump back 2 pages", 'z');
  }

  lemma JumpBackSpelling(t: string)
    requires Spells(t, "jump back 2 pages")
    ensures JumpBackLetters(t)
  {
    JumpBackLacksQXT(t);
    JumpBackLacksWHZ(t);
  }

  lemma JumpBackNoQuit(t: string)
    requires JumpBackLetters(t)
    ensures !ContainsAny(t, QuitPhrases)
  {
    NotContainsByChar(t, "quit", 0);
    NotContainsByChar(t, "exit", 1);
    NotContainsByChar(t, "stop listening", 1);
    NotContainsByChar(t, "stop voice", 1);
    QuitAbsent(t);
  }

  lemma JumpBackNoStatus(t: string)
    requires JumpBackLetters(t)
    ensures !ContainsAny(t, StatusPhrases)
  {
    NotContainsByChar(t, "status", 1);
    NotContainsByChar(t, "where am i", 0);
    NotContainsByChar(t, "which page", 0);
    StatusAbsent(t);
  }

  lemma JumpBackNoMeta(t: string, lastNav: Option<int>)
    requires JumpBackLetters(t)
    ensures MetaIntent(t, lastNav).None?
  {
    JumpBackNoQuit(t);
    JumpBackNoStatus(t);
    NotContainsByChar(t, "help", 0);
    NotContainsByChar(t, "zoom", 0);
    NotContainsByChar(t, "repeat", 5);
    MetaNone(t, lastNav);
  }

  lemma JumpBackNoNext(t: string)
    requires JumpBackLetters(t)
    ensures !ContainsAny(t, NextPhrases)
  {
    NotContainsByChar(t, "next page", 2);
    NotContainsByChar(t, "next", 2);
    NotContainsByChar(t, "forward", 3);
    NextAbsent(t);
  }

  lemma JumpBackNoForward(t: string)
    requires JumpBackLetters(t)
    ensures Search(t, JumpForward).None?
  {
    NotContainsByChar(t, "jump forward ", 8);
    NotContainsByChar(t, "jump ahead ", 6);
    SearchLiteralNone(t, ["jump forward ", "jump ahead "]);
  }

  /** `jump (back|backward) (\d+)` captures 2 in "jump back 2 pages", which also says "page". */
  lemma JumpBackTwo(t: string)
    requires Spells(t, "jump back 2 pages")
    ensures Search(t, JumpBack) == Some(2) && Contains(t, "page")
  {
    Occurs(t, "jump back 2 pages", "jump back ", 0);
    Occurs(t, "jump back 2 pages", "page", 12);
    assert DigitRun(t, 11) == 0;
    assert DigitRun(t, 10) == 1;
    assert t[10..11] == "2";
    assert Value("2") == 2;
    assert AlternativeAt(t, 0, ["jump back ", "jump backward "]) == Some(2);
    SearchAtStart(t, JumpBack);
  }

  /** As written, "jump back 2 pages" at index 4 moves to index 3. */
  lemma JumpBackAsWritten(t: string, lastNav: Option<int>)
    requires Spells(t, "jump back 2 pages")
    ensures InterpretAsWritten(t, 4, 10, lastNav) == Move(3)
  {
    JumpBackSpelling(t);
    JumpBackNoMeta(t, lastNav);
    JumpBackNoNext(t);
    JumpBackTwo(t);
    JumpBackUnreachableAsWritten(t, 4, 10, lastNav);
  }

  /** With a matching relative jump tested first, "jump back 2 pages" at index 4 moves to index 2. */
  lemma JumpBackCorrected(t: string, lastNav: Option<int>)
    requires Spells(t, "jump back 2 pages")
    ensures Interpret(t, 4, 10, lastNav) == Move(2)
  {
    JumpBackSpelling(t);
    JumpBackNoMeta(t, lastNav);
    JumpBackNoForward(t);
    JumpBackTwo(t);
    JumpBackReached(t, 4, 10, lastNav);
  }

  /** Read at page 5 of 10, "jump back 2 pages" moves to page 4 as the code is written. */
  lemma ExampleJumpBackAsWritten(lastNav: Option<int>)
    ensures InterpretAsWritten("jump back 2 pages", 4, 10, lastNav) == Move(3)
  {
    JumpBackAsWritten("jump back 2 pages", lastNav);
  }

  /** With a matching relative jump tested first, which is what the model's assistant does, it moves to page 3. */
  lemma ExampleJumpBack(vs: VoiceState, nav: Store)
    requires nav.currentPage == 4 && nav.totalPages == 10
    ensures CommandStep(vs, nav, "jump back 2 pages").store.currentPage == 2
  {
    NormalizeFixed("jump back 2 pages");
    JumpBackCorrected("jump back 2 pages", vs.lastNavTarget);
    MoveTaken(vs, nav, "jump back 2 pages", 2);
  }

  // ---------------------------------------------------------------------------
  // Zoom utterances
  // ---------------------------------------------------------------------------

  /** The length and the letters that rule phrases out of "zoom 150". */
  predicate ZoomHundredFiftyLetters(t: string) {
    |t| == 8 && 'q' !in t && 'e' !in t && 's' !in t && 'i' !in t && 'u' !in t
  }

  lemma ZoomHundredFiftyLacksQES(t: string)
    requires Spells(t, "zoom 150")
    ensures 'q' !in t && 'e' !in t && 's' !in t
  {
    LacksLetter(t, "zoom 150", 'q');
    LacksLetter(t, "zoom 150", 'e');
    LacksLetter(t, "zoom 150", 's');
  }

  lemma ZoomHundredFiftyLacksIU(t: string)
    requires Spells(t, "zoom 150")
    ensures 'i' !in t && 'u' !in t
  {
    LacksLetter(t, "zoom 150", 'i');
    LacksLetter(t, "zoom 150", 'u');
  }

  lemma ZoomHundredFiftySpelling(t: string)
    requires Spells(t, "zoom 150")
    ensures ZoomHundredFiftyLetters(t)
  {
    ZoomHundredFiftyLacksQES(t);
    ZoomHundredFiftyLacksIU(t);
  }

  lemma ZoomHundredFiftyNoQuit(t: string)
    requires ZoomHundredFiftyLetters(t)
    ensures !ContainsAny(t, QuitPhrases)
  {
    NotContainsByChar(t, "quit", 0);
    NotContainsByChar(t, "exit", 0);
    NotContainsByLength(t, "stop listening");
    NotContainsByLength(t, "stop voice");
    QuitAbsent(t);
  }

  lemma ZoomHundredFiftyNoStatus(t: string)
    requires ZoomHundredFiftyLetters(t)
    ensures !ContainsAny(t, StatusPhrases)
  {
    NotContainsByChar(t, "status", 0);
    NotContainsByLength(t, "where am i");
    NotContainsByLength(t, "which page");
    StatusAbsent(t);
  }

  /** `zoom\s+(\d+)` captures 150 in "zoom 150". */
  lemma ZoomHundredFiftyNumber(t: string)
    requires Spells(t, "zoom 150")
    ensures Search(t, ZoomNumber) == Some(150)
  {
    Occurs(t, "zoom 150", "zoom", 0);
    assert SpaceRun(t, 5) == 0;
    assert SpaceRun(t, 4) == 1;
    assert DigitRun(t, 8) == 0;
    assert DigitRun(t, 7) == 1;
    assert DigitRun(t, 6) == 2;
    assert DigitRun(t, 5) == 3;
    assert t[5..8] == "150";
    assert "150"[..2] == "15" && "15"[..1] == "1" && "1"[..0] == "";
    assert Value("150") == 150;
    assert MatchAt(t, 0, ZoomNumber) == Some(150);
    SearchAtStart(t, ZoomNumber);
  }

  /** "zoom 150" has the length of "zoom 100" but is a different string. */
  lemma ZoomHundredFiftyNotHundred(t: string)
    requires Spells(t, "zoom 150")
    ensures !Contains(t, "zoom 100")
  {
    SpellsIsEquality(t, "zoom 150");
    ContainsSameLength(t, "zoom 100");
  }

  lemma ZoomHundredFiftyCommand(t: string)
    requires Spells(t, "zoom 150")
    ensures ZoomCommandOf(t) == ZoomTo(150)
  {
    ZoomHundredFiftySpelling(t);
    NotContainsByChar(t, "zoom in", 5);
    NotContainsByChar(t, "zoom out", 6);
    ShortNoReset(t);
    ZoomHundredFiftyNotHundred(t);
    NotContainsByLength(t, "hundred percent");
    NoneContained(t, HundredPhrases);
    ZoomHundredFiftyNumber(t);
  }

  lemma ZoomHundredFiftyIntent(t: string, cur: int, total: int, lastNav: Option<int>)
    requires Spells(t, "zoom 150")
    ensures Interpret(t, cur, total, lastNav) == ZoomIntent(ZoomTo(150))
  {
    ZoomHundredFiftySpelling(t);
    ZoomHundredFiftyNoQuit(t);
    ZoomHundredFiftyNoStatus(t);
    NotContainsByChar(t, "help", 1);
    Occurs(t, "zoom 150", "zoom", 0);
    ZoomHundredFiftyCommand(t);
  }

  /** "zoom 150" sets the zoom to 150 and leaves the page alone. */
  lemma ExampleZoomHundredFifty(vs: VoiceState, nav: Store)
    ensures CommandStep(vs, nav, "zoom 150").store == WithZoom(nav, 150)
  {
    NormalizeFixed("zoom 150");
    ZoomHundredFiftyIntent("zoom 150", nav.currentPage, nav.totalPages, vs.lastNavTarget);
  }

  /** The length and the letters that rule phrases out of "zoom out". */
  predicate ZoomOutLetters(t: string) {
    |t| == 8 && 'q' !in t && 'e' !in t && 's' !in t && 'i' !in t
  }

  lemma ZoomOutLacksQES(t: string)
    requires Spells(t, "zoom out")
    ensures 'q' !in t && 'e' !in t && 's' !in t
  {
    LacksLetter(t, "zoom out", 'q');
    LacksLetter(t, "zoom out", 'e');
    LacksLetter(t, "zoom out", 's');
  }

  lemma ZoomOutLacksI(t: string)
    requires Spells(t, "zoom out")
    ensures 'i' !in t
  {
    LacksLetter(t, "zoom out", 'i');
  }

  lemma ZoomOutSpelling(t: string)
    requires Spells(t, "zoom out")
    ensures ZoomOutLetters(t)
  {
    ZoomOutLacksQES(t);
    ZoomOutLacksI(t);
  }

  lemma ZoomOutNoQuit(t: string)
    requires ZoomOutLetters(t)
    ensures !ContainsAny(t, QuitPhrases)
  {
    NotContainsByChar(t, "quit", 0);
    NotContainsByChar(t, "exit", 0);
    NotContainsByLength(t, "stop listening");
    NotContainsByLength(t, "stop voice");
    QuitAbsent(t);
  }

  lemma ZoomOutNoStatus(t: string)
    requires ZoomOutLetters(t)
    ensures !ContainsAny(t, StatusPhrases)
  {
    NotContainsByChar(t, "status", 0);
    NotContainsByLength(t, "where am i");
    NotContainsByLength(t, "which page");
    StatusAbsent(t);
  }

  lemma ZoomOutCommand(t: string)
    requires Spells(t, "zoom out")
    ensures ZoomCommandOf(t) == ZoomOut
  {
    ZoomOutSpelling(t);
    NotContainsByChar(t, "zoom in", 5);
    Occurs(t, "zoom out", "zoom out", 0);
  }

  lemma ZoomOutIntent(t: string, cur: int, total: int, lastNav: Option<int>)
    requires Spells(t, "zoom out")
    ensures Interpret(t, cur, total, lastNav) == ZoomIntent(ZoomOut)
  {
    ZoomOutSpelling(t);
    ZoomOutNoQuit(t);
    ZoomOutNoStatus(t);
    NotContainsByChar(t, "help", 1);
    Occurs(t, "zoom out", "zoom", 0);
    ZoomOutCommand(t);
  }

  /** "zoom out" at 100 % gives 75 %. */
  lemma ExampleZoomOut(vs: VoiceState, nav: Store)
    requires nav.zoom == 100
    ensures CommandStep(vs, nav, "zoom out").store == WithZoom(nav, 75)
  {
    NormalizeFixed("zoom out");
    ZoomOutIntent("zoom out", nav.currentPage, nav.totalPages, vs.lastNavTarget);
  }

  /** The length and the letters that rule phrases out of "zoom 1000". */
  predicate ZoomThousandLetters(t: string) {
    |t| == 9 && 'q' !in t && 'e' !in t && 's' !in t && 'i' !in t && 'u' !in t
  }

  lemma ZoomThousandLacksQES(t: string)
    requires Spells(t, "zoom 1000")
    ensures 'q' !in t && 'e' !in t && 's' !in t
  {
    LacksLetter(t, "zoom 1000", 'q');
    LacksLetter(t, "zoom 1000", 'e');
    LacksLetter(t, "zoom 1000", 's');
  }

  lemma ZoomThousandLacksIU(t: string)
    requires Spells(t, "zoom 1000")
    ensures 'i' !in t && 'u' !in t
  {
    LacksLetter(t, "zoom 1000", 'i');
    LacksLetter(t, "zoom 1000", 'u');
  }

  lemma ZoomThousandSpelling(t: string)
    requires Spells(t, "zoom 1000")
    ensures ZoomThousandLetters(t)
  {
    ZoomThousandLacksQES(t);
    ZoomThousandLacksIU(t);
  }

  lemma ZoomThousandNoQuit(t: string)
    requires ZoomThousandLetters(t)
    ensures !ContainsAny(t, QuitPhrases)
  {
    NotContainsByChar(t, "quit", 0);
    NotContainsByChar(t, "exit", 0);
    NotContainsByLength(t, "stop listening");
    NotContainsByLength(t, "stop voice");
    QuitAbsent(t);
  }

  lemma ZoomThousandNoStatus(t: string)
    requires ZoomThousandLetters(t)
    ensures !ContainsAny(t, StatusPhrases)
  {
    NotContainsByChar(t, "status", 0);
    NotContainsByLength(t, "where am i");
    NotContainsByLength(t, "which page");
    StatusAbsent(t);
  }

  lemma ZoomThousandCommand(t: string)
    requires Spells(t, "zoom 1000")
    ensures ZoomCommandOf(t) == ZoomReset
  {
    ZoomThousandSpelling(t);
    NotContainsByChar(t, "zoom in", 5);
    NotContainsByChar(t, "zoom out", 6);
    ShortNoReset(t);
    Occurs(t, "zoom 1000", "zoom 100", 0);
    OneContained(t, HundredPhrases, 0);
  }

  lemma ZoomThousandIntent(t: string, cur: int, total: int, lastNav: Option<int>)
    requires Spells(t, "zoom 1000")
    ensures Interpret(t, cur, total, lastNav) == ZoomIntent(ZoomReset)
  {
    ZoomThousandSpelling(t);
    ZoomThousandNoQuit(t);
    ZoomThousandNoStatus(t);
    NotContainsByChar(t, "help", 1);
    Occurs(t, "zoom 1000", "zoom", 0);
    ZoomThousandCommand(t);
  }

  /** "zoom 1000" contains "zoom 100", so it resets the zoom instead of being rejected. */
  lemma ExampleZoomThousand(vs: VoiceState, nav: Store)
    ensures CommandStep(vs, nav, "zoom 1000").store == WithZoom(nav, ResetZoomLevel)
  {
    NormalizeFixed("zoom 1000");
    ZoomThousandIntent("zoom 1000", nav.currentPage, nav.totalPages, vs.lastNavTarget);
  }

  // ---------------------------------------------------------------------------
  // "repeat"
  // ---------------------------------------------------------------------------

  /** The length and the letters that rule phrases out of "repeat". */
  predicate RepeatLetters(t: string) {
    |t| == 6 && 'q' !in t && 'x' !in t && 's' !in t && 'h' !in t && 'z' !in t
  }

  lemma RepeatLacksQXS(t: string)
    requires Spells(t, "repeat")
    ensures 'q' !in t && 'x' !in t && 's' !in t
  {
    LacksLetter(t, "repeat", 'q');
    LacksLetter(t, "repeat", 'x');
    LacksLetter(t, "repeat", 's');
  }

  lemma RepeatLacksHZ(t: string)
    requires Spells(t, "repeat")
    ensures 'h' !in t && 'z' !in t
  {
    LacksLetter(t, "repeat", 'h');
    LacksLetter(t, "repeat", 'z');
  }

  lemma RepeatSpelling(t: string)
    requires Spells(t, "repeat")
    ensures RepeatLetters(t)
  {
    RepeatLacksQXS(t);
    RepeatLacksHZ(t);
  }

  lemma RepeatNoQuit(t: string)
    requires RepeatLetters(t)
    ensures !ContainsAny(t, QuitPhrases)
  {
    NotContainsByChar(t, "quit", 0);
    NotContainsByChar(t, "exit", 1);
    NotContainsByLength(t, "stop listening");
    NotContainsByLength(t, "stop voice");
    QuitAbsent(t);
  }

  lemma RepeatNoStatus(t: string)
    requires RepeatLetters(t)
    ensures !ContainsAny(t, StatusPhrases)
  {
    NotContainsByChar(t, "status", 0);
    NotContainsByLength(t, "where am i");
    NotContainsByLength(t, "which page");
    StatusAbsent(t);
  }

  lemma RepeatIntent(t: string, cur: int, total: int, p: int)
    requires Spells(t, "repeat")
    ensures Interpret(t, cur, total, Some(p)) == Repeat(p)
  {
    RepeatSpelling(t);
    RepeatNoQuit(t);
    RepeatNoStatus(t);
    NotContainsByChar(t, "help", 0);
    NotContainsByChar(t, "zoom", 0);
    Occurs(t, "repeat", "repeat", 0);
  }

  /** "repeat" on index 6 of 10, with index 6 remembered, stays there. */
  lemma ExampleRepeat(vs: VoiceState, nav: Store)
    requires vs.lastNavTarget == Some(6) && nav.currentPage == 6 && nav.totalPages == 10
    ensures CommandStep(vs, nav, "repeat").store == nav
    ensures CommandStep(vs, nav, "repeat").state == vs.(lastCommandText := Some("repeat"))
  {
    NormalizeFixed("repeat");
    RepeatIntent("repeat", 6, 10, 6);
    RepeatStays(vs, nav, "repeat", 6);
  }

  /** "repeat" right after "page 7" stays on index 6, and index 6 stays remembered. */
  lemma ExampleRepeatAfterPageSeven(vs: VoiceState, nav: Store)
    requires nav.currentPage == 4 && nav.totalPages == 10
    ensures var s1 := CommandStep(vs, nav, "page 7");
            CommandStep(s1.state, s1.store, "repeat").store.currentPage == 6
            && CommandStep(s1.state, s1.store, "repeat").state.lastNavTarget == Some(6)
  {
    ExamplePageSeven(vs, nav);
    var s1 := CommandStep(vs, nav, "page 7");
    ExampleRepeat(s1.state, s1.store);
  }

  // ---------------------------------------------------------------------------
  // Plain "stop"
  // ---------------------------------------------------------------------------

  /** The length and the letters that rule phrases out of "stop". */
  predicate StopLetters(t: string) {
    |t| == 4 && 'q' !in t && 'e' !in t && 'z' !in t && 'b' !in t && 'j' !in t
  }

  lemma StopLacksQEZ(t: string)
    requires Spells(t, "stop")
    ensures 'q' !in t && 'e' !in t && 'z' !in t
  {
    LacksLetter(t, "stop", 'q');
    LacksLetter(t, "stop", 'e');
    LacksLetter(t, "stop", 'z');
  }

  lemma StopLacksBJ(t: string)
    requires Spells(t, "stop")
    ensures 'b' !in t && 'j' !in t
  {
    LacksLetter(t, "stop", 'b');
    LacksLetter(t, "stop", 'j');
  }

  lemma StopSpelling(t: string)
    requires Spells(t, "stop")
    ensures StopLetters(t)
  {
    StopLacksQEZ(t);
    StopLacksBJ(t);
  }

  lemma StopNoQuit(t: string)
    requires StopLetters(t)
    ensures !ContainsAny(t, QuitPhrases)
  {
    NotContainsByChar(t, "quit", 0);
    NotContainsByChar(t, "exit", 0);
    NotContainsByLength(t, "stop listening");
    NotContainsByLength(t, "stop voice");
    QuitAbsent(t);
  }

  lemma StopNoStatus(t: string)
    requires StopLetters(t)
    ensures !ContainsAny(t, StatusPhrases)
  {
    NotContainsByLength(t, "status");
    NotContainsByLength(t, "where am i");
    NotContainsByLength(t, "which page");
    StatusAbsent(t);
  }

  lemma StopNoMeta(t: string, lastNav: Option<int>)
    requires StopLetters(t)
    ensures MetaIntent(t, lastNav).None?
  {
    StopNoQuit(t);
    StopNoStatus(t);
    NotContainsByChar(t, "help", 1);
    NotContainsByChar(t, "zoom", 0);
    NotContainsByLength(t, "repeat");
    MetaNone(t, lastNav);
  }

  lemma StopNoNext(t: string)
    requires StopLetters(t)
    ensures !ContainsAny(t, NextPhrases)
  {
    NotContainsByLength(t, "next page");
    NotContainsByChar(t, "next", 1);
    NotContainsByLength(t, "forward");
    NextAbsent(t);
  }

  lemma StopNoPrevious(t: string)
    requires StopLetters(t)
    ensures !ContainsAny(t, PreviousPhrases)
  {
    NotContainsByLength(t, "previous page");
    NotContainsByLength(t, "previous");
    NotContainsByChar(t, "back", 0);
    NotContainsByLength(t, "back page");
    PreviousAbsent(t);
  }

  lemma StopNoFirst(t: string)
    requires StopLetters(t)
    ensures !ContainsAny(t, FirstPhrases)
  {
    NotContainsByLength(t, "first page");
    NotContainsByLength(t, "go to start");
    NotContainsByLength(t, "beginning");
    NotContainsByLength(t, "home page");
    FirstAbsent(t);
  }

  lemma StopNoLast(t: string)
    requires StopLetters(t)
    ensures !ContainsAny(t, LastPhrases)
  {
    NotContainsByLength(t, "last page");
    NotContainsByLength(t, "go to end");
    NotContainsByLength(t, "final page");
    NotContainsByLength(t, "end page");
    LastAbsent(t);
  }

  lemma StopNoMiddle(t: string)
    requires StopLetters(t)
    ensures !ContainsAny(t, MiddlePhrases)
  {
    NotContainsByLength(t, "middle");
    NotContainsByLength(t, "center");
    NotContainsByLength(t, "halfway");
    MiddleAbsent(t);
  }

  lemma StopNavigation(t: string, cur: int, total: int)
    requires StopLetters(t) && !IsDigits(t)
    ensures Navigation(t, cur, total) == Unknown
  {
    StopNoNext(t);
    StopNoPrevious(t);
    StopNoFirst(t);
    StopNoLast(t);
    StopNoMiddle(t);
    NotContainsByChar(t, "jump", 0);
    NotContainsByChar(t, "page", 3);
  }

  lemma StopIntent(t: string, cur: int, total: int, lastNav: Option<int>)
    requires Spells(t, "stop")
    ensures Interpret(t, cur, total, lastNav) == Unknown
  {
    StopSpelling(t);
    StopNoMeta(t, lastNav);
    assert !IsDigit(t[0]);
    StopNavigation(t, cur, total);
  }

  /** Plain "stop" is not a quit phrase: it is an unknown command that changes nothing but
      the remembered utterance, and the assistant keeps running. */
  lemma ExamplePlainStop(vs: VoiceState, nav: Store)
    ensures CommandStep(vs, nav, "stop") == VoiceStep(vs.(lastCommandText := Some("stop")), nav)
  {
    NormalizeFixed("stop");
    StopIntent("stop", nav.currentPage, nav.totalPages, vs.lastNavTarget);
  }
}
