# PDF navigation by gaze, hand, voice and keyboard — a Dafny model

Pdf-Navigation is a Flask web application that shows a PDF one page at a time. The reader
turns pages without touching the mouse. Four controllers are available:

- an **eye-gaze** controller: it classifies the iris offset of each camera frame, smooths the
  directions by a majority vote over the last ten frames, and fires one page action after a
  1.5 s dwell;
- a **hand-gesture** controller: two fingertip distances select a mode, a swipe in turn mode
  changes the page, and a pinch in zoom mode changes the zoom;
- a **microphone voice** assistant: a priority-ordered cascade of phrase tests and regular
  expressions maps an utterance to quit, help, status, zoom, repeat or a page target;
- a **keyboard** assistant: a similar cascade over typed commands, with exact shortcuts, phrase
  fallbacks and a "page N" word scan.

All of them write to one **shared page store**. The store accepts a page only inside the loaded
document. The web server's **controller slot** (`start_control`, `stop_control`, `goto_page`)
holds at most one running controller and lets the browser jump to a page.

The model has one Dafny module per source file:

- `PageStore` (shared_state.dfy);
- `EyeGaze` (eye_gaze.dfy);
- `HandGesture` (hand_gesture.dfy);
- `VoiceAssistant` (voice_assistant.dfy), with worked utterances in `VoiceExamples`
  (voice_examples.dfy);
- `KeyboardAssistant` (simple_voice_assistant.dfy);
- `App` (app.dfy).

Two support modules hold shared definitions. `Common` has `Option`, `Min`, `Max`, `Abs`, `RealMax` and `IsSet`. `Text`
stands in for Python's `str.lower`, `strip`, `split`, `isdigit`, `in` and `int`, and for the
few `re.search` patterns the assistants use.

Each controller is modelled the same way:

- a datatype holds the controller's own fields;
- a pure step function says what one frame or one command does;
- a class holds the real fields, and its methods update them in place;
- each method's `ensures` ties the new fields and the new store to the step function applied
  to the old ones;
- lemmas over runs of frames or commands state what holds along the way: bounds, cooldown
  spacing, one action per dwell episode, zoom alternation, one running controller.

The inputs are parameters:

- time is the real parameter `now`. Several `time.time()` calls in one frame are one `now`;
- distances and iris offsets are real inputs;
- utterances and typed commands are strings.

The assistant's docstring and help text advertise two utterances that the code handles
differently; the model follows the code. Plain "stop" is listed as a way to quit
(modules/voice_assistant.py:30, 63), but the quit test looks only for "quit", "exit",
"stop listening" and "stop voice" (line 130), so "stop" is not understood
(`VoiceExamples.ExamplePlainStop`). "back to normal" is listed as a zoom reset (lines 26, 303),
but the reset is tested only inside the zoom branch; an utterance without "zoom" reaches the
previous-page rule, which matches "back" (lines 165-167), and moves one page back.

## Model

| member | source | states |
|---|---|---|
| PageStore.WithPage | modules/shared_state.py:12-17 | a page in [0, total) becomes the current page; any other page leaves the store unchanged; the page count, path and zoom never change; the bounded invariant is kept |
| PageStore.WithDocument | modules/shared_state.py:23-27 | loading a document sets its path and page count and resets the page to 0; the zoom is kept; the result is bounded |
| PageStore.WithZoom | modules/hand_gesture.py:254-256 | the zoom store sets the zoom and nothing else; it does no clamping, which the callers do |
| PageStore.RunKeepsBounded | modules/shared_state.py:5-27 | every sequence of store operations keeps `0 <= current_page` and, with pages, `current_page < total_pages` |
| PageStore.NoNavigationBeforeLoad | modules/shared_state.py:5-6 | from the empty initial store, no page is ever accepted until a document with pages is loaded |
| PageStore.InitialRejectsAll | modules/shared_state.py:4-17 | the initial store is bounded and rejects every page |
| PageStore.SharedState.constructor | modules/shared_state.py:4-9 | a new store is the initial one: page 0, no pages, no document |
| PageStore.SharedState.UpdatePage | modules/shared_state.py:12-17 | returns true exactly when the page lies in [0, total); the new state is `WithPage` of the old one |
| PageStore.SharedState.GetPage | modules/shared_state.py:19-21 | returns the current page and changes nothing |
| PageStore.SharedState.SetPdfInfo | modules/shared_state.py:23-27 | the new state is `WithDocument` of the old one |
| PageStore.SharedState.GetZoom | modules/hand_gesture.py:254 | returns the stored zoom and changes nothing |
| PageStore.SharedState.UpdateZoom | modules/voice_assistant.py:269 | stores the given zoom and returns it |
| PageStore.SharedState.ResetZoom | modules/voice_assistant.py:256 | stores 100 and returns it |
| EyeGaze.DetectGaze | modules/eye_gaze.py:53-74 | an unresolved iris gives Center; Left holds iff dx < -10, Right iff dx > 10, Up iff dx is within ±10 and dy < -5, Down iff dx is within ±10 and dy > 1 |
| EyeGaze.CenterIsDeadBox | modules/eye_gaze.py:53-74 | Center holds exactly for an unresolved iris or an offset inside the box ±10 by [-5, 1] |
| EyeGaze.HorizontalOverrides | modules/eye_gaze.py:70-73 | once dx is past ±10, the vertical offset has no effect |
| EyeGaze.Pushed | modules/eye_gaze.py:138 | the buffer holds min(n+1, 10) entries, ends with the new direction, and is the newest suffix of the old buffer plus it, so the oldest entry is evicted |
| EyeGaze.MostCommon | modules/eye_gaze.py:140 | returns a direction that occurs in the buffer and whose count over the whole buffer is at least every other direction's count |
| EyeGaze.UnanimousBuffer | modules/eye_gaze.py:140 | a buffer of one repeated direction elects exactly that direction |
| EyeGaze.GazeTarget | modules/eye_gaze.py:81-100 | Right steps forward unless on the last page, Left steps back unless on the first, Up asks for 0, Down for total-1, Center for the current page; in a bounded document with pages the target is a page |
| EyeGaze.GazeAction | modules/eye_gaze.py:76-104 | a no-op within 1.5 s of the last action; otherwise the page moves exactly when the target differs and the store accepts it; the action time is stamped exactly when the page moved |
| EyeGaze.DownWithoutPages | modules/eye_gaze.py:98-104 | looking down with no pages asks for page -1, which is rejected, so nothing changes |
| EyeGaze.GazeFrame | modules/eye_gaze.py:137-152 | with fewer than 5 samples only the buffer changes; a new vote resets the stable direction and the dwell timer with no action; the same vote without an attempt only changes the buffer, so the episode and its timer carry on; an attempt happens iff the vote agrees, the timer is set, more than 1.5 s passed and the direction is not Center; the attempt clears the timer whether or not the page moved |
| EyeGaze.NoAttemptWithoutNewEpisode | modules/eye_gaze.py:142-152 | with the dwell timer clear and the vote unchanged, no frame attempts an action |
| EyeGaze.OneAttemptPerEpisode | modules/eye_gaze.py:142-152 | over frames whose vote stays the stable direction, at most one action is attempted |
| EyeGaze.MovesAfterLastAction | modules/eye_gaze.py:76-104 | every page change of a run comes at least 1.5 s after the starting action time |
| EyeGaze.MovesSpaced | modules/eye_gaze.py:76-104 | any two page changes of a run are at least 1.5 s apart |
| EyeGaze.RunGazeKeepsBounds | modules/eye_gaze.py:76-152 | over any run the page stays in the document and the buffer holds at most ten entries |
| EyeGaze.EyeGazeController.constructor | modules/eye_gaze.py:31-34 | empty buffer, stable Center, no dwell timer, last action at 0 |
| EyeGaze.EyeGazeController.HandleGazeAction | modules/eye_gaze.py:76-104 | the action time and the store become those of `GazeAction`; the buffer and the dwell state are unchanged |
| EyeGaze.EyeGazeController.ProcessFrame | modules/eye_gaze.py:135-152 | classifies the frame, appends it and votes; the fields and the store become those of `GazeFrame`, and the vote is a majority of the buffer once it holds five samples |
| HandGesture.PosesDisjoint | modules/hand_gesture.py:87-106 | the zoom, turn and open-hand distance conditions are pairwise disjoint |
| HandGesture.Midpoint | modules/hand_gesture.py:192-195 | the floor-division midpoint of two fingertips |
| HandGesture.SelectMode | modules/hand_gesture.py:87-113 | entering zoom captures the baseline, clears the direction and arms the relax timer; entering turn anchors at the midpoint; an open hand clears every anchor; repeating the current mode or any other distance pair changes nothing; the cooldown timers are untouched |
| HandGesture.HandleTurn | modules/hand_gesture.py:190-225 | nothing happens when the vertical drift exceeds 60 or within 0.7 s of the last turn; otherwise a left swipe of 70 or more moves to min(total-1, cur+1) and a right swipe of 70 or more to max(0, cur-1) whenever that is another page; a turn stamps the time and re-anchors |
| HandGesture.TurnAtBoundary | modules/hand_gesture.py:208-225 | a left swipe on the last page and a right swipe on the first page do nothing |
| HandGesture.ZoomDecision | modules/hand_gesture.py:239-271 | with both timers clear, a ratio over 0.18 gives out unless out was last, and a ratio under -0.18 gives in unless in was last; a decision never repeats the last direction |
| HandGesture.ZoomLevel | modules/hand_gesture.py:251-271 | out gives min(500, z+25), in gives max(25, z-25); a level in [25, 500] stays there |
| HandGesture.HandleZoom | modules/hand_gesture.py:230-273 | without a baseline the frame only captures it; with one, a decided zoom fires with the level of `ZoomLevel`; only the zoom changes; a zoom action sets the level, the direction and both timers to now; no action changes nothing |
| HandGesture.ZoomDeadZone | modules/hand_gesture.py:239-273 | a ratio within ±0.18, or a closed relax or cooldown window, changes nothing |
| HandGesture.HandFrame | modules/hand_gesture.py:80-122 | a frame that keeps the turn mode is judged by `HandleTurn` from the anchor, one that keeps the zoom mode by `HandleZoom`; the frame that enters a mode anchors it and fires nothing, its state being exactly what `SelectMode` leaves; an open hand leaves every mode and fires nothing; with no mode and no entering pose nothing happens; the page stays in the document and the zoom in [25, 500]; a page turn respects the 0.7 s cooldown and stamps the time; inside a zoom episode the mode stays and the zoom direction alternates |
| HandGesture.RunHandKeepsBounds | modules/hand_gesture.py:80-273 | over any run the page stays in the document and the zoom in [25, 500] |
| HandGesture.TurnsAfterLastAction | modules/hand_gesture.py:203-205 | every page turn of a run comes at least 0.7 s after the starting action time |
| HandGesture.TurnsSpaced | modules/hand_gesture.py:203-225 | any two page turns of a run are at least 0.7 s apart |
| HandGesture.ZoomAlternates | modules/hand_gesture.py:251-271 | inside one zoom episode every action is a zoom, the first differs from the episode's last direction, and consecutive ones alternate |
| HandGesture.HandGestureController.constructor | modules/hand_gesture.py:33-49 | mode none, no anchors, timers at 0 |
| HandGesture.HandGestureController.ProcessGestures | modules/hand_gesture.py:80-122 | the fields and the store become those of `HandFrame` |
| HandGesture.HandGestureController.HandleTurnMode | modules/hand_gesture.py:190-225 | the fields and the store become those of `HandleTurn` |
| HandGesture.HandGestureController.HandleZoomMode | modules/hand_gesture.py:230-273 | the fields and the store become those of `HandleZoom` |
| VoiceAssistant.ZoomCommandOf | modules/voice_assistant.py:245-274 | "zoom in" gives zoom in, and zoom in needs "zoom in"; otherwise "zoom out" gives zoom out; otherwise a reset phrase or the substring "zoom 100" resets; otherwise "zoom N" names the level, accepted exactly for 25 <= N <= 500; with no phrase and no number the command is unrecognised |
| VoiceAssistant.ApplyZoom | modules/voice_assistant.py:241-274 | zoom in adds 25 capped at 500, zoom out subtracts 25 floored at 25, reset stores 100, an accepted N is stored, anything else changes nothing; only the zoom changes |
| VoiceAssistant.OneBased | modules/voice_assistant.py:199-231 | a spoken page N is the target N-1 exactly when 1 <= N <= total, and otherwise out of range |
| VoiceAssistant.JumpTarget | modules/voice_assistant.py:183-194 | a forward jump gives min(total-1, cur+N); otherwise a back jump gives max(0, cur-N); there is a target exactly when one of the patterns matches |
| VoiceAssistant.PageNumberIntent | modules/voice_assistant.py:197-221 | "page N" decides first, then the first standalone number, each as a one-based page; with neither there is no page number; every target is in range |
| VoiceAssistant.MiddlePage | modules/voice_assistant.py:178-179 | max(0, total // 2), a page of any non-empty document |
| VoiceAssistant.LaterNavigation | modules/voice_assistant.py:169-235 | in order: a first-page phrase moves to 0, a last-page phrase to total-1, a middle phrase to total // 2, "jump" with "page" by the jump (or nowhere without one), "page" by `PageNumberIntent`, an all-digit utterance to its one-based page; nothing else is understood; targets lie in the document |
| VoiceAssistant.NavigationAsWritten | modules/voice_assistant.py:161-235 | any "next"/"forward" moves one page on; otherwise any "previous"/"back" moves one page back; every other utterance is judged by `LaterNavigation`; all targets lie in the document |
| VoiceAssistant.Navigation | modules/voice_assistant.py:183-194 | a matching relative jump is tested first; everything else is as written |
| VoiceAssistant.MetaIntent | modules/voice_assistant.py:130-158 | quit, help, status, zoom and repeat, each exactly when no earlier one holds; zoom carries `ZoomCommandOf`, repeat the remembered target; navigation is reached exactly when none holds; plain "stop" is no quit phrase |
| VoiceAssistant.InterpretAsWritten | modules/voice_assistant.py:120-238 | a meta command decides when there is one, the written navigation rules otherwise; past the meta commands, any "forward" moves one page on and any "back" one page back, so "jump forward N", "jump back N" and "jump backward N" are caught by the next and previous rules, while "jump ahead N" still reaches the jump rule; quit exactly on a quit phrase; targets lie in the document |
| VoiceAssistant.Interpret | modules/voice_assistant.py:120-238 | a meta command decides when there is one, the navigation rules with a matching relative jump tested first otherwise; quit exactly on a quit phrase; every move or repeat target lies in the document |
| VoiceAssistant.InterpretersDifferOnlyOnJumps | modules/voice_assistant.py:161-194 | the two interpreters differ only where a relative jump matches, and there the corrected one moves by the jump |
| VoiceAssistant.JumpAheadReachedAsWritten | modules/voice_assistant.py:161-189 | as written, an utterance with "jump" and "page" that no earlier phrase catches and that matches the forward-jump pattern ("jump ahead N") moves to min(total-1, cur+N), as the corrected interpreter does |
| VoiceAssistant.JumpBackWords | modules/voice_assistant.py:186 | every match of the back-jump pattern ("jump back N" or "jump backward N") contains "jump" and "back" |
| VoiceAssistant.JumpBackUnreachableAsWritten | modules/voice_assistant.py:161-194 | as written, a back jump is caught by the previous-page rule and moves one page |
| VoiceAssistant.JumpBackReached | modules/voice_assistant.py:191-194 | with a matching relative jump tested first, a back jump moves back by its number |
| VoiceAssistant.PageChange | modules/voice_assistant.py:277-288 | a new page the store accepts becomes the current page and is remembered; an equal or rejected target changes nothing; the remembered target changes only that way |
| VoiceAssistant.Effect | modules/voice_assistant.py:128-238 | quit clears the running flag and touches nothing else; a zoom command changes the store by `ApplyZoom`; a move or repeat target goes through `PageChange`; help, status and the refusals change nothing |
| VoiceAssistant.EffectKeepsInvariant | modules/voice_assistant.py:128-288 | whatever the intent, the store stays bounded and the remembered target a page of the document |
| VoiceAssistant.Respond | modules/voice_assistant.py:128-238 | the utterance has the effect of its intent under `Interpret`; a quit phrase only stops the controller |
| VoiceAssistant.RespondAsWritten | modules/voice_assistant.py:128-238 | the utterance has the effect of its intent under `InterpretAsWritten`; a quit phrase only stops the controller |
| VoiceAssistant.CommandStep | modules/voice_assistant.py:120-238 | the utterance is always remembered, then the intent of its lowered, stripped form under `Interpret` takes effect; the page count and the document never change |
| VoiceAssistant.CommandStepAsWritten | modules/voice_assistant.py:120-238 | the same with the intent under `InterpretAsWritten` |
| VoiceAssistant.CommandStepsDifferOnlyOnJumps | modules/voice_assistant.py:161-194 | the corrected and the written step differ only on an utterance with a matching relative jump |
| VoiceAssistant.CommandStepKeepsInvariant | modules/voice_assistant.py:120-288 | one utterance keeps the store bounded and the remembered target a page of the document |
| VoiceAssistant.CommandStepAsWrittenKeepsInvariant | modules/voice_assistant.py:120-288 | the written step also keeps the store bounded and the remembered target in the document |
| VoiceAssistant.CommandStepMovesOnlyBySuccess | modules/voice_assistant.py:277-288 | the page changes only to an accepted page, which is then remembered; the remembered target changes only that way |
| VoiceAssistant.EffectMovesOnlyBySuccess | modules/voice_assistant.py:277-288 | whatever the intent, the page changes only to an accepted page, which is then remembered, and the remembered target changes only that way |
| VoiceAssistant.CommandStepQuit | modules/voice_assistant.py:130-133 | only a quit phrase changes the running flag; a quit phrase stops the controller and changes nothing else |
| VoiceAssistant.RepeatStays | modules/voice_assistant.py:130-158 | an utterance with "repeat" and no quit, help, status or zoom phrase, right after a successful move to the current page, keeps the reader there and changes only the remembered utterance |
| VoiceAssistant.RunVoiceKeepsInvariant | modules/voice_assistant.py:120-288 | over any sequence of utterances the store stays bounded and the remembered target stays in the document |
| VoiceAssistant.RunVoiceKeepsDocument | modules/voice_assistant.py:120-123 | utterances never change the document or its page count, and the last one is remembered |
| VoiceAssistant.VoiceAssistantController.constructor | modules/voice_assistant.py:33-46 | nothing remembered, not running |
| VoiceAssistant.VoiceAssistantController.ApplyPageChange | modules/voice_assistant.py:277-288 | the fields and the store become those of `PageChange` |
| VoiceAssistant.VoiceAssistantController.HandleZoomCommands | modules/voice_assistant.py:241-274 | the store becomes `ApplyZoom` of the utterance's zoom command |
| VoiceAssistant.VoiceAssistantController.HandleCommand | modules/voice_assistant.py:120-238 | the fields and the store become those of `CommandStep` |
| VoiceAssistant.VoiceAssistantController.RespondTo | modules/voice_assistant.py:128-238 | the fields and the store become those of `Respond` |
| VoiceAssistant.VoiceAssistantController.ResolveLater | modules/voice_assistant.py:169-235 | returns a target exactly when `LaterNavigation` moves, and it is that target |
| VoiceAssistant.VoiceAssistantController.ResolveNavigation | modules/voice_assistant.py:161-235 | returns a target exactly when `Navigation` moves, and it is that target, inside the document |
| VoiceExamples.ExamplePageSeven | modules/voice_assistant.py:197-207 | "page 7" on a ten-page document at index 4 moves to index 6 and remembers it |
| VoiceExamples.ExampleNextPage | modules/voice_assistant.py:161-163 | "next page" at index 4 moves to index 5 |
| VoiceExamples.ExampleJumpBackAsWritten | modules/voice_assistant.py:161-194 | as written, "jump back 2 pages" at index 4 asks for index 3 |
| VoiceExamples.ExampleJumpBack | modules/voice_assistant.py:191-194 | with a matching relative jump tested first, "jump back 2 pages" at index 4 moves to index 2 |
| VoiceExamples.ExampleZoomHundredFifty | modules/voice_assistant.py:262-270 | "zoom 150" stores 150 |
| VoiceExamples.ExampleZoomOut | modules/voice_assistant.py:250-252 | "zoom out" from 100 stores 75 |
| VoiceExamples.ExampleZoomThousand | modules/voice_assistant.py:259-260 | "zoom 1000" resets to 100, because "zoom 100" is a substring of it |
| VoiceExamples.ExampleRepeat | modules/voice_assistant.py:154-158 | "repeat" at the remembered page changes nothing but the remembered utterance |
| VoiceExamples.ExampleRepeatAfterPageSeven | modules/voice_assistant.py:154-158 | "page 7" and then "repeat" leave the reader on index 6 |
| VoiceExamples.ExamplePlainStop | modules/voice_assistant.py:130-133 | plain "stop" is no quit phrase: only the utterance is remembered |
| KeyboardAssistant.ScanFrom | modules/simple_voice_assistant.py:105-116 | a page found by the word scan lies in [0, total) |
| KeyboardAssistant.ScanSkips | modules/simple_voice_assistant.py:108-113 | positions that are not "page" followed by an in-range or unparsable word are skipped |
| KeyboardAssistant.ScanFirstDecides | modules/simple_voice_assistant.py:108-116 | the first "page" followed by a word that is in range or unparsable decides the scan: the page, or an abort |
| KeyboardAssistant.ScanNotFoundIff | modules/simple_voice_assistant.py:105-116 | the scan finds nothing and aborts nothing exactly when every position misses |
| KeyboardAssistant.ScanPageWords | modules/simple_voice_assistant.py:107-116 | the loop over the words returns `ScanFrom`, and a found page is in range |
| KeyboardAssistant.ExactTarget | modules/simple_voice_assistant.py:72-86 | n/next, then p/prev/previous/back, then f/first/home, then l/last/end give min(total-1, cur+1), max(0, cur-1), 0 and total-1; no target exactly when the command is no shortcut; targets lie in the document |
| KeyboardAssistant.FallbackTarget | modules/simple_voice_assistant.py:89-103 | in order: next words give min(total-1, cur+1), previous words max(0, cur-1), first words 0, last words total-1; no fallback exactly when none occurs; targets lie in the document |
| KeyboardAssistant.WordOutcome | modules/simple_voice_assistant.py:105-129 | a "page" command targets the page the word scan finds, or stays on the current page; otherwise q/quit/exit/stop quits and h/help asks for help; anything else is unknown; targets lie in the document |
| KeyboardAssistant.WordDecide | modules/simple_voice_assistant.py:72-129 | an exact shortcut decides first, then the substring fallbacks of `FallbackTarget`, then `WordOutcome` (the "page" scan, quit, help); quit only for a quit key, help only for a help key; targets lie in the document |
| KeyboardAssistant.Decide | modules/simple_voice_assistant.py:55-129 | an empty command is ignored and nothing else is; an all-digit command N targets its one-based page when in range; quit and help only for their keys; targets lie in the document |
| KeyboardAssistant.DigitsNormalized | modules/simple_voice_assistant.py:60-65 | lowering and stripping leave an all-digit command as it is |
| KeyboardAssistant.ShortWordMissesFallbacks | modules/simple_voice_assistant.py:89-105 | a short command without "d" that is not "next", "back" or "page" matches no fallback and no "page" |
| KeyboardAssistant.NotDigitsIfLetter | modules/simple_voice_assistant.py:60-65 | a command whose normalised form starts with a non-digit is not all digits |
| KeyboardAssistant.DecideByWords | modules/simple_voice_assistant.py:65-72 | a non-empty command that is not all digits is decided by its normalised words |
| KeyboardAssistant.QuitWordsQuit | modules/simple_voice_assistant.py:118-121 | every quit key passes the earlier rules and quits |
| KeyboardAssistant.HelpWordsHelp | modules/simple_voice_assistant.py:123-125 | every help key passes the earlier rules and asks for help |
| KeyboardAssistant.QuitKeysQuit | modules/simple_voice_assistant.py:118-121 | a command that normalises to a quit key quits |
| KeyboardAssistant.HelpKeysHelp | modules/simple_voice_assistant.py:123-125 | a command that normalises to a help key asks for help |
| KeyboardAssistant.ShortcutTargets | modules/simple_voice_assistant.py:72-86 | n/next targets min(total-1, cur+1), p/prev/previous/back max(0, cur-1), f/first/home 0, l/last/end total-1 |
| KeyboardAssistant.CommandStep | modules/simple_voice_assistant.py:55-136 | the page count, document and zoom never change; only a quit stops the assistant; the page changes only to the decided target; quit, help, unknown and empty commands leave the store unchanged |
| KeyboardAssistant.TargetReached | modules/simple_voice_assistant.py:131-136 | in a document with pages, a decided target becomes the current page |
| KeyboardAssistant.RunCommandsKeeps | modules/simple_voice_assistant.py:55-136 | over any command sequence the store stays bounded, the document is unchanged, and a stopped assistant stays stopped |
| KeyboardAssistant.QuitStops | modules/simple_voice_assistant.py:118-121 | a quit key anywhere in a command sequence leaves the assistant stopped |
| KeyboardAssistant.SimpleVoiceAssistant.constructor | modules/simple_voice_assistant.py:13-17 | keeps the path and the store, not running |
| KeyboardAssistant.SimpleVoiceAssistant.ClassifyWord | modules/simple_voice_assistant.py:72-129 | returns `WordDecide` of the normalised command |
| KeyboardAssistant.SimpleVoiceAssistant.Start | modules/simple_voice_assistant.py:181-183 | the assistant is running |
| KeyboardAssistant.SimpleVoiceAssistant.Stop | modules/simple_voice_assistant.py:189-191 | the assistant is stopped |
| KeyboardAssistant.SimpleVoiceAssistant.ProcessCommand | modules/simple_voice_assistant.py:55-136 | the store and the running flag become those of `CommandStep` |
| App.StopCurrent | app.py:121-122 | the current controller is stopped, every other one is kept, and the slot is unchanged |
| App.StartStep | app.py:110-139 | without a document the fleet is unchanged and the error is "Upload PDF first"; an invalid type stops the current controller, keeps it in the slot and reports "Invalid control type"; a valid type stops the old one and puts a fresh running controller of that kind in the slot, with "<type> started" |
| App.StopStep | app.py:147-155 | the slot is emptied, only its controller is stopped and every other controller is kept; with an empty slot nothing changes |
| App.StartKeepsOneRunning | app.py:110-139 | after a start request at most the slot's controller runs, and a replaced controller is stopped |
| App.StopStopsAll | app.py:147-155 | after a stop request no controller runs |
| App.Serve | app.py:110-155 | every request sequence keeps the fleet well formed |
| App.ServeKeepsOneRunning | app.py:110-155 | over any request sequence only the slot's controller runs, controllers keep their kinds, and a stopped controller never runs again |
| App.AtMostOneRuns | app.py:121-137 | two running controllers are the same one, the one in the slot |
| App.GotoAnnouncesOnlyRealPages | app.py:160-174 | every announced page number lies in 1..total with the store's total; there is at most one announcement per request, and a single request is announced exactly when the store accepts it; the last one names the current page; without announcements the store is unchanged |
| App.ControllerHandle.constructor | app.py:125-131 | a created controller has its kind and is not running |
| App.ControllerHandle.Start | app.py:137 | the controller is running |
| App.ControllerHandle.Stop | app.py:151-153 | the controller is stopped |
| App.ControlServer.constructor | app.py:110-112 | the slot is empty and nothing was announced |
| App.ControlServer.StartControl | app.py:110-139 | the fleet and the reply are those of `StartStep`; a changed slot holds a fresh, running controller; nothing is announced |
| App.ControlServer.Install | app.py:124-137 | appends a fresh controller of the kind, puts it in the slot and starts it |
| App.ControlServer.StopHandle | app.py:121-122 | the fleet becomes `StopCurrent` of the old one |
| App.ControlServer.StopControl | app.py:147-155 | the fleet becomes `StopStep` of the old one, the slot is empty, and the reply is "Control stopped" |
| App.ControlServer.GotoPage | app.py:160-174 | succeeds exactly when the store accepts the page; the store and the announcements become those of `GotoEvents`; the slot is untouched |
| Text.ParseInt | modules/simple_voice_assistant.py:110 | an all-digit word parses to its value, a sign followed by digits to the signed value, and every other word raises (underscores and non-ASCII digits aside) |
| Text.ContainsIff | modules/voice_assistant.py:130 | `lit in t` holds exactly when `lit` occurs at some position of `t` |
| Text.ContainsAnyIff | modules/voice_assistant.py:130 | `any(w in t for w in ws)` holds exactly when some phrase occurs |
| Text.WordLength | modules/simple_voice_assistant.py:107 | the leading word of a string ends at the first space or at the end |
| Text.SearchLeftmost | modules/voice_assistant.py:185-200 | a regular-expression search fails exactly when no position matches, and succeeds at the leftmost matching position |

## Left out

- Camera, MediaPipe, `cv2` drawing and windows, `iris_center` and `minEnclosingCircle`: these are I/O and foreign calls. The controllers take the iris offset (`dx`, `dy`) and the fingertip distances as real inputs.
- `np.hypot` and the float pixel averaging: floating point. The inputs are mathematical reals compared with the same thresholds.
- `time.time()`: it is the parameter `now`.
- The `run` loops, threads, `threading.Lock`, `join` and the controllers' `start`/`stop` threads. Store methods are atomic. Only the running flags are modelled: the keyboard assistant's `is_running`, the voice assistant's, and one flag per created controller in the web slot.
- Speech recognition (`listen_for_command`) and keyboard reading: I/O. The utterance or command is a string input.
- `show_help`, the status report and every `print`: output only. Help and status change nothing in the model.
- Flask request parsing and SocketIO: the request fields are parameters, and the `page_update` payload is recorded in a list of announcements. `upload`, `get_page_image` and PyMuPDF rendering are not part of this model.
- PageStore: `control_active`, `current_control_type` and the lock in `SharedState.__init__` are not modelled. Nothing in the modelled code reads them.
- PageStore.SharedState.UpdateZoom: modules/shared_state.py defines no zoom storage. The zoom is a plain integer field that stores what it is given; the initial zoom is a constructor parameter.
- EyeGaze.MostCommon: which of several tied directions Python's `max(set(...), key=count)` returns depends on set iteration order. The model promises some direction of maximal count, and the step function takes the chosen vote as a parameter.
- Python truthiness of the timers (`if self.gaze_start_time and ...`, `if self.zoom_gesture_start_time and ...`) is modelled as "set and not 0"; an absent timer is `None`.
- Text: only ASCII is modelled. `lower` maps A-Z, `strip` and `split` treat ASCII whitespace, `isdigit` accepts 0-9. Python also accepts Unicode digits and whitespace, and its `int` accepts underscores and surrounding whitespace.
- KeyboardAssistant.Decide: an all-digit command with non-ASCII digits makes Python's `int` raise outside the `try`; this cannot arise in the ASCII model.
- App.StartStep: the exception path (missing JSON body, a controller constructor that raises) is not modelled. Neither is the `pdf_path` argument controllers receive; the controller objects are stand-ins that hold only their kind and running flag.
- App.ControlServer.GotoPage: a missing `page_num` (Python `None`) is not modelled. The page number is an integer input.
- VoiceAssistant.VoiceAssistantController.HandleCommand: the controller applies the corrected interpreter, in which a matching relative jump is tested first (see Findings). The interpreter as written is `VoiceAssistant.InterpretAsWritten`, and the step as written `VoiceAssistant.CommandStepAsWritten`.
- VoiceAssistant.VoiceAssistantController.RespondTo: runs the corrected navigation, like `HandleCommand`.
- VoiceAssistant.VoiceAssistantController.ResolveNavigation: tests a matching relative jump before "next" and "previous", unlike modules/voice_assistant.py:161-194; the order as written is `VoiceAssistant.NavigationAsWritten`.
- VoiceAssistant.Respond: uses the corrected `Interpret`; `VoiceAssistant.RespondAsWritten` uses the interpreter as written.
- VoiceAssistant.CommandStep: uses the corrected `Interpret`; `VoiceAssistant.CommandStepAsWritten` is the step as written, and `VoiceAssistant.CommandStepsDifferOnlyOnJumps` bounds the difference.
- VoiceAssistant.RunVoice: runs the corrected step, so `RunVoiceKeepsInvariant` and `RunVoiceKeepsDocument` are about the corrected assistant; for the step as written, `CommandStepAsWrittenKeepsInvariant` states the same per-utterance invariant.
- Text.ParseInt: Python's `int` also accepts underscores between digits (`1_0`) and non-ASCII digits; the model lets those words raise.

## Findings

| source | as written | input that shows it | evidently intended | confidence | as-written member | corrected member |
|---|---|---|---|---|---|---|
| modules/voice_assistant.py:161-194 | the next rule tests "forward" and the previous rule tests "back" before the jump rule, so `jump forward N` moves one page on and `jump back N` / `jump backward N` one page back | "jump back 2 pages" on a ten-page document at index 4 asks for index 3 | the jump rule moves by N: max(0, 4 - 2) = index 2 | not executed | VoiceAssistant.InterpretAsWritten (VoiceAssistant.JumpBackUnreachableAsWritten, VoiceExamples.ExampleJumpBackAsWritten) | VoiceAssistant.Interpret (VoiceAssistant.JumpBackReached, VoiceExamples.ExampleJumpBack) |
