# A verified model of an X-Plane ATC plugin

The plugin plays the controller: it hears a pilot, moves a dialog from state to state, gives
clearances, insists on having them read back, and speaks through a voice engine that may fail. This
project models the parts of it that are algorithms rather than input and output, and proves what
they promise, in Dafny.

## What is modelled

**The dialog** (`AtcTypes`, `CallsignLock`, `ReadbackQueue`, `DialogHistory`, `DialogSpec`,
`AtcStateMachine`). The controller's state is one mutable record: dialog state, bounded history, the
queue of clearances owed a read-back with its reminder clock, the runway and callsign locks, and a
generation counter that guards snapshots. `AtcStateMachine.StateMachine` has those fields and one
method for each entry point; each method is proved equal to a function of `DialogSpec`. What those
functions promise is proved over runs of arbitrary steps, captures and restores included:
`DialogRuns` (the revert guard), `DialogInvariants` (queue, history, callsign), `DialogExchange` (how
exchanges end, who owns a slot, which returns to IDLE give up the locks), `DialogCorrections` (when
a phase-driven correction fires), `DialogPhantoms` (when a read-back is awaited of nothing).

**Frequencies in speech** (`Text`, `Replace`, `TokenCollapse`, `FrequencyWords`,
`FrequencySpeech`, `FrequencyNormaliser`, `FrequencyTwice`, `FrequencyRoundTrip`). A frequency is spoken
digit by digit; the normaliser turns speech back into digits with a stack of tokens. The token
rewriter is proved for any lexicon, then for the word tables of the plugin.

**Speak, read back, verify** (`VoiceExpansion`, `ReadbackTokens`, `ReadbackItems`, `ReadbackSpeech`,
`ReadbackHearing`, `ReadbackVerdict`, `ReadbackEnglish`, `ReadbackVerifier`, `ReadbackTogether`,
`ReadbackExchange`, `ReadbackTexts`, `ReadbackRevert`). Clearances are lists of items (runway, flight
level, feet, frequency, squawk, speed, or the bare word "speed") separated by neutral words. The main
theorems close the loop: what the voice makes of the controller's text is always accepted, with the exact
condition for every field being credited; and for each field it is said exactly when another value is
reported and challenged. Several outstanding clearances may be read back one at a time or in one
transmission.

**Flight phases** (`FlightPhaseDetector`), **asynchronous backends** (`CallbackProtocol`), and smaller
cores: `TemplateFill`, `Resampler`, `SectorPicker`, `LandingSequence`, `WaveFile`, `BiasList`,
`TrafficAdvisor`.

Real numbers stand for floating-point ones, unbounded naturals for the generation counter, and the
word lists are functions with stated laws which `FrequencyWords.EnglishIsSensible` and
`ReadbackEnglish.EnglishLaws` prove of the plugin's own tables. The history queries read two clocks in
the plugin (`src/atc/intent_rules.cpp:559` and `src/atc/atc_session.cpp:2240`); the model assumes that
they are one monotone clock.

## Where the code and its comments differ

The model follows the code.

- Unless a correction fires, silence drops a clearance after four waits of 45 s, three minutes; the comment
  (`src/atc/atc_state_machine.cpp:84-92`) speaks of three waits and 2 min 15 s. See
  `DialogExchange.SilenceDropsAfterFourWaits` and `DialogExchange.WaitsTakeTime`.
- A landed aircraft that calls Ground is given a taxi clearance by the handler, which raises the read-back flag
  and arms nothing (`src/atc/flows/ground_operations.cpp:1655`). Flag and queue then disagree, and the
  reminder clock is not started, although the comment (104-112) says that it is set when the flag goes up; so
  the first poll can count at once and three waits drop what is not pending. `DialogPhantoms.PhantomExactlyWhenRaised`
  and `DialogPhantoms.ClockStartsUnlessRaised` are the exact conditions, over every run and for every step;
  `DialogPhantoms.ReadbackOfNothing` and `DialogPhantoms.ReadbackOfNothingTimesOut` are inputs.
- The read-back timeout goes to IDLE without giving up the runway and the callsign, although the
  comment (135-141) says that every return to IDLE does. So do the bare transitions of the handlers
  (`src/atc/flows/ground_operations.cpp:1076` and `:1313`) and would a tower-only advance to IDLE.
  `DialogExchange.IdleReturnReleasesLocks` is the exact condition, for every step;
  `DialogExchange.FrequencyResetKeepsTheRunway` and `DialogExchange.TimeoutKeepsTheRunway` are inputs.
- A partial read-back changes the queue and does not advance the generation, so a revert can bring a
  clearance back that was already read back: `ReadbackRevert.CreditedReadbackCanBeUndone`, with texts in
  `ReadbackRevert.AltitudeIsOwedAgain`. `DialogRuns.OnlyAskAgainEscapesTheGuard` says that no other step
  does this.
- The counter of failed read-back attempts is a function-local static. No snapshot holds it, and a
  revert does not take it back.
- The correction timer is not reset while the dialog is in a state that no table watches: a wait that
  had begun goes on where it stopped when the dialog comes back
  (`DialogCorrections.AbsenceDoesNotEndTheWait`).
- The frequency normaliser runs twice. Its token stage is idempotent, the whole is not:
  `FrequencyTwice.TwiceIsOnceExactlyWhenUntouched` gives the exact condition and
  `FrequencyRoundTrip.NormalisingTwiceCanDiffer` an utterance that changes again.
- Merging single digits stops at "16 61" for "1 6 6 1"; the comment promises "1661". A run is merged
  whole exactly when it has at most two digits (`ReadbackHearing.MergedExactlyUpToTwo`,
  `ReadbackHearing.FourDigitsStayTwo`).
- A wrong level, altitude or speed is accepted when the digits of the cleared one are contained in any
  digits that are said, of whatever item. So 190 passes for 90, and so does 80 together with squawk 1906.
  `ReadbackVerdict.WrongNumberIsReportedUnlessItsDigitsAreSaid` is the exact condition, and
  `ReadbackVerdict.Level190PassesFor90` and `ReadbackTexts.Level80IsAcceptedFor90` are inputs.
- The number and the side of a runway may be taken from two different runways
  (`ReadbackVerdict.FirstRunwayKeepsItsName`, `ReadbackVerdict.SidesAreMixed`).
- "speed" without a number of its own takes the next digits for a speed. Those of a squawk code and of a
  three-digit level are spoken one by one and then read otherwise, so a perfect read-back is accepted
  without full credit: exactly then, by `ReadbackHearing.SpokenClearanceReadBack`; and
  `ReadbackTexts.SquawkTakenForSpeed` is an input.
- A touch-down goes to TAXI or PARKED at once and leaves no memory of a landing exactly when it is slower
  than a roll (`FlightPhaseDetector.SlowTouchDownIsNoLanding`, `FlightPhaseDetector.VerticalLanding`).
- Template values out of which a placeholder can form make the order of the keys matter, and no other
  values do (`TemplateFill.OrderMattersExactlyWhenSomethingForms`). In one given order filling is substitution,
  stage by stage, exactly when no placeholder forms out of the values of earlier keys
  (`TemplateFill.SubstitutesExactlyWhenNothingFormsEarlier`).
- The reader of WAV files reads a last format chunk, and the sample data, without looking at the length of the
  file. Every read stays inside exactly when neither is cut short (`WaveFile.ReadsInsideExactly`); for a
  recording of the plugin, exactly when no sample byte is missing (`WaveFile.CutShortExactly`).

## Model

| member | source | states |
|---|---|---|
| ReadbackQueue.WithoutOverlap | src/atc/atc_state_machine.cpp:265-281 | what stays when a clearance is armed: exactly the pending ones that share no slot with it |
| ReadbackQueue.Unsettled | src/atc/atc_state_machine.cpp:291-306 | what stays after a read-back: exactly the clearances without fields or with a field not yet read back |
| ReadbackQueue.MergeOk | src/atc/atc_state_machine.cpp:260-286 | arming keeps the queue discipline: pending clearances own disjoint slots (level and feet being one), and only the first may own none |
| ReadbackQueue.UnsettledOk | src/atc/atc_state_machine.cpp:291-306 | retiring clearances keeps the queue discipline |
| ReadbackQueue.QueueBound | src/atc/atc_state_machine.cpp:220-226 | a disciplined queue never holds more than six clearances |
| ReadbackQueue.MergeAllIsSurvivors | src/atc/atc_state_machine.cpp:256-286 | latest wins per field: arming texts one by one leaves exactly those that no later text supersedes, in order |
| CallsignLock.Lock | src/atc/atc_state_machine.cpp:987-1040 | the locked callsign is the parsed or the configured one and never contradicts the configured one |
| DialogHistory.PushHistory | src/atc/atc_state_machine.cpp:472-484 | the loop that appends and drops the oldest keeps the last eight entries |
| DialogHistory.PushedSound | src/atc/atc_state_machine.cpp:472-484 | after a transition the log is at most eight long, sorted by time, and repeats no state, the current one included |
| DialogHistory.WasRecentlyIn | src/atc/atc_state_machine.cpp:1363-1374 | the scan that stops at the first entry too old equals the definition: in the state now, or some entry within the window |
| DialogHistory.AtAirportAfterLanding | src/atc/atc_state_machine.cpp:1381-1404 | true exactly on the ground after a landing that no departure has followed |
| AtcStateMachine.StateMachine.RebuildCache | src/atc/atc_state_machine.cpp:232-242 | the loop makes the cached text the join of the queue and the flag its non-emptiness |
| AtcStateMachine.StateMachine.ClearReadback | src/atc/atc_state_machine.cpp:245-254 | nothing is owed, under a new generation, the rest unchanged |
| AtcStateMachine.StateMachine.MergeReadback | src/atc/atc_state_machine.cpp:260-286 | in place, the queue becomes the merged queue, the credited fields are forgotten and the reminder clock starts again |
| AtcStateMachine.StateMachine.RemoveMatched | src/atc/atc_state_machine.cpp:291-306 | in place and without a new generation, the settled clearances leave the queue |
| AtcStateMachine.StateMachine.TransitionTo | src/atc/atc_state_machine.cpp:472-484 | a transition to another state logs the one that is left; one to the same state does nothing |
| AtcStateMachine.StateMachine.SetReadbackPending | src/atc/atc_state_machine.cpp:486-498 | `false` drops the queue and the credited fields, `true` raises the flag alone; the reminder clock stays either way |
| AtcStateMachine.StateMachine.SetStateExternally | src/atc/atc_state_machine.cpp:813-826 | an external move, which gives up the locks when it goes to IDLE |
| AtcStateMachine.StateMachine.InitSession | src/atc/atc_state_machine.cpp:574-608 | the state in which a session starts, with the squawk and the configured callsign kept |
| AtcStateMachine.StateMachine.ResetSession | src/atc/atc_state_machine.cpp:610-651 | the state after stop and reset, with only the configured callsign kept |
| AtcStateMachine.StateMachine.DisregardDialog | src/atc/atc_state_machine.cpp:660-700 | what disregarding leaves: nothing owed, IDLE without locks on the ground, the pattern or en route in the air |
| AtcStateMachine.StateMachine.ConsumeReadbackReminder | src/atc/atc_state_machine.cpp:727-801 | one poll: silent before the delay, three silent reminders, then the drop, which spares the in-flight IFR states |
| AtcStateMachine.StateMachine.CheckAutoCorrection | src/atc/atc_state_machine.cpp:1264-1353 | one frame of the correction timer: resets, counts or fires, as the matching table entry says |
| AtcStateMachine.StateMachine.TakeReadback | src/atc/atc_state_machine.cpp:875-938 | a read-back turn credits fields, retires clearances, and either asks again with the first outstanding correction or ends the exchange |
| AtcStateMachine.StateMachine.TrackOther | src/atc/atc_state_machine.cpp:862-964 | a turn that is no read-back: silent acceptance, a new clearance merged, a superseded one dropped, or the reminder restarted |
| AtcStateMachine.StateMachine.MoveDialog | src/atc/atc_state_machine.cpp:975-1080 | the locks taken, the transition with its departure type, and the locks given up on the way to IDLE |
| AtcStateMachine.StateMachine.ApplyHooks | src/atc/atc_state_machine.cpp:849-1101 | all post-transition hooks in their order, with the early return of a read-back that is asked for again |
| AtcStateMachine.StateMachine.ProcessMessage | src/atc/atc_state_machine.cpp:1105-1248 | a message that no handler intercepts: the new departure cycle, then the hooks |
| DialogRuns.CapturedIsWhatComesBack | src/atc/atc_state_machine.cpp:1440-1465 | whatever happens after a capture, restoring it under the current generation gives every field back as captured, under a generation above all that were seen |
| AtcStateMachine.StateMachine.RestoreSnapshotIfGen | src/atc/atc_state_machine.cpp:1449-1465 | a stale guard changes nothing; a current one restores everything under a generation above the present one |
| DialogRuns.RunSteady | src/atc/atc_state_machine.cpp:98-103 | over any run the generation never decreases, and while it stands still the guarded fields do not change and obligations are at most credited |
| DialogRuns.RestoreUndoesOnlyTheGuardedTurn | src/atc/atc_state_machine.cpp:1449-1465 | a successful restore leaves every field but the generation as captured, and since the sample nothing else had happened to state, history, locks, departure type, squawk or airborne flag |
| DialogRuns.FailedTurnLeavesNoTrace | src/atc/atc_session.cpp:627-681 | capture, process, restore leaves the record as it was, under a higher generation |
| DialogRuns.EarlierGuardsFailForever | src/atc/atc_state_machine.cpp:1454-1460 | after one restore every guard that sampled before it fails, whatever happens next |
| DialogRuns.OnlyAskAgainEscapesTheGuard | src/atc/atc_state_machine.cpp:875-929 | obligations change under an unchanged generation if and only if the step is a read-back that is asked for again and that credited something |
| ReadbackRevert.CreditedReadbackCanBeUndone | src/atc/atc_state_machine.cpp:875-929 | for any queue of clearances: captured, a turn, sampled, one clearance read back and the rest asked for, restored; the clearance that was read back left the queue and is in it again |
| ReadbackRevert.AltitudeIsOwedAgain | src/atc/atc_state_machine.cpp:875-929 | such a run with the verifier and the words of the source: "maintain 5000 feet" and "verify squawk 1234", the altitude read back, both owed after the revert |
| DialogInvariants.RunSound | src/atc/atc_state_machine.cpp:98-208 | under a monotone clock every reachable record and every snapshot is sound: disciplined queue, cached text that is its join, flag up while anything is pending, sound history, callsign that agrees with the configured one |
| DialogInvariants.RunQueuesSound | src/atc/atc_state_machine.cpp:220-306 | the queue part of that (discipline, cached text, flag while something is pending) holds in every run, whatever its clock does |
| DialogInvariants.NeverMoreThanSix | src/atc/atc_state_machine.cpp:256-286 | at no point of any run are more than six clearances outstanding |
| DialogPhantoms.PhantomAfterStep | src/atc/atc_state_machine.cpp:486-498 | for every step but a restore: the flag is up over an empty queue afterwards if and only if the step raised it over one, or it was so before and the step neither clears nor rebuilds the obligations |
| DialogPhantoms.PhantomExactlyWhenRaised | src/atc/flows/ground_operations.cpp:1649-1655 | over every run, restores included: flag and queue disagree if and only if the flag was raised over an empty queue and nothing has cleared or rebuilt the obligations since |
| DialogPhantoms.ClockStartsUnlessRaised | src/atc/atc_state_machine.cpp:104-112 | when the flag goes up the reminder clock starts at the present if and only if the flag was not raised alone, or the clock stood there already |
| DialogPhantoms.RaisedSilenceIsShorter | src/atc/atc_state_machine.cpp:727-801 | silence after a raise with the clock at zero: the flag falls exactly when the first poll leaves room for three more waits, or a frame fires a correction |
| DialogPhantoms.ReadbackOfNothing | src/atc/flows/ground_operations.cpp:1615-1664 | the run of a landed aircraft that calls Ground: a read-back is awaited, nothing is pending, the clock is not started |
| DialogPhantoms.ReadbackOfNothingTimesOut | src/atc/atc_state_machine.cpp:776-788 | polls at 0, 45, 90 and 135 s after it drop the flag and move the dialog to IDLE |
| DialogExchange.ExchangeEnds | src/atc/atc_state_machine.cpp:875-938 | with n clearances outstanding and none armed, n + 1 read-back turns empty the queue, whatever is said and whatever happens in between |
| DialogExchange.SilenceDropsAfterFourWaits | src/atc/atc_state_machine.cpp:727-801 | under silence, with correction frames, the flag falls exactly when the polls leave room for four successive waits of at least 45 s, counted from the last reminder or arming, or a frame fires a correction |
| DialogExchange.WaitsTakeTime | src/atc/atc_state_machine.cpp:84-92 | k such waits take at least k times 45 s |
| DialogExchange.SilenceNeverEndsAnIfrFlight | src/atc/atc_state_machine.cpp:755-789 | silence, with correction frames, never moves a dialog out of the ten in-flight IFR states unless a correction fires |
| DialogExchange.IdleReturnReleasesLocks | src/atc/atc_state_machine.cpp:135-141 | for every step of every run: a return to IDLE leaves the locks released if and only if it is no read-back timeout, no bare transition and no tower-only advance, or, for the first two, there were none; a restore brings back what was captured |
| DialogExchange.FrequencyResetKeepsTheRunway | src/atc/flows/ground_operations.cpp:1301-1313 | a run in which the bare transition to IDLE leaves runway 27 locked |
| DialogExchange.TimeoutKeepsTheRunway | src/atc/atc_state_machine.cpp:776-788 | a run from the start: a clearance on runway 27 is never read back, and the fourth poll goes to IDLE with the runway locked |
| DialogExchange.RunOwned | src/atc/atc_state_machine.cpp:256-286 | over every run, restores included, every pending clearance was armed and nothing armed later supersedes it |
| DialogExchange.LastArmedOwnsTheSlot | src/atc/atc_state_machine.cpp:256-286 | each slot of a pending clearance belongs to the last armed clearance that names it |
| DialogCorrections.RunTimerMeans | src/atc/atc_state_machine.cpp:1259-1353 | over every run, restores included, the one timer holds what its key has waited since it was interrupted, and no other key has waited |
| DialogCorrections.CorrectsExactlyWhenDue | src/atc/atc_state_machine.cpp:1302-1347 | a frame corrects the dialog if and only if a correction applies and its wait has reached the scaled delay; then the queue is gone, else nothing guarded changes |
| DialogCorrections.AbsenceDoesNotEndTheWait | src/atc/atc_state_machine.cpp:1264-1275 | steps in states that no table watches leave the wait of every key as it is |
| DialogSpec.FirstApplicable | src/atc/atc_state_machine.cpp:1277-1302 | the first table entry that applies to the phase, and none exactly when none applies |
| TokenCollapse.PopWhole | src/atc/intent_parser.cpp:953-958 | the loop pops exactly the numbers that end the stack |
| TokenCollapse.EndOfRun | src/atc/intent_parser.cpp:959-964 | the loop finds the end of the numbers that follow |
| TokenCollapse.CollapseTokens | src/atc/intent_parser.cpp:946-997 | the stack loop computes the collapse, or reports that a run does not fit an integer |
| TokenCollapse.CollapseReachesNormalForm | src/atc/intent_parser.cpp:946-997 | every separator left with numbers on both sides has a whole part out of band, and the texts that stay as they are are exactly these normal forms |
| TokenCollapse.CollapseIsIdempotent | src/atc/intent_parser.cpp:1034-1041 | collapsing twice is collapsing once |
| TokenCollapse.CollapseCanBeUndone | src/atc/intent_parser.cpp:946-997 | each written token stands for a stretch of the input, each frequency for a genuine one, and putting them back gives the input in order |
| TokenCollapse.SpeakingIsHeard | src/atc/intent_parser.cpp:946-997 | for any faithful speech of delimited tokens, the collapse makes of what is spoken what it makes of each frequency written as one token |
| TokenCollapse.SpeakingThrowsNothing | src/atc/intent_parser.cpp:794-832 | speaking makes no text unreadable, nor readable |
| FrequencyWords.VhfIsLawful | src/atc/intent_parser.cpp:764-790 | no token is a number and a separator, and no written frequency is either |
| FrequencyWords.FrequencyStageIsIdempotent | src/atc/intent_parser.cpp:946-997 | the token stage on any text reaches normal form, and twice is once |
| FrequencyWords.SpelledFrequencyCompacts | src/atc/intent_parser.cpp:794-832 | the digit words of a frequency in band are read back as that frequency |
| FrequencyWords.VhfSpeechIsFaithful | src/atc/phonetic.hpp:127-142 | the spelled form of every frequency in band, whatever punctuation follows it, is read back as that frequency without the punctuation |
| FrequencyWords.EnglishIsSensible | src/atc/intent_parser.cpp:738-748 | the word tables satisfy the laws that the theorems assume |
| FrequencySpeech.SpellDigits | src/atc/phonetic.hpp:113-125 | the loop joins the words of the digits and passes over everything else |
| FrequencySpeech.SpellMegahertz | src/atc/phonetic.hpp:129-142 | digit by digit, with "decimal" for the first dot |
| FrequencySpeech.SpelledDotted | src/atc/phonetic.hpp:129-142 | a dotted number is spoken as the words of its digits, "decimal", and the words of its decimals |
| FrequencySpeech.MatchFrequency | src/atc/phonetic.hpp:160-195 | where the frequency that starts at an index ends |
| FrequencySpeech.SpeakFrequencies | src/atc/phonetic.hpp:160-195 | the index loop rewrites every frequency of a text and nothing else |
| FrequencySpeech.FrequenciesStayInWords | src/atc/phonetic.hpp:160-195 | no frequency reaches across a space, and whether one starts depends on its word alone |
| FrequencySpeech.SpeakTextOfWords | src/atc/phonetic.hpp:160-195 | on words that are one frequency, with or without punctuation after it, or none, the spoken text is the join of the spoken words |
| Replace.ReplaceEach | src/atc/intent_parser.cpp:852-859 | the find-and-replace loop on a string changed in place replaces every occurrence, leftmost first, never inside what it put in |
| FrequencyNormaliser.SearchNumeric | src/atc/intent_parser.cpp:860-866 | the leftmost numeric frequency, or none |
| FrequencyNormaliser.RewriteNumeric | src/atc/intent_parser.cpp:860-876 | the search loop rewrites one match after the other |
| FrequencyNormaliser.Push | src/atc/intent_parser.cpp:897-930 | a hyphenated word is split only when every part is a number word or a separator |
| FrequencyNormaliser.Tokenise | src/atc/intent_parser.cpp:878-941 | the character loop computes the tokens |
| FrequencyNormaliser.NormalizeSpokenFrequency | src/atc/intent_parser.cpp:835-1014 | the whole normaliser: repairs, tokens, collapse, join; no result when a run overflows an int |
| FrequencyNormaliser.LettersNormalised | src/atc/intent_parser.cpp:878-1003 | after the textual repairs the number of letters never grows |
| FrequencyNormaliser.LettersPrePass | src/atc/intent_parser.cpp:845-877 | the textual repairs change nothing or remove letters |
| FrequencyTwice.PrePassKeepsExactlyTheUntouched | src/atc/intent_parser.cpp:845-877 | the repairs keep a text if and only if they find nothing to repair in it |
| FrequencyTwice.TwiceIsOnceExactlyWhenUntouched | src/atc/intent_parser.cpp:1034-1041 | normalising again changes nothing if and only if the repairs find nothing in the first result |
| FrequencyRoundTrip.SpeechIsHeard | src/atc/phonetic.hpp:144-195 | normalising the spoken text gives what normalising the written one gives, punctuation after a frequency dropped, when each frequency is delimited; one overflows exactly when the other does |
| FrequencyRoundTrip.SpokenTextComesBack | src/atc/phonetic.hpp:144-195 | a text without spoken frequencies comes back word for word after it was spoken, but for the punctuation after its frequencies |
| FrequencyRoundTrip.NormalisingTwiceCanDiffer | src/atc/intent_rules.cpp:483-493 | an utterance whose second normalisation differs from the first |
| VoiceExpansion.ExpandWords | src/atc/atc_session.cpp:438-494 | the loop applies an expansion at every place where it starts, left to right |
| VoiceExpansion.SquawkExpands | src/atc/atc_session.cpp:502-540 | a squawk code in a text becomes its digit words, the rest untouched |
| VoiceExpansion.LevelExpands | src/atc/atc_session.cpp:438-494 | a flight level in a text becomes its digit words, the rest untouched |
| VoiceExpansion.RunwaySideExpands | src/atc/atc_session.cpp:365-386 | the side letter of a runway becomes its word, the rest untouched |
| VoiceExpansion.VoiceSpeaksItems | src/atc/atc_session.cpp:577-578 | the three expansions in their order and the frequency speller turn the written text of any items into the spoken one |
| ReadbackTokens.CompactDigitSpaces | src/atc/readback_verifier.cpp:74-83 | repeating until nothing changes merges single digits two by two |
| ReadbackTokens.PairsOnce | src/atc/readback_verifier.cpp:70-83 | one pass is enough: a second one changes nothing |
| ReadbackHearing.MergedExactlyUpToTwo | src/atc/readback_verifier.cpp:70-83 | a run of single digits becomes one number if and only if it has at most two, else numbers of two digits |
| ReadbackHearing.FourDigitsStayTwo | src/atc/readback_verifier.cpp:70-83 | "1 6 6 1" becomes "16 61" |
| ReadbackItems.DesignatorHeard | src/atc/readback_verifier.cpp:121-169 | the runway that is extracted is the number of the first runway item with the first side that any has, in all forms of speech |
| ReadbackItems.LevelHeard | src/atc/readback_verifier.cpp:174-192 | the level that is extracted is that of the first level item |
| ReadbackItems.FeetHeard | src/atc/readback_verifier.cpp:195-220 | the altitude that is extracted is that of the first feet item |
| ReadbackItems.FrequencyHeard | src/atc/readback_verifier.cpp:225-256 | the frequency that is extracted is that of the first frequency item |
| ReadbackItems.SquawkHeard | src/atc/readback_verifier.cpp:263-303 | the code that is extracted is that of the first squawk item |
| ReadbackItems.SpeedHeard | src/atc/readback_verifier.cpp:378-432 | the speed that is extracted is that of the first speed item |
| ReadbackItems.SpeedAlikeExactly | src/atc/readback_verifier.cpp:378-384 | the speed that is heard in speech is the one read in writing if and only if the first "speed" that takes digits takes its own or those of an item that does not start with three digits, other than zeros, spoken one by one |
| ReadbackVerdict.FaithfulReadbackPasses | src/atc/readback_verifier.cpp:503-668 | a clearance said in any form has no fault, and it matches every field it has if and only if its speed, if any, is heard as it is written |
| ReadbackVerdict.WrongCodeIsReported | src/atc/readback_verifier.cpp:503-627 | a frequency or squawk is reported if and only if the first one said is not the first one cleared |
| ReadbackVerdict.WrongRunwayIsReported | src/atc/readback_verifier.cpp:503-530 | for any number of runways: reported if and only if the number and side that are extracted differ |
| ReadbackVerdict.OneRunwayIsComparedByName | src/atc/readback_verifier.cpp:503-530 | with one runway on each side that is if and only if the designators differ, side included |
| ReadbackVerdict.FirstRunwayKeepsItsName | src/atc/readback_verifier.cpp:141-169 | the first runway is compared under its own name if and only if it has a side or no later one has |
| ReadbackVerdict.SidesAreMixed | src/atc/readback_verifier.cpp:141-169 | a clearance with two runways for which the right read-back of the first is refused |
| ReadbackVerdict.ContainsExactly | src/atc/readback_verifier.cpp:456-479 | the fallback finds a number in a read-back if and only if some run of digits of some item contains its digits |
| ReadbackVerdict.WrongNumberIsReportedUnlessItsDigitsAreSaid | src/atc/readback_verifier.cpp:531-627 | a level, an altitude (more than 100 feet off), a speed is reported if and only if another one or none is said and no digits of any item contain those of the cleared one |
| ReadbackVerdict.Level190PassesFor90 | src/atc/readback_verifier.cpp:464-479 | level 190 is accepted for level 90 |
| ReadbackTexts.Level80IsAcceptedFor90 | src/atc/readback_verifier.cpp:464-479 | "maintain flight level 80 with squawk 1906", in any form, is accepted for "maintain flight level 90" |
| ReadbackSpeech.NormalisedUtterance | src/atc/readback_verifier.cpp:113-116 | the text of items, written or spoken, is normalised to its words with every frequency compact |
| ReadbackSpeech.ClosingFrequencyComesBack | src/atc/phonetic.hpp:144-195 | a sentence that ends in a frequency and a full stop, or any punctuation, comes back without it |
| ReadbackHearing.UtteranceHeard | src/atc/readback_verifier.cpp:49-116 | the verifier's normalisation of any utterance of items gives the tokens of those items |
| ReadbackHearing.SpokenClearanceReadBack | src/atc/readback_verifier.cpp:503-689 | on texts: what the voice said, read back, has no mismatch, and the matched fields are the fields present if and only if no bare "speed" takes digits that are spoken one by one |
| ReadbackHearing.WrongItemIsReported | src/atc/readback_verifier.cpp:503-627 | on texts, for all six fields: reported if and only if something is said and the field is wrong |
| ReadbackHearing.ReportedParts | src/atc/readback_verifier.cpp:503-627 | each field is reported by its own comparison and by no other |
| ReadbackEnglish.EnglishLaws | src/atc/readback_verifier.cpp:57-64 | the word lists of the verifier satisfy the laws that the theorems assume |
| ReadbackVerifier.CollapseCompoundHundreds | src/atc/readback_verifier.cpp:441-454 | the search loop adds up every compound of hundreds |
| ReadbackVerifier.CheckTokens | src/atc/readback_verifier.cpp:503-627 | the comparisons append their faults in the order of the source |
| ReadbackVerifier.CheckReadback | src/atc/readback_verifier.cpp:503-627 | the check on two texts, with no fault when one is empty |
| ReadbackVerifier.Corrections | src/atc/readback_verifier.cpp:498-627 | every fault gets one correction, for its field, in order |
| ReadbackVerifier.SpokenReadbackEndsTheExchange | src/atc/atc_state_machine.cpp:875-938 | in the dialog, reading back what the voice said ends the exchange at once and touches nothing else |
| ReadbackVerifier.VoiceIsReadBack | src/atc/atc_session.cpp:568-578 | with the plugin's word lists: text, expansions, speller, pilot, normaliser, verifier, dialog, from end to end, with the exact condition for full credit |
| ReadbackTexts.AClearanceIsSpeakable | src/atc/atc_session.cpp:568-578 | "maintain flight level 210 contact 125.130 with squawk 2370" is a clearance to which this applies |
| ReadbackVerifier.ChallengedExactlyWhenWrong | src/atc/atc_state_machine.cpp:875-929 | at the first attempt the pilot is asked again if and only if some field is wrong that was not credited before, and the clearance stays owed |
| ReadbackTexts.SquawkTakenForSpeed | src/atc/readback_verifier.cpp:378-384 | "resume normal speed squawk 1234": what the voice makes of it, read back, is accepted without being credited with every field |
| ReadbackTogether.FieldsHeard | src/atc/readback_verifier.cpp:670-689 | the fields present in any form of a clearance are those that its items name |
| ReadbackTogether.FieldIsTheirs | src/atc/atc_state_machine.cpp:256-286 | when slots are disjoint, what all clearances together say in a field is what the one that names it says |
| ReadbackTogether.MatchedIsThatClearance | src/atc/readback_verifier.cpp:629-668 | reading back one of several clearances matches, in the text of all, exactly its own fields |
| ReadbackExchange.JoinedHeard | src/atc/atc_state_machine.cpp:232-242 | the verifier hears the joined text of the queue as the items of all its clearances, in order |
| ReadbackExchange.OneReadBackRetiresThatOne | src/atc/atc_state_machine.cpp:884-889 | reading back one outstanding clearance, in any wording and order, retires that one and no other that was not settled already |
| ReadbackExchange.AllReadBackTogether | src/atc/atc_state_machine.cpp:884-938 | reading back all outstanding clearances in one transmission ends the exchange at once and touches nothing else |
| FlightPhaseDetector.Tracker.Wait | src/atc/flight_phase.cpp:603-607 | the parked clock and the end of the landing latch after five minutes |
| FlightPhaseDetector.Tracker.Enter | src/atc/flight_phase.cpp:640-657 | what entering a phase does to latch, parked clock and airborne flag |
| FlightPhaseDetector.Tracker.Update | src/atc/flight_phase.cpp:602-669 | one frame of the detector, and whether the dialog is told of being airborne |
| FlightPhaseDetector.RunAirborneFlag | src/atc/flight_phase.cpp:644-657 | after any frames the flag is set exactly in an airborne phase or on the landing roll |
| FlightPhaseDetector.RollsNeverMeet | src/atc/flight_phase.cpp:486-534 | take-off roll and landing roll never follow each other directly |
| FlightPhaseDetector.RunTimerMeans | src/atc/flight_phase.cpp:620-638 | the timer is the time for which the candidate, and nothing else, has been seen without interruption |
| FlightPhaseDetector.ChangesExactlyWhenSeenLongEnough | src/atc/flight_phase.cpp:538-638 | the phase changes if and only if the frame shows another one which, where a delay is required, was shown without interruption for that long |
| FlightPhaseDetector.LatchMeansLanded | src/atc/flight_phase.cpp:79-96 | the latch is set if and only if there was a touch-down and since then neither a take-off roll nor five minutes parked |
| FlightPhaseDetector.SlowTouchDownIsNoLanding | src/atc/flight_phase.cpp:538-556 | a frame on the ground ends a flight at once, without setting the latch, if and only if it is slower than a roll |
| FlightPhaseDetector.VerticalLanding | src/atc/flight_phase.cpp:486-556 | a run of two frames in which that happens |
| CallbackProtocol.Manager.SubmitRequest | src/backends/manager.cpp:306-326 | refused with a failure callback when no backend is ready, else a worker is added |
| CallbackProtocol.Manager.TryLock | src/backends/manager.cpp:334-345 | the timed lock: taken when free, given up on when held |
| CallbackProtocol.Manager.DrainCallbackQueue | src/backends/manager.cpp:287-300 | the queue is taken as a whole and run in order |
| CallbackProtocol.RunSound | src/backends/manager.cpp:115-138 | in every interleaving each request has a running worker or exactly one honest callback, the worker count is right, and a lock's holder is the one inside the backend |
| CallbackProtocol.NothingLostOrDoubled | src/backends/manager.cpp:115-138 | accepted requests are the running, the queued and the delivered ones, as multisets |
| CallbackProtocol.OneCallPerStage | src/backends/manager.cpp:334-345 | two workers are never inside the backend of one stage |
| CallbackProtocol.DeliveredInOrder | src/backends/manager.cpp:287-300 | callbacks are run in the order in which they were enqueued |
| CallbackProtocol.RunsEnd | src/backends/manager.cpp:127-138 | without new requests every interleaving ends, within a bound |
| CallbackProtocol.LockComesFree | src/backends/manager.cpp:334-345 | a worker that waits finds its lock free, or the holder is inside the backend and frees it by returning |
| CallbackProtocol.SomebodyCanMove | src/backends/manager.cpp:334-345 | while anything is left to do some step is enabled that is neither a new request nor giving up on a lock |
| CallbackProtocol.EveryRequestAnsweredOnce | src/backends/manager.cpp:306-384 | when nothing is left every request had exactly one callback, with its own outcome |
| CallbackProtocol.GivenUpIsFailure | src/backends/manager.cpp:336-343 | a request that gives up on its lock is only ever answered with failure, and exactly once when nothing is left |
| TemplateFill.Fill | src/atc/atc_templates.cpp:200-212 | the loop terminates for all inputs and replaces key by key |
| TemplateFill.FillIsSubstitution | src/atc/atc_templates.cpp:200-212 | when no placeholder forms out of values, key by key in place is one simultaneous substitution |
| TemplateFill.KeyOrderIsIrrelevant | src/atc/atc_templates.cpp:203 | then the order of the keys does not matter |
| TemplateFill.OrderMattersExactlyWhenSomethingForms | src/atc/atc_templates.cpp:200-212 | over all well-formed templates and all orders: the order matters if and only if some placeholder stands in a value of another key, or begins in one and ends in one, and its own value is not that placeholder |
| TemplateFill.OneKindOfBraceIsSafe | src/atc/atc_templates.cpp:200-212 | nothing forms out of values of which none has an opening brace, or none a closing one |
| TemplateFill.SubstitutesExactlyWhenNothingFormsEarlier | src/atc/atc_templates.cpp:203-210 | in one given order, over all well-formed templates: every stage of the loop is the substitution of the keys done so far if and only if no placeholder forms out of the values of keys before its own |
| TemplateFill.OrderMattersWithBraces | src/atc/atc_templates.cpp:200-212 | a value that is the placeholder of another key is filled in turn, or not |
| Resampler.Resampler.constructor | src/audio/audio_input_wasapi.cpp:77-82 | the state at the start of a recording |
| Resampler.Resampler.Feed | src/audio/audio_input_wasapi.cpp:85-97 | after n samples the outputs are exactly those at or before the last one, each the line through the whole input at its place |
| Resampler.Resampler.FeedChunk | src/audio/audio_input_wasapi.cpp:71-75 | a chunk continues the recording so far |
| Resampler.OutputIsDetermined | src/audio/audio_input_wasapi.cpp:71-75 | the recording alone determines the output, wherever it was cut into chunks |
| Resampler.ClampIsNeverReached | src/audio/audio_input_wasapi.cpp:100-106 | samples within [-1, 1] never reach the clamp |
| SectorPicker.PickNext | src/atc/sector_picker.cpp:15-42 | the loop chooses by role and floor among the eligible controllers |
| SectorPicker.PickNextApproach | src/atc/sector_picker.cpp:44-97 | the loop chooses by role, floor, ceiling and distance |
| SectorPicker.MoreTerminalIsStrictWeak | src/atc/sector_picker.cpp:99-113 | the comparison is a strict weak order, null cases included |
| SectorPicker.BetterApproachIsStrictWeak | src/atc/sector_picker.cpp:79-92 | so is the order of the approach picker |
| SectorPicker.PickIsBest | src/atc/sector_picker.cpp:66-97 | the choice is eligible, no eligible one is better, and there is none exactly when none is eligible |
| SectorPicker.PickersAgree | src/atc/sector_picker.cpp:15-97 | the two pickers agree on whether there is a choice, on its role class and on its floor |
| SectorPicker.ChainNeverRepeats | src/atc/sector_picker.cpp:15-42 | a chain of handoffs that records each pick never repeats a frequency |
| LandingSequence.SortFinals | src/atc/landing_sequence.cpp:63-68 | sorted by distance and index, and a permutation |
| LandingSequence.ComputeLandingSequence | src/atc/landing_sequence.cpp:44-100 | the position is one more than the targets on final no farther than the user, the one to follow is the last of them by distance and index, the occupant the first on the runway |
| WaveFile.BuildWav | src/audio/audio_recorder.cpp:41-84 | the writer produces the RIFF file of the samples |
| WaveFile.DecodeWav | src/audio/audio_player.cpp:134-209 | the chunk loop finds the format and the data, or refuses the file |
| WaveFile.WavRoundTrip | src/audio/audio_player.cpp:158-201 | samples, one channel and rate come back, whatever unknown chunks stand before and after the format |
| WaveFile.ReadsInsideExactly | src/audio/audio_player.cpp:147-198 | every read of the reader stays inside the file if and only if the last chunk is no format chunk cut short and the data that is copied is not cut short; then it decodes as stated |
| WaveFile.CutShortExactly | src/audio/audio_player.cpp:147-198 | a recording cut short in its samples is read beyond its end if and only if a byte is missing |
| WaveFile.RecordedIsPlayed | src/audio/audio_recorder.cpp:41-84 | decoding what the recorder writes gives its samples and its rate, for every recording that fits 32-bit sizes |
| BiasList.SplitList | src/backends/mistral_stt.cpp:66-91 | the splitting loop computes the trimmed, distinct, non-empty, at most hundred pieces |
| BiasList.JoinList | src/atc/atc_session.cpp:1905-1910 | the loop joins with comma and space |
| BiasList.SplitOfJoin | src/backends/mistral_stt.cpp:63-91 | splitting the join of any such phrase list gives the list back |
| BiasList.Encode | src/backends/mistral_stt.cpp:127-139 | the loop computes the underscored phrase |
| BiasList.UnderscoreRoundTrip | src/backends/mistral_stt.cpp:341 | what is sent has no white space, and undoing the underscores gives the phrase back if and only if it has no underscore and only single inner spaces |
| BiasList.BuildBiasField | src/backends/mistral_stt.cpp:104-153 | the loop computes the field with the underscore encoding |
| BiasList.FieldRoundTrip | src/backends/mistral_stt.cpp:93-153 | the field holds one item for every phrase, and each item reads as its phrase |
| TrafficAdvisor.AdvisoryHistory.EvaluateGroundConflict | src/atc/traffic_advisor.cpp:178-211 | the loop returns the first admissible ground conflict when the ground path is open |
| TrafficAdvisor.AdvisoryHistory.Evaluate | src/atc/traffic_advisor.cpp:215-255 | a ground conflict first, then the first admissible target |
| TrafficAdvisor.AdvisoryHistory.MarkEmitted | src/atc/traffic_advisor.cpp:257-261 | the stamps of the target and of the last advisory |
| TrafficAdvisor.AdvisoryHistory.MarkAcknowledgedVisual | src/atc/traffic_advisor.cpp:263-266 | the stamp of the acknowledgement |
| TrafficAdvisor.NearestIsChosen | src/atc/traffic_advisor.cpp:231-255 | with sorted targets the nearest admissible one of the branch that fires is chosen, and none exactly when nothing can be said |
| TrafficAdvisor.AdvisoriesAreSpaced | src/atc/traffic_advisor.hpp:134-160 | over any run 15 s between advisories and 20 s before an airborne one, 30 s and 60 s for one target, and none airborne within 300 s of its sighting |

## Left out

- The handlers that may intercept a message (ground operations, pattern and cross-country flows, UNICOM, AFIS, "say again", the IFR gate): a handler acts through the bridge setters, which are steps of their own in every run, in both settings of the read-back flag.
- TemplateFill.SubstitutesExactlyWhenNothingFormsEarlier: is about every stage; for the last text alone the condition is sufficient, as a later key can undo what an earlier one did.
- AtcStateMachine.StateMachine.ProcessMessage: the filled template comes in as an argument, because the template and rule tables are data.
- Thread checks, log lines, 64-bit wrap-around of the generation counter, and anything on two clocks: one monotone clock is assumed.
- ReadbackExchange.OneReadBackRetiresThatOne: is about clearances without a level, altitude or speed of zero, which the verifier does not take for a value, and without a bare "speed", which may take the digits of the next clearance; so is `ReadbackExchange.AllReadBackTogether`.
- ReadbackVerifier.VoiceIsReadBack: is about texts of space-separated words; punctuation, hyphenated digits and glued forms such as "5000ft" are not part of the item texts (`FrequencyRoundTrip.SpeechIsHeard` and `ReadbackSpeech.ClosingFrequencyComesBack` admit punctuation after a frequency). Neutral words are words that no list of the plugin knows, so "to" (which the verifier takes for "two"), "and" (which it reads as part of a number after "hundred") and "approach" (which names a runway) are outside, and with them "descend to" and "cleared approach" clearances.
- VoiceExpansion.ExpandWords: works on words, so a keyword inside a longer word is only modelled where it ends the word; `expand_navfix_names` is left out because it needs the navigation database.
- ReadbackTokens.CompactDigitSpaces: works on space-separated tokens; the regular expressions of the extractors are scanners over these tokens, and words that mix digits with other characters are plain words, except frequencies and runway designators.
- FrequencyNormaliser.NormalizeSpokenFrequency: characters are ASCII, and an overflow of `std::stoi` is the absence of a result.
- FlightPhaseDetector.Tracker.Update: distances, bearings and angles come in as measurements; haversine and bearing formulas are not part of this model.
- CallbackProtocol.Manager.SubmitRequest: null callbacks, `stop`, callbacks that throw, and the waiting time of a timed lock; a lock is given up on only while another worker holds it.
- Resampler.Resampler.Feed: real numbers instead of floats; the device code around it is foreign.
- LandingSequence.SortFinals: `std::sort` is an insertion sort; the runway cone test is a flag of each target, and the wording of `leg_label` is left out.
- SectorPicker.PickNextApproach: the distance of a facility to the destination is an arbitrary function.
- WaveFile.DecodeWav: bytes beyond the end of the file read as zero, where the source reads outside its buffer; `WaveFile.ReadsInsideExactly` says when there are none; the reader does not skip RIFF pad bytes, and the model keeps that.
- BiasList.BuildBiasField: the quote and comma encodings are left out; the quote encoding keeps white space and the comma encoding loses the phrases.
- TrafficAdvisor.AdvisoryHistory.Evaluate: closure and cone geometry are flags of a target, and the wording of an advisory is left out.
- Frequencies of controllers and transponder ids are natural numbers, without their integer widths.
- Cloud and local inference clients, audio devices, the downloader, settings, user interface and file loading.
