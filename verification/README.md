# An examination platform, modelled and proved in Dafny

The platform runs examinations in computer labs. Staff draft an exam, schedule it (which seats
the roster), start it, and end or cancel it; candidates check in, answer, flag and submit; a
sweep closes what is past its deadline; written answers are marked by hand and programs by a
runner. This project models the parts of it that can go wrong and proves what they promise.

## What is here

**The engine** is a step machine over four tables (exams, sessions, answers, results). A step is
one service call with its time, fresh ids and random choices as parameters; a refused call, and
one the database's own constraints reject, changes nothing.

- `Transitions`: the two lifecycle tables, and what can be reached along them.
- `Engine`: every call as a function from the tables to the tables. `EngineServer`: the same calls
  as methods of a class that updates the tables row by row, with the loops of the services, each
  proved to do what the function says.
- `EngineInvariant`, `EngineHistory`: what every run keeps, and how any moment of a run relates to
  any later one. `EngineReceipts`, `EngineSweep`, `EngineAnswers`, `EngineResults`,
  `EngineFreshness`, `EngineLateDraw`, `EngineEffects`: windows, deadlines, receipts, the sweep, answers under any
  delivery order, and whether stored results agree with grading again.

**The paper**: `Shuffle` and `Paper` (the draw, over any stream of random choices), `PaperReach`
(every valid paper can be drawn), `Grading` and `PaperScore` (translating answers back and adding
marks up; grading cannot tell that a shuffle happened), `OrderBlind` (answers worth the same under
every order of the options), `AnswerRows` (one answer row),
`Seating` (seat allocation).

**Marking programs**: `OutputComparison` (the output canonicaliser), `Marks` (rounded proportional
marks), `ProgramRunner` (the passes as loops), `MarkingQueue` (any number of workers with row
locks, against corrections that replace the answer key, late saves and drafts that share questions).

**Around it**: `Tokens` (refresh-token rotation), `SignOutRace` (signing out and changing a password
against renewals and sign-ins, statement by statement), `EventQueue` (the workstation's bounded queue
under concurrent flushes), `Snapshot` (merging exams into the console against a full reload),
`Csv` (the results file and a reader for section 2 of RFC 4180).

Marks are exact hundredths, times are whole microseconds, ids are natural numbers.

## Where the code and its comments disagree

The model follows the code.

- `start_exam` moves sessions that never checked in straight to ACTIVE, so session moves are walks
  in the table and not edges; the sweep's TERMINATED branch is unreachable
  (`EngineSweep.SweepCloses`).
- `end_exam` hands papers in without grading them, and the runner changes awards without grading
  again: `EngineFreshness.StaysFreshIff` says exactly when that shows.
- Creating an exam insists on a question, editing does not. The database then refuses the result of
  such an exam, and the sweep, being one transaction, closes nothing at all
  (`EngineSweep.SweepSucceedsIff`, `EmptiedExamIsNeverSwept`).
- A save numbered zero always overwrites (`AnswerRows.ZeroOverwrites`).
- A candidate can first draw a paper after it was handed in
  (`EngineReceipts.LateDrawChangesReceipt`, `EngineFreshness.LateDrawMakesStale`,
  `EngineLateDraw.LateDrawFreshIff`, `EngineLateDraw.LateDrawSurelyFreshIff`).
- Out-of-range picks are dropped when an option order is stored and kept when none is
  (`Grading.OutOfRange`).
- `grade_session` takes no lock, so it can write a mark earned on a replaced key
  (`MarkingQueue.UnlockedMarkGoesStale`); a correction does not clear answers to its question saved
  in other exams (`MarkingQueue.CorrectionMissesStrays`).
- A correction refuses a question that other exams use, but a draft can put it on one while the
  correction is under way (`MarkingQueue.CorrectionCurrentIff`, `MarkingQueue.SharedMeanwhile`).
- A save is found writable before it is written, and nothing holds the session in between: it can
  land under the mark of the program it replaces (`MarkingQueue.OwnProgramsIff`,
  `MarkingQueue.LateSaveKeepsMark`).
- The sign-out comment says the sign-in is ended, and the password comment that no session outlives
  the old password; a renewal that commits while the statement runs is missed, and so is a sign-in
  that checked the old password before (`SignOutRace.EndingEndsIff`, `SignOutRace.OldPasswordGoneIff`).
- Renewing a token adds a row too, not only signing in (`Tokens.RenewalAddsARow`).
- The console keeps an exam where it was in its list, although the server lists by scheduled time and
  an edit can move it (`Snapshot.TestsInOrderIff`).
- With heavy total weights a failed test case can vanish in rounding
  (`Marks.FullMarksWithAFailedCase`).

## Model

| member | source | states |
|---|---|---|
| `EngineInvariant.NextInv` | backend/app/domain/transitions.py:15-60 | No call of any of the thirteen kinds, accepted or refused, breaks the invariant: SCHEDULED and ENDING are never stored; a draft has no sessions; under READY sessions are NOT_STARTED, WAITING or READY, under LIVE they are ACTIVE or handed in, under COMPLETED all are handed in, under CANCELLED all are terminal; windows, start times, receipts, drawn papers, seats and awards are consistent |
| `EngineInvariant.RunInv` | backend/app/domain/transitions.py:15-60 | The invariant holds after every run from any state that satisfies it, the empty system among them |
| `EngineInvariant.ScheduleInv` | backend/app/services/commands.py:326-359 | Scheduling keeps it: at most one session per candidate and one candidate per machine, every enrolled candidate has a session, whatever sessions and machines there were |
| `EngineInvariant.StartInv` | backend/app/services/commands.py:389-417 | Starting keeps it, although it moves sessions by paths and not by single edges of the session table |
| `EngineInvariant.EndInv` | backend/app/services/commands.py:467-496 | Ending early keeps it |
| `EngineInvariant.CancelInv` | backend/app/services/commands.py:515-532 | Cancelling keeps it |
| `EngineInvariant.CheckInInv` | backend/app/services/sessions.py:173-197 | Checking in keeps it: a paper drawn now is a valid draw of the exam, one drawn before is not replaced |
| `EngineInvariant.SubmitInv` | backend/app/services/sessions.py:356-370 | Submitting keeps it |
| `EngineInvariant.SweepInv` | backend/app/services/sweep.py:50-104 | The deadline sweep keeps it, over any number of exams |
| `EngineInvariant.UpdateInv` | backend/app/services/commands.py:235-293 | Replacing a draft's paper and roster keeps it, because a draft has no sessions or drawn papers |
| `EngineInvariant.AwardInv` | backend/app/services/sessions.py:477-499 | Marking by hand keeps it: no award ever exceeds its question or lands on one that is scored automatically |
| `Transitions.ExamReachIsClosure` | backend/app/domain/transitions.py:15-26 | The reachability used below holds exactly when some walk along the exam table's edges leads from the one status to the other |
| `Transitions.SessionReachIsClosure` | backend/app/domain/transitions.py:32-52 | The same for the session table |
| `EngineHistory.RunEvolves` | backend/app/domain/transitions.py:15-60 | Between any two moments of any run: exam statuses have moved along walks of their table, session statuses along walks of theirs, terminal ones are final and a finished exam's row is frozen; starts_at is stamped once, ends_at only moves earlier and only by closing the exam; a drawn paper, a start time and a receipt are never replaced; a finished session's answers and flags never change |
| `EngineHistory.History` | backend/app/services/commands.py:389-417 | The same for every run from the empty system cut at any point, with the invariant at both moments |
| `EngineReceipts.FirstStartStampsWindow` | backend/app/services/commands.py:401-417 | The first start stamps now and now plus the duration in minutes, and gives every candidate of the exam that start time |
| `EngineReceipts.RepeatedStartChangesNothing` | backend/app/services/commands.py:387-397 | Once started, no start of any kind changes any row; it is answered exactly when the exam is live and the key is absent or the one it was started with |
| `EngineReceipts.OnlyWritesInTime` | backend/app/services/sessions.py:249-268 | Whatever call changes what a candidate wrote or flagged is that candidate's own save or toggle of that answer, with exam LIVE, session ACTIVE and the deadline not past |
| `EngineReceipts.NothingAfterDeadline` | backend/app/services/sessions.py:261-267 | In every run whose candidate calls come after an exam's deadline, no answer or flag of that exam changes, however late the sweep is and whatever else happens |
| `EngineReceipts.NoSubmissionAfterDeadline` | backend/app/services/sessions.py:348-361 | After any run, a submission that arrives past the deadline changes nothing |
| `EngineReceipts.ReceiptOnlyHandedIn` | backend/app/services/sessions.py:363-369 | A session's receipt is written in three ways only, all from ACTIVE under LIVE: by its candidate in time, by ending its exam, by a sweep once the deadline has come |
| `EngineReceipts.SubmittedOnce` | backend/app/services/sessions.py:355-411 | After submission every later submit, at any point of any run, changes nothing and gives the same receipt (id, time, mode, answered, questions, flagged), provided the paper was drawn before or its draw keeps every question |
| `EngineReceipts.LateDrawChangesReceipt` | backend/app/services/sessions.py:176-187 | That condition is exact: checking in after submission leaves the receipt the same if and only if it holds |
| `EngineEffects.CreateAcceptedIff` | backend/app/services/commands.py:184-231 | An exam is created if and only if the draft has a question, a legal duration and no repetitions, under a free id; it is then a draft that editing into the same draft leaves alone |
| `EngineEffects.EditingIsRecreating` | backend/app/services/commands.py:235-293 | Creating one draft and editing it into another is creating the other |
| `EngineEffects.EditsCompose` | backend/app/services/commands.py:252-281 | Two edits are one edit with the later value of each field that has one |
| `EngineEffects.ScheduledSeats` | backend/app/services/commands.py:337-354 | The sessions it adds are the seats of the one chart, not started; those there were stay as they were |
| `EngineEffects.RetryAnswered` | backend/app/services/commands.py:387-392 | Retrying a start with its own key, or none, at any later time is answered with what the first did |
| `EngineEffects.LifecycleAcceptedIff` | backend/app/domain/transitions.py:73-79 | Exactly which schedulings, starts, ends and cancellations are accepted in a reachable state: the roster must be there and fit the lab, and the clock matters only to an end no later than the start, which the database refuses |
| `EngineEffects.EveryMoveNumbered` | backend/app/services/commands.py:105-113 | Any call moves an exam's event number by at most one, and by exactly one whenever its status moves |
| `EngineEffects.AwardSucceedsIff` | backend/app/services/sessions.py:477-499 | Marks are accepted if and only if they are for a stored answer to a written question of the exam and within what it is worth; the database never refuses the result |
| `EngineEffects.SweepTouchesOnlyDue` | backend/app/services/sweep.py:53-66 | A sweep leaves exams that are not due, their sessions and their results alone |
| `EngineEffects.ScheduledOnceEach` | backend/app/services/commands.py:326-354 | After scheduling, each enrolled candidate has exactly one session of the exam, and no machine has two |
| `EngineEffects.RescheduleSeatsNobody` | backend/app/services/commands.py:334-354 | Scheduling an exam that is already READY is legal and leaves every session as it was |
| `EngineEffects.EndCloses` | backend/app/services/commands.py:473-496 | Ending closes the window no later than now and never later than it was, hands in who was active with the time of ending, and does not touch who had handed in |
| `EngineEffects.CancelCloses` | backend/app/services/commands.py:520-532 | Cancelling terminates everybody who has not handed in, without a receipt, and leaves handed-in papers alone |
| `EngineEffects.FirstSubmission` | backend/app/services/sessions.py:361-370 | A first submission in time stamps time, mode and id, stores the grade of exactly what was saved, and touches no other session or result |
| `EngineEffects.CheckInOnce` | backend/app/services/sessions.py:173-197 | The first check-in stores the draw, its time, and READY or WAITING by whether a machine is known; checking in again, with any other random choices, changes nothing; nobody who has started is sent back |
| `EngineEffects.AwardRaisesResult` | backend/app/services/sessions.py:489-498 | Marking one waiting written answer raises the stored result over the previous grade by exactly the award, lowers the number waiting by exactly one and leaves the maximum |
| `EngineSweep.StorableIffQuestions` | backend/app/services/sessions.py:318-345 | In every reachable state, grading any session gives at most what its paper is worth, and a result the database accepts if and only if the exam has a question |
| `EngineSweep.SubmitSucceedsIff` | backend/app/services/sessions.py:361-388 | A candidate who may write can submit if and only if the exam has a question |
| `EngineSweep.SweepSucceedsIff` | backend/app/services/sweep.py:53-103 | The sweep commits if and only if every exam with a candidate it must grade has a question; otherwise all of it is rolled back |
| `EngineSweep.SweepCloses` | backend/app/services/sweep.py:62-82 | A sweep leaves every due exam COMPLETED with its deadline unchanged and each of its candidates handed in, the active ones automatically, at that time, with the grade of what they saved; it terminates nobody |
| `EngineSweep.NothingLeftDue` | backend/app/services/sweep.py:53-59 | After a sweep nothing is due at that time |
| `EngineSweep.SecondSweepChangesNothing` | backend/app/services/sweep.py:50-104 | Sweeping again at the same time changes nothing |
| `EngineSweep.EmptyPaperBlocksSweep` | backend/app/services/sweep.py:62-103 | One live exam without questions undoes every sweep, whatever else is due |
| `EngineSweep.EmptiedExamIsNeverSwept` | backend/app/schemas/exam.py:52-76 | Four accepted calls (create, edit to an empty list of questions, schedule, start) reach such an exam from the empty system |
| `AnswerRows.WinnerIsStored` | backend/app/services/sessions.py:282-296 | After any history of saves and toggles of one answer, the stored value and number are those of the one save that wins, said without replaying the history |
| `AnswerRows.WinnerUnique` | backend/app/services/sessions.py:289-293 | There is never more than one such save |
| `AnswerRows.LargestNumberStored` | backend/app/services/sessions.py:289-293 | For a client that numbers from one, any order, duplication and interleaving ends with the value of the largest number delivered |
| `AnswerRows.FlagIsParity` | backend/app/services/sessions.py:305-315 | The flag is the parity of the toggles delivered |
| `AnswerRows.OrderInvisible` | frontend/lib/api/live.ts:44-49 | Two histories with the same saves and the same parity of toggles end in the same row |
| `AnswerRows.ZeroOverwrites` | backend/app/services/sessions.py:289-293 | A save numbered zero is never discarded and resets the number, so for such a client order does matter |
| `EngineAnswers.RunIsReplay` | backend/app/services/sessions.py:271-315 | After any run of the whole engine an answer is what its own deliveries, replayed alone, store: those made while exam, session and clock allowed it |
| `EngineAnswers.RunStoresLargest` | backend/app/services/sessions.py:282-315 | So any run ends with the largest number delivered in time and a flag set exactly when it was toggled an odd number of times |
| `EngineResults.AwardVisible` | backend/app/domain/paper.py:207-219 | Changing one award changes the score of a paper if and only if the question is on that candidate's paper, it is answered, and the award is read or at least counted |
| `EngineFreshness.StaysFreshIff` | backend/app/services/sessions.py:318-345 | Every submitted paper's stored result stays equal to grading it again, number waiting included, if and only if the call is not: ending an exam with an active paper whose result is not already up to date, or a change of award by the program runner that shows in the score |
| `EngineFreshness.RestfulRunIsFresh` | backend/app/services/sessions.py:318-345 | So it is equal after every run of the other calls (candidates, submit, sweep, marking by hand) without a late first draw |
| `EngineFreshness.LateDrawMakesStale` | backend/app/services/sessions.py:176-187 | A paper first drawn after it was handed in makes the stored result out of date whenever the draw leaves questions out |
| `EngineLateDraw.LateDrawFreshIff` | backend/app/domain/paper.py:126-135 | With options in authored order, such a draw leaves the stored result up to date if and only if it keeps every question and no multiple choice was right but for naming a place that does not exist |
| `OrderBlind.BlindIff` | backend/app/domain/paper.py:126-171 | An answer is worth the same under every order of its question's options as under none if and only if it is blind to them: a single choice of no option, or among options all as correct; a multiple choice where nothing is correct, or of the wrong number of options, or of all of them where all are correct |
| `EngineLateDraw.EveryDrawSameIff` | backend/app/domain/paper.py:73-135 | A whole paper is graded under every draw as under none if and only if no answer can be touched: blind where options are shuffled, without a place that does not exist in an otherwise right choice where they are not |
| `EngineLateDraw.LateDrawSurelyFreshIff` | backend/app/services/sessions.py:176-187 | A first draw after submission leaves the stored result up to date under every stream of choices if and only if it keeps every question and no answer can be touched |
| `EngineServer.Server.CreateExam` | backend/app/services/commands.py:184-231 | The tables afterwards are those of the step function, and on refusal unchanged |
| `EngineServer.Server.UpdateExam` | backend/app/services/commands.py:235-293 | The same for editing a draft, field by field |
| `EngineServer.Server.ScheduleExam` | backend/app/services/commands.py:302-372 | The same for scheduling, with the loop that allocates seats and the loop that adds sessions |
| `EngineServer.Server.StartExam` | backend/app/services/commands.py:382-436 | The same for starting |
| `EngineServer.Server.ReleaseAll` | backend/app/services/commands.py:411-417 | The loop over sessions, in whatever order rows come, releases exactly those that wait |
| `EngineServer.Server.EndExam` | backend/app/services/commands.py:460-510 | The same for ending |
| `EngineServer.Server.CloseAllEarly` | backend/app/services/commands.py:478-492 | Its loop over sessions |
| `EngineServer.Server.CancelExam` | backend/app/services/commands.py:513-532 | The same for cancelling |
| `EngineServer.Server.TerminateAll` | backend/app/services/commands.py:524-532 | Its loop over sessions |
| `EngineServer.Server.CheckIn` | backend/app/services/sessions.py:167-222 | The same for checking in, with the draw done by the loops of Paper |
| `EngineServer.Server.SaveAnswer` | backend/app/services/sessions.py:271-296 | The same for saving one answer |
| `EngineServer.Server.ToggleFlag` | backend/app/services/sessions.py:299-315 | The same for toggling a flag |
| `EngineServer.Server.Submit` | backend/app/services/sessions.py:348-396 | The same for submitting, with the grade computed by the loop of PaperScore |
| `EngineServer.Server.AwardMarks` | backend/app/services/sessions.py:464-511 | The same for marking by hand |
| `EngineServer.Server.SweepSessions` | backend/app/services/sweep.py:68-78 | The sweep's inner loop over one exam's sessions, grading as it goes, up to the first result the database refuses |
| `EngineServer.Server.SweepOnce` | backend/app/services/sweep.py:50-104 | The nested loops commit what the step function says, or roll everything back |
| `Shuffle.ShuffleInPlace` | backend/app/domain/paper.py:89-93 | The in-place shuffle leaves the array as the function of its contents and of the generator's choices |
| `Shuffle.ShuffledPermutes` | backend/app/domain/paper.py:89-93 | For every stream of choices the result is a permutation |
| `Shuffle.OutcomeIffPermutation` | backend/app/domain/paper.py:89-93 | An arrangement can come out if and only if it is a permutation |
| `Paper.DrawOptions` | backend/app/domain/paper.py:100-107 | The loop that fills the option orders, shuffling each question's positions in place with the choices not used so far |
| `Paper.DrawPaper` | backend/app/domain/paper.py:73-109 | The loops of the draw compute the drawn paper, consuming the generator's choices in the same order |
| `Paper.DrawIsValid` | backend/app/domain/paper.py:73-109 | For every stream of choices: distinct questions of the exam, k of them when 0 < k < n and all n otherwise, and for exactly those an order that permutes all their authored positions |
| `Paper.UnrandomisedDraw` | backend/app/domain/paper.py:91-107 | With both switches off the candidate gets the first questions in authored order, options too |
| `PaperReach.DrawableIff` | backend/app/domain/paper.py:73-109 | Under every setting of the two switches a paper can be drawn if and only if it is valid, has the first questions as authored when questions are not shuffled, and the options as authored when options are not: nothing else comes out and nothing is unreachable |
| `Grading.TranslationIsDisplay` | backend/app/domain/paper.py:112-135 | Translating in-range picks back gives exactly the authored positions of the options that were shown at those places |
| `Grading.SingleGradedByDisplay` | backend/app/domain/paper.py:159-164 | A single choice earns the marks if and only if the option shown at that place is a correct one |
| `Grading.MultipleGradedByDisplay` | backend/app/domain/paper.py:166-171 | A multiple choice earns the marks if and only if the options shown at the picked places are the correct ones, all of them and no other, and there are some |
| `Grading.ShuffleInvisible` | backend/app/domain/paper.py:112-180 | Two candidates shown the options in different orders who pick the same options get the same marks, whatever the kind of answer |
| `Grading.GradeAsAuthored` | backend/app/domain/paper.py:126-180 | Grading any answer, single, multiple, written or program, through a stored order is grading the answer translated place by place on the unshuffled paper; places that do not exist stay so |
| `Grading.FullMarksIffAllCorrectPicked` | backend/app/domain/paper.py:166-171 | Full marks if and only if exactly the displayed correct options are picked, in any order and however often |
| `Grading.OutOfRange` | backend/app/domain/paper.py:126-135 | With a stored order places that do not exist never matter; without one, naming one makes an otherwise right selection wrong |
| `PaperScore.ScorePaper` | backend/app/domain/paper.py:183-220 | The loop's three totals |
| `PaperScore.GradingCannotSeeShuffle` | backend/app/domain/paper.py:183-220 | Two candidates with the same questions, in any order and with options in any order, who pick the same options, get the same marks, maximum and number waiting |
| `PaperScore.QuestionOrderInvisible` | backend/app/domain/paper.py:205-219 | A paper's score does not depend on the order of its questions |
| `PaperScore.GivenWithinAvailable` | backend/app/domain/paper.py:205-220 | Marks given never exceed marks available when no award exceeds its question |
| `PaperScore.AvailableIsPaperMarks` | backend/app/domain/paper.py:213-213 | The maximum is the sum of the marks on this candidate's paper, whatever was answered or awarded |
| `PaperScore.OffPaperIrrelevant` | backend/app/domain/paper.py:205-219 | Answers and awards for questions off the paper never matter |
| `PaperScore.AwardEffect` | backend/app/domain/paper.py:214-219 | Awarding one waiting answer raises what is given by exactly the award and lowers the number waiting by exactly one |
| `Seating.AllocateSeats` | backend/app/domain/seating.py:66-84 | The loop that consumes the queue of free machines |
| `Seating.AllocateIsChart` | backend/app/domain/seating.py:44-84 | The chart lists exactly the unseated candidates in enrolment order; machines are free, distinct and taken in increasing position with none passed over; candidates without one come last |
| `Seating.ChartUnique` | backend/app/domain/seating.py:44-84 | There is only one such chart |
| `Seating.OrderOfMachinesIrrelevant` | backend/app/domain/seating.py:69-70 | So the order in which machines are listed does not matter |
| `Seating.SeatedCount` | backend/app/domain/seating.py:73-89 | The seated number is the smaller of free machines and waiting candidates, and the unplaced are exactly the last ones |
| `Seating.NoShortfallSeatsEveryone` | backend/app/domain/seating.py:92-99 | On a first scheduling everyone is seated if and only if there is no shortfall |
| `Seating.SecondSchedulingSeatsNobody` | backend/app/domain/seating.py:73-75 | Allocating again for candidates who all have sessions gives nothing |
| `OutputComparison.Normalise` | backend/app/services/coding.py:44-58 | The loop that strips lines and pops empty ones computes the canonical text |
| `OutputComparison.EqualIffLinesAgree` | backend/app/services/coding.py:44-58 | Two outputs compare equal if and only if their lines agree after right-stripping, beyond trailing empty lines; interior blank lines and leading spaces count |
| `OutputComparison.CrLfNeverMatters` | backend/app/services/coding.py:55-55 | The CRLF replacement never changes the result |
| `OutputComparison.Idempotent` | backend/app/services/coding.py:44-58 | Normalising twice is normalising once |
| `OutputComparison.FixedPoints` | backend/app/services/coding.py:44-58 | A text is left alone if and only if it is tidy |
| `OutputComparison.RStripIsLongestTidyPrefix` | backend/app/services/coding.py:55-55 | Right-stripping gives the longest prefix that does not end in white space, and only white space is lost |
| `Marks.RunCases` | backend/app/services/coding.py:73-110 | The loop over the cases: one report per case in order, the weight earned, and whether some case could not be run |
| `Marks.RunAnswer` | backend/app/services/coding.py:61-122 | The whole report; hidden cases never echo output |
| `Marks.MarksWithinQuestion` | backend/app/services/coding.py:112-112 | Marks are within the question's |
| `Marks.MarksMonotone` | backend/app/services/coding.py:112-112 | Passing more cases never lowers the rounded mark |
| `Marks.FullMarksIff` | backend/app/services/coding.py:112-112 | Full marks if and only if the weight missed is negligible against the rounding |
| `Marks.FullMarksMeanAllPassed` | backend/app/services/coding.py:112-112 | When the total weight is below 200 times the marks, full marks if and only if every case passed |
| `Marks.FullMarksWithAFailedCase` | backend/app/services/coding.py:112-112 | Beyond that a failed case can go unnoticed: a concrete question |
| `ProgramRunner.Runner.GradeSession` | backend/app/services/coding.py:172-208 | The loop over one paper: rows as the pass specifies them, graded plus skipped equal to the coding answers present |
| `ProgramRunner.Runner.GradeExam` | backend/app/services/coding.py:125-150 | The loop over submitted papers, with the counts added up; without a sandbox nothing is touched |
| `ProgramRunner.PassedRow` | backend/app/services/coding.py:179-205 | A pass touches exactly this paper's rows to these questions, each as if alone |
| `ProgramRunner.UnavailableChangesNothing` | backend/app/services/coding.py:197-202 | A program one of whose cases could not be run keeps exactly what it had, forced or not |
| `ProgramRunner.UnmarkedAfterPass` | backend/app/services/coding.py:184-205 | After an unforced pass an answer is unmarked if and only if it was, is not blank, and some case could not be run; marks that were there are untouched |
| `ProgramRunner.RerunCostsNothing` | backend/app/services/coding.py:156-159 | A second unforced pass over a marked paper changes nothing |
| `ProgramRunner.ForcedPassRemarks` | backend/app/services/coding.py:128-130 | A forced pass re-marks against the present cases; only what the sandbox could not run keeps its old mark |
| `ProgramRunner.PassIsUnlockedWrites` | backend/app/services/coding.py:179-205 | A pass over one paper leaves exactly the marks that its answers' writes without a lock, one after another, leave in the marking queue |
| `ProgramRunner.PassKeepsCurrent` | backend/app/services/coding.py:179-205 | So a pass that no correction interrupts keeps every mark current |
| `MarkingQueue.RunInv` | backend/app/services/coding.py:234-266 | In every interleaving, statement by statement, of workers, corrections, saves, submissions, sittings and drafts that put questions on exams or take them off, the locking invariant holds and every mark is what its cases made of a program that was stored |
| `MarkingQueue.HeldByOne` | backend/app/services/coding.py:234-246 | No answer is held by two workers or by a worker and a correction, and it stays unmarked until its worker commits |
| `MarkingQueue.NoStaleMark` | backend/app/services/coding.py:407-450 | After any interleaving whose corrections survive, every mark on a question of the candidate's own exam was computed from the question's current cases; and from the stored program, if saves were written before the paper was handed in |
| `MarkingQueue.CorrectionCurrentIff` | backend/app/services/coding.py:395-450 | A correction commits without leaving a stale mark, or a worker that will write one, if and only if it survives: each answer of the question by candidates of an exam it is used on is held, or neither marked on other cases nor about to be |
| `MarkingQueue.CalmIsSound` | backend/app/services/commands.py:206-216 | As long as no question is put on another exam while it is being corrected, and no answer is added for a correction whose update has started, every correction survives |
| `MarkingQueue.SharedMeanwhile` | backend/app/services/commands.py:210-212 | That is needed: a run in which a question is put on a second exam while it is being corrected for the first ends with a mark on the replaced cases |
| `MarkingQueue.OwnProgramsIff` | backend/app/services/sessions.py:280-294 | A step takes a mark away from the program it was given for if and only if it is a save, checked earlier, written over a mark given for another program |
| `MarkingQueue.LateSaveKeepsMark` | backend/app/services/sessions.py:280-294 | That happens: a save checked before the paper is handed in and written after the worker's commit |
| `MarkingQueue.ClaimOldest` | backend/app/services/coding.py:234-246 | Over rows that do not move meanwhile, the scan picks the oldest rows nobody holds, four at most |
| `MarkingQueue.UninterruptedClaim` | backend/app/services/coding.py:234-246 | Rows so picked can be claimed one after another in the step machine, and then are the worker's |
| `MarkingQueue.NeverMarkedOver` | backend/app/services/coding.py:236-246 | No mark is written over another; only a correction takes one away |
| `MarkingQueue.CorrectInv` | backend/app/services/coding.py:410-450 | A correction that holds all the rows its update saw can commit while any workers are in the middle of a pass |
| `MarkingQueue.CorrectionMissesStrays` | backend/app/services/coding.py:426-434 | A correction clears exactly the marks of the answers its update saw; while the question is on its exam only, those are all but the answers saved by candidates of other exams, whose marks stand on the replaced cases |
| `MarkingQueue.UnlockedWriteCurrentIff` | backend/app/services/coding.py:180-207 | The pass that takes no lock keeps all marks current if and only if the cases it read are still the question's, or it writes nothing, or the row is not one of the exam's |
| `MarkingQueue.UnlockedMarkGoesStale` | backend/app/services/coding.py:180-207 | So one that read before a correction and writes after it leaves a mark earned on the replaced key |
| `MarkingQueue.MarkWithinQuestion` | backend/app/services/coding.py:248-264 | In every run committed marks are within the question's and never come from a pass with an unavailable case |
| `Tokens.RunInv` | backend/app/api/routes_directory.py:82-127 | Over any run of sign-ins, renewals, sign-outs, password changes and resets: at most one unconsumed token per sign-in, one owner per sign-in, each token exchanged at most once, nothing of an ended sign-in live |
| `Tokens.OneLivePerSignIn` | backend/app/api/routes_directory.py:71-77 | Two live tokens of one sign-in are the same token, after any run from the start |
| `Tokens.EndedForGood` | backend/app/api/routes_directory.py:255-260 | A sign-in once ended is never honoured again, whatever happens afterwards |
| `Tokens.ExchangedForGood` | backend/app/api/routes_directory.py:104-110 | A token once exchanged is refused ever after, pruned or not |
| `Tokens.RenewalKeepsSignIn` | backend/app/api/routes_directory.py:118-124 | An accepted renewal leaves the sign-in with exactly one live token, the new one, of the same account |
| `Tokens.OthersUntouched` | backend/app/api/routes_directory.py:71-77 | Over any run of calls about other sign-ins and accounts, pruning included, a token of this one is honoured at any later time exactly if it would have been |
| `Tokens.SignOutEndsExactlyOne` | backend/app/api/routes_directory.py:255-260 | Signing out ends all of that sign-in and nothing else |
| `Tokens.PasswordEndsAccount` | backend/app/services/directory.py:204-241 | A new password ends every sign-in of the account and no other |
| `Tokens.OldPasswordWorthless` | backend/app/services/directory.py:211-241 | After a password change, over any run of calls made without the new password, no token of the account comes to be honoured, every other password is refused, and the new one signs in if and only if the account is active |
| `SignOutRace.EndingEndsIff` | backend/app/services/directory.py:186-208 | Statement by statement, in every interleaving with renewals and sign-ins, as a sign-out, password change or reset commits: a sign-in it is to end still has a live token if and only if one was issued for it since the statement started, and every other sign-in has one exactly if it had |
| `SignOutRace.FirstToLockWins` | backend/app/api/routes_directory.py:104-124 | An ending that reaches a sign-in's live token before any renewal does cannot be escaped: over any run the sign-in stays caught until the ending commits, and is over then |
| `SignOutRace.OverForGood` | backend/app/api/routes_directory.py:104-110 | A sign-in without a live token never has one again, over any run |
| `SignOutRace.OldPasswordGoneIff` | backend/app/services/directory.py:211-241 | After a password change, no continuation whatever has a live token of a sign-in that checked the old password if and only if there is none now and no such sign-in is still under way |
| `SignOutRace.OldPasswordSlipsThrough` | backend/app/api/routes_directory.py:64-79 | The other case happens: a sign-in that checked the old password before the change and commits after it is alive |
| `SignOutRace.RenewalSlipsThrough` | backend/app/api/routes_directory.py:118-125 | The other case happens: a renewal holding the token as the sign-out starts leaves the sign-in alive |
| `Tokens.TokenService.SignIn` | backend/app/api/routes_directory.py:60-79 | The rows as the step function says |
| `Tokens.TokenService.Renew` | backend/app/api/routes_directory.py:83-127 | The same for a renewal, undone as a whole when the new id clashes |
| `Tokens.TokenService.ChangeOwnPassword` | backend/app/services/directory.py:211-241 | The same for a password change, with the number of sign-ins ended |
| `Tokens.TokenService.ResetStudentPassword` | backend/app/services/directory.py:244-275 | The same for a reset |
| `EventQueue.RunConserves` | desktop/core/src/client.rs:153-313 | In every interleaving of reports, flushes and reports given up on the way out, an event is found, over acknowledged, refused, dropped as oldest, given up, queued, carried by a flush and under way, exactly as often as it was reported |
| `EventQueue.RunBounded` | desktop/core/src/client.rs:225-233 | Queue plus what flushes carry never exceeds 256 plus the most flushes that ever ran at once |
| `EventQueue.HeldAreNewest` | desktop/core/src/client.rs:225-233 | While no session is bound the queue holds the latest 256 events reported, in order, and what was dropped is the oldest, in order |
| `EventQueue.AcknowledgedInOrder` | desktop/core/src/client.rs:235-269 | With one flush at a time, queued events are acknowledged in the order they were queued, whatever overflows, fails or reports meanwhile |
| `EventQueue.OrderCanBreakIff` | desktop/core/src/client.rs:235-269 | From any moment at which the line is in order, what is already running, and new reports, can lose the order if and only if more than one flush has not finished |
| `EventQueue.TwoFlushesSwap` | desktop/core/src/client.rs:257-264 | Two flushes that both lose the server put their events back in the wrong order |
| `EventQueue.TwoFlushesHappen` | desktop/core/src/client.rs:94-109 | Such a moment is reached by binding to a second session before the first flush has finished |
| `EventQueue.LabClient.FlushPending` | desktop/core/src/client.rs:235-269 | An uninterrupted flush answers for a prefix of the queue in order, up to the first unreachable answer, and leaves that event at the head |
| `EventQueue.LabClient.Report` | desktop/core/src/client.rs:153-199 | Held while unbound or unreachable, otherwise not queued |
| `EventQueue.LabClient.Bind` | desktop/core/src/client.rs:94-109 | Binding a session that was not bound sends what is held, in order, up to the first unreachable answer; binding it again sends nothing |
| `Snapshot.SeatedBy` | frontend/lib/api/http.ts:598-601 | The loop's map gives each machine the last session listed there |
| `Snapshot.LoadAll` | frontend/lib/api/http.ts:582-617 | The loops of the full load |
| `Snapshot.MergeRefinesReload` | frontend/lib/api/http.ts:634-690 | If only one exam was written, and its lab's machines reported, then any console that held the server's tests, sessions, results and machines in any order holds the new ones once it has merged that exam's slice, wherever in the list the exam was or was not and wherever it now is |
| `Snapshot.MergesRefineReload` | frontend/lib/api/http.ts:634-690 | So it does after any number of exams written one after another, each followed by its merge |
| `Snapshot.TestsInOrderIff` | frontend/lib/api/http.ts:659-661 | At the first merge after a full load the tests come in the reload's own order if and only if the exam kept its place in the list or is new at its end |
| `Snapshot.MachinesAfterMerge` | frontend/lib/api/http.ts:671-684 | In such a console every workstation is after the merge as a full reload shows it, and so is who sits there if and only if: where the exam seats the machine, no exam listed after it does or it ends with the same candidate; where it does not, the console's sessions of the other exams end as their list does |
| `Snapshot.SoleCandidateExact` | frontend/lib/api/http.ts:671-674 | A machine at most one candidate sits at shows exactly what a full reload would, after any number of merges |
| `Snapshot.SharedMachineDisagrees` | frontend/lib/api/http.ts:671-674 | And fails for a machine two exams share: a concrete server |
| `Snapshot.CreatedLastMergesExactly` | frontend/lib/api/http.ts:659-661 | For an exam new at the end of the list the merge is the full reload, order and all |
| `Snapshot.MergesCommute` | frontend/lib/api/http.ts:653-690 | Merges of two exams commute up to order, and exactly on tests unless both are new |
| `Csv.RoundTrip` | frontend/lib/export.ts:20-23 | Reading back what was written gives the same rows, whatever quotes, commas and line breaks the fields hold, if and only if there is a row, no row is without fields, and a last row after others is not a lone empty field |
| `Csv.ResultsRoundTrip` | frontend/lib/export.ts:30-50 | An exported results file reads back as the header and exactly the field strings of every row |
| `Csv.ResultsInjective` | frontend/lib/export.ts:30-50 | So two exports are the same text only if they have the same fields |
| `Csv.HeaderNeedsNoQuotes` | frontend/lib/export.ts:13-16 | The header, which is written without quoting, needs none |

## Left out

- Floating point: marks are exact hundredths and rounding is exact half-even on the rational value; Python rounds the nearest double.
- Awards by hand with more than two decimals: the column keeps two, the model only has those.
- The Mersenne Twister: a shuffle takes an arbitrary stream of choices, so all is proved for every seed; that the same session draws the same paper again is not stated, as the stored paper is reused.
- Sandboxed execution: any outcome and output may come back for any case.
- Password hashing, token signatures, role and ownership checks, request validation beyond what the steps name: library or one-branch facts. Ids from `uuid4` are parameters assumed never to repeat in `Tokens`; elsewhere a clash is refused.
- In `Tokens` each call is one step. `SignOutRace` takes renewals, sign-ins and one ending (a sign-out, password change or reset) of one account apart into statements; pruning, expiry and two endings at once are not taken apart.
- The engine's calls interleaving inside one another: each is one step. Row locks are modelled for the marking queue only.
- `Engine.RunnerMarks` stands for the runner's and a correction's writes as the engine sees them: any award within the question's marks, or none. How they come about is `MarkingQueue`.
- `EngineLateDraw.LateDrawFreshIff`: for options in authored order, one draw at a time; when they are shuffled too, whether one draw changes the result depends on the orders it gives, and `EngineLateDraw.LateDrawSurelyFreshIff` says when none can.
- `EventQueue.RunConserves`: an event given up when the application closes may or may not have reached the server; it is counted as given up.
- `EventQueue.AcknowledgedInOrder`: conservation and order, not that a held event is ever sent; a restored heartbeat does not flush the queue.
- `Snapshot.MergeRefinesReload`: labs, students and the audit trail are left out, the set of workstations is taken not to change, and the full load is taken to list every exam, where the console asks for one page of 200.
- `Csv.ResultsRoundTrip`: numbers, percentages and dates arrive already rendered as text.
- Question bank, roster import, publishing results, marking lists, audit text, notifications, websockets, monitor aggregates, liveness, timers, the desktop lockdown, screens, migrations: plumbing or one-branch facts.
- A save for a question id that does not exist is refused by the database; the engine takes question ids as they come.
- `marks_override` is never set by the code and is not modelled.
- The shared bank, in the engine: an exam's questions are part of its row, and only a draft's can change. `MarkingQueue` has questions on several exams.
- `MarkingQueue.NoStaleMark`: a save's sequence number is not modelled there, as a discarded save is no step; a draft is any exam that nobody sits and that is not over.
