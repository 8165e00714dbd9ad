# A voice loop, verified

This project models a conversation server that listens, recognizes, answers and
speaks, and proves what its parts promise each other. It has five groups.

**Turn-taking.** `Session.dfy` is the turn state machine on values: one window of
audio, one release, one change of the floor or of the thresholds at a time.
`TurnSession.dfy` and `SampleRing.dfy` are the objects that compute it in place,
proved equal to it. `SessionTrace.dfy` (order of events), `SessionAudio.dfy` (what
audio a turn holds and hands over), `SessionTiming.dfy` (deadlines),
`SessionResume.dfy` (what resumes a turn), `SessionObserver.dfy` (everything a session
reports, from its calls and its own log) and `SessionPush.dfy` (any cutting into pushes)
hold what is proved of every run. `Conversation.dfy` is the conversation
around it as a transition system: a reader, a recognizer, a responder and a writer,
one program counter each, over the session and its lock, the turn lock, the queues,
the atomics and the condition variable. A step is one critical section, one atomic
access or the raising of one frame. Its invariants are in
`ConversationInvariants.dfy`, `ConversationDelivery.dfy`, `ConversationQueues.dfy`,
`ConversationFloor.dfy` and `ConversationGate.dfy`, put together in
`ConversationRuns.dfy`; `ConversationTheorems.dfy` says what they mean for every
interleaving. `ConversationCalls.dfy` (the session inside it), `ConversationOpenings.dfy`,
`ConversationResumed.dfy`, `ConversationHurried.dfy` and `ConversationAnswers.dfy` (which
turns are recognized and what becomes of them), `ConversationCuts.dfy` (what cuts an
answer), `ConversationResponses.dfy` (what the client is given) and
`ConversationProgress.dfy` (nothing is stuck) say what a whole run did from its steps
alone.

**Echo cancelling.** `Overlap.dfy` is one stream alone, `Canceller.dfy` the batched
machine of callers and worker, `CancellerRefinement.dfy` the proof that batching is
invisible, `CancellerHistory.dfy` what its steps alone say of it. `EchoPath.dfy` is the
microphone path of a connection. The network is an arbitrary function.

**Streams that must equal their whole.** `Resample.dfy` (over any kernel and any
multiply-accumulate, so whatever the rounding), `Utf8.dfy`, `Emoji.dfy`,
`Cleaning.dfy`, `CleaningProof.dfy` and `Splitter.dfy` (sentences and their places),
`EventStream.dfy` and `EventOutcome.dfy` (a completion and how it ends),
`EventLines.dfy` and `EventDifferences.dfy` (its lines against the standard of event
streams), `Agent.dfy` (the rounds of an answer), `AgentRounds.dfy` (how they end and what
they leave) and `AgentStreams.dfy` (the rounds over their streams).

**The client.** `Filing.dfy`: what was heard of an answer is what is filed and pushed.
`FilingHistory.dfy`: the whole list, from the events alone.

**Arithmetic.** `Tdt.dfy`, `TdtPath.dfy`, `Realtime.dfy`, `Arithmetic.dfy`, `Seqs.dfy`.

Five places where the code does other than a reader may expect, modelled as the
code does:

- The comment at src/s2s-session.cpp:253 says that a commit made in mid word does not
  resume on the rest of that word. The code only sets the speech run back to zero:
  `SessionResume.MidWordCommitResumes` is a run in which it does resume,
  `SessionResume.RestOfWordResumes` says exactly when it does under unchanged thresholds,
  releases and changes of the floor included.
- The comment at src/s2s-conversation.cpp:706-707 says that of a turn only the last
  revision is recognized. The check looks at what opened last
  (src/s2s-conversation.cpp:506-509), so once a later turn opens it no longer sees that an
  earlier one went on:
  `ConversationHurried.WentOnYetRecognized` is a run, with thresholds that ask more speech
  to resume a turn than to open one, in which a revision that went on is recognized.
  `ConversationOpenings.CheckIsExact` says exactly when a turn is given up,
  `ConversationResumed.GivenUpIffResumed` that it is exactly when it went on while
  no thresholds are of that kind.
- The text of an answer is not always what the caller was handed: deltas cross as C
  strings, so a NUL hides what follows it (src/llm-agent.cpp:185-197,
  src/llm-client.cpp:389). `Agent.NulHidesText` is such an input;
  `EventStream.StreamSays`, for one stream, and `Agent.TextIsWhatWasHanded`, for a run of
  rounds, say exactly when the two agree.
- The symbol count of the transducer loop is not reset when a token moves on to another
  frame (src/tdt-decoder.h:307-315), so a frame may be left sooner than the count allows:
  `Tdt.LeftSoonerIfMovedTo` says exactly when, `Tdt.CountCarriesOver` is such a decoder.
  The bound on the evaluations holds all the same (`Tdt.StepsAreBounded`).
- The receiver ends a line at a line feed alone, takes each data line as a frame of its
  own as soon as it is complete, and strips all the spaces around it
  (src/llm-client.cpp:338-363); section 9.2 of the WHATWG HTML standard also ends lines at
  a bare carriage return, joins the data lines of an event, discards an event still open
  at the end, and strips one space. `EventDifferences` gives a stream for each of the four.
  `EventLines.AgreesWithStandard` says exactly which streams with no event left open, and
  which plain streams, give the same; `EventLines.ReadersAgree` when no reader can tell.

## Model
| member | source | states |
|---|---|---|
| Session.WindowsRound | src/s2s-session.cpp:117-121 | a duration, negative ones included, becomes the nearest number of windows, never fewer than one |
| Session.LimitsRound | src/s2s-session.cpp:158-184 | each threshold is its own duration rounded; the delay is at most the wait, and a grace that is not positive is none |
| Session.ApplyKeepsSound | src/s2s-session.cpp:222-358 | what every call keeps: committed only while idle, a grace left only while committed, a committed and released turn has grace left, a live turn has audio behind its speech mark |
| SampleRings.SampleRing.Push | src/s2s-session.cpp:52-59 | the array, written in place, then holds the most recent samples of old contents and new samples |
| SampleRings.SampleRing.Read | src/s2s-session.cpp:61-69 | the samples come out oldest first, and the ring is untouched |
| SampleRings.SampleRing.Resize | src/s2s-session.cpp:42-50 | a new capacity keeps the most recent samples that still fit |
| SampleRings.PushOne | src/s2s-session.cpp:52-59 | one sample written at the head drops the oldest of a full ring and nothing else |
| TurnSessions.TurnSession.constructor | src/s2s-session.cpp:123-156 | a new session is the initial state of the machine, with both rings sized |
| TurnSessions.TurnSession.SetParams | src/s2s-session.cpp:158-184 | new thresholds as counts of windows, the lookback resized to its most recent samples, nothing else moved |
| TurnSessions.TurnSession.SetSpeaking | src/s2s-session.cpp:194-198 | the floor and nothing else |
| TurnSessions.TurnSession.Emit | src/s2s-session.cpp:200-218 | one report, with the committed audio up to the pad after the last speech |
| TurnSessions.TurnSession.FinalIfDue | src/s2s-session.cpp:222-228 | final exactly when committed, released and out of grace |
| TurnSessions.TurnSession.ReleaseTurn | src/s2s-session.cpp:230-236 | only the committed turn and revision is released, and is final at once when its grace is over |
| TurnSessions.TurnSession.Open | src/s2s-session.cpp:240-249 | a new turn starts from the lookback |
| TurnSessions.TurnSession.CommitTurn | src/s2s-session.cpp:255-264 | the turn is handed over with its grace, its audio kept |
| TurnSessions.TurnSession.ListenTo | src/s2s-session.cpp:274-296 | hysteresis, runs, both rings and the turn audio after one window, in place |
| TurnSessions.TurnSession.DecideIdleTurn | src/s2s-session.cpp:299-316 | resume, barge in and open, open, or wait |
| TurnSessions.TurnSession.DecideSpeakingTurn | src/s2s-session.cpp:318-336 | the classifier is asked once the silence is long enough: on the fields, the step that SessionObserver.SpeechStopsExactly and UntilSilence are about |
| TurnSessions.TurnSession.DecidePendingTurn | src/s2s-session.cpp:338-354 | speech comes back, the delay runs out, or neither |
| TurnSessions.TurnSession.HearWindow | src/s2s-session.cpp:269-358 | one window on the fields is one step of the machine, events included |
| TurnSessions.TurnSession.Push | src/s2s-session.cpp:360-385 | a push consumes the windows of what was left over and the new samples, and keeps the remainder |
| SessionTrace.ApplyKeepsTraced | src/s2s-session.cpp:222-354 | each window, release, floor change or new threshold keeps the log in order and in agreement with the state |
| SessionTrace.EveryRunIsTraced | src/s2s-session.cpp:222-354 | over every run commits strictly advance in (turn, revision), held audio of a later revision extends the earlier one, a final turn was committed under that revision and only a barge-in names it again |
| SessionAudio.EveryRunFollows | src/s2s-session.cpp:274-296 | while a turn is live its audio is an exact suffix of the whole stream, and its speech mark is the last voiced window |
| SessionAudio.EveryRunAnchored | src/s2s-session.cpp:240-296 | over every run, new thresholds included, the live turn was reported open, and its audio starts at the window of that report or before it |
| SessionAudio.EveryCommitHandsOver | src/s2s-session.cpp:200-296 | every commit hands over audio that ends at most the speech pad after the last speech and holds every voiced window since the turn was reported open, sample for sample |
| SessionAudio.EveryOpeningReachesBack | src/s2s-session.cpp:240-316 | under unchanged thresholds a new turn holds the run that opened it and at least the pad before it, or the stream from its start, also when the floor changes during the run |
| SessionAudio.EveryRunLetsGo | src/s2s-session.cpp:222-249 | a session with no live turn keeps no audio of one |
| SessionTiming.WithinGrace | src/s2s-session.cpp:266-272 | while nobody speaks a grace counts down one window at a time and the turn is not final before its end |
| SessionTiming.GraceEnds | src/s2s-session.cpp:222-236 | a release before the end of a grace makes the turn final on exactly its last window; without a release it stays committed |
| SessionTiming.UnfinishedCommits | src/s2s-session.cpp:338-353 | a turn judged unfinished commits exactly delay windows later when no speech comes, with the rest of the wait as grace |
| SessionTiming.UnfinishedIsFinalAtWait | src/s2s-session.cpp:338-353 | its answer may be heard at exactly the wait, whatever the delay |
| SessionTiming.CompleteCommits | src/s2s-session.cpp:318-334 | a turn judged complete commits on that window with the configured grace |
| SessionTiming.ReleasedTurnEnds | src/s2s-session.cpp:222-272 | over any calls, new thresholds included, a released turn is final or overtaken within the windows left of its grace |
| SessionTiming.EveryFinalAfterGrace | src/s2s-session.cpp:222-272 | over every run no turn is final before its commit plus the grace it was given, and a running grace ends exactly there |
| SessionResume.CommitSetsAside | src/s2s-session.cpp:255-264 | a commit forgets the speech counted before it |
| SessionResume.ResumesOnNewSpeech | src/s2s-session.cpp:255-308 | a resumption takes as many windows of speech in a row as configured, all after the commit |
| SessionResume.RestOfWordResumes | src/s2s-session.cpp:230-308 | speech in every window after a commit, with releases and changes of the floor among them, resumes the turn by the window that completes the count, and then on exactly that window, if and only if no window before it completes the speech a new turn takes and the turn is not released before it with a grace that ends by then |
| SessionResume.WindowsAloneResume | src/s2s-session.cpp:251-308 | on windows of speech alone: if and only if a new turn takes no fewer windows and a released turn has more grace left than the count |
| SessionResume.MidWordCommitResumes | src/s2s-session.cpp:251-308 | a run from the start in which a commit falls in mid word and the rest of that word resumes the turn |
| SessionObserver.EveryWindowReports | src/s2s-session.cpp:222-358 | over every run, releases, changes of the floor and new thresholds included, a window reports exactly what the log so far, the runs of the verdicts, and the thresholds and the floor in force say, in that order: kind, turn, revision, window, score and grace of each event |
| SessionObserver.EveryOtherCallReports | src/s2s-session.cpp:158-236 | a release reports the final of the turn last committed exactly when it names it and its grace is over, a change of the floor or of the thresholds nothing |
| SessionObserver.EveryVerdict | src/s2s-session.cpp:274-281 | a window is voiced exactly when its probability reaches the upper threshold, or after a voiced window the lower of the two |
| SessionObserver.SpeechStopsExactly | src/s2s-session.cpp:318-320 | under unchanged thresholds speech is reported stopped on a window if and only if the user was speaking and that window completes as many unvoiced windows in a row as configured |
| SessionObserver.UntilSilence | src/s2s-session.cpp:318-336 | until a silence that long nothing is reported, whatever else is called, and the turn goes on in speech under its name and revision |
| SessionObserver.UnfinishedWaits | src/s2s-session.cpp:329-334 | a score below the threshold leaves the turn waiting, its count at zero |
| SessionPush.PushesJoin | src/s2s-session.cpp:360-385 | two pushes are one push of both |
| SessionPush.AnyPartition | src/s2s-session.cpp:360-385 | however a stream is cut into pushes the session consumes the same windows and keeps the same remainder |
| SessionPush.ConsumeIsRun | src/s2s-session.cpp:379-384 | consuming a stream is the run of its windows, so the statements over runs hold of pushes |
| ConversationInvariants.HandlersAreWhole | src/s2s-conversation.cpp:1014-1090 | whatever the session raises, a barge-in is handled as a cancel followed by its notification |
| ConversationInvariants.RespondKeepsLocked | src/s2s-conversation.cpp:514-537 | the responder takes and gives back the session lock, and holds the floor from publication to the end of its sound |
| ConversationDelivery.EventsDelivered | src/s2s-conversation.cpp:1014-1054 | every opening and every final the session raises is in the shared fields or still in the handlers |
| ConversationDelivery.DeliverKeepsDelivered | src/s2s-conversation.cpp:997-1054 | handling one event moves it there and loses none |
| ConversationQueues.HandlersQueueCommits | src/s2s-conversation.cpp:1068-1087 | the handlers queue exactly the commits, in order |
| ConversationQueues.RecognizeKeepsOrder | src/s2s-conversation.cpp:703-758 | the recognizer takes turns in order and lets out transcripts and jobs in that order, each at most once; which of them is in ConversationAnswers.EveryTurnIsDecided |
| ConversationQueues.RespondKeepsOrder | src/s2s-conversation.cpp:976-991 | the responder takes jobs in order and opens each answer at most once |
| ConversationFloor.DeliverKeepsVoided | src/s2s-conversation.cpp:997-1011 | an opening that overtakes the answer in flight cancels it before the turn lock is released |
| ConversationFloor.RespondKeepsVoided | src/s2s-conversation.cpp:790-806 | publication under the turn lock cancels an answer that is already overtaken |
| ConversationGate.GateMeansFinal | src/s2s-conversation.cpp:500-537 | a final turn no older than the answer and nothing opened after it make the very revision of the answer final |
| ConversationGate.NobodyIsStuck | src/s2s-conversation.cpp:514-537 | whoever waits at the gate outside a half-delivered event has its wake predicate true, or the session holds that turn and revision committed, released and in its grace |
| ConversationRuns.NextKeepsInv | src/s2s-conversation.cpp:447-1090 | every step of every thread keeps all the invariants together |
| ConversationRuns.EveryRunKeepsInv | src/s2s-conversation.cpp:447-1090 | so they hold in every state of every interleaving |
| ConversationTheorems.SoundOnlyAfterFinal | src/s2s-conversation.cpp:521-546 | sound of an answer is queued only after its turn became final under exactly its revision, and that turn never resumes |
| ConversationTheorems.GateIsExact | src/s2s-conversation.cpp:521-537 | with every event handled the gate lets an answer through exactly when its own revision is final and it was neither cut nor overtaken |
| ConversationTheorems.WaitingIsBounded | src/s2s-conversation.cpp:514-537 | past the commit plus its grace, counted in windows, nobody waits at the gate without a reason to wake |
| ConversationTheorems.NoLostWakeup | src/s2s-conversation.cpp:447-467 | a responder asleep with a reason to wake has somebody on the way to the notification |
| ConversationTheorems.HandlersNeverBlock | src/s2s-conversation.cpp:997-1011 | between steps the turn lock is held by the handler alone, so the next step of what is left to handle is enabled; locks taken and given back inside one step are not examined |
| ConversationTheorems.OvertakenIsCancelled | src/s2s-conversation.cpp:776-956 | whenever the turn lock is free an overtaken answer on the floor is cancelled, and it never closes as done |
| ConversationTheorems.CancelLoweredOffTheFloor | src/s2s-conversation.cpp:779-783 | the cancel is lowered only while nobody holds the floor |
| ConversationTheorems.ResponsesAlternate | src/s2s-conversation.cpp:794-957 | the frames form one response after the other, and between one response.created and the next lies exactly one terminal, of that answer, after all its sound |
| ConversationTheorems.EveryFrameInResponse | src/s2s-conversation.cpp:794-957 | sound and terminals follow the response.created of their own answer with no terminal between: none before the first, and behind the last no second terminal and no sound after it |
| ConversationTheorems.NothingForTheGone | src/s2s-conversation.cpp:364-494 | once a send failed nothing is queued any more |
| ConversationTheorems.OrderIsKept | src/s2s-conversation.cpp:703-991 | nothing is lost between commits, turns taken and jobs; transcripts and answers strictly advance and those of one turn are contiguous |
| ConversationCalls.SessionIsARun | src/s2s-conversation.cpp:514-1402 | in every interleaving the session and all it reported are a run of the session machine over the calls made so far: the floor as a push begins, each window, new thresholds, and every turn given back, so what is proved of runs holds inside a conversation |
| ConversationProgress.NothingIsStuck | src/s2s-conversation.cpp:447-1011 | no deadlock: in every interleaving, when no thread can go on by itself every event is handled, every lock free, every turn and job worked off unless the stop is up, and an answer that still waits does so for the grace of its own turn |
| ConversationProgress.ReaderKeepsOrder | src/s2s-conversation.cpp:1349-1402 | what the reader may do next is decided by what it did last, and it can do it unless it has to wait for the session, the events of its last window or the turn lock |
| ConversationProgress.WriterKeepsOrder | src/s2s-conversation.cpp:471-494 | once a send failed the writer raises the cancel, sets the stop and notifies, in this order, held up by nothing but the turn lock for the last |
| ConversationOpenings.OpenIsLatest | src/s2s-conversation.cpp:997-1003 | what is open is the greatest of the openings told so far |
| ConversationOpenings.EveryOpeningIsTold | src/s2s-conversation.cpp:1014-1034 | what the session reported as open was told or is still to be, and nothing else is |
| ConversationOpenings.CheckIsExact | src/s2s-conversation.cpp:506-712 | a turn taken for recognition is given up at its check if and only if an opening of a later revision of it was told and none of a later turn; else it is recognized |
| ConversationResumed.GivenUpIffResumed | src/s2s-conversation.cpp:506-712 | while no thresholds asked for more speech to resume a turn than to open one or to barge in, as the defaults do not, it is given up if and only if a later revision of it was told as open |
| ConversationHurried.WentOnYetRecognized | src/s2s-conversation.cpp:506-712 | a run in which a later revision was told as open and the turn is recognized all the same |
| ConversationAnswers.SkippedIsGivenUp | src/s2s-conversation.cpp:706-712 | a turn given up at its check never gets a transcript or a job, and the session is told |
| ConversationAnswers.RecognizedIsAnswered | src/s2s-conversation.cpp:714-758 | a turn recognized and heard gets its job, and its transcript unless the output has stopped; one not heard gets neither, and the session is told |
| ConversationAnswers.EveryTurnIsDecided | src/s2s-conversation.cpp:703-758 | every turn the recognizer is done with went one of these ways |
| ConversationCuts.CancelHasItsCut | src/s2s-conversation.cpp:454-1066 | the cancel is up if and only if something cut since the last answer began: a barge-in, a cancel or a close of the client, a failed send, an opening told over the answer on the floor, or one told before the answer took it |
| ConversationCuts.EndsHaveTheirCause | src/s2s-conversation.cpp:454-1011 | the stop is up if and only if a close or a failed send raised it, the output is stopped if and only if a send failed, and an answer is noted as overtaken if and only if it could be seen so on the floor |
| ConversationCuts.ThreadsEndAtStop | src/s2s-conversation.cpp:959-991 | the recognizer and the responder go on until the stop, and from then on take no turn and begin no answer |
| ConversationResponses.SpeaksIfThrough | src/s2s-conversation.cpp:521-546 | an answer at work that is to speak is heard if and only if the gate let it through, and else goes to the gate |
| ConversationResponses.EveryFrameHasItsStep | src/s2s-conversation.cpp:703-1034 | the frames queued are exactly those the steps of the run give, in order, up to a failed send: announcements, transcripts, response.created, sound let through, and one terminal each, response.cancelled if and only if something cut the answer since it began |
| ConversationResponses.EveryAnswerIsClosed | src/s2s-conversation.cpp:761-957 | an answer the responder is done with was opened and closed, or never opened because the stop was up, and its turn was given back to the session |
| ConversationResponses.EveryTurnIsGivenBack | src/s2s-conversation.cpp:514-774 | a turn the recognizer took is being worked on, waits for its answer, or was given back: none stays resumable for ever |
| ConversationResponses.EveryOpeningIsAnnounced | src/s2s-conversation.cpp:1014-1034 | until a send fails each opening has one announcement, queued or still to be handled, and handled before the opening is told |
| Overlap.OverlapAdd | src/localvqe.cpp:855-863 | the overlap buffer, in place: one hop of sums out, the rest moved down, silence behind it |
| Overlap.Reconstructs | src/localvqe.cpp:831-863 | with half overlap and halves of the gain that sum to one, output hop k is input hop k - 1 |
| Canceller.FindSlot | src/localvqe.cpp:776-779 | the first slot no stream holds |
| Canceller.HostBuffers.LayOutBatch | src/localvqe.cpp:585-593 | the loop over the batch writes each window in its own lane and raises its mask, in place |
| Canceller.HostBuffers.PutBackBatch | src/localvqe.cpp:610-618 | the loop over the batch puts its lanes back at rest, in place |
| CancellerRefinement.MaskTakes | src/localvqe.cpp:198-208 | a lane weighted by one and zero is one of the two values exactly |
| CancellerRefinement.LaidOutAt | src/localvqe.cpp:583-598 | each stream of a batch is in its own lane, every other lane as it was |
| CancellerRefinement.LaneAfterRun | src/localvqe.cpp:202-208 | a pass advances the lanes of its batch and keeps the history of every other |
| CancellerRefinement.CreateKeepsInv | src/localvqe.cpp:515-538 | growth keeps the old histories, and a slot held again starts from zero |
| CancellerRefinement.FreeKeepsInv | src/localvqe.cpp:814-823 | a free, which waits for no pass, disturbs no other stream |
| CancellerRefinement.NextKeepsInv | src/localvqe.cpp:573-863 | every step of caller or worker keeps slots exclusive, masks right and every stream faithful |
| CancellerRefinement.LanesRest | src/localvqe.cpp:492-627 | with no pass running every lane is at rest, and live streams never share a slot |
| CancellerRefinement.EveryStreamIsAlone | src/localvqe.cpp:573-863 | for any interleaving of creations, resets, frees, hops, passes and growths each stream gives what its own hops give alone from a zero history |
| CancellerHistory.EveryStepTells | src/localvqe.cpp:573-863 | in every interleaving there are as many streams as were created, each is where its own steps and those of the worker put it, and what it was brought is what its steps brought since it was last reset |
| CancellerHistory.EveryStreamGetsItsOwn | src/localvqe.cpp:573-863 | so what a live stream gave back is what those very hops give alone |
| CancellerHistory.StepsAreFree | src/localvqe.cpp:573-863 | a step may be taken if and only if the steps before it allow it: a creation or a reset while no pass runs, a hop for a stream at rest, a pass when some stream waits for one |
| CancellerHistory.NothingIsStuck | src/localvqe.cpp:573-863 | no deadlock: when no hop can go on none is on its way, the queue is empty and no pass runs |
| CancellerHistory.SlotsAreExact | src/localvqe.cpp:771-823 | a slot is taken if and only if a live stream holds it, and the capacity grows by one exactly at a creation that finds every slot held |
| CancellerRefinement.BatchedReconstruction | src/localvqe.cpp:831-863 | the reconstruction holds through the batched machine |
| Resample.Gcd | src/audio-resample.h:37-44 | a common divisor that every common divisor divides |
| Resample.ImpulseGivesWeight | src/audio-resample.h:110-119 | in exact arithmetic the weighted sum of an impulse is the weight where it falls |
| Resample.SumsAdd | src/audio-resample.h:110-119 | and that of a mix is the mix of the weighted sums, so it is the sum of samples times weights |
| Resample.ApplyMono | src/audio-resample.h:92-121 | every output is the weighted sum of its own stretch and phase, as many as were asked for and the phases give |
| Resample.ResampleAll | src/audio-resample.h:131-180 | refused exactly on a count or rate that is not positive, passed through at equal rates, otherwise each channel the announced number of samples of its whole form |
| Resample.Stream.Push | src/audio-resample.h:204-220 | gives every group the history allows and keeps the rest, shorter than one kernel |
| Resample.Stream.Restart | src/audio-resample.h:196-202 | the history is the zero pad alone |
| Resample.BlocksAppend | src/audio-resample.h:204-220 | what was complete is unchanged by more samples behind it |
| Resample.PiecesDoNotMatter | src/audio-resample.h:204-220 | however the input is cut the outputs and what waits are those of the whole |
| Resample.BlocksAt | src/audio-resample.h:106-121 | output t of the stream is phase t mod new over the stretch at t / new, the formula of the whole buffer |
| Resample.StreamIsWhole | src/audio-resample.h:92-220 | the stream is a prefix of the whole-buffer output, and width + orig zeros complete it exactly |
| Resample.TargetIsReached | src/audio-resample.h:157-173 | the announced length never exceeds what the phases give |
| EchoPath.Path.Switch | src/s2s-conversation.cpp:1146-1175 | a new echo mode restarts both resamplings, empties both buffers and starts a fresh canceller when there is one to be had |
| EchoPath.Path.Frame | src/s2s-conversation.cpp:1368-1390 | a frame extends the microphone by its audio and the reference by the sound played, when it is as long, and by as many zeros when it is not, and gives the sound of the complete hops |
| EchoPath.Path.CancelEcho | src/s2s-conversation.cpp:384-425 | both buffers keep what is left after the same hops, in place |
| EchoPath.CancelHops | src/s2s-conversation.cpp:384-425 | the loop over the hops gives them all to the canceller in order and keeps what is left |
| EchoPath.SameInstant | src/s2s-conversation.cpp:384-425 | both buffers are equally long, below one hop, and index i of both is the same output instant of the two resampled streams: all the audio since the last switch, and all the references, with zeros for the frames that had none |
| EchoPath.SampleOfFrame | src/s2s-conversation.cpp:1374-1383 | in those streams each frame has its own place, the same on both sides: its audio, and its reference or zeros |
| Utf8.DecodeAt | src/sentence-split.h:42-62 | the code point and length at a place, U+FFFD and one byte when malformed |
| Utf8.Utf16Length | src/sentence-split.h:64-71 | the UTF-16 length of any bytes |
| Utf8.Additive | src/sentence-split.h:64-71 | that length adds up across a cut after an ASCII byte, whatever the bytes |
| Utf8.DecodesAll | src/sentence-split.h:42-62 | on well-formed text (section 3 of RFC 3629) decoding inverts encoding |
| Utf8.LengthIsUtf16 | src/sentence-split.h:64-71 | on well-formed text the length is the number of code units of section 2.1 of RFC 2781 |
| Emoji.TableAscends | src/emoji.h:24-184 | the ranges of the table are in order and disjoint |
| Emoji.Search | src/emoji.h:186-200 | the binary search agrees with membership in the table for every code point |
| Cleaning.Characters | src/sentence-split.h:84-105 | the marks dropped and the breaks that part words, as characters |
| Cleaning.SpokenEdges | src/sentence-split.h:72-82 | the code points at which what a voice can say begins and ends, and no others |
| Cleaning.CleanText | src/sentence-split.h:84-119 | the loop over code points and the trimming compute the cleaning of any bytes |
| Cleaning.BreaksPartWords | src/sentence-split.h:96-105 | a space, a line break, a tab or an emoji parts the words, whatever is around it |
| Cleaning.MarkersVanish | src/sentence-split.h:93-95 | a marker is as if it were not there |
| Cleaning.WordsKeepLetters | src/sentence-split.h:84-119 | the words hold exactly the code points that stay, in order |
| Cleaning.TidyIsTidy | src/sentence-split.h:84-119 | no marker, break or emoji, no doubled or outer space; empty exactly when nothing spoken remains; idempotent |
| CleaningProof.CleanIsTidy | src/sentence-split.h:84-119 | on well-formed text the cleaned bytes are the words joined by single spaces, an independent definition |
| CleaningProof.CleanTwice | src/sentence-split.h:84-119 | on well-formed text cleaning twice is cleaning once |
| Splitter.FindCut | src/sentence-split.h:134-157 | the leading sentence ends at the first line break or confirmed terminator |
| Splitter.CutStays | src/sentence-split.h:134-157 | more text never moves a cut |
| Splitter.CutMarks | src/sentence-split.h:134-157 | the marks that end a sentence and those that confirm them, as characters |
| Splitter.CutsForExample | src/sentence-split.h:129-157 | a stop before a space is a cut, one inside a number or at the end of what is known is not, a line break is |
| Splitter.CutsEverywhere | src/sentence-split.h:134-185 | the text is cut after every line break and every confirmed terminator, and nowhere else |
| Splitter.SentenceSplitter.Push | src/sentence-split.h:162-185 | a delta gives exactly the units it completes; which those are is in Splitter.SplitIsFaithful |
| Splitter.SentenceSplitter.Flush | src/sentence-split.h:187-200 | the last unit ends at the UTF-16 length of everything written |
| Splitter.PiecesAreWhole | src/sentence-split.h:159-185 | the pieces and what waits concatenate to the text, each piece ends in ASCII |
| Splitter.DeltasDoNotMatter | src/sentence-split.h:162-185 | the units do not depend on how the text is cut into deltas, mid character included |
| Splitter.SplitIsFaithful | src/sentence-split.h:162-200 | for any deltas the units are, in order and each exactly once, the pieces that say something, cleaned, and each ends at the UTF-16 length of the text up to the end of its piece |
| EventStream.ReadLine | src/llm-client.cpp:344-361 | a line trimmed at its end, recognized as data, the end mark or nothing |
| EventStream.JoinFragments | src/llm-client.cpp:372-383 | fragments join the call of their index, indices out of range are dropped |
| EventStream.Receive | src/llm-client.cpp:325-395 | one chunk: every complete line in order until the stream ends, fails or the caller refuses |
| EventStream.ChunksDoNotMatter | src/llm-client.cpp:325-395 | text, calls, finish, end, failure, and the body of a stream still open do not depend on the chunks |
| EventStream.CallsAreJoined | src/llm-client.cpp:372-383 | each call is its own fragments in order, whatever came between, and there are at most 64 |
| EventStream.StreamSays | src/llm-client.cpp:325-395 | over any chunks the text is the deltas of the frames and each call its fragments; the caller is handed each delta as a C string, so what it was handed is the text if and only if no delta holds a NUL |
| EventLines.AgreesWithStandard | src/llm-client.cpp:338-363 | on any bytes that leave no event open, the payloads of the data lines taken are the data of the events of section 9.2 of the WHATWG HTML standard if and only if every line is plain (no data line behind a bare carriage return, no spaces to strip but one) and no two data lines share an event; on any plain bytes, if and only if no two data lines share an event and none is left open, which the standard discards |
| EventLines.DataLinesAgree | src/llm-client.cpp:338-363 | line by line: the receiver takes at most as many payloads as the standard has data lines, and exactly their values if and only if the stream is plain |
| EventLines.ReadersAgree | src/llm-client.cpp:338-391 | on any bytes, what every reader makes of the lines is what it would make of the standard events if and only if the payloads of the data lines are the data of the events up to the end mark |
| EventLines.StreamSaysStandard | src/llm-client.cpp:325-395 | on a plain stream with its data lines apart and no event left open, however it is cut, the text is the deltas of the standard events |
| EventDifferences.BareReturnsHide | src/llm-client.cpp:338-344 | any two events whose lines end in bare carriage returns: the standard reads both, the receiver nothing |
| EventDifferences.JoinedLinesSplit | src/llm-client.cpp:351-363 | any event of two data lines: the standard joins them, the receiver takes two frames |
| EventDifferences.OpenEventTaken | src/llm-client.cpp:338-391 | any data line without its empty line: the standard discards it, the receiver has taken it |
| EventDifferences.BareReturnsDiffer | src/llm-client.cpp:338-363 | bare carriage returns, on bytes: two events against nothing |
| EventDifferences.TwoLinesDiffer | src/llm-client.cpp:338-363 | two data lines in one event, on bytes: one joined value against two payloads |
| EventDifferences.LeftOpenDiffers | src/llm-client.cpp:338-391 | an event left open, on bytes: nothing against its line |
| EventDifferences.TwoSpacesDiffer | src/llm-client.cpp:351-354 | two spaces, on bytes: one stripped against both |
| EventDifferences.AgreeByAccident | src/llm-client.cpp:338-363 | an open stream that is not plain, on which both sides still give the same: there no condition on the lines one by one can be exact |
| EventOutcome.StreamEnds | src/llm-client.cpp:325-395 | over any chunks the reception ends at the first line that does not pass, the end mark, a frame that failed or a delta refused, or goes on when all pass; its finish is the last the frames gave, its reasoning their sum, and while it goes on its body is everything received |
| EventOutcome.RequestEnds | src/llm-client.cpp:403-442 | how a request ends, each way if and only if: the reason of a frame that failed, cancelled at a refused delta, answered at the end mark, and else by the transport: failed, an error status with the reason of the body, cut short when no frame gave a finish, answered when one did |
| EventStream.OutcomeIgnoresChunks | src/llm-client.cpp:403-442 | the outcome of the request is the same for the same bytes, the reason of an error status included |
| Agent.Deliver | src/llm-agent.cpp:185-197 | what the tap hands on over a round, a refused space included |
| Agent.Run | src/llm-agent.cpp:254-306 | the rounds loop, its text, messages and end |
| Agent.AnswerCalls | src/llm-agent.cpp:276-302 | one tool message per call, up to the one a cancellation stopped |
| Agent.TextIsWhatWasHanded | src/llm-agent.cpp:185-268 | a run that does not fail has a text equal to everything handed to the caller, inserted spaces included, if and only if no delta holds a NUL |
| Agent.NulHidesText | src/llm-agent.cpp:185-197 | a delta with a NUL: the text keeps three bytes, the caller reads one |
| Agent.CallsAreAnswered | src/llm-agent.cpp:270-302 | each assistant message with calls is followed by one tool message per call, in order, under its id |
| AgentRounds.SpaceBytes | src/llm-agent.cpp:189-261 | the bytes behind which no space is put |
| AgentRounds.RunEnds | src/llm-agent.cpp:254-306 | a run is exhausted if and only if every round it may have asks for calls that are all answered; else it ends at the first that does not: answered if its stream ended and it asked for nothing, failed if not |
| AgentRounds.EveryMessageHasItsPlace | src/llm-agent.cpp:270-302 | however a run ends, its messages are those it was given and then, in the place the rounds before it leave, what each round said with its calls and the reply to each call up to the one stopped, and nothing else |
| AgentRounds.FailedRunKeeps | src/llm-agent.cpp:185-268 | a run that ends with a stream given up keeps the text and the messages of the rounds before it, and handed on of that stream its words as they read, after a space if they meet those before, or that space alone when it was refused |
| AgentStreams.StreamLeaves | src/llm-client.cpp:325-395 | what a stream leaves is its deltas joined, and what the caller was handed those deltas as C strings |
| AgentStreams.RunSaysStreams | src/llm-agent.cpp:254-268 | for any streams, however each is cut, a run that does not fail has the text of the deltas of the frames of the streams of its rounds, with a space wherever words would meet, and the caller was handed the same as C strings |
| Filing.S2SClient.CloseAnswer | tools/webui/src/lib/s2s.ts:848-865 | an open answer closes with the text of the units that started to play, filed when it says anything, and the list is pushed |
| Filing.S2SClient.OnServerEvent | tools/webui/src/lib/s2s.ts:911-1040 | each server event on the fields is one step of the client; what the steps make of the list is in FilingHistory.EveryRunKeepsTheConversation |
| Filing.S2SClient.OnPlayed | tools/webui/src/lib/s2s.ts:553-561 | a report of the player of an earlier answer is ignored; the last sample played closes a finished answer |
| Filing.S2SClient.CancelAnswer | tools/webui/src/lib/s2s.ts:635-640 | the answer closes at once with what was heard |
| Filing.S2SClient.Replaces | tools/webui/src/lib/s2s.ts:648-652 | the conversation given replaces the one kept, without turn identities |
| Filing.S2SClient.ClearHistory | tools/webui/src/lib/s2s.ts:657-669 | an answer in flight ends with nothing filed |
| Filing.S2SClient.OnReconnect | tools/webui/src/lib/s2s.ts:608-614 | what was heard stays, the turn identities go |
| Filing.S2SClient.TearDown | tools/webui/src/lib/s2s.ts:583-600 | the answer in flight closes first, then the turn identities go |
| Filing.HeardIsPrefix | tools/webui/src/lib/s2s.ts:852-856 | the units filed are a prefix, exactly those whose first sample played |
| Filing.OnAccounts | tools/webui/src/lib/s2s.ts:911-1040 | what the client keeps of the last answer (open or not, its units and the sample each starts at, what was sent and last reported played) is what the events say of it |
| Filing.OnTells | tools/webui/src/lib/s2s.ts:848-1031 | each event: at most one end, with the text of what was heard, and every close pushes the list as it was with that message when it says something; only a new connection, a new list and a cleared one push otherwise |
| Filing.OnFiles | tools/webui/src/lib/s2s.ts:848-1031 | the assistant messages after an event are those before it and the text of the answer that ended, when it says something; only the list the host gives, or clears, replaces them |
| Filing.OnFilesWhatItTells | tools/webui/src/lib/s2s.ts:848-1031 | the assistant messages a history gains are the non-empty texts the host is told were filed, in order |
| Filing.EveryRunFilesWhatWasHeard | tools/webui/src/lib/s2s.ts:848-1031 | for any events each start gets exactly one end before the next, and the assistant messages of the history are, since the last list given by the host, the trimmed texts of the units whose first sample was reported played, answer by answer, as the events alone say |
| Filing.ClosedStaysClosed | tools/webui/src/lib/s2s.ts:936-1031 | whatever is still said of a closed answer among the other events, up to the next answer, the history, the lists pushed and what the host hears are as if it had not been said |
| FilingHistory.JoinedBySpaces | tools/webui/src/lib/s2s.ts:848-859 | the texts of the units are joined by one space |
| FilingHistory.EveryRunKeepsTheConversation | tools/webui/src/lib/s2s.ts:848-1031 | over any events the list is, message for message, the one the events make: the list last given, a line per turn transcribed, revised by a transcript exactly when its identity is not empty, is the one last transcribed since identities were forgotten and the last line is still the user's, and a line per answer heard, in order; and the lists pushed are its states |
| FilingHistory.LinesStay | tools/webui/src/lib/s2s.ts:944-962 | no event but a new list takes a line away or moves it, and only a transcript changes the last one, while it is the user's |
| FilingHistory.EveryTurnHasItsLine | tools/webui/src/lib/s2s.ts:944-962 | a turn that was transcribed keeps its line, a user message with the text of the last transcript that revised it, until a new list is given |
| Tdt.Decode | src/tdt-decoder.h:269-316 | the loop terminates within n_frames * max(1, max_symbols) joint evaluations, each on a frame of the utterance |
| TdtPath.DecodeIsGreedy | src/tdt-decoder.h:266-318 | each evaluation reads the frame the durations so far lead to, on the state of the tokens said so far, as long as that frame lies in the utterance and the caller takes what is said; the tokens are those among the answers, in order, and the run is cancelled exactly at the first the caller refuses |
| Tdt.StepsAreBounded | src/tdt-decoder.h:269-316 | for all networks, and there are never more tokens than evaluations |
| Tdt.FrameIsLeft | src/tdt-decoder.h:305-316 | a frame entered with c symbols counted, whose answers stay on it, is left by the cap after exactly max(1, max_symbols - c) of them, and the loop goes on at the next |
| Tdt.LeftSoonerIfMovedTo | src/tdt-decoder.h:297-316 | such a frame, entered from another, is left before the count allows if and only if a token of positive duration moved on to it and the count allows more than one symbol |
| Tdt.CountCarriesOver | src/tdt-decoder.h:305-316 | such a decoder: two symbols a frame are allowed, and the second frame is left after one |
| Tdt.BoundIsTight | src/tdt-decoder.h:269-316 | networks that reach the bound |
| Realtime.EncodeBytes | src/realtime-proto.h:145-161 | the loop over three bytes at a time |
| Realtime.LetterIsValue | src/realtime-proto.h:143-180 | each letter of the alphabet is worth its place, and none is the padding |
| Realtime.DecodeString | src/realtime-proto.h:182-201 | the loop with its 32-bit accumulator |
| Realtime.WrapKeepsLow | src/realtime-proto.h:192-197 | the accumulator wraps without touching the bits that wait |
| Realtime.RoundTrip | src/realtime-proto.h:145-201 | decoding inverts encoding for every byte string (section 4 of RFC 4648) |
| Realtime.FloatsOf | src/realtime-proto.h:203-212 | every two bytes a sample, an odd one dropped |
| Realtime.PcmOf | src/realtime-proto.h:214-224 | every sample clamped, cut to 16 bits, two bytes |
| Realtime.BytesRoundTrip | src/realtime-proto.h:206-224 | two bytes give back the 16-bit sample they came from |
| Realtime.OthersAreIgnored | src/realtime-proto.h:182-201 | characters outside the alphabet never change the result |
| Realtime.FrameTrip | src/realtime-proto.h:203-224 | a frame of sound sent and received is each sample sent and received |
| Realtime.TripMovesLittle | src/realtime-proto.h:203-224 | a clamped sample moves by less than 2/32768 |
| Realtime.TripLosesOneStep | src/realtime-proto.h:203-224 | a 16-bit sample that is not zero loses exactly one step of magnitude |

## Left out
- Numbers: samples, probabilities and scores are reals. Rounding, infinities and NaN are not modelled; where only the order of operations matters (resampling) the operations are arbitrary functions.
- Networks, mel frontends, the voice and turn detectors, recognition and synthesis: arbitrary functions or nondeterministic results.
- ConversationTheorems.SoundOnlyAfterFinal: speaks of the order in which frames are queued, not of when the client plays them; wall-clock time is not modelled, a grace is counted in windows.
- Conversation: one window changes the session at once and its events are handled after it, one critical section at a time; the session is behind its lock meanwhile, so no thread can tell. The load of the cancel flag that picks the terminal frame and the queueing of that frame are one step.
- Conversation: the queue condition variables are modelled as threads that may go on when their predicate holds; the turn condition variable, whose waiter tests more than its own queue, is modelled with sleeping and notification. Fairness of the scheduler is not assumed, so nothing is said about how soon a thread that may run does.
- Conversation: frames other than speech, transcripts, response.created, sound and the two terminals (text deltas, tool calls, errors, settings) are not in the model; nor are the wake gate, recognition failures and empty transcripts beyond their common effect, that no transcript is let through.
- ConversationTheorems.HandlersNeverBlock: speaks of the turn lock alone; the queue, output and client locks are taken and given back inside one step, so the order of nested locks is not examined.
- Conversation: conn_close is the reader's last step; the joins and frees behind it are not modelled.
- TurnSessions.TurnSession: the scalar fields of the session are grouped in three records; the window position of an event stands for its time in seconds; a null session, a null callback and a null buffer are not modelled.
- SessionTiming.GraceEnds: this and the other deadlines ask for windows in which nobody speaks: no run of speech reaches a resumption, and none opens a new turn, which may take fewer windows.
- SessionAudio.EveryOpeningReachesBack: asks for thresholds that stay as they are, since new thresholds resize the lookback.
- Canceller: threads are a transition system on values, with the loops over host buffers and the overlap-add in place beside it. A pass whose compute fails and a growth that fails are not modelled; a failed growth leaves the capacity already raised.
- EchoPath: a hop the canceller fails on, and the energy statistics for the log, are not modelled.
- Resample: the values of the kernel, the width formula and the length as a C int are not modelled; the announced length is taken in exact arithmetic. Channels are a list of buffers rather than one planar buffer.
- CleaningProof.CleanIsTidy: is about well-formed UTF-8 alone, since dropping a marker can join malformed bytes into a character.
- EventStream: the cancel flag polled per chunk, the watching thread, the silence timer and the HTTP client are not modelled; JSON frames are an arbitrary function of their bytes.
- EventLines.AgreesWithStandard: compares bytes; the decoding of the stream, which drops a byte order mark, is not modelled. A stream that is not plain and leaves an event open may agree by accident (`EventDifferences.AgreeByAccident`), so nothing is said of those.
- AgentStreams.RunSaysStreams: asks nothing of the calls of a round; their way through JSON between client and agent is not modelled.
- Agent: gathering tools, their definitions, timeouts and what failed calls are told are not modelled; each tool gives an arbitrary reply.
- Filing: the socket, the worklet and its resampling are not modelled; reports of the player are arbitrary. String trimming is an arbitrary function.
- Tdt.Decode: asks for durations that are not negative, which the model file decides.
- The command line client, the MCP client, HTTP, model files and the web page: plumbing, or a repetition of what is modelled here.
