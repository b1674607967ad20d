# Workers, chats, notices, replies and microphones, modelled and proved

This project models the parts of the repository whose behaviour cannot be read from one function: the durable job
queue that several workers share, the saving of the notch's chats against a server others write to, the notification
queue and its pager, the reply renderer, and the voice and microphone state machines. Each is written in Dafny in the
form it has in the source (objects whose fields are reassigned are classes, loops are loops, expressions are
functions), and each method is proved to do what a function of its old state says; the theorems are about those
functions, over every run.

`dafny verify dfyconfig.toml` checks everything. The files, by component:

- **The job queue** (`JobRows`, `JobRuns`, `JobQueue`, `ReportSchedule`): rows move between pending, running, dead and
  succeeded by claims, completions, the 15-minute reclaim and the revival of jobs an older worker killed. A run is any
  sequence of steps of any number of workers, each with its own set of known types, where a stalled worker still
  writes over a row another one holds by now. How far a row can be off is said by how often the job was taken back,
  and by whether a success stands that its worker has not heard of.
- **Saving chats** (`ChatSaving`, `ChatSafety`, `ChatHarm`, `ChatRuns`, `ChatOutcomes`, `ChatLostAnswers`): the
  client's loop, a line on which requests land at any time and answers are lost, and a server where a stale save is
  refused and other writers add, change and delete conversations.
- **Notifications** (`Sublists`, `Arrivals`, `PagerOrder`, `Pager`, `SummaryCard`): the queue over any run of polls,
  the order, the pager while its list changes under it, and the summary's counts and wash.
- **The reply renderer** (`Characters`, `Html`, `MarkdownInline`, `MarkdownProperties`, `MarkdownBlocks`,
  `MarkdownReading`, `MarkdownMarks`, `MarkdownKinds`, `MarkdownLayout`, `MarkdownDrawn`): the scanner with its memo
  of failed searches against a scanner without one, and the block assembler, down to the characters of the markup and
  what is read back from them.
- **Voices** (`Player`, `Speaking`, `SpeakingFace`): the audio player's utterances and, on top of it, the two voices
  an answer can be read in, the computer's being another process at the end of a line of commands.
- **Microphones** (`Microphones`, `Dictation`, `DictationHook`, `DictationSafety`, `DictationControls`,
  `DictationListening`, `DictationStops`): the shared list of open microphones, and dictation with its two engines, the hand-over
  between them, and every control.

`Options` holds the one datatype they share.

## What the code does not do

Where the code falls short of what its comments promise, the code is modelled as it is, a lemma gives the run or the
input, and another says exactly when the promise holds.

- **A success that is heard too late.** `execute` writes by id alone, and its catch covers the success statement too.
  A success whose answer is lost is followed by the same worker's failure, so "succeeded" is not final even when
  nothing was reclaimed (`LostAnswerUndoesSuccess`), and a stalled worker undoes another's (`ReclaimUndoesSuccess`).
  It is final exactly when no live worker still holds the job (`SucceededStaysIff`): for a job never reclaimed,
  exactly when its own worker has heard of it (`SucceededIsFinalIff`). The comment in worker/schedule.ts that an older
  worker cannot take a revived job holds while the job was not reclaimed, whatever answers were lost
  (`OneWorkerAtATime`).
- **A failed question that takes back an answer.** `ask` ends a failed question with `talk.pop()`, whatever stands
  last by then, and nothing keeps a second question from being asked meanwhile. With two in flight the pop takes the
  other one's answer, also when it is saved (`TwoQuestionsOneSaved`, `AnswerTakenBack`): the next save then puts a
  copy without it in its place (`SavedAnswerIsErased`), or a fork begins past a question that is kept nowhere
  (`QuestionFallsBetween`). `TakingBackHarmsIff` says exactly which pops can be followed by either, `HarmlessIff` the
  same of whole runs; popping questions alone never is (`QuestionsMayGo`).
- **A notice put on show directly.** Four places add to `shown` without taking the id out of `held` or putting it in
  `known`. Held and shown stay apart, through all that follows, exactly when it was known and not held: one that a
  refresh brought and no poll has looked at yet is held by the next poll in quiet hours, though it was shown
  (`DirectlyShownIff`).
- **A backslash at the end of a line.** `MD_ESCAPABLE.includes("")` is true, so a lone last backslash is drawn as the
  word "undefined" (`LoneBackslashIsAWord`, `SlipsIff`).
- **A hush that comes too late.** `hush` sends a stop only when she is known to be speaking or about to. Past its 12
  seconds a speech still being rendered is forgotten, and is heard after the hush (`HushedTooLate`,
  `HushSilencesIff`). What is said before the page has read that the older words began is taken for heard with them,
  and then for over with them (`SaidTooSoon`); until the page reads anything, a hush is in time (`HushAtOnce`).
- **A microphone behind a button that says off.** The speech service's network error after Stop starts Whisper on the
  microphone kept for the waveform, and the end of Stop's wait then turns the button off (`RecordsAfterStop`).
  `AttendedIff` lists every event that can do this, and `NeverOpenBehindOffIff` says that no others do in any run. So
  Stop and Cancel give every microphone back for certain only when no recogniser is left that could still fail
  (`StopGivesAllBackIff`, `CancelGivesAllBackIff`).
- **A button that says listening while nothing listens.** A network error after Stop is over asks for a microphone and
  marks a hand-over that the next press neither takes nor ends. When that press uses the service again (offline and in
  private mode the failure is not remembered), its recogniser is not started again when it ends (`NothingListens`).
  `DeafIff` gives every event that can do this, and `AlwaysHeardIff` says that in a run without them something listens
  whenever the button says so.
- **A Stop that leaves the service listening.** While a hand-over counts as under way, or a recording is being
  finished or stopped instead, `stop` does not come to the recogniser: it is still wanted, and is started again behind
  a button that says off (`StartsAfterStop`). `StopStartsNoneIff` says exactly when it is not.
- **A recorder that throws.** `startWhisper` loses the stream it was given when making the recorder throws; nothing
  refers to it any more, and it stays open when the page has gone (`ThrownIsNeverStopped`). `LosesIff` gives the three
  ways this comes about, and `NothingIsLostIff` counts them in any run.
- **A cancel between Stop and the end of the recorder.** The writing out takes its number only when the recorder is
  done, so a cancel before that does not overtake it and the words are written all the same. So are those of an older
  recording when a newer one is running, which is all a cancel then gives up (`CancelAbandonsIff`,
  `OlderWordsAreWritten`).
- **A microphone shared twice.** `lastIndexOf` takes out the newer entry when the older share is taken back
  (`OrderCanBeLost`); the order is kept exactly when no other stream's share stands in between (`StaysInOrderIff`). No
  caller does this today: `showMic` returns early for the stream on show, and the voice recorder shares each new
  stream once.

## Model

| member | source | states |
|---|---|---|
| `JobRows.DelaySeconds` | worker/index.ts:40 | 5 seconds up to the first attempt, and never less nor more than an hour |
| `JobRows.DelayDoubles` | worker/index.ts:40 | each further attempt waits twice as long as the one before, up to an hour |
| `JobQueue.Jobs.constructor` | worker/index.ts:18-27 | a queue over any table |
| `JobQueue.Jobs.ClaimNext` | worker/index.ts:19-27 | takes a due, unlocked pending job with the earliest time and none only when there is none; that row and no other is now running under this worker with one more attempt, and the claim remembers those attempts; in any run it is the run's claim |
| `JobQueue.Jobs.Execute` | worker/index.ts:30-46 | a success stands, heard or not; a failure makes the row pending again, due exactly that wait from now, or dead when no attempts are left, with the error's first 2000 characters; and no other row changes |
| `JobQueue.RecordingIsARunStep` | worker/index.ts:30-46 | what is recorded is the holder's own step of a run, whoever holds the row by then |
| `JobQueue.Jobs.ReclaimStale` | worker/index.ts:70 | exactly the running rows locked more than 15 minutes ago go back to pending with their attempts, time and all else kept; no other row changes, and none is stale afterwards |
| `JobQueue.Jobs.ClaimKilled` | worker/schedule.ts:300-322 | takes only killed, unlocked jobs of known types, the oldest first, at most 1 to 200, and all when they fit; those rows run under this worker and no other row changes |
| `JobQueue.TakeOldest` | worker/schedule.ts:313-322 | at most `limit`, and whatever is left over is no older than anything taken |
| `JobRuns.OneStep` | worker/index.ts:19-70 | every step of every worker keeps the potential that bounds claims, revivals and live holders of every job |
| `JobRuns.InvAlways` | worker/index.ts:19-70 | so it holds in every state of every run from an empty table |
| `JobRuns.ClaimsAreBounded` | worker/index.ts:19-46 | a job is claimed at most max_attempts plus its reclaims times, is revived from dead at most max_attempts - 1 times, and its row counts its claims exactly |
| `JobRuns.HoldersAreBounded` | worker/index.ts:19-70 | live holders, plus one when the row is not running, are at most one plus the reclaims; one more only while a success stands that its worker has not heard of |
| `JobRuns.OneWorkerAtATime` | worker/schedule.ts:300-322 | a held job never reclaimed, whatever answers were lost, has one holder; it is running, or succeeded as that holder wrote it unheard; and nothing changes its row but that holder's own report or a reclaim: no older worker takes a revived job |
| `JobRuns.SucceededStaysIff` | worker/index.ts:30-46 | a succeeded job stays succeeded in every further run exactly when no live worker holds it |
| `JobRuns.TakenBackIsDue` | worker/index.ts:70 | in every run a reclaim takes back exactly the jobs running for more than 15 minutes; such a job is due at once, with its attempts, and its old worker still holds it |
| `JobRuns.KilledIff` | worker/schedule.ts:300-322 | in every run a killed job is a dead one with attempts left, a day old at most and of a known type |
| `JobRuns.UnhandledIsKilled` | worker/index.ts:30-46 | a job whose type its worker does not know is one of these for every worker that does |
| `JobRuns.SucceededIsFinalIff` | worker/index.ts:35-43 | in every run the success of a job never reclaimed is final, whatever follows, exactly when its worker has heard of it |
| `JobRuns.ReclaimUndoesSuccess` | worker/index.ts:35-43 | a run: stalled, reclaimed, run and finished by another, then dead; and claimed more often than max_attempts |
| `JobRuns.LostAnswerUndoesSuccess` | worker/index.ts:35-43 | a run without a reclaim in which a success is written and then undone by the same worker |
| `JobRuns.QuietStep` | worker/index.ts:20-23 | a step that inserts, moves and takes back nothing up to a job's time leaves no more jobs ahead of it, and a claim of another job one fewer |
| `JobRuns.NoStarvation` | worker/index.ts:20-46 | a due job nobody holds is claimed within as many claims as there are jobs ahead of it plus one |
| `JobRuns.OneReportEach` | worker/schedule.ts:41-42 | in every run at most one report job exists per recipient and local date |
| `ReportSchedule.EnqueueJob` | worker/schedule.ts:42 | inserts exactly when no job has the key, and changes nothing else |
| `ReportSchedule.MovedIsOnTime` | worker/schedule.ts:35-39 | exactly the organisation's untried reports of today move, and all of them then have the configured time |
| `ReportSchedule.QueueRecipients` | worker/schedule.ts:41-44 | every recipient has a job under their key afterwards; only missing ones were added, at the configured time |
| `ReportSchedule.ScheduleOne` | worker/schedule.ts:31-45 | one organisation's turn serves it and leaves those before it served |
| `ReportSchedule.ScheduleDailyReports` | worker/schedule.ts:20-47 | after a pass every untried report of a working day waits for the time now configured, every recipient whose time is within the hour has one, nothing is queued further ahead, keys stay unique, nothing else changed, and the count returned is the enqueue calls made |
| `ReportSchedule.PassIsARun` | worker/schedule.ts:20-47 | a pass is a run of retiming and enqueueing steps, so all that holds of every run of the queue holds across it |
| `ChatSaving.NotchChat.constructor` | desktop/src/main.js:2670 | a new conversation starts where the talk is and has saved nothing |
| `ChatSaving.NotchChat.Prepare` | desktop/src/main.js:2697-2732 | what is sent next, or nothing when nothing new is to be saved |
| `ChatSaving.NotchChat.Acknowledge` | desktop/src/main.js:2697-2732 | what the conversation knows after its save went through |
| `ChatSaving.NotchChat.Conflicted` | desktop/src/main.js:2740-2754 | what becomes of a refused save: taken for its own, tried again on top of an earlier one, or forked |
| `ChatSafety.OneStep` | desktop/src/main.js:2694-2754 | every step of the client, the line, the server and the other writers keeps the protocol's invariant, but for taking back what counts as saved, what a save under way holds that can still count, or what a copy holds that will be saved over |
| `ChatHarm.TakingBackHarmsIff` | desktop/src/main.js:2402 | after a taking back some continuation, with nothing more taken back, counts more as saved than the talk holds or saves over words it does not hold, exactly when it took back one of these |
| `ChatHarm.GoodIsHarmless` | desktop/src/main.js:2694-2754 | where the invariant holds no continuation without a taking back does either |
| `ChatRuns.HarmlessIff` | desktop/src/main.js:2694-2754 | a run, against a server that may hold anything already, never comes to where either can follow exactly when it never takes back one of these |
| `ChatRuns.NothingSaidIsErased` | desktop/src/main.js:2694-2754 | in every such run a save that goes through over an existing copy, however late it lands, was made from a part of the talk that holds every word of that copy at its own place; what it puts there holds them too up to 200 messages, and at its start while no save was longer; and the copy was acknowledged, or taken for its own by `marks` |
| `ChatRuns.NothingFallsBetween` | desktop/src/main.js:2667-2754 | in every such run `from <= savedTo <= length`; each message counted as saved stands at its own place in a version acknowledged to this client or taken for its own, unless the very save that counted it left it out by the 200 limit; every other is in the part the next save is made from |
| `ChatRuns.AFork` | desktop/src/main.js:2740-2754 | in every such run a refused save ends in a fork exactly when no copy could be read or it is not the start of that save, message by message with what was made of each; the fork's save begins at the first message not acknowledged, and all below stands in versions acknowledged or taken |
| `ChatRuns.EveryNewConversation` | desktop/src/main.js:2718-2724 | every conversation created in such a run begins at the first message not acknowledged, or is the refused save of a deleted one made again |
| `ChatOutcomes.HoldsTheNewest` | desktop/src/main.js:2667-2693 | a save holds the newest 200 messages in order, unchanged but for texts over 8000 characters, which are cut |
| `ChatOutcomes.ClippedIs` | desktop/src/main.js:2668 | where such a text is cut |
| `ChatOutcomes.SaveSendsIff` | desktop/src/main.js:2697-2732 | a save goes out exactly when none is under way and an answer stands last that makes it differ from the last acknowledged; else it is remembered |
| `ChatOutcomes.SaidMeanwhile` | desktop/src/main.js:2699-2735 | one asked for meanwhile follows, over the version just made, exactly when there is more to save |
| `ChatOutcomes.GoesThrough` | desktop/src/main.js:2697-2732 | a save answered adds exactly one version, or makes the conversation, and then all said is acknowledged |
| `ChatOutcomes.IsMadeAgain` | desktop/src/main.js:2713-2732 | of a conversation deleted meanwhile it makes a new one with all of it |
| `ChatOutcomes.IsFoundThere` | desktop/src/main.js:2740-2747 | refused because it had landed already, it is acknowledged and nothing is sent |
| `ChatOutcomes.IsMadeOnTop` | desktop/src/main.js:2748-2751 | refused because an earlier one had landed, it is made on top of that, in the same conversation |
| `ChatOutcomes.GoesApart` | desktop/src/main.js:2752-2754 | refused for anything else, what is not acknowledged goes into a new conversation, and the old one stands |
| `ChatOutcomes.NoOtherWay` | desktop/src/main.js:2694-2754 | whatever the server holds, one of these applies |
| `ChatLostAnswers.LostSavesAreTakenUp` | desktop/src/main.js:2740-2751 | in every run a refused save that begins with what this client put there earlier, of 200 messages at most, never forks: it counts as saved when that is all of it, else the next request goes over exactly that version with all there is to save |
| `ChatLostAnswers.OneConversation` | desktop/src/main.js:2667-2754 | a run in which nobody else writes to it never forks a conversation, whatever answers are lost and however late requests land |
| `ChatRuns.QuestionsMayGo` | desktop/src/main.js:2402 | a run that takes back nothing but questions never takes back one of these |
| `ChatRuns.TwoQuestionsOneSaved` | desktop/src/main.js:2370-2402 | a run: two questions are asked, the second is answered, and that answer is saved |
| `ChatRuns.AnswerTakenBack` | desktop/src/main.js:2370-2402 | then the first question fails, and the saved answer is taken back |
| `ChatRuns.SavedAnswerIsErased` | desktop/src/main.js:2694-2735 | the next save that goes through replaces the copy with one without that answer |
| `ChatRuns.QuestionFallsBetween` | desktop/src/main.js:2740-2754 | and if it is refused for a foreign copy, a question counts as saved that stands in no version and is not sent |
| `Arrivals.Notch.constructor` | desktop/src/notify.js:79-90 | the queue before the first poll |
| `Arrivals.Scan` | desktop/src/notify.js:95-106 | the loop finds what arrived, in order, the newest time and the first time each id was known |
| `Arrivals.FreshExactly` | desktop/src/notify.js:95-106 | in a poll of distinct ids one arrives exactly when it was unknown and not 30 s older than the newest seen |
| `Arrivals.Notch.Arrive` | desktop/src/main.js:1257-1273 | the loop and its branches decide what the decision function says, and the queue becomes what it returns |
| `Arrivals.Notch.MarkShown` | desktop/src/main.js:1243-1249 | shown, known and no longer held; nothing at all for an empty id |
| `Arrivals.DecisionIsTidy` | desktop/src/notify.js:91-120 | after a poll the known ids are the listed ones, held and shown are disjoint subsets of them, and the newest time never goes back |
| `Arrivals.WhatAPollDoes` | desktop/src/notify.js:91-120 | for any poll of distinct ids which action it takes, by what is open and by how many are due, and exactly which ids come with it, once each and in the list's order |
| `Arrivals.TidyAlways` | desktop/src/notify.js:91-120 | the same in every run of polls and `markShown` |
| `Arrivals.DirectlyShownIff` | desktop/src/main.js:3340 | putting an id on show directly keeps held and shown apart, through every further run of polls and `markShown`, exactly when it was known and not held |
| `Arrivals.DeliveredFacts` | desktop/src/notify.js:91-120 | what one poll delivers, holds back and never delivers |
| `Arrivals.SettledStays` | desktop/src/notify.js:91-120 | what was shown or is not held stays so while it is listed, through any run, and so does the time it was first seen |
| `Arrivals.NeverTwice` | desktop/src/notify.js:91-120 | what was delivered is never delivered again while it stays listed, in any run |
| `Arrivals.DeliveredByAFreePoll` | desktop/src/notify.js:91-120 | what arrived and stays listed, not marked shown, has been delivered by the first poll with no card, pager, quiet hours or absence, exactly once |
| `Arrivals.ShownNeverOpens` | desktop/src/main.js:1243-1249 | what was marked shown never opens on its own while listed |
| `Arrivals.OldOnesNeverOpen` | desktop/src/notify.js:91-120 | an id first listed with a time 30 s or more older than the newest never opens while it stays listed |
| `PagerOrder.TextTotal` | desktop/src/notify.js:66-73 | the comparison of ids decides any two different ones, one way only |
| `PagerOrder.TextTransitive` | desktop/src/notify.js:66-73 | and is transitive |
| `PagerOrder.SortedFacts` | desktop/src/notify.js:66-73 | the order is a permutation, ascending by group, newest, id |
| `PagerOrder.OneSorting` | desktop/src/notify.js:66-73 | there is only one ascending arrangement of notices with distinct ids |
| `PagerOrder.OrderIsCanonical` | desktop/src/notify.js:66-73 | so the order is the same for every arrangement of the input |
| `PagerOrder.WhatComesFirst` | desktop/src/notify.js:42-73 | of any two in the order: asks, what is due, people, all else, good news; then the newer; then the id first as text |
| `PagerOrder.TextLessIff` | desktop/src/notify.js:66-73 | an id is before another exactly when it has the smaller character where they first differ, or ends there |
| `Pager.StartIsBehind` | desktop/src/notify.js:126-134 | a run starts in range on a seen card, at the first unless it goes back to a place |
| `Pager.StartsAtItsPlace` | desktop/src/notify.js:126-134 | each id once and in order, on the kept place when it is among them, with exactly the cards seen before and this one seen |
| `Pager.ArrivingKeepsTheCard` | desktop/src/notify.js:136-142 | inserts go after the current card, which stays, with distinct ids and nothing lost |
| `Pager.NewOnesComeNext` | desktop/src/notify.js:136-142 | new ids stand right behind the current card, once each and in their order, and all else as before |
| `Pager.StepsAreUndone` | desktop/src/notify.js:144-151 | a step goes to the neighbour and one the other way comes back; past the last ends, before the first stays |
| `Pager.NothingElseLeaves` | desktop/src/notify.js:153-165 | an id not there takes nothing out, and the walk ends exactly when the only card leaves |
| `Pager.LeavingKeepsTheCard` | desktop/src/notify.js:153-165 | removing another card leaves the current one in place; removing the current one shows the next, or the one before the last, seen |
| `Pager.OneMove` | desktop/src/notify.js:126-165 | every move keeps it: cards up to the current one were seen, those before it dealt with |
| `Pager.EachMoveLeads` | desktop/src/notify.js:126-165 | where every move leads: to the neighbour, or to the same card for as long as it is there |
| `Pager.FinishingSawAll` | desktop/src/notify.js:144-151 | a run from the first card that is finished has seen and dealt with every id then in it, whatever arrived, left or was gone back to |
| `Pager.OnlyNoticesRead` | desktop/src/main.js:1350-1353 | in any walk what is read or kept is exactly what was stepped past while unread, the asks kept and the others read: no ask is ever read |
| `Pager.Desk.Go` | desktop/src/main.js:1366-1374 | a step marks what is left behind as read unless it is an ask, shows the next card or ends the pager |
| `Pager.Desk.Prune` | desktop/src/main.js:1410-1422 | after a poll exactly the cards still present, read here or on show remain, and the one on show stays |
| `SummaryCard.GroupBySender` | desktop/src/notify-cards.js:1079-1085 | the groups hold every notice once, by sender and in order, none empty and no key twice, in the order the senders first come up |
| `SummaryCard.OneFaceIff` | desktop/src/notify-cards.js:1081 | two notices share a face exactly when their senders are one, or without senders when they are one notice; the one exception is a sender written like a notice's own key |
| `SummaryCard.Summary` | desktop/src/notify-cards.js:1072-1097 | the faces' numbers and the +N add up to the total for any senders and any unread beyond the list; six faces at most, +N only when needed |
| `SummaryCard.Mix` | desktop/src/notify-cards.js:1053-1067 | each kind holds the rounded middle of its exact share, softened by 18 hundredths of it up to 6 per cent, and the stops run from 0 to 100 without a step back |
| `SummaryCard.PadIs` | desktop/src/notify-cards.js:1063 | how much a soft edge takes |
| `SummaryCard.RoundedIsNearest` | desktop/src/notify-cards.js:1057 | rounding goes to the nearest place of one decimal, halves up |
| `SummaryCard.Wash` | desktop/src/notify-cards.js:1051-1068 | for any counts, exactly the kinds waiting, or the plain one alone |
| `Html.UnescEsc` | desktop/src/main.js:348 | reading escaped text back gives the text |
| `Html.EscIsInert` | desktop/src/main.js:348 | escaped text opens no tag and closes no attribute |
| `Html.TreeIsNested` | desktop/src/main.js:2195-2241 | the characters of any tree with no link in a link are balanced in their own tags, whatever is open around them and follows |
| `MarkdownInline.FindClose` | desktop/src/main.js:2224-2226 | the search by indexOf finds the first valid closer, or none exists |
| `MarkdownInline.Search` | desktop/src/main.js:2219-2236 | with the memo of failed searches a mark is taken exactly as without it, and the memo stays true |
| `MarkdownInline.MdInline` | desktop/src/main.js:2195-2241 | the memoised, buffering loop draws every string as the scanner without memo or buffer does, and ends |
| `MarkdownProperties.ParseLinksApart` | desktop/src/main.js:2209-2218 | no line is ever drawn with a link in a link |
| `MarkdownProperties.LineIsNested` | desktop/src/main.js:2195-2241 | any line is drawn well nested in its own tags |
| `MarkdownProperties.ShowsOnlyItsOwn` | desktop/src/main.js:2195-2241 | what is read of a line is its own characters in their order, some left out, unless a lone backslash slipped in |
| `MarkdownProperties.SlipsIff` | desktop/src/main.js:2204 | any line gets the word exactly when it, or the words of a link it is drawn with, end in an odd run of backslashes |
| `MarkdownProperties.LoneBackslashIsAWord` | desktop/src/main.js:2204 | the shortest such line is drawn as "undefined" |
| `MarkdownMarks.BoldAndItalic` | desktop/src/main.js:2219-2236 | the drawn characters: words between doubled marks are strong, between single ones emphasised, for either mark |
| `MarkdownMarks.MarksAreDrawn` | desktop/src/main.js:2231 | in any line the element of a mark that is taken is strong exactly when the mark stands twice |
| `MarkdownMarks.CodeLine` | desktop/src/main.js:2205-2208 | the drawn characters of a code span |
| `MarkdownMarks.LinkLine` | desktop/src/main.js:2209-2218 | the drawn characters of a link whose address may be opened, and of one whose may not |
| `MarkdownMarks.WordsAreText` | desktop/src/main.js:2238-2241 | words without a mark are drawn as their escaped text |
| `MarkdownMarks.EscapedIsItself` | desktop/src/main.js:2204 | an escaped mark is drawn as itself |
| `MarkdownBlocks.EveryLineOnce` | desktop/src/main.js:2243-2281 | the blocks hold every kept line's own words exactly once, in input order |
| `MarkdownBlocks.KeptEntriesFacts` | desktop/src/main.js:2243-2281 | the kept lines are those that are neither blank nor a rule |
| `MarkdownBlocks.KeptEntriesAscend` | desktop/src/main.js:2243-2281 | each once, and in order |
| `MarkdownKinds.ItemIff` | desktop/src/main.js:2264-2271 | a line is a list's item, numbered or not, exactly when it reads as one |
| `MarkdownKinds.HeadingIff` | desktop/src/main.js:2275 | a line is a heading exactly when it reads as one |
| `MarkdownKinds.RuleIff` | desktop/src/main.js:2263 | a line is a rule exactly when it reads as one |
| `MarkdownKinds.NumberIs` | desktop/src/main.js:2268 | a marker's number |
| `MarkdownKinds.HeadingWords` | desktop/src/main.js:2275 | a heading's words |
| `MarkdownKinds.EachInItsKind` | desktop/src/main.js:2243-2281 | in any reply every line stands in a block of its own kind, and a list's number is its first item's |
| `MarkdownLayout.BlocksAreLaidOut` | desktop/src/main.js:2243-2281 | in any reply the lines of a block belong together, and two blocks are apart |
| `MarkdownDrawn.SplitPutsTogether` | desktop/src/main.js:2244 | the lines are the text's, however they end |
| `MarkdownDrawn.LabelIff` | desktop/src/main.js:2249 | a paragraph is a label exactly when its one line is only bold |
| `MarkdownDrawn.TextIsDrawn` | desktop/src/main.js:2247-2276 | the drawn characters of a heading, a label and a paragraph |
| `MarkdownDrawn.BulletsAreDrawn` | desktop/src/main.js:2253-2258 | the drawn characters around a list with bullets |
| `MarkdownDrawn.NumbersAreDrawn` | desktop/src/main.js:2253-2258 | and around a numbered one, with its number unless it is 1 |
| `MarkdownDrawn.DecimalReadsBack` | desktop/src/main.js:2255 | which reads back as that number |
| `MarkdownDrawn.ParaTextIs` | desktop/src/main.js:2277 | a paragraph's line loses its blank ends and one quote mark |
| `MarkdownReading.ReplyReadsAsItsLines` | desktop/src/main.js:2195-2281 | a whole reply's markup, its tags gone and its characters decoded, reads as the words of its kept lines one after the other |
| `MarkdownReading.ReplyShowsOnlyItsOwn` | desktop/src/main.js:2195-2281 | and these are the kept lines' own characters in their order, some left out, unless a lone backslash slips in |
| `MarkdownBlocks.ReplyIsNested` | desktop/src/main.js:2243-2281 | any reply's markup is balanced, from its own tags only |
| `MarkdownBlocks.DrawBlock` | desktop/src/main.js:2247-2258 | a paragraph, label or list as it is drawn |
| `MarkdownBlocks.TakeLine` | desktop/src/main.js:2259-2278 | what one line adds to the output |
| `MarkdownBlocks.Md` | desktop/src/main.js:2243-2281 | the loop over the first 400 lines draws the blocks of those lines, and the result is well nested |
| `Player.StepKeeps` | desktop/src/natural-voice.js:167-221 | every event, of any utterance and however late, keeps the player's invariant |
| `Player.InvAlways` | desktop/src/natural-voice.js:167-221 | in every order of events each utterance's callbacks are nothing, one failure, or a start, levels and at most one end; one utterance at most is not over, and it is the current one and still has something coming |
| `Player.NothingFollows` | desktop/src/natural-voice.js:184-221 | an utterance that is over says nothing more in any further run |
| `Player.StopIsSilent` | desktop/src/natural-voice.js:184 | stopping is silent and final and touches no other utterance |
| `Player.BeginningStopsTheLast` | desktop/src/natural-voice.js:167-171 | a new play silences every earlier one for good |
| `Player.EveryCallbackHasItsReason` | desktop/src/natural-voice.js:187-219 | in every run an utterance is heard only when its audio was decoded, and a failure names what made it fail |
| `Player.EveryUtteranceEnds` | desktop/src/natural-voice.js:167-221 | one that nobody stopped, when nothing more is coming, failed once unheard or was heard from start to end |
| `Player.EachAnswerIsTold` | desktop/src/natural-voice.js:186-219 | what each answer brings an utterance that is not over, and whether it ends it |
| `Player.LevelsAreItsFrames` | desktop/src/natural-voice.js:210-216 | in every run the levels told are those of the utterance's own frames, in order, all of them while it is not over |
| `Player.NaturalVoice.constructor` | desktop/src/natural-voice.js:167-221 | nothing is played |
| `Player.NaturalVoice.Halt` | desktop/src/natural-voice.js:173-184 | `stop()` |
| `Player.NaturalVoice.Fail` | desktop/src/natural-voice.js:186 | `fail()`: an end when it was heard, a failure before |
| `Player.NaturalVoice.Begins` | desktop/src/natural-voice.js:167-193 | `play()`: the last is stopped, the new one is current and has said nothing yet |
| `Player.NaturalVoice.RunTask` | desktop/src/natural-voice.js:189-191 | audio that is not base64, or no Web Audio, fails later and not from inside `play()` |
| `Player.NaturalVoice.Warm` | desktop/src/natural-voice.js:193-195 | the context's answer, looked at only when the utterance is not over |
| `Player.NaturalVoice.Decode` | desktop/src/natural-voice.js:197-219 | the decoder's answer, and a step after it that throws before or after the first sound |
| `Player.NaturalVoice.Step` | desktop/src/natural-voice.js:210-216 | a frame's level, only while it plays |
| `Player.NaturalVoice.Ends` | desktop/src/natural-voice.js:203 | the source's end |
| `Speaking.StepKeeps` | desktop/src/main.js:1977-2124 | every event of the page, the player and the other process keeps the invariant of the two voices |
| `Speaking.InvAlways` | desktop/src/main.js:1977-2124 | so it holds in every order of events |
| `Speaking.OvertakenAudioIsOver` | desktop/src/main.js:2055-2065 | natural audio of anything hushed or overtaken is over, whatever still arrives for it |
| `Speaking.OneVoiceEach` | desktop/src/main.js:2076-2124 | words are sent to the computer voice once at most, and never when they were heard from the natural one |
| `Speaking.OnlyTheMicrophoneDrops` | desktop/src/main.js:2116 | words are given up without a voice only when the microphone was open as their audio came |
| `Speaking.NewestReachesOneVoice` | desktop/src/main.js:2076-2124 | what was said last and not overtaken is on its way, or was heard from the natural voice, or went to the computer once: never lost, unless the microphone was open |
| `Speaking.NeverBothVoices` | desktop/src/main.js:2076-2083 | the two voices never speak together once the other process has read its line |
| `Speaking.HushSilencesIff` | desktop/src/main.js:1997-2004 | a hush silences her for good, whatever still comes, exactly when she is known to be speaking or about to, or the computer voice was left with nothing |
| `Speaking.HushedTooLate` | desktop/src/main.js:1991-2004 | a run in which she is hushed and heard all the same |
| `Speaking.ComputerSaysTheNewestIff` | desktop/src/main.js:1977-2004 | throughout a run the computer voice is left with nothing but what was said last, exactly when every hush of the run is in time |
| `Speaking.SayingReplaces` | desktop/src/main.js:1977-1986 | a newer answer replaces the last in either voice, also one a late hush had left behind |
| `SpeakingFace.FacesAlways` | desktop/src/main.js:1977-2124 | in every order of events what the page shows is what the notices it has yet to read make of it |
| `SpeakingFace.TalkingIsSounding` | desktop/src/main.js:1997-2021 | in every run, once all is read, her face talks exactly while a voice sounds, and while the computer's does no wait is running and a hush silences her |
| `SpeakingFace.NoWaitForNothing` | desktop/src/main.js:1987-2021 | then Stop is offered only while something is still to be heard, in every run in which no talk keys cut words off without opening the microphone |
| `SpeakingFace.HushAtOnce` | desktop/src/main.js:1977-2004 | from the moment something is said a hush silences it, until the wait ends or the page reads a notice |
| `SpeakingFace.SaidTooSoon` | desktop/src/main.js:1977-2021 | a run: said before the older words' beginning was read, hushed, and heard all the same |
| `SpeakingFace.WhereAnAnswerLeads` | desktop/src/main.js:2076-2124 | what the context's and the speech route's answers lead to, for the newest words and for others |
| `Speaking.Notch.constructor` | desktop/src/main.js:1977-2004 | nothing is said |
| `Speaking.Notch.StopsNatural` | desktop/src/main.js:2055-2065 | `stopNatural` |
| `Speaking.Notch.SayAloud` | desktop/src/main.js:1977-1986 | `sayAloud` with what it sends to the other process |
| `Speaking.Notch.HushNow` | desktop/src/main.js:1997-2004 | `hush`, which sends a stop only when she is known to be aloud |
| `Speaking.Notch.Hear` | desktop/src/main.js:2897-2921 | what the page makes of each notice from the other process |
| `Speaking.Notch.FallBack` | desktop/src/main.js:2083-2091 | the fallback, only for the newest utterance |
| `Microphones.StaysInOrderIff` | src/hooks/use-voice-recorder.ts:78-84 | taking a share back leaves the list in the order of the others exactly when no other stream was shared between it and a newer share of its own |
| `Microphones.OrderCanBeLost` | src/hooks/use-voice-recorder.ts:78-84 | a stream shared twice around another, the older share taken back: the order is lost |
| `Microphones.LastIndexOf` | src/hooks/use-voice-recorder.ts:81 | the last index, or -1 when there is none |
| `Microphones.OpenMics.constructor` | src/hooks/use-voice-recorder.ts:67-71 | nothing is shared |
| `Microphones.OpenMics.Newest` | src/hooks/use-voice-recorder.ts:71 | one of the list's, and none exactly when the list is empty |
| `Microphones.OpenMics.ShareMicrophone` | src/hooks/use-voice-recorder.ts:74-78 | the list still equals the outstanding shares as a multiset, and the new one is the newest |
| `Microphones.OpenMics.Unshare` | src/hooks/use-voice-recorder.ts:78-84 | the same, one entry fewer the first time and nothing the second; a microphone is open exactly while a share is outstanding; the order is kept exactly under that condition |
| `DictationSafety.StepKeeps` | src/hooks/use-dictation.ts:105-381 | every control, answer and failure keeps each open stream with one holder |
| `DictationSafety.InvAlways` | src/hooks/use-dictation.ts:105-381 | so it holds in every order of events |
| `DictationSafety.OneHolderEach` | src/hooks/use-dictation.ts:105-258 | a stream given and not stopped is held once: by the waveform, a recording, one recording being finished, or it is lost; a stopped one by none |
| `DictationSafety.LosesIff` | src/hooks/use-dictation.ts:177-258 | an event loses a stream exactly when a recorder throws that was made for a stream not overtaken: a press's, an answered hand-over's, or the waveform's own; it loses one, and none is found again |
| `DictationSafety.NothingIsLostIff` | src/hooks/use-dictation.ts:105-258 | in every run as many streams are lost as such events occurred: none exactly when none did, and then what is on show is open |
| `DictationSafety.ThrownIsNeverStopped` | src/hooks/use-dictation.ts:177-183 | a run in which a thrown recorder's stream stays open when the page has gone |
| `DictationSafety.GoneHoldsNothing` | src/hooks/use-dictation.ts:146-163 | once the page has gone and its recordings are finished no stream is open that was not lost, whatever was granted since |
| `DictationSafety.AttendedIff` | src/hooks/use-dictation.ts:105-381 | from a state in which every microphone held for listening shows on the button, an event leaves one behind a button that says off exactly when its guard is one of those listed |
| `DictationSafety.NeverOpenBehindOffIff` | src/hooks/use-dictation.ts:105-381 | at no moment of a run does the button say off while a microphone is open, but for recordings being finished and lost ones, exactly when the run has none of those events |
| `DictationSafety.RecordsAfterStop` | src/hooks/use-dictation.ts:275-291 | a run: Stop, a network error, and Whisper records on while the button says off |
| `DictationControls.StopGivesAllBackIff` | src/hooks/use-dictation.ts:244-341 | after Stop every microphone not lost is given back, whatever comes but the person, exactly when the page has gone or Stop found one thing to stop and no recogniser is left to fail; should none fail over the network, exactly when Stop found one thing to stop |
| `DictationControls.CancelGivesAllBackIff` | src/hooks/use-dictation.ts:244-349 | the same of Cancel, which always gives a recording back |
| `DictationControls.NoneAheadAlways` | src/hooks/use-dictation.ts:244-258 | what these two ask of a state holds of every state there can be: no waiting request is newer than the session |
| `DictationControls.CancelAbandonsIff` | src/hooks/use-dictation.ts:202-239 | a cancel keeps the words of a stopped recording out of the box, in every further run, exactly when the page has gone, they are over or overtaken already, or they are being written out and nothing else is being recorded |
| `DictationControls.OlderWordsAreWritten` | src/hooks/use-dictation.ts:202-349 | a run: cancelled while a newer recording runs, the words of the older one are written all the same |
| `DictationListening.DeafIff` | src/hooks/use-dictation.ts:105-381 | from a state in which something listens, or is about to, whenever the button says listening, an event ends that exactly when its guard is one of those listed |
| `DictationListening.AlwaysHeardIff` | src/hooks/use-dictation.ts:105-381 | throughout a run something listens whenever the button says so exactly when the run has none of those events |
| `DictationListening.ListensByService` | src/hooks/use-dictation.ts:293-308 | so while the service is listened by and wanted, with no hand-over and no stop waited for, its recogniser has not ended |
| `DictationListening.NothingListens` | src/hooks/use-dictation.ts:244-308 | a run: Stop, a network error once its wait is over, a press, and the service's end: the button says listening and nothing does |
| `DictationListening.SeriousEndsIt` | src/hooks/use-dictation.ts:275-292 | a serious error turns the button off, and the service is not started again |
| `DictationListening.WrittenIff` | src/hooks/use-dictation.ts:211-239 | words reach the box exactly when they come for the newest recording while the page is there |
| `DictationListening.NoPressWhileWriting` | src/hooks/use-dictation.ts:351-359 | while words are being written out a press does nothing |
| `DictationListening.ShownAtOnce` | src/hooks/use-dictation.ts:105-258 | a stream held for listening is on show from the moment it is held |
| `DictationStops.StopStartsNoneIff` | src/hooks/use-dictation.ts:293-341 | after Stop, whatever comes but the person, the service is never started again exactly when Stop came to its recogniser, or none is wanted or left |
| `DictationStops.StartsAfterStop` | src/hooks/use-dictation.ts:244-341 | a run: with a hand-over that never ended Stop only turns the button off, and the service starts again |
| `DictationStops.WaitEndsItsOwn` | src/hooks/use-dictation.ts:328-336 | the end of a stop's wait lets go of the recogniser it waited for and of no newer one |
| `DictationStops.SecondStopIsQuiet` | src/hooks/use-dictation.ts:310-325 | a second Stop while a recording is finished changes nothing |
| `DictationStops.WriteOutEndsItsOwn` | src/hooks/use-dictation.ts:202-239 | only the newest write-out ends the phase, and only its own recording's finishing |
| `DictationStops.LeavingOvertakesAll` | src/hooks/use-dictation.ts:146-163 | when the page goes everything still to come is overtaken |
| `DictationHook.Hook.constructor` | src/hooks/use-dictation.ts:62-104 | the hook when it is mounted |
| `DictationHook.Hook.ReleasesLevel` | src/hooks/use-dictation.ts:120-126 | the waveform's stream is stopped and no longer shown |
| `DictationHook.Hook.TakesLevel` | src/hooks/use-dictation.ts:128-134 | the waveform's stream is handed on, or stopped when it has gone quiet |
| `DictationHook.Hook.DropsRecording` | src/hooks/use-dictation.ts:137-144 | the recording's stream is stopped |
| `DictationHook.Hook.GoesIdle` | src/hooks/use-dictation.ts:135 | the button says off and the waveform's stream goes |
| `DictationHook.Hook.StartsWhisper` | src/hooks/use-dictation.ts:177-195 | a recording replaces the last, unless it was overtaken or the recorder throws |
| `DictationHook.Hook.SwitchesToWhisper` | src/hooks/use-dictation.ts:244-258 | the hand-over, from the open stream or by asking for one |
| `DictationHook.Hook.AskIsGranted` | src/hooks/use-dictation.ts:250-258 | the hand-over's stream, given back when Stop was pressed meanwhile |
| `DictationHook.Hook.StartIsGranted` | src/hooks/use-dictation.ts:351-381 | a press's stream: given back when overtaken, else the engine's |
| `DictationHook.Hook.RecogniserFails` | src/hooks/use-dictation.ts:275-292 | the service's error: passed over, handed over to Whisper, or the end of listening |
| `DictationHook.Hook.RecogniserEnds` | src/hooks/use-dictation.ts:293-300 | the service's end: nothing when Whisper has taken over, the end of a stop, or a start again |
| `DictationHook.Hook.Finishes` | src/hooks/use-dictation.ts:328-336 | the end of Stop's wait for the service's last words |
| `DictationHook.Hook.StopsListening` | src/hooks/use-dictation.ts:310-341 | `stop` |
| `DictationHook.Hook.GivesUp` | src/hooks/use-dictation.ts:344-349 | `cancel` |
| `DictationHook.Hook.Pressed` | src/hooks/use-dictation.ts:351-359 | `toggle` up to its question for the microphone |
| `DictationHook.Hook.RecorderIsDone` | src/hooks/use-dictation.ts:202-211 | the recording's stream goes and the writing out takes its number |
| `DictationHook.Hook.WritesOut` | src/hooks/use-dictation.ts:211-239 | only the newest writing out, not cancelled, reaches the box |
| `DictationHook.Hook.StandsAsRunsDo` | src/hooks/use-dictation.ts:105-341 | the hook, as it is, holds each open stream once, and Stop will give all back exactly under the condition for runs |
| `DictationHook.Hook.Obeys` | src/hooks/use-dictation.ts:310-381 | each control takes the hook to the state the run's event leads to, so that what holds of every run holds of it |
| `DictationHook.Hook.IsAnswered` | src/hooks/use-dictation.ts:244-381 | the same of the browser's answers about the microphone |
| `DictationHook.Hook.IsTold` | src/hooks/use-dictation.ts:202-336 | and of what the engines report |
| `DictationHook.Hook.Unmounted` | src/hooks/use-dictation.ts:148-163 | the page goes, and everything under way has been overtaken |

## Left out

- JobRuns.NoStarvation: relative to nothing being inserted, moved or reclaimed at or before the job's time, which the queue
  itself does not promise.
- The statements' locking: `FOR UPDATE SKIP LOCKED` is one step that may find any set of rows locked.
- `enqueueJob`, in src/server/services: an insert when no job has the key, with at least one attempt.
- The worker's loop (polling, maintenance every 15 s, at most 50 jobs in a row) and the other schedulers, which repeat the
  daily report's pattern.
- The conversations' server beyond a version count: `updatedAt` is how many saves a conversation has had. A new
  conversation whose answer is lost may exist twice.
- What else becomes of a talk: it grows, is remarked on or loses what stands last; one forgotten after a while is another
  run.
- Line breaks and a list's bullets and numbers, which a browser adds to what is read of a reply.
- A notice's group is taken from its type, and the same throughout a walk of the pager.
- `mdHref` and the letters and digits of `\p{L}\p{N}` are parameters of the renderer; text is a sequence of Dafny characters,
  not of UTF-16 units.
- The engine's sort is a stable insertion sort, which is what a sort by that comparator is for.
- SummaryCard.Mix: shares are exact fractions before they are rounded to one decimal, where the source has floating point.
- `speakingLevel`, `rmsLevel`, `warm` and `idle` of the player: levels are given, the context's answer is an event.
- A callback of the player that itself calls `stop()`: the page's never do.
- `speak` refused by the bridge, voice switched off, signing out, the token of the speech route and the kept audio beyond
  whether there is some.
- The words of a dictation, its notices and its two-minute message; React state is taken to change at once.
- The voice recorder hook itself, beyond the list of open microphones it shares.
- The cards' templates, faces, sounds, canvas and cursor, and `dotWindow`.
