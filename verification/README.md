# Verification of the asterisk-vox audio engine

This project models, in Dafny 4.11, the parts of asterisk-vox that move audio against a clock,
and proves what they promise:

* **ByteQueue** (`ByteQueue.dfy`, `Fifo.dfy`): a single-sender, single-receiver queue. The sender
  swaps records onto a shared LIFO; the receiver swaps the LIFO out, reverses it in place, appends
  it through a tail slot and extracts bytes across record boundaries. The class works on linked
  heap records and every method is proved against one step on a plain FIFO of bytes; what holds in
  every interleaving is proved about runs of those steps.
* **The layer player**: a linked job list, one audio source at a time (file, sleep or synthesis),
  mixing into a 160-sample frame per tick, and deadline pacing. The code in place (`Sources.dfy`,
  `Synthesis.dfy`, `Lists.dfy`, `JobList.dfy`, `Layers.dfy`, `Pacing.dfy`, `Player.dfy`) works on buffered
  frames, linked jobs, a real ByteQueue and arrays, and refines a layer on values (`Commands.dfy`,
  `Playback.dfy`), where a source is what it has left and each command taken is a turn. What one
  tick does is proved there (`Playback.dfy`, `Endings.dfy`,
  `Announcements.dfy`, `Ticks.dfy`), what runs do in
  `PlayerRuns.dfy`, `Progress.dfy` and `Sessions.dfy`. Together this reaches from the bytes a sender pushes to the
  frames written to the channel.
* **The command hand-over** (`Handoff.dfy`, `PlaybackControl.dfy`, `Sessions.dfy`): requests of
  the dialplan thread, the dispatch into the job list, and the player thread's loop, as a run of
  steps on one abstract queue of commands.
* **The recogniser's writer loop** (`AsrWriter.dfy`, `Time.dfy`): silence filling in step with a
  monotonic clock, with exact timespec arithmetic.
* **Text** (`Text.dfy`, `SayArgs.dfy`): escaped separators, in-place unescaping and the options of
  a `say` command, on character buffers.
* **Wake-ups** (`WakeUp.dfy`): the signalling protocol all three hand-overs share.

Conventions: a queue, list or frame the program changes in place is a class or an array here, and
its methods are proved against functions on values; `Valid()` holds what every operation keeps.
The clock, files, number parsing, the synthesis thread and `poll` are inputs (`World`, `Outside`,
`Round`, `Drain`, `Wake`). `hide` only takes definitions out of a proof's sight. What holds
on values holds of every layer; the methods in place, and so the program, follow it as long as no
tick hangs or mixes past its frame (`Completes`, `SessionCompletes`), which `CompletesIff` tells
before the pass and which safe commands ensure (`SafeIff`, `SafeFromTheStart`). The other
assumptions about the outside are the `Sound` predicates: a `poll` answers -1, 0 or 1, and clocks
give normalised times.

What the code does and its documentation does not say, each with its exact condition:

* A Finished event is documented for the end of each command's playback, but is published only
  when a source that was there before a merge pass is gone after it. A source that starts on an
  idle layer and ends in the same tick never gets one, and sources that follow each other within
  a pass share one or get none (`FinishedIff`, `TickFinishedIff`, `AllFinishedIff`,
  `ShortSourceNeverFinished`).
* A tick that starts from an idle layer, or that a command interrupts, is mixed but not heard: the
  first 160 samples of a file that an idle layer plays are lost (`NothingLostIff`, `AllHeardIff`,
  `IdlePlayLosesStart`).
* An error is documented to drop the remaining commands. A `say` without a TTS channel publishes
  one and drops nothing (`PassDropsIff`, `ErrorDropsIff`, `SayWithoutChannel`).
* What follows a sleep within a frame is mixed in front of the sleep's silence, not behind it
  (`OnTimeIff`, `SleepThenPlay`).
* An empty request stops playback only if nothing is waiting to be dispatched (`StopStopsIff`).
* A sleep is a second too short when its fraction rounds up, and its samples are cut down to an
  int (`SleepAsAskedIff`). So its length is negative between half a second and one, and for
  300000 seconds (`SleepNonNegativeIff`, `SleepCommandIff`, `LongSleepUnsafe`); then the player
  mixes past its frame (`SleepFitsIff`, `LaysMerge`, `CompletesIff`).
* The initial buffer of a synthesis is asked for again at every refill, so a playing one leaves
  frames silent although data is queued (`RefillIff`, `PassHeldBack`).
* A job whose thread gets no channel never ends, and the player waits for ever inside the tick
  that takes it (`WaitEndsIff`, `JobThreadSettlesIff`, `StuckIff`, `SayHangsIff`).
* An empty reply ends the stream early and may be reported as a failure (`NoEarlyEndIff`,
  `JobCompletionIff`).
* A Collect between a push's swap and its link loses what was displaced (`CollectInGapIff`,
  `PushAcrossCollect`), and once the received records are taken the tail slot belongs to none that
  is in the list, so what is appended next is lost as well (`DropReceived`, `AppendDetached`).
* A gap of more than three days between frames overflows an int and is not filled (`OnTimeout`, `SendFirst`).
* A model name comes back from its escaped form only if its own backslashes are literal and the
  last character is not one (`EscapeRoundTripIff`, `ModelRoundTripIff`).
* A request for layer 1, 2 or 3 indexes an array of one element; nothing checks the index
  (`LayerInBoundsIff`).

## Model

| member | source | states |
|---|---|---|
| Audio.NearestToSum | app-vox/include/asterisk/utils.h:339-350 | mixing gives the one 16-bit sample nearest the sum, and leaves a sample mixed into silence as it is |
| Audio.LittleEndian | app-vox/app_voxtts/stream_layers.c:481 | of the two bytes of a sample the low one comes first |
| Audio.BytesRoundTrip | app-vox/app_voxtts/stream_layers.c:481 | reading an even number of bytes as 16-bit samples loses nothing |
| Audio.SamplesRoundTrip | app-vox/app_voxtts/stream_layers.c:466 | halving the byte count leaves out just an odd last byte |
| Fifo.RunConserves | app-vox/app_voxtts/bytequeue.cpp:72-200 | in every interleaving of sender and receiver, bytes taken, then received, then in flight are exactly the bytes pushed, and both histories only grow |
| Fifo.TakesFromFront | app-vox/app_voxtts/bytequeue.cpp:124-136 | a block is taken whole or not at all, a tail as far as it goes, either from the front |
| Fifo.SenderCommutes | app-vox/app_voxtts/bytequeue.cpp:72-84 | a sender's operation commutes with every receiver's operation but Collect |
| Fifo.InterleavingsAlike | app-vox/app_voxtts/bytequeue.cpp:102-119 | every interleaving comes to the same as the one in which the sender only moves just before a Collect |
| Fifo.CollectInGapIff | app-vox/app_voxtts/bytequeue.cpp:137-139 | a Collect between the swap and the write of the displaced head conserves the bytes if and only if no data was displaced |
| Fifo.RunOrderly | app-vox/app_voxtts/bytequeue.cpp:191-199 | with pushes that carry data the only empty record is the terminator, it is last, and it has been seen exactly when everything has been collected |
| Fifo.EndOfStream | app-vox/app_voxtts/bytequeue.cpp:72-101 | once the terminator has been seen, taken plus received bytes are all bytes ever pushed, for ever, and the completion flag is the first Terminate argument |
| Fifo.PushedIsOffered | app-vox/app_voxtts/bytequeue.cpp:72-84 | in every interleaving the bytes pushed are the data of the sender's pushes before its first Terminate |
| Fifo.AllOffered | app-vox/app_voxtts/bytequeue.cpp:191-199 | once the terminator has been seen, taken plus received bytes are all the sender's whole script offers |
| Fifo.NoEarlyEndIff | app-vox/app_voxtts/bytequeue.cpp:193-196 | no interleaving shows a terminator that was not sent if and only if no push before Terminate is empty |
| Fifo.JobCompletionIff | app-vox/app_voxtts/job.cpp:100-101 | the receiver of a successful job never sees a failed completion if and only if the reply's audio is not empty |
| ByteQueues.ByteQueue.constructor | app-vox/app_voxtts/bytequeue.cpp:36-55 | a new queue is the empty FIFO |
| ByteQueues.ByteQueue.PushRecord | app-vox/app_voxtts/bytequeue.cpp:137-146 | the swapped-in record becomes the newest in flight |
| ByteQueues.ByteQueue.Push | app-vox/app_voxtts/bytequeue.cpp:72-77 | refines the FIFO's push; nothing happens after Terminate |
| ByteQueues.ByteQueue.Terminate | app-vox/app_voxtts/bytequeue.cpp:78-84 | refines the FIFO's terminate; only the first call has an effect |
| ByteQueues.ByteQueue.TerminationCalled | app-vox/app_voxtts/bytequeue.cpp:94-97 | reads the FIFO's flag |
| ByteQueues.ByteQueue.CompletionSuccess | app-vox/app_voxtts/bytequeue.cpp:98-101 | reads the FIFO's flag |
| ByteQueues.ByteQueue.BufferSize | app-vox/app_voxtts/bytequeue.cpp:120-123 | the byte count equals the length of the FIFO's received part |
| ByteQueues.ByteQueue.Collect | app-vox/app_voxtts/bytequeue.cpp:102-119 | refines the FIFO's collect: all in-flight records are received in push order, terminators are noted |
| ByteQueues.ByteQueue.PushAcrossCollect | app-vox/app_voxtts/bytequeue.cpp:137-139 | with a Collect between a push's swap and its write, the displaced records end up linked behind the received list, newest first, and are not counted |
| ByteQueues.ByteQueue.DropReceived | app-vox/app_voxtts/bytequeue.cpp:147-171 | taking the received records then leads into the displaced ones and leaves the tail slot with a record that is no longer in the list |
| ByteQueues.ByteQueue.AppendDetached | app-vox/app_voxtts/bytequeue.cpp:187-189 | what is appended through such a tail slot never joins the list |
| ByteQueues.ByteQueue.ReverseList | app-vox/app_voxtts/bytequeue.cpp:174-185 | the in-place reversal links exactly the same records the other way round |
| ByteQueues.ByteQueue.Append | app-vox/app_voxtts/bytequeue.cpp:187-189 | appending through the tail slot gives the concatenation, and the tail is again the last record |
| ByteQueues.ByteQueue.CountBytes | app-vox/app_voxtts/bytequeue.cpp:191-199 | counts the new bytes; the last empty record decides the completion flag |
| ByteQueues.ByteQueue.StoreReverseList | app-vox/app_voxtts/bytequeue.cpp:172-200 | the received bytes grow by the LIFO's data, oldest first |
| ByteQueues.ByteQueue.ExtractBytes | app-vox/app_voxtts/bytequeue.cpp:147-171 | copies exactly the front of the FIFO across record boundaries without meeting a missing record |
| ByteQueues.ByteQueue.TakeBlock | app-vox/app_voxtts/bytequeue.cpp:124-130 | gives the next bytes if there are enough, else changes nothing |
| ByteQueues.ByteQueue.TakeTail | app-vox/app_voxtts/bytequeue.cpp:131-136 | gives as many of the next bytes as there are, up to the number asked for |
| Sources.MixSamples | app-vox/app_voxtts/stream_layers.c:820-829 | mixes as many samples as both the source and the slots have, each once, at consecutive positions |
| Sources.DecodedBy | app-vox/app_voxtts/stream_layers.c:795-838 | A-law bytes go through the A-law table, mu-law bytes through the other, linear samples stay, other formats are silent |
| Sources.DecodedInOrder | app-vox/app_voxtts/stream_layers.c:423-431 | the frames of a file are decoded one after the other, in order |
| Sources.FileSource.BufferFrame | app-vox/app_voxtts/stream_layers.c:423-431 | the next frame is buffered; there is none only when all has been mixed |
| Sources.FileSource.Merge | app-vox/app_voxtts/stream_layers.c:787-844 | mixes the front of the decoded samples left and leaves the others; the source ends only when none are left, and otherwise slots or frames are used up |
| Synthesis.BatchingIrrelevant | app-vox/app_voxtts/bytequeue.cpp:102-119 | however the sender's operations are spread over the polls, the queue ends up the same |
| Synthesis.WaitEndsIff | app-vox/app_voxtts/stream_layers.c:885-892 | some poll ends the wait for first data if and only if all that the sender ever does makes the queue ready |
| Synthesis.RefillIff | app-vox/app_voxtts/stream_layers.c:463-493 | a refill buffers all whole samples if and only if there is one and the stream has ended or the estimate is reached, whether playing has begun or not |
| Synthesis.HeldBack | app-vox/app_voxtts/stream_layers.c:885-888 | below the estimate and without an end a merge adds and takes nothing; a playing source leaves its slots silent, another keeps them |
| Synthesis.FrontFirst | app-vox/app_voxtts/stream_layers.c:856-875 | a buffered frame is mixed from its front as far as the slots go |
| Synthesis.MergeSound | app-vox/app_voxtts/stream_layers.c:856-916 | what a merge adds to the samples mixed is the next of what was sent, across buffered frames |
| Synthesis.EndToEnd | app-vox/app_voxtts/stream_layers.c:463-493 | bytes pushed are the samples mixed, the rest of the buffered frame, the received bytes and the bytes in flight, in that order |
| Synthesis.MixedIsOffered | app-vox/app_voxtts/stream_layers.c:463-493 | the samples mixed are always the beginning of what the sender's whole script offers |
| Synthesis.StoppedHasPlayedAll | app-vox/app_voxtts/stream_layers.c:876-892 | a source that stopped has mixed every whole sample the sender's whole script offers, and failed exactly if the script's Terminate says so, if pushes carry data |
| Synthesis.MergeLively | app-vox/app_voxtts/stream_layers.c:885-892 | a merge that waits without using up slots uses up one of the sender's batches, and a sender bound to settle stays so |
| Synthesis.SynthesisSource.Poll | app-vox/app_voxtts/stream_layers.c:465 | a poll is exactly the sender's next batch and a Collect on the queue |
| Synthesis.SynthesisSource.TakeSamples | app-vox/app_voxtts/stream_layers.c:476-487 | the buffered frame is the front of the queue's received bytes, which the queue loses |
| Synthesis.SynthesisSource.BufferFrame | app-vox/app_voxtts/stream_layers.c:463-493 | polls once and takes all whole samples if enough are there or the stream has ended; fails exactly on a failed end with no whole sample left |
| Synthesis.SynthesisSource.MergeFill | app-vox/app_voxtts/stream_layers.c:856-875 | skips dropped-out samples, then mixes until the frame or the slots end |
| Synthesis.SynthesisSource.Merge | app-vox/app_voxtts/stream_layers.c:876-916 | lays exactly the samples, and leaves exactly the source, queue history and slots, of the merge on values |
| JobLists.JobList.Add | app-vox/app_voxtts/stream_layers.c:1078-1088 | the command goes to the end of the waiting list |
| JobLists.JobList.Take | app-vox/app_voxtts/stream_layers.c:501-512 | takes the first waiting command, or none |
| JobLists.JobList.Clear | app-vox/app_voxtts/stream_layers.c:781-786 | nothing waits any more |
| Commands.Comma | app-vox/app_voxtts/stream_layers.c:706 | the first comma of a command |
| Commands.PlayParsed | app-vox/app_voxtts/stream_layers.c:610-618 | a printed `play` asks for exactly its file |
| Commands.EventParsed | app-vox/app_voxtts/stream_layers.c:627-634 | a printed `event` asks for exactly its body |
| Commands.SleepParsed | app-vox/app_voxtts/stream_layers.c:619-626 | a printed `sleep` asks for exactly its time, if its text is a number |
| Commands.SayParsed | app-vox/app_voxtts/stream_layers.c:737-756 | a printed `say` asks for exactly its options and input |
| Commands.BadIff | app-vox/app_voxtts/stream_layers.c:702-777 | a text is refused if and only if it has no comma, an unknown name or a malformed argument; the failure says which |
| Commands.SleepCommandIff | app-vox/app_voxtts/stream_layers.c:727-736 | a sleep command starts a sleep of non-negative length if and only if its samples modulo 2^32 are below 2^31; while they fit an int, if and only if its number is not negative and not between half a second and a sample short of one |
| Commands.JobThreadSettlesIff | app-vox/app_voxtts/job.cpp:45-109 | however its operations fall between the polls, a synthesis job lets the player stop waiting if and only if its thread got a channel |
| Playback.PlayStarts | app-vox/app_voxtts/stream_layers.c:709-726 | a printed `play` starts exactly its file and publishes its start, or fails if there is none |
| Playback.EventStarts | app-vox/app_voxtts/stream_layers.c:757-766 | a printed `event` publishes its body and starts nothing |
| Playback.SleepStarts | app-vox/app_voxtts/stream_layers.c:727-736 | a printed `sleep` starts a sleep of its samples and publishes its start, or fails |
| Playback.SayStarts | app-vox/app_voxtts/stream_layers.c:737-756 | a printed `say` starts the job of its options and input, or publishes that there is no channel |
| Playback.SlotsAccounted | app-vox/app_voxtts/stream_layers.c:917-976 | the 160 slots of a pass are samples laid, sleep, underrun and slots left over |
| Playback.PassHeldBack | app-vox/app_voxtts/stream_layers.c:885-888 | a playing synthesis that finds less than its estimate queued, and no end, leaves the whole frame silent and the bytes queued |
| Playback.UnderrunStarved | app-vox/app_voxtts/stream_layers.c:876-916 | slots stay silent only when a synthesis has nothing buffered and not enough queued for a frame, or has ended |
| Playback.PassFitting | app-vox/app_voxtts/stream_layers.c:917-976 | if what plays and waits fits, it still does after the pass, no more is laid than the frame holds, and the player does not wait for ever |
| Playback.SafeIff | app-vox/app_voxtts/stream_layers.c:705-779 | all commands are safe but sleeps of negative length and synthesis jobs that do not settle |
| Playback.LongSleepUnsafe | app-vox/app_voxtts/stream_layers.c:399-403 | `sleep,,300000` starts a sleep of negative length |
| Playback.SleepFitsIff | app-vox/app_voxtts/stream_layers.c:845-855 | with a sleep and a long file waiting, a pass stays within its frame if and only if the sleep's length is not negative |
| Playback.PassConsumes | app-vox/app_voxtts/stream_layers.c:501-512 | a pass takes commands from the front of the list; the others wait on, or are dropped after a failure |
| Playback.PassLaid | app-vox/app_voxtts/stream_layers.c:917-976 | the samples of the commands' turns grow by exactly what is laid into the frame, and the slots they slept by the pass's sleep |
| Playback.PassSound | app-vox/app_voxtts/stream_layers.c:917-976 | every turn's samples stay the beginning of what its command's source offers, all of it once the source ends on its own; with what is left they make up the whole; a sleep that ends slept exactly its count of slots |
| Playback.PassFollows | app-vox/app_voxtts/stream_layers.c:696-699 | a source is cut off exactly if an override was pending, before anything more was mixed from it; ended turns never change |
| Playback.PassLogged | app-vox/app_voxtts/stream_layers.c:1005-1031 | the log continues; a Finished event is added exactly when a source from before the pass is gone, with a source start since the one before |
| Playback.StartBetween | app-vox/app_voxtts/stream_layers.c:1024-1027 | any two Finished events have a source start between them |
| Playback.AfterFailure | app-vox/app_voxtts/stream_layers.c:923-931 | after a failed command or synthesis no source plays, no command waits, and the error is the last event |
| Playback.ErrorDropsIff | app-vox/app_voxtts/stream_layers.c:404-411 | an error published for a command taken drops the others if and only if the command is not a `say` without a channel |
| Playback.SayWithoutChannel | app-vox/app_voxtts/stream_layers.c:404-411 | after such a `say` its error is logged and the next command plays |
| Playback.SaidWithoutChannel | app-vox/app_voxtts/stream_layers.c:404-411 | the same of a printed `say` and `play` |
| Playback.PassDropsIff | app-vox/app_voxtts/stream_layers.c:923-931 | a pass drops commands if and only if it publishes an error other than that of a `say` without a channel; otherwise it takes them in order and keeps the others |
| Playback.SecondPassIsLast | app-vox/app_voxtts/stream_layers.c:1003-1032 | commands are left over only when a playing synthesis ended without mixing anything in the pass; the next pass is the last |
| Playback.FileInParts | app-vox/app_voxtts/stream_layers.c:787-844 | mixing a file frame by frame comes to the same as mixing it at once |
| Endings.FinishedIff | app-vox/app_voxtts/stream_layers.c:1005-1031 | a pass publishes as many Finished events as sources end in it if and only if an idle layer starts none that ends at once, and a busy one starts none behind a source that ends with slots to spare |
| Endings.ShortSourceNeverFinished | app-vox/app_voxtts/stream_layers.c:1005-1031 | a source too short for a frame, started on an idle layer, never gets a Finished event |
| Endings.QuietTickIff | app-vox/app_voxtts/stream_layers.c:982-1032 | a tick lays nothing if and only if nothing that plays or waits has a sample within its slots |
| Endings.AgainIff | app-vox/app_voxtts/stream_layers.c:1028-1030 | there is a second pass if and only if the present source, not overridden, ends with the slots used up while commands wait |
| Announcements.PassAnnounces | app-vox/app_voxtts/stream_layers.c:941-961 | a pass announces one duration for each source it starts, and one for a command that fails with one |
| Announcements.PlaysWithFirstSamples | app-vox/app_voxtts/stream_layers.c:472-473 | a synthesis announces that it plays in the step that lays its first samples |
| Endings.StuckIff | app-vox/app_voxtts/stream_layers.c:885-892 | the player waits for ever in the next pass if and only if it reaches, with slots left, a synthesis that all its sender will ever do does not let begin |
| Endings.SayHangsIff | app-vox/app_voxtts/stream_layers.c:885-892 | an idle layer that takes a `say` waits for ever in that pass if and only if its job does not settle |
| Endings.LaysMerge | app-vox/app_voxtts/stream_layers.c:787-916 | how many samples a pass lays, told before it, sleeps of negative length included |
| Endings.CompletesIff | app-vox/app_voxtts/stream_layers.c:917-976 | the next pass comes to an end within its frame if and only if no hopeless synthesis is reached in it and its sources have no more than 160 samples for the slots they get |
| Endings.OnTimeIff | app-vox/app_voxtts/stream_layers.c:845-855 | every sample of a pass lies at the slot it was due at if and only if no source made late by the sleeps that end before it in the pass has a sample to mix |
| Endings.SleepThenPlay | app-vox/app_voxtts/stream_layers.c:845-855 | a file behind a sleep shorter than a frame is laid in front of the sleep's silence |
| Ticks.TickHealthy | app-vox/app_voxtts/stream_layers.c:982-1032 | every tick keeps all invariants and continues commands, samples, turns and log by exactly what it lays |
| Ticks.TickFinishedIff | app-vox/app_voxtts/stream_layers.c:1003-1032 | the same for a whole tick of one or two passes; there are never more Finished events than ends |
| Layers.StreamLayer.AddJob | app-vox/app_voxtts/stream_layers.c:1078-1088 | only the job list changes: the command is last |
| Layers.StreamLayer.Override | app-vox/app_voxtts/stream_layers.c:1089-1093 | no command waits and the override flag is set |
| Layers.StreamLayer.StopSource | app-vox/app_voxtts/stream_layers.c:364-383 | the source is gone and its turn ended |
| Layers.StreamLayer.StartJob | app-vox/app_voxtts/stream_layers.c:705-779 | the right source starts, or the right failure is reported, with the right events |
| Layers.StreamLayer.CheckJobs | app-vox/app_voxtts/stream_layers.c:693-780 | a pending override cuts the source off; without a source the next command is taken and carried out |
| Layers.StreamLayer.MergeFile | app-vox/app_voxtts/stream_layers.c:934-937 | one merge of a file is a part of the step on values, uses slots or reads, and lays exactly its samples |
| Layers.StreamLayer.MergeSleep | app-vox/app_voxtts/stream_layers.c:845-855 | a sleep uses up its slots or stops and leaves the others |
| Layers.StreamLayer.MergeSynthesis | app-vox/app_voxtts/stream_layers.c:941-971 | lays exactly the samples, and makes exactly the turn and events, of the merge on values |
| Layers.StreamLayer.MergeFrame | app-vox/app_voxtts/stream_layers.c:917-976 | terminates and is the merge on values, whenever that completes: the same source, turns, events and waiting commands, the same samples in the frame, the same slots left over |
| Layers.StreamLayer.Pass | app-vox/app_voxtts/stream_layers.c:1005-1031 | is the pass on values, Finished event included |
| Layers.StreamLayer.MixTick | app-vox/app_voxtts/stream_layers.c:982-1032 | is the tick on values, in at most two passes; the frame is its samples and then silence; an idle layer has no command left |
| Pacing.StreamState.UpdateNextFrameTime | app-vox/app_voxtts/stream_layers.c:316-333 | the new deadline is one frame after the old, or the next grid point when that has passed |
| Pacing.TimeoutUntil | app-vox/app_voxtts/stream_layers.c:334-352 | the timeout is normalised, positive and reaches the deadline exactly |
| Pacing.NextIsLeast | app-vox/app_voxtts/stream_layers.c:316-333 | the new deadline is the first grid point not before now nor less than a frame after the old one |
| Pacing.DeadlinesOnGrid | app-vox/app_voxtts/stream_layers.c:306-333 | every deadline is on the 20 ms grid, at least 20 ms after the last, and between now and 20 ms from now when set |
| Pacing.TickBound | app-vox/app_voxtts/stream_layers.c:1034-1051 | at most (t - t0) / 20 ms + 2 ticks complete by time t |
| Player.WaitForDeadline | app-vox/app_voxtts/stream_layers.c:334-359 | times out at once exactly when the deadline has passed |
| Player.StreamMergedFrame | app-vox/app_voxtts/stream_layers.c:977-1054 | is the tick of the loop on values: written exactly when the wait timed out and the layer was busy before; the deadline moves only then |
| Player.StreamLayers | app-vox/app_voxtts/stream_layers.c:1108-1118 | all ticks run until one does not write or the channel hangs up, and leave layer, deadline and channel as on values |
| PlayerRuns.RunAdvances | app-vox/app_voxtts/stream_layers.c:1108-1118 | in every run what is mixed is what the turns grew by, what is written are the frames of the ticks that were busy and timed out, and only a pending override cuts a source off |
| PlayerRuns.NothingLostIff | app-vox/app_voxtts/stream_layers.c:1034-1046 | all that a run mixes is heard if and only if every tick that ran found the layer busy and timed out, or found nothing with a sample to mix |
| PlayerRuns.IdlePlayLosesStart | app-vox/app_voxtts/stream_layers.c:1044-1046 | every run that begins with an idle layer and a file to play loses the first 160 samples, or all of fewer |
| PlayerRuns.PlayedFileLosesStart | app-vox/app_voxtts/stream_layers.c:1044-1046 | the same of a printed `play` of an existing file |
| PlayerRuns.RunFinishedIff | app-vox/app_voxtts/stream_layers.c:1024-1027 | over a run there are as many Finished events as ended sources if and only if every tick's layer meets the condition |
| PlayerRuns.RunPaced | app-vox/app_voxtts/stream_layers.c:1034-1051 | with a clock that does not run backwards and polls that time out in time, every run's deadlines are on the grid, apart, near, and bounded in number |
| PlayerRuns.TickIs | app-vox/app_voxtts/stream_layers.c:1034-1051 | one tick: what is returned, logged, written and set, in terms of clock, deadline and poll |
| PlayerRuns.RunIs | app-vox/app_voxtts/stream_layers.c:1108-1118 | the ticks that run are the first ones up to a wait that does not time out or a hangup; the loop returns 1 if and only if the event fd was read, -1 if and only if the wait failed |
| Progress.FileEnds | app-vox/app_voxtts/stream_layers.c:934-937 | a file with n samples left has played out after n / 160 + 1 more ticks, whatever waits behind it |
| Progress.AllPlayed | app-vox/app_voxtts/stream_layers.c:1108-1118 | ticks that run take whole frames off the slots that files and sleeps need, until nothing plays or waits |
| Handoff.AskedMeans | app-vox/app_voxtts/app_voxtts.c:385-409 | appending adds one command to the queue to be played, replacing leaves one, dispatching changes nothing |
| Handoff.RequestTexts | app-vox/app_voxtts/app_voxtts.c:385-409 | an empty text stops, one that begins with an ampersand appends what follows, any other replaces; the prefix of layer 0 makes no difference |
| Handoff.StopStopsIff | app-vox/app_voxtts/app_voxtts.c:386-389 | after an empty text is dispatched no earlier command starts in any run if and only if no entry was pending |
| Handoff.AskCommutesWithTick | app-vox/app_voxtts/app_voxtts.c:371-415 | a request commutes with the player's ticks |
| Handoff.OrderInRoundIrrelevant | app-vox/app_voxtts/app_voxtts.c:371-415 | it makes no difference which requests and ticks between two dispatches come first |
| Handoff.StartedInOrder | app-vox/app_voxtts/app_voxtts.c:208-222 | in every run the commands started are a subsequence of those issued, in order, each at most once |
| Handoff.ReplaceIsFinal | app-vox/app_voxtts/app_voxtts.c:393-401 | after the dispatch that follows a text that replaces no earlier command ever starts |
| Handoff.LayerInBoundsIff | app-vox/app_voxtts/app_voxtts.c:370-384 | the layer index stays within the array if and only if the text does not name layer 1, 2 or 3 |
| PlaybackControl.LayerControl.PlaybackExec | app-vox/app_voxtts/app_voxtts.c:363-418 | does to flag and entries what the text says, for an index within the array of layers |
| PlaybackControl.LayerControl.DispatchJobs | app-vox/app_voxtts/app_voxtts.c:208-222 | the job list becomes the queue to be played; entries and flag are cleared; an override is passed on |
| PlaybackControl.RunRounds | app-vox/app_voxtts/app_voxtts.c:248-272 | the loop leaves control block, layer, deadline and channel as the session on values does |
| PlaybackControl.SafeSessionCompletes | app-vox/app_voxtts/app_voxtts.c:248-272 | in a session in which only safe commands are asked for, every tick comes to an end within its frame |
| Sessions.PlayedInTurn | app-vox/app_voxtts/app_voxtts.c:225-290 | in every session what was mixed is, turn by turn in the order commands were taken, what each command's source offers: its beginning, and all of it unless the source is present or was cut off; a sleep that ended slept its count |
| Sessions.RoundIs | app-vox/app_voxtts/app_voxtts.c:248-272 | a round that ends with the event fd read, without a hangup, dispatches all that is pending; otherwise it stays pending; the thread ends if and only if the wait failed or the channel hung up |
| Sessions.EndedIsFinal | app-vox/app_voxtts/app_voxtts.c:248-272 | once the thread has ended, a session stays as it is, whatever rounds were to follow |
| Sessions.AskedIsTaken | app-vox/app_voxtts/app_voxtts.c:256-272 | a command asked for at once, in a round that ends with the event fd read, is the one that the next tick that runs takes |
| Sessions.AppendsCutNothing | app-vox/app_voxtts/app_voxtts.c:390-409 | as long as all texts begin with an ampersand, no source is ever cut off |
| Sessions.AllHeardIff | app-vox/app_voxtts/stream_layers.c:1034-1046 | all that a session mixed is heard if and only if every tick found the layer busy and timed out, or nothing to mix |
| Sessions.AllFinishedIff | app-vox/app_voxtts/stream_layers.c:1024-1027 | a session published as many Finished events as sources ended in it if and only if every tick's layer met the condition |
| Sessions.SessionPaced | app-vox/app_voxtts/stream_layers.c:1034-1051 | the deadlines of a whole session are on the grid, apart, near, and bounded in number |
| Sessions.SessionExplained | app-vox/app_voxtts/app_voxtts.c:225-290 | what the layer took and what is queued is explained by the run of the hand-over that the rounds make up |
| Sessions.PlayedInOrder | app-vox/app_voxtts/app_voxtts.c:208-222 | in every session the commands played are among those asked for, in that order, each at most once |
| Sessions.ThreadRoutine | app-vox/app_voxtts/app_voxtts.c:225-290 | from the initial layer on, layer and channel end up as in the session on values, with its turns, frames, log and deadlines |
| Time.AddSamples | app-vox/app_voxtts/stream_layers.c:293-301 | both spellings add exactly the samples' nanoseconds and stay normalised, for any rate that divides the second |
| Time.AlignFrameTime | app-vox/app_voxtts/stream_layers.c:306-315 | gives a normalised time at the aligned nanosecond, for any frame length that divides the second |
| Time.AlignedUpLeast | app-vox/app_voxtts/stream_layers.c:306-315 | the aligned time is the least multiple not below its input |
| Time.BeforeIsLess | app-vox/app_voxtts/stream_layers.c:302-305 | the comparison orders normalised times by their nanoseconds |
| Time.ToInt | app-vox/app_voxasr/grpc_stt.cpp:54-65 | cutting down to an int keeps the number modulo 2^32, and keeps it exactly if and only if it fits |
| Time.RoundsToNearest | app-vox/app_voxtts/stream_layers.c:194-205 | lrint and the IEEE remainder go to the nearest whole number, the even one of two |
| Time.DeltaSamples | app-vox/app_voxasr/grpc_stt.cpp:54-65 | whole samples between two moments, rounded down, in either order, for any rate that divides the second, cut down to an int |
| Time.SleepAsAskedIff | app-vox/app_voxtts/stream_layers.c:194-205 | a sleep lasts as asked if and only if its fraction of a second does not round up and its samples fit an int |
| Time.SleepNonNegativeIff | app-vox/app_voxtts/stream_layers.c:399-403 | a sleep's length is not negative if and only if its samples modulo 2^32 are below 2^31; while they fit an int, if and only if the number is not negative and not between half a second and a sample short of one |
| Text.FindNonEscaped | app-vox/app_voxtts/stream_layers.c:515-538 | finds the first separator without a backslash before it |
| Text.PairsUnescaped | app-vox/app_voxtts/stream_layers.c:547-571 | what each pair of a backslash and a character becomes |
| Text.UnescapeInPlace | app-vox/app_voxtts/stream_layers.c:539-576 | computes the left-to-right unescape in the same buffer and touches nothing else |
| Text.EscapeRoundTripIff | app-vox/app_voxtts/stream_layers.c:561-568 | unescaping an escaped text gives it back if and only if its own backslashes are literal |
| Text.NoBackslashLiteral | app-vox/app_voxtts/stream_layers.c:561-568 | a text without backslashes always comes back |
| SayArgs.SayRoundTrip | app-vox/app_voxtts/stream_layers.c:635-692 | printed options, a comma and any input are read back as exactly those options, in order, and that input |
| SayArgs.ModelRoundTripIff | app-vox/app_voxtts/stream_layers.c:666-668 | a model name is read back if and only if it is not empty, ends in no backslash and has literal backslashes |
| SayArgs.CheckNamed | app-vox/app_voxtts/stream_layers.c:513-514 | a parameter answers to its own name only, and only with a value |
| SayArgs.ReadIff | app-vox/app_voxtts/stream_layers.c:650-681 | an option is read if and only if it has one of the four names and a well-formed value, as the setting its name says |
| SayArgs.PiecesRead | app-vox/app_voxtts/stream_layers.c:645-686 | options are read if and only if each is readable, each as its own setting |
| SayArgs.SayIff | app-vox/app_voxtts/stream_layers.c:635-692 | the arguments of a `say` are accepted if and only if a comma ends options that are all readable |
| SayArgs.ParseSayArgs | app-vox/app_voxtts/stream_layers.c:635-692 | the in-place parser reads what the pure parser reads |
| AsrWriter.AlignedNearest | app-vox/app_voxasr/grpc_stt.cpp:75-78 | the nearest multiple of 80, with nothing below 40 samples |
| AsrWriter.Writer.LagIsElapsedLessSent | app-vox/app_voxasr/grpc_stt.cpp:403-487 | the lag is the samples elapsed since the start less the samples sent |
| AsrWriter.Writer.VoiceInArrivalOrder | app-vox/app_voxasr/grpc_stt.cpp:448-487 | voice is sent in arrival order, each supported frame at most once |
| AsrWriter.Writer.ReapAudioFrame | app-vox/app_voxasr/grpc_stt.cpp:334-350 | the frame goes to the end of the list |
| AsrWriter.Writer.Send | app-vox/app_voxasr/grpc_stt.cpp:479-483 | the clock moves on by exactly the samples sent |
| AsrWriter.Writer.OnTimeout | app-vox/app_voxasr/grpc_stt.cpp:425-439 | afterwards the lag is at most 839 samples if and only if it fitted an int; silence is a multiple of 80 and does not bring it below 760 |
| AsrWriter.Writer.SendFirst | app-vox/app_voxasr/grpc_stt.cpp:449-486 | after the first voice frame of a drain the lag is at most 39 samples if and only if it fitted an int, and at least -40 if silence was inserted; an unsupported frame leaves its own size besides |
| AsrWriter.Writer.VoiceSpoken | app-vox/app_voxasr/grpc_stt.cpp:164-197 | each A-law, mu-law or linear voice frame taken off the list has its own message, in order, with its decoded samples; other frames have none |
| AsrWriter.SilenceOncePerDrain | app-vox/app_voxasr/grpc_stt.cpp:448-472 | a drain sends silence at most once, before its first voice frame |
| AsrWriter.NothingAfterEnd | app-vox/app_voxasr/grpc_stt.cpp:403-487 | after a failed write nothing more is sent or taken, and a hangup or termination ends the writer |
| AsrWriter.Writer.DrainFrames | app-vox/app_voxasr/grpc_stt.cpp:448-487 | terminates with an empty list unless a write failed, keeping clock and order of all that arrived meanwhile |
| AsrWriter.Writer.Run | app-vox/app_voxasr/grpc_stt.cpp:400-490 | is the writer on values wake by wake; over all runs the clock lock, a message for each voice frame in arrival order, and silence in multiples of 80 hold; what arrived is what came with the wakes; it ends only on a hangup, termination or failed write |
| WakeUp.NoLostWakeUpIff | app-vox/app_voxtts/bytequeue.cpp:102-146 | with any number of senders, pipe or eventfd, draining one by one or at once, no wake-up is lost if and only if senders insert before they signal |
| WakeUp.SignalsKept | app-vox/app_voxtts/bytequeue.cpp:102-146 | a signal is dropped only if the pipe is full, and a read gives up one byte of a pipe or all of an eventfd |

## Left out

- ByteQueues.ByteQueue.PushRecord: takes the swap and the write of the displaced head as one step; Fifo.CollectInGapIff says exactly what a Collect between the two would lose.
- Fifo.CollectInGapIff: the memory of a record the receiver has taken is not modelled, so that a write through the tail slot of such a record goes into freed memory is beyond ByteQueues.ByteQueue.AppendDetached.
- PlaybackControl.LayerControl.PlaybackExec: texts for layers 1 to 3 make the program index its array of one layer out of bounds, which has no defined effect to model; LayerIndex names the index that is not checked.
- Layers.StreamLayer.MergeFrame: says nothing of a pass that hangs or mixes past its frame, which has no end or no defined effect; Endings.CompletesIff says exactly which.
- Synthesis.StoppedHasPlayedAll: assumes pushes that carry data; without them the exact condition is Fifo.NoEarlyEndIff, and Synthesis.MixedIsOffered holds all the same.
- Time.SleepAsAskedIff: takes the seconds as a whole number of any size; lrint and the product in the C long overflow from about 10^15 seconds on, and the player's slots from sleeps of less than -2^31 + 161 samples on.
- AsrWriter.Writer.OnTimeout: the subtraction of 800 from an int of less than -2^31 + 800, which C leaves undefined, is taken as exact.
- AsrWriter.Writer.SendFirst: the subtraction of the frame's size at the int's lower end, and the addition of 40 to a gap within 40 of 2^31, which C leaves undefined, are taken as exact.
- Event payloads, channel locks, void generators, logging and the text of error messages: events are abstract.
- gRPC stubs, channels, TLS and detached threads: only what a synthesis thread pushes is kept.
- Memory: allocation always succeeds, and freed records simply leave their lists.
- JSON input of `say`, number and buffer-size syntax: which texts are accepted is an input.
- Configuration loading, module registration, app_waitevent and func_gettimensec: no further properties of this kind.
