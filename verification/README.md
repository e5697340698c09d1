# Dictation daemon: a verified model

whispy is a push-to-talk dictation daemon. A socket command opens a capture, a second one
closes it; the clip is transcribed by a speech server, corrected, and pasted into the focused
window. This project models the parts of it where something can go wrong across functions
or threads, and proves what the program is for. `dafny verify dfyconfig.toml` checks
everything.

**The session** (`SessionModel`, `SessionInvariants`, `SessionProofs`, `SessionHistory`,
`SessionBoard`, `SessionPaste`, `SessionTheorems`, `SessionMoments`, `SessionOrder`, `SessionRest`, `SessionComplete`,
`SessionOutcomes`, `SessionVerdicts`, `SessionFates`, `SessionModes`, `SessionRuns`, `SessionExample`,
`SessionDaemon`, and `Totals` for a sum over threads). Commands, reader threads, auto-stop threads, clip
threads and sleeping reverts interleave, one access to shared state at a time. A run is any sequence of enabled steps from the initial state, and the theorems are about every state of every run. Socket commands
are serial, as the server accepts one connection at a time
(`crates/daemon/src/server.rs:64-69`). `start` holds the lifecycle lock but is split
into opening the capture, publishing `recording` and filling the slot, because
readers and reverts never take that lock. `SessionDaemon.Daemon` updates the daemon's fields in place, a method per
critical section, each proved against the session's step; under any schedule it keeps every invariant.

**The published status** (`Status`) and **the paste transaction** (`Injection`) are classes
that are updated in place, each method proved against a function of the old state; the session's
steps use the same functions.

**The wire format** (`Bytes`, `FieldNames`, `Multipart`, `Inference`): the daemon's printer and the
server's parser of one multipart request (section 5.1.1 of RFC 2046, section 4 of RFC 7578).

**The capture loop** (`Audio`, `AudioStops`) and **peak normalisation** (`Loudness`): bytes in
arbitrary chunks against a one-pass description of the same stream.

**Text** (`Soundex`, `EditDistance`, `Words`, `Choosing`, `Vocabulary`, `Greedy`,
`Phrases`): fuzzy vocabulary correction and whole-word replacement. `Choosing` and `Greedy` hold the argument about choices
with the scores and match positions as parameters.

**Supervision and logging** (`Supervisor`, `Transcripts`, `TranscriptCodec`): restart delays, reaping of children, and the
two-generation transcript log, for any way of writing records on lines that keeps all of a record but its numbers.

## What the proofs found

What fails, with an input that shows it and the exact condition under which it holds:

- `recording` can stay on the display for good. A capture that overruns and reports `too_long` before `start`
  publishes `recording` has its complaint painted over; `stop` then discards the overrun recording without
  publishing anything (`crates/daemon/src/app.rs:213-222`, `crates/daemon/src/app.rs:332-335`).
  `SessionExample.RecordingCanStick` is such a run. With nothing recording, the display at rest is wrong if and
  only if the last publication was such a one (`SessionMoments.WrongAtRestIff`).
- Overlapping clips do not always paste in order, as the header of `crates/daemon/src/app.rs` (line 17) says they do: in the run
  `SessionExample.NewerClipCanPasteFirst` the newer clip is transcribed first and pastes first. A newer clip is pasted
  before an older one if and only if it passed its delivery check while the older was still on its way (`SessionOrder.OutOfOrderIff`).
- A log does not always stay under twice its cap, as `crates/daemon/src/config.rs:564-565` says: two lines longer than the cap
  take more (`Transcripts.TwoLongLines`). It has always stayed under if and only if less than twice the cap
  was ever written to it, so a log that drops anything has been over (`Transcripts.Log.UnderTwiceTheCapIff`).
- The length test of the vocabulary corrector drops acceptable matches, for instance fourteen letters against ten.
  It is safe for two lengths if and only if they do not differ by more than two and more than a quarter of
  the longer yet by at most 45% of the key (`Vocabulary.LengthTestIsSafeIff`).
- Restart delays do not double up to every cap: with a cap beyond sixteen doublings of a base that is not zero, the
  eighteenth failure shows it, and otherwise nothing does (`Supervisor.DelayDoublesIff`).

What holds, and how far:

- The acceptance threshold turns no otherwise good match away if and only if it is above 0.135; the default 0.18 is
  (`Vocabulary.WhenThresholdIsIdle`).

## Model

| member | source | states |
|---|---|---|
| SessionTheorems.RunKeepsInv | crates/daemon/src/app.rs:190-433 | in every state of every interleaved run the whole invariant holds: threads, locks, one place per recording, histories, display, pending reverts and clipboard |
| SessionTheorems.LiveRecordingIsShown | crates/daemon/src/app.rs:310-325 | while the slot holds a recording that has not overrun, the display says `recording`, whatever older clips, auto-stops and reverts do |
| SessionTheorems.CancelStaysIdle | crates/daemon/src/app.rs:279-292 | once `cancel` has published, the display stays `idle` until the next `start` begins |
| SessionTheorems.CancelledClipsAreSilent | crates/daemon/src/app.rs:301-325 | after `cancel` moves the mark no older clip publishes again, none not handed on yet ever is, and one not yet past its delivery check is never injected or pasted |
| SessionTheorems.EverythingHappensOnce | crates/daemon/src/app.rs:255-299 | each capture is closed at most once and yields at most one clip, each clip comes from a closed capture and is transcribed, injected and pasted at most once; the slot is never below the cancellation mark |
| SessionTheorems.IdsAreFreshAndOwn | crates/daemon/src/app.rs:267-277 | a new recording's id was never used, and a late auto-stop never takes another recording |
| SessionTheorems.PastesAreSerial | crates/daemon/src/app.rs:414-432 | every paste keystroke finds its own clip's text on the clipboard, as `text/plain`, and with the injection lock free the clipboard is as after the same deliveries one by one |
| SessionTheorems.ClipboardIsGivenBack | crates/daemon/src/inject.rs:104-129 | if every delivery's tools worked, a text or empty clipboard is back to its original whenever the lock is free |
| SessionTheorems.SettledBoard | crates/daemon/src/app.rs:327-365 | with nothing left to run, `recording` shows if and only if a recording is live or `start` published last, over a complaint, and `idle` shows otherwise |
| SessionRest.NeverStuck | crates/daemon/src/app.rs:414-420 | short of rest some step is enabled that is neither a new command nor one more reading of a running capture, and one that is not the live recording's reader's either until every other thread has ended: the two locks and the reader joins never deadlock |
| SessionRest.RestsBeside | crates/daemon/src/app.rs:14-20 | beside a live recording whose reader takes no step, everything else can come to rest without a command, and the recording is live still |
| SessionRest.WorkRunsOut | crates/daemon/src/app.rs:230-365 | under any schedule without a new command, what was left to do bounds the steps that are not such readings |
| SessionRest.WorkIsLess | crates/daemon/src/app.rs:190-433 | each such step, whatever it spawns, leaves less to do |
| SessionRest.ComesToRest | crates/daemon/src/app.rs:190-433 | from every state of every run, steps without a new command lead to rest |
| SessionComplete.NothingIsLost | crates/daemon/src/app.rs:255-299 | once nothing runs but at most a live recording, every capture ever opened is closed or in the slot, every clip handed on was transcribed, and every clip that passed its delivery check has exactly one delivery, with its text, and a keystroke if and only if it was pasted |
| SessionComplete.KeptIsTranscribed | crates/daemon/src/app.rs:330-342 | a recording that was closed and kept is transcribed by then, unless it was cancelled |
| SessionComplete.TranscriptIsDelivered | crates/daemon/src/app.rs:395-432 | an accepted transcript is delivered by then, exactly once, unless it was cancelled |
| SessionComplete.RunKeepsComplete | crates/daemon/src/app.rs:230-432 | in every state of every run each capture, clip and delivery that is not done is in some thread's hands |
| SessionOutcomes.DisplayIsTrue | crates/daemon/src/app.rs:327-365 | whatever the display ever said about a clip is so: `success`, its text was typed or pasted; `error`, its transcript was rejected or its delivery failed; `transcribing`, its recording was kept; `idle`, it was dropped |
| SessionVerdicts.ReportIsExact | crates/daemon/src/app.rs:310-359 | what a report puts on the display says exactly which of the four became of the clip, in both directions |
| SessionVerdicts.VerdictsAreFinal | crates/daemon/src/app.rs:330-411 | a recording is kept or dropped and not both, a clip comes back once, with one transcript or none, none that was rejected is injected, and its text arrived or did not |
| SessionVerdicts.ClearedWithItsTranscript | crates/daemon/src/app.rs:398-421 | a clip passes its delivery check with the transcript that was accepted for that very clip |
| SessionFates.StoppedIsClosed | crates/daemon/src/app.rs:255-265 | a stopped recording is out of the slot for good and closed by the time the session rests |
| SessionFates.SilentIsClosed | crates/daemon/src/app.rs:247-277 | so is one that went silent, whenever its auto-stop runs |
| SessionFates.YieldsNoClip | crates/daemon/src/app.rs:201-206 | a recording cancelled in the slot, torn down or closed after an overrun, or found to hold too little is never transcribed or injected |
| SessionFates.OverrunIsReported | crates/daemon/src/app.rs:239-246 | by the time the session rests the display has shown `error` for each recording that overran |
| SessionFates.LiveRefusesStart | crates/daemon/src/app.rs:207-209 | a `start` that finds a live recording changes nothing |
| SessionModes.RunKeepsFitting | crates/daemon/src/inject.rs:96-109 | every delivery is of the configured kind, and a session that types never touches the clipboard |
| SessionMoments.WrongAtRestIff | crates/daemon/src/app.rs:213-222 | with nothing recording, the display at rest says `recording` if and only if the last publication was `start`'s over a complaint already made, and `idle` otherwise |
| SessionMoments.MaskedMeans | crates/daemon/src/app.rs:239-246 | the mark `SettledBoard` speaks of, in steps: `start` published for a capture past its complaint and nothing was published since |
| SessionMoments.StartOwnsTheSlot | crates/daemon/src/app.rs:200-225 | opening, announcing and filling happen with the lifecycle lock held and the slot empty |
| SessionMoments.ClosedForTheFirstTime | crates/daemon/src/app.rs:204-206 | whoever closes a capture, it was not closed before |
| SessionMoments.ReportsSpareTheLive | crates/daemon/src/app.rs:310-325 | a report that goes through is of an uncancelled clip, under the lock, and leaves a live recording on display |
| SessionMoments.ClearedOnce | crates/daemon/src/app.rs:414-421 | a clip passes its delivery check with the injection lock held, if and only if it is not below the mark, and only once |
| SessionOrder.PasteOrderIff | crates/daemon/src/app.rs:14-17 | clips paste in the order of their ids if and only if those that paste pass their delivery checks in that order |
| SessionOrder.OutOfOrderIff | crates/daemon/src/app.rs:414-421 | a newer clip is pasted before an older one if and only if it passed its delivery check while the older, pasted later, had not |
| SessionOrder.RunKeepsOrder | crates/daemon/src/app.rs:414-432 | of two pasted clips, the one pasted first was cleared first |
| SessionExample.NewerClipCanPasteFirst | crates/daemon/src/app.rs:414-421 | a run in which the newer of two clips in flight pastes first |
| SessionExample.RecordingCanStick | crates/daemon/src/app.rs:213-222 | a run that ends at rest with `recording` on the display and nothing recording |
| SessionDaemon.Daemon.RunSchedule | crates/daemon/src/app.rs:190-433 | under any scheduler's choices the fields, updated in place, pass through a run of the session, keep its whole invariant, and have shown nothing untrue about a clip |
| SessionProofs.StepKeepsSound | crates/daemon/src/app.rs:200-308 | each step keeps lock owners, thread roles and the one place of every recording |
| SessionProofs.SpawnAutoKeepsSound | crates/daemon/src/app.rs:247-251 | an auto-stop thread is spawned for a capture that never had one |
| SessionHistory.StepKeepsProgress | crates/daemon/src/app.rs:255-299 | each step keeps the histories exact about how far every recording has come, and free of repetitions |
| SessionHistory.HandOffKeepsProgress | crates/daemon/src/app.rs:259-263 | the worker that `stop` spawns for a clip did not exist before |
| SessionHistory.StepKeepsChain | crates/daemon/src/app.rs:330-342 | injected clips were transcribed, transcribed ones handed on, handed-on ones closed |
| SessionBoard.StepKeepsReverts | crates/daemon/src/state.rs:179-192 | a revert of the newest generation is pending exactly while a flash shows |
| SessionBoard.StepKeepsFaithful | crates/daemon/src/app.rs:316-325 | no step replaces `recording` while a recording is live |
| SessionBoard.StepKeepsDuties | crates/daemon/src/app.rs:327-365 | whenever `recording` or `transcribing` shows for nothing live, some thread is still bound to replace it, unless a complaint was painted over |
| SessionPaste.StepKeepsPastes | crates/daemon/src/inject.rs:106-129 | each step keeps the clipboard in line with the delivery that holds the lock, and every keystroke with its own text |
| Status.CallOnBoard | crates/daemon/src/state.rs:105-192 | what the session reasons about is exactly the part of a status call other threads can tell apart |
| Status.CallShows | crates/daemon/src/state.rs:46-138 | each call shows the state and loudness it was given and no error, or its kind and its message, or `idle`; a revert is left behind by `success` and `error` only |
| Status.WrittenIs | crates/daemon/src/state.rs:150-160 | memory shows what was written at once, and so does the file unless the disk fails or it is a repeated `recording` |
| Status.Shared.ShouldPublish | crates/daemon/src/state.rs:162-177 | only repeated `recording` within the interval is withheld, and the clock moves only with a publication |
| Status.Shared.SetState | crates/daemon/src/state.rs:105-126 | the whole new state of a status write, a pending revert included for a flash |
| Status.Shared.ReportError | crates/daemon/src/state.rs:128-138 | the whole new state of an error flash, its kind and message in memory and on disk |
| Status.Shared.RevertToIdle | crates/daemon/src/state.rs:179-192 | a waking revert writes `idle` only if nothing was written since its flash |
| Status.FileFollowsMemory | crates/daemon/src/state.rs:140-160 | if file writes work, file and memory agree on state and error after any calls, and wholly unless recording |
| Status.RecordingIsThrottled | crates/daemon/src/state.rs:162-177 | over any calls on a monotone clock, a repeated `recording` is published at least the interval after the publication before it |
| Injection.Desktop.Inject | crates/daemon/src/inject.rs:96-129 | for every behaviour of the tools: which delivery it makes, what the clipboard ends as, that the keystroke sees the text itself as `text/plain`, what was typed, and that it succeeds if and only if it was typed or pasted |
| Injection.CleanDeliveryKeepsClipboard | crates/daemon/src/inject.rs:131-199 | a delivery whose tools worked gives the clipboard back if and only if it was not used or not binary |
| Injection.CleanDeliveriesKeepClipboard | crates/daemon/src/inject.rs:131-199 | so do any number of them for a text or empty clipboard |
| Bytes.FindIsFirst | crates/stt/src/multipart.rs:103-105 | the search returns an occurrence with none before it, or there is none |
| Bytes.BorderFree | crates/stt/src/multipart.rs:77-80 | a needle whose first byte occurs once in it cannot begin in the data and end in the delimiter that follows |
| Bytes.AsciiIs | crates/common/src/inference.rs:92-119 | a literal is printed character by character |
| FieldNames.NameIsReadBack | crates/stt/src/multipart.rs:91-101 | the name printed into a part's headers is the name read back, whatever parameters and lines follow |
| FieldNames.NameParameterMeans | crates/stt/src/multipart.rs:97-100 | a parameter names the part if and only if its key, blanks aside, is `name` |
| FieldNames.ParameterIs | crates/stt/src/multipart.rs:97-100 | blanks around the key, the value and the parameter and the quotes around the value are dropped |
| FieldNames.HeaderLines | crates/stt/src/multipart.rs:93-95 | the first content disposition among the lines counts, whether they end in LF or CRLF |
| FieldNames.AnyCase | crates/stt/src/multipart.rs:95 | the header is recognised in any mix of cases, and nothing else is |
| Multipart.Parse | crates/stt/src/multipart.rs:59-89 | the loop ends on any bytes and returns what the block-by-block reading of the body gives |
| Multipart.ParseIffLaidOut | crates/stt/src/multipart.rs:59-89 | `parse` succeeds with given parts if and only if the body is a preamble, the first delimiter, blocks whose headers and data hold no earlier end, and `--`, and the parts are the named ones in order |
| Multipart.NamedAre | crates/stt/src/multipart.rs:81-86 | a part without a name is skipped, every other one kept with its data |
| Multipart.CutsShort | crates/stt/src/multipart.rs:77-87 | data that contains the delimiter line is cut at the first one, and parsing goes on after it |
| Inference.BuildMultipart | crates/common/src/inference.rs:89-123 | the printed bytes are, literally, the fields `response_format`, `language`, `temperature`, the optional `prompt` and the file, each behind its delimiter line and headers, and the closing line |
| Inference.PrintedBytes | crates/common/src/inference.rs:31-42 | the layout the round trip reasons about is those literal bytes |
| Inference.InferenceForm | crates/stt/src/multipart.rs:28-42 | the first part of each name wins, and a missing file is an error |
| Inference.FormMeans | crates/stt/src/multipart.rs:31-41 | the clip is the data of the first part named `file`, the language that of the first named `language`, and without a `file` there is an error |
| Inference.FileBodyIsRead | crates/stt/src/multipart.rs:185-193 | the literal body of one `file` part reads as its clip and no language, if and only if no delimiter line begins in the clip |
| Inference.RoundTrip | crates/stt/src/multipart.rs:25-105 | with a one-line boundary and a prompt free of the delimiter line, the server reads back the clip and language if and only if neither contains CRLF, `--` and the boundary |
| Inference.LanguageSurvivesIff | crates/stt/src/multipart.rs:25-105 | whatever the prompt contains, whenever the body parses the language comes back if and only if it does not contain that line |
| Audio.ReadLoop | crates/daemon/src/audio.rs:157-266 | for every sequence of reads, the capture is the one-pass description of the bytes delivered: pairs decoded past the lead-in, gain applied, cut at the first stop, with the readings of its whole windows |
| AudioStops.CaptureIsUnique | crates/daemon/src/audio.rs:193-253 | the byte stream alone decides samples, readings, stop and speech flag |
| AudioStops.CutAnywhere | crates/daemon/src/audio.rs:197-253 | a read may be split anywhere, in the middle of a sample too, without changing what is delivered |
| AudioStops.StopsAreExact | crates/daemon/src/audio.rs:210-264 | silence ends a capture if and only if, no later than the length limit, a loud window is followed by silence that lasts the timeout in milliseconds, and it ends it at the first such window; the limit ends it if and only if the stream reaches it first; no clip is longer than the limit |
| AudioStops.LoudMeans | crates/daemon/src/audio.rs:220-233 | a window is loud if and only if the root of the mean square of its samples, full scale being 32768, is above the threshold |
| Audio.CountsAre | crates/daemon/src/config.rs:129-141 | windows, the length limit, the shortest clip and the lead-in are the sample counts of their durations, rounded down |
| Audio.TimeoutIs | crates/daemon/src/config.rs:149-155 | the number of silent windows is the least that lasts the timeout, and there is none for a timeout of 0 |
| Audio.GainIs | crates/daemon/src/audio.rs:296-301 | a gain gives the nearest sample to the product, saturating |
| AudioStops.SpeechIsHeard | crates/daemon/src/audio.rs:234-256 | the speech flag is set if and only if a complete window of the clip is loud |
| AudioStops.SilenceMeans | crates/daemon/src/audio.rs:234-247 | the loop's trailing-silence test in terms of the stream's own windows |
| Audio.CounterTells | crates/daemon/src/audio.rs:234-246 | the silent-window counter reaches its limit if and only if that many last windows are silent after a loud one |
| Audio.Meter.EndWindow | crates/daemon/src/audio.rs:223-248 | a complete window adds its reading and reports silence if and only if the readings end in enough of it |
| Audio.Meter.Record | crates/daemon/src/audio.rs:216-248 | one sample keeps energy, readings and counters in step with the stream |
| Audio.Meter.Take | crates/daemon/src/audio.rs:215-253 | a sample ends the capture if and only if the stream first stops there, on silence before length |
| Audio.Meter.TakePairs | crates/daemon/src/audio.rs:206-255 | whole pairs are consumed and an odd byte is left over; if a sample ends the capture, what it holds is the one-pass capture of the whole stream |
| Audio.DecodeIs | crates/daemon/src/audio.rs:212 | two bytes are read as a little-endian two's complement sample |
| Audio.RoundIsNearest | crates/daemon/src/audio.rs:296-301 | rounding is to the nearest, halves away from zero, and odd |
| Audio.CeilDiv | crates/daemon/src/config.rs:147-155 | the number of silent windows is the least whose time covers the timeout |
| Loudness.NormalizePeak | crates/daemon/src/audio.rs:303-328 | the buffer is rewritten in place to the scaled clip, or left alone when silent or loud |
| Loudness.NormalizedMeans | crates/daemon/src/audio.rs:303-328 | a peak above 200 and below 32440 becomes 32440 and every sample the nearest integer to its share of it; any other clip is left alone |
| Loudness.PeakIsLargest | crates/daemon/src/audio.rs:306-310 | the peak is the size of some sample and no sample exceeds it |
| Loudness.NormalizesToTarget | crates/daemon/src/audio.rs:314-327 | a peak between floor and target becomes exactly the target; nothing is clamped, shrinks or changes sign, and order is kept |
| Loudness.NormalizingTwiceIsOnce | crates/daemon/src/audio.rs:303-328 | normalising a normalised clip changes nothing |
| Loudness.Finish | crates/daemon/src/audio.rs:118-135 | a clip is kept, normalised, if and only if it is long enough and holds speech; one with its peak between 200 and 32440 then peaks at 32440, any other is as recorded |
| Soundex.Soundex | crates/daemon/src/vocab.rs:166-201 | the one-pass loop with early exit computes the textbook code, and none for anything but ASCII letters |
| Soundex.EmittedIsTextbook | crates/daemon/src/vocab.rs:184-199 | scanning with the last digit in hand is dropping h and w, mapping, collapsing runs, dropping the head and the zeros |
| Soundex.HWIsSilent | crates/daemon/src/vocab.rs:195-198 | an h or w put anywhere after the first letter never changes the code |
| Soundex.DoubledLetterCountsOnce | crates/daemon/src/vocab.rs:191-194 | a letter of the same class right after another never changes the code |
| Soundex.DigitsAre | crates/daemon/src/vocab.rs:172-180 | the six classes of letters, in either case, and that only h and w are silent |
| Soundex.LettersAre | crates/daemon/src/vocab.rs:169-184 | which characters are letters, and their cases |
| Soundex.CodeIgnoresCase | crates/daemon/src/vocab.rs:181-183 | the code does not depend on the case of the letters |
| EditDistance.NoScriptIsCheaper | crates/daemon/src/vocab.rs:133 | no script of insertions, deletions and replacements is cheaper than the distance |
| EditDistance.CheapestScript | crates/daemon/src/vocab.rs:133 | some script attains it |
| EditDistance.DistanceBounds | crates/daemon/src/vocab.rs:130-134 | the distance lies between the length difference and the longer length |
| EditDistance.ZeroIffEqual | crates/daemon/src/vocab.rs:133 | it is zero if and only if the words are equal |
| EditDistance.DistanceIsSymmetric | crates/daemon/src/vocab.rs:133 | it does not depend on which word is the candidate |
| Words.SplitJoin | crates/daemon/src/vocab.rs:41-75 | tokens joined with spaces split into the same tokens |
| Words.SplitJoinSplit | crates/daemon/src/vocab.rs:41-75 | any text split, joined with spaces and split again is split as at first |
| Words.SplitAtSpace | crates/daemon/src/vocab.rs:41 | whitespace of any kind, wherever it stands, separates the tokens before it from those after it |
| Words.PunctuationSurrounds | crates/daemon/src/vocab.rs:222-239 | a token is prefix, core and suffix, the core starts and ends alphanumeric, and neither side holds anything alphanumeric |
| Words.PrefixIs | crates/daemon/src/vocab.rs:224-228 | what stands in front of the first alphanumeric character is the prefix |
| Words.SuffixIs | crates/daemon/src/vocab.rs:229-238 | what stands behind the last one is the suffix |
| Words.KeyIgnoresPunctuation | crates/daemon/src/vocab.rs:78-84 | a token's key is the key of its core |
| Words.KeyIgnoresCase | crates/daemon/src/vocab.rs:79-84 | nor does the case of its letters change it |
| Words.KeyOfOne | crates/daemon/src/vocab.rs:79-84 | a key is made of lower-case forms of alphanumeric characters |
| Words.AsciiKeyMeans | crates/daemon/src/vocab.rs:109-111 | a key counts if it is ASCII letters and digits and not empty |
| Words.CandidateIsKeyOfText | crates/daemon/src/vocab.rs:58 | the key of a window is the key of its text, spaces and all |
| Words.CaseIsKept | crates/daemon/src/vocab.rs:203-220 | a token of more than one character and some letter, all of them upper case, is replaced in capitals throughout; one that only starts with a capital by the word with its first letter in capitals; any other by the word as configured |
| Words.UpperJoins | crates/daemon/src/vocab.rs:210 | capitals are put in letter by letter |
| Words.AndOfOne | crates/daemon/src/vocab.rs:98 | an `&` is spelled out, set off by spaces, and nothing else changes |
| Choosing.Least | crates/daemon/src/vocab.rs:122-141 | the least score and, of equal ones, the earliest; none exactly when nothing is scored |
| Choosing.PickIsUnique | crates/daemon/src/vocab.rs:45-63 | closest first, longest on ties, leaves one choice |
| Choosing.WalkIsUnique | crates/daemon/src/vocab.rs:42-74 | there is one way to cut the tokens into best windows |
| Choosing.WalkPartitions | crates/daemon/src/vocab.rs:43-74 | the walk takes every token once, in order: one where nothing matched, the whole window where something did |
| Vocabulary.BestMatch | crates/daemon/src/vocab.rs:113-144 | the loop over the keys finds the closest eligible one |
| Vocabulary.BestIsClosest | crates/daemon/src/vocab.rs:113-144 | that is: none if no key is eligible, else the word of the earliest key with the least score |
| Vocabulary.EligibleMeans | crates/daemon/src/vocab.rs:118-140 | which keys a candidate can be taken for, in whole numbers: length at most 50, lengths at most two or a quarter apart, edits at most 45% of the key if they sound alike and under an eighth of the longer otherwise, score below the threshold |
| Vocabulary.ScoreIs | crates/daemon/src/vocab.rs:130-139 | a score is the edits over the longer length, times three tenths for a match in sound |
| Vocabulary.KeysAre | crates/daemon/src/vocab.rs:88-107 | the keys are those of each word, as it stands and with `&` spelled out, that are ASCII letters and digits |
| Vocabulary.PickWindow | crates/daemon/src/vocab.rs:45-63 | trying three, two, one tokens takes the best offer among windows without inner trailing punctuation, the longest on ties |
| Vocabulary.OfferedIs | crates/daemon/src/vocab.rs:47-50 | windows of one, two and three tokens are considered, and no others |
| Vocabulary.OfferIs | crates/daemon/src/vocab.rs:51-59 | a window offers the closest word to its key if and only if none of its tokens but the last ends in punctuation |
| Vocabulary.Correct | crates/daemon/src/vocab.rs:31-76 | the output is written by a walk that partitions the tokens into best windows: unmatched tokens verbatim, matched windows as the word in their case and punctuation; it ends on every text |
| Vocabulary.MatchedIsReplaced | crates/daemon/src/vocab.rs:65-69 | a matched window becomes the punctuation in front of its first token, the word in that token's case, and the punctuation behind its last token |
| Vocabulary.UnmatchedIsVerbatim | crates/daemon/src/vocab.rs:70-73 | any other token is written as it stands |
| Vocabulary.EmptyVocabulary | crates/daemon/src/vocab.rs:33-35 | without a vocabulary the text is returned unchanged, whitespace included |
| Vocabulary.CorrectionIsUnique | crates/daemon/src/vocab.rs:31-76 | vocabulary and text decide the correction |
| Vocabulary.UnmatchedIsCopied | crates/daemon/src/vocab.rs:70-75 | a text where no window matches is only normalised in whitespace |
| Vocabulary.SkippingSparesPlainMatches | crates/daemon/src/vocab.rs:124-132 | the length test never drops an acceptable match that does not sound alike |
| Vocabulary.LengthTestIsSafeIff | crates/daemon/src/vocab.rs:124-164 | for every two lengths, the length test drops no acceptable match of words that long if and only if the lengths do not differ by more than two and a quarter of the longer yet at most 45% of the key |
| Vocabulary.SkippingLosesSomePhoneticMatches | crates/daemon/src/vocab.rs:124-132 | for instance fourteen vowels against ten, and seven against ten |
| Vocabulary.WhenThresholdIsIdle | crates/daemon/src/vocab.rs:120-164 | over all words, the threshold turns away no match that passes every other test if and only if it is above 0.135, as the default is |
| Greedy.ChoiceIsUnique | crates/daemon/src/pipeline.rs:194-206 | the leftmost non-overlapping stretches that cover every possible start are unique |
| Phrases.ReplacePhrase | crates/daemon/src/pipeline.rs:185-207 | exactly the leftmost non-overlapping whole-word matches are replaced and everything else is kept |
| Phrases.ReplacementReads | crates/daemon/src/pipeline.rs:194-206 | the result is the text with occurrences of the phrase, in any case, taken out and the replacement put in once for each |
| Phrases.MatchMeans | crates/daemon/src/pipeline.rs:220-236 | a match is the phrase up to case with nothing alphanumeric right before or after it |
| Phrases.CaseDoesNotMatter | crates/daemon/src/pipeline.rs:227-229 | phrases that differ only in case give the same result |
| Phrases.ReplacementIsUnique | crates/daemon/src/pipeline.rs:185-207 | text, phrase and replacement decide the result |
| Phrases.ContainsIffReplaces | crates/daemon/src/pipeline.rs:209-218 | the containment test holds if and only if at least one match is replaced |
| Phrases.NothingToReplace | crates/daemon/src/pipeline.rs:147-150 | where it fails, replacing is the identity |
| Phrases.ExpandSnippets | crates/daemon/src/pipeline.rs:141-155 | skipping absent triggers gives what applying every snippet in turn gives |
| Phrases.ExpansionIsUnique | crates/daemon/src/pipeline.rs:141-155 | and that is one text |
| Supervisor.DelayGrows | crates/daemon/src/stt_server.rs:192-197 | more failures never shorten the delay, which never exceeds the cap |
| Supervisor.DelayDoublesIff | crates/daemon/src/stt_server.rs:192-197 | the delay is the capped doubling for every number of failures if and only if the base is zero or the cap at most sixteen doublings of it |
| Supervisor.DelayIsCapped | crates/daemon/src/stt_server.rs:192-197 | neither the factor nor the product overflows where it would show |
| Supervisor.Backoff.Fail | crates/daemon/src/stt_server.rs:199-203 | failures are counted up to the widest integer and the delay for the new count is returned |
| Supervisor.Monitor.Restart | crates/daemon/src/stt_server.rs:240-268 | the dead child is reaped before another is spawned, a child is spawned if it can be, and what is counted says whether it answered, failed or was cut short |
| Supervisor.Monitor.Run | crates/daemon/src/stt_server.rs:223-238 | the server is restarted at each poll that does not find it running and at no other; after any polls and a halt nothing is left un-reaped, and never were two children at once |
| Supervisor.WaitReady | crates/daemon/src/stt_server.rs:314-341 | waiting succeeds if and only if the server answers before it exits, a look fails, a halt or the end of time, and reaps at most the child it waits for |
| Supervisor.AnsweredIff | crates/daemon/src/stt_server.rs:327-339 | it answers if and only if a connection succeeds at some turn up to which nobody asked for a halt and it was seen running |
| Supervisor.Start | crates/daemon/src/stt_server.rs:50-95 | a start succeeds if and only if the spawn works and the server answers; it leaves no child behind, or exactly the one its monitor owns |
| Supervisor.Live | crates/daemon/src/stt_server.rs:50-112 | over the whole life of the server, however spawns, waits and polls go, at most one child is un-reaped, and none at the end |
| TranscriptCodec.SomeCodecIsValid | crates/daemon/src/transcripts.rs:25-43 | what reading asks of the line format can be had: some format fits every record on a line and keeps all but its numbers |
| Transcripts.RecordsAreReadBack | crates/daemon/src/transcripts.rs:112-128 | reading a file gives the records written to it, in order, as their lines are read |
| Transcripts.SeenAt | crates/daemon/src/transcripts.rs:141-148 | each record read is the one written but for its numbers |
| Transcripts.LineByLine | crates/daemon/src/transcripts.rs:121-126 | a file is read line by line, and a blank or malformed line is skipped |
| Transcripts.Log.RotateIfLarger | crates/daemon/src/config.rs:577-587 | a file past the cap replaces the older generation, a failed rename changes nothing |
| Transcripts.Log.Append | crates/daemon/src/transcripts.rs:97-111 | whatever fails, the two files and everything written so far: one record more if the write worked, the rest as before |
| Transcripts.Log.ReadIsSuffix | crates/daemon/src/transcripts.rs:113-128 | both generations together are a contiguous suffix of everything appended, oldest first |
| Transcripts.Log.GenerationsAreBounded | crates/daemon/src/config.rs:563-569 | while no rename has failed, each file is at most the cap plus its last line |
| Transcripts.Log.UnderTwiceTheCapIff | crates/daemon/src/config.rs:563-569 | the two generations have always stayed under twice the cap if and only if less than that was ever written, renames failing or not |
| Transcripts.TwoLongLines | crates/daemon/src/config.rs:563-569 | two lines longer than the cap, every rename working, take more than twice the cap |
| Transcripts.Log.Newest | crates/daemon/src/transcripts.rs:130-138 | the last records written, as they are read, newest first, as many as asked for and kept |

## Left out

- SessionRest.WorkRunsOut: leaves readings of running captures uncounted, because how long a recording runs is up to the user, and says nothing of a scheduler that takes only those.
- SessionTheorems.CancelledClipsAreSilent: an injection whose check came before the cancel still pastes, and a notification raised after its report may follow the cancel, as in the source.
- SessionTheorems.ClipboardIsGivenBack: is for tools that work and contents that are not binary; a failed copy or keystroke returns before the restore.
- SessionVerdicts.ClearedWithItsTranscript: what the text pipeline and its workflow make of the transcript is a parameter of the step.
- Inference.RoundTrip: takes the prompt to be free of the delimiter line; one that contains it spares the language (`Inference.LanguageSurvivesIff`), and the clip is read as whatever the prompt's remainder makes of it.
- Audio.ReadLoop: gain and loudness are exact reals and loudness is kept squared; rounding of floating point is not modelled.
- Loudness.NormalizePeak: the factor is an exact quotient.
- Vocabulary.Correct: character classes and case mappings are parameters; the shares, distances and thresholds are exact reals.
- Supervisor.Children.Wait: always succeeds; a failing kill or wait is not modelled, and exits happen when they are looked at.
- Transcripts.Log.Append: a line is written whole or not at all, so torn writes are not modelled.
- Transcripts.Log.ReadIsSuffix: does not say how far a number that was written and read back may have moved, because the printing and parsing of floating point are not modelled.
- SessionDaemon.Daemon.Step: runs one critical section; a method of the original spans several, and what may run between them is the schedule.
- SessionTheorems.PastesAreSerial: and `ClipboardIsGivenBack` are of a clipboard that nobody but the session writes; another program that copies something in the middle of a delivery is not modelled.
- The replies to socket commands and the readings of the meter are not part of the session; its display is the state shown.
- Relaxed atomics are taken as sequentially consistent, and the 64-bit generation and id counters as unbounded.
- Strings on the wire are their UTF-8 bytes, lossy decoding is the identity on them, header whitespace is ASCII, and the boundary is not extracted from the content type.
- A restarted server that becomes ready after its readiness wait keeps its failure count, as in the source; no claim is made about it.
- Later snippets and corrections may rewrite earlier replacements; the text is that of applying them in turn, placeholders resolved beforehand.
- The transcript filter, the language-model client, settings, setup, display probing, notifications, sockets, HTTP and the engines are not part of this model.
