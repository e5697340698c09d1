/**
 The dictation session as a transition system.

 One socket thread serves commands one at a time. Around it run a reader thread
 for each capture, an auto-finish thread for each capture that went silent, a
 worker thread for each clip handed off by `stop`, and sleeping reverts. A step is
 one access to shared state; anything may happen between two steps.

 The lifecycle lock guards `slot`, `nextId` and `cancelledBelow`. A critical section
 that touches nothing else is one step that needs the lock free; `start` and
 `report`, which also publish, hold it over several steps while readers and
 reverts, which never take it, run in between. The injection lock is explicit too.
 */
module SessionModel {
  import opened Common
  import opened Status
  import opened Injection

  datatype Thread = Socket | Auto(id: nat) | Worker(id: nat)

  /** What a clip thread has to say through `report`. */
  datatype News = ClipDropped | ClipReady | ClipDelivered | ClipFailed

  function Shows(news: News): Phase {
    match news
    case ClipDropped => Idle
    case ClipReady => Transcribing
    case ClipDelivered => Success
    case ClipFailed => Error
  }

  /** Commands in progress on the socket thread. All but the last two hold the lifecycle lock. */
  datatype Command =
    | Starting                    // in `start`, lock taken
    | DroppingStale(id: nat)      // in `start`, joining an overrun capture
    | Opening                     // in `start`, the slot is known to be empty
    | Opened(id: nat)             // in `start`, the capture runs, nothing published yet
    | Announced(id: nat)          // in `start`, `recording` published, slot not filled
    | DroppingCancelled(id: nat)  // in `cancel`, joining the capture
    | Clearing                    // in `cancel`, about to publish `idle`

  /** In `close`: the recording is out of its slot; its capture is cancelled or finished and joined. */
  datatype CloseAt = Taken | Discarding | Finishing

  /** Under the injection lock, in `deliver`. */
  datatype InjectAt =
    | Checking
    | TypingText
    | Saving
    | Copying(saved: Saved, readable: bool)
    | Pressing(saved: Saved, readable: bool)
    | Restoring(saved: Saved, readable: bool)

  /** In `process`: transcribing, waiting for the injection lock, or holding it. */
  datatype Job = Hearing | Queued(text: string) | Injecting(text: string, at: InjectAt)

  /** Where a thread stands. */
  datatype Pc =
    | Listening
    | Commanding(command: Command)
    | Waiting(id: nat)                                        // an auto-finish thread just spawned
    | Closing(id: nat, stage: CloseAt)
    | Reporting(id: nat, news: News)                          // about to call `report`
    | Publishing(id: nat, news: News, show: bool)             // in `report`, lifecycle lock held
    | Processing(id: nat, job: Job)
    | Ended

  /** Where a capture's reader thread stands. */
  datatype ReaderPc =
    | Reading
    | CapHit        // `auto_stopped` is set, `too_long` not yet reported
    | Complaining   // `too_long` published, raising the notification
    | SilenceHit    // about to spawn the auto-finish thread
    | Gone          // ended; a join returns

  datatype Capture = Capture(reader: ReaderPc, autoStopped: bool)

  /** The state under the lifecycle lock, and who holds that lock over several steps. */
  datatype Lifecycle = Lifecycle(lock: Option<Thread>, slot: Option<nat>, nextId: nat, cancelledBelow: nat)

  /** A paste keystroke: whose, the text it was for, and what the clipboard held. */
  datatype Keystroke = Keystroke(id: nat, text: string, seen: Clipboard)

  /** The injection lock and the desktop behind it. */
  datatype Desk = Desk(
    mode: Mode,
    lock: Option<Thread>,
    original: Clipboard,
    clipboard: Clipboard,
    keystrokes: seq<Keystroke>,
    deliveries: seq<Delivery>)

  /** Something a clip put on the board through `report`. */
  datatype Shown = Shown(id: nat, state: Phase)

  /** What happened so far. */
  datatype Log = Log(
    closed: seq<nat>,            // captures finished or cancelled
    handed: seq<nat>,            // clips handed to `process`
    heard: seq<nat>,             // clips sent to the STT server
    injected: seq<nat>,          // clips that passed the cancellation check
    prepared: map<nat, string>,  // the text each of them is to inject
    shown: seq<Shown>,
    masked: bool)                // the last publication was `start`'s, of a capture that had already complained

  datatype State = State(
    life: Lifecycle,
    board: Board,
    captures: map<nat, Capture>,
    pc: map<Thread, Pc>,
    desk: Desk,
    log: Log)

  ghost predicate Init(s: State) {
    && s.life == Lifecycle(None, None, 0, 0)
    && s.board == Board(Idle, 0, {})
    && s.captures == map[]
    && s.pc == map[Socket := Listening]
    && s.desk == Desk(s.desk.mode, None, s.desk.original, s.desk.original, [], [])
    && s.log == Log([], [], [], [], map[], [], false)
  }

  // ------------------------------------------------------------------
  // Reading and writing the state
  // ------------------------------------------------------------------

  predicate Overrun(s: State, id: nat) {
    id in s.captures && s.captures[id].autoStopped
  }

  predicate Joinable(s: State, id: nat) {
    id in s.captures && s.captures[id].reader.Gone?
  }

  predicate ReaderAt(s: State, id: nat, at: ReaderPc) {
    id in s.captures && s.captures[id].reader == at
  }

  /** Whether a recording is capturing right now: in the slot and not overrun. */
  predicate IsRecording(s: State) {
    s.life.slot.Some? && !Overrun(s, s.life.slot.value)
  }

  function Goto(s: State, th: Thread, at: Pc): State {
    s.(pc := s.pc[th := at])
  }

  /** A thread returns: the socket thread listens again, every other one ends. */
  function Return(s: State, th: Thread): State {
    Goto(s, th, if th == Socket then Listening else Ended)
  }

  function Lock(s: State, holder: Option<Thread>): State {
    s.(life := s.life.(lock := holder))
  }

  function Fill(s: State, slot: Option<nat>): State {
    s.(life := s.life.(slot := slot))
  }

  function Show(s: State, state: Phase): State {
    s.(board := Publish(s.board, state), log := s.log.(masked := false))
  }

  function SetReader(s: State, r: nat, reader: ReaderPc): State
    requires r in s.captures
  {
    s.(captures := s.captures[r := s.captures[r].(reader := reader)])
  }

  /** `finish` or `cancel` is called on the capture. */
  function Close(s: State, id: nat): State {
    s.(log := s.log.(closed := s.log.closed + [id]))
  }

  // ------------------------------------------------------------------
  // Commands
  // ------------------------------------------------------------------

  datatype CommandStep =
    | Start
    | LookAtSlot
    | StaleJoined
    | OpenCapture(ok: bool)
    | Announce
    | FillSlot
    | Stop
    | Cancel
    | CancelJoined
    | CancelPublishes

  predicate CanCommand(s: State, c: CommandStep) {
    Socket in s.pc &&
    var at := s.pc[Socket];
    match c
    case Start => at.Listening? && s.life.lock.None?
    case LookAtSlot => at == Commanding(Starting)
    case StaleJoined => at.Commanding? && at.command.DroppingStale? && Joinable(s, at.command.id)
    case OpenCapture(_) => at == Commanding(Opening)
    case Announce => at.Commanding? && at.command.Opened?
    case FillSlot => at.Commanding? && at.command.Announced?
    case Stop => at.Listening? && s.life.lock.None?
    case Cancel => at.Listening? && s.life.lock.None?
    case CancelJoined => at.Commanding? && at.command.DroppingCancelled? && Joinable(s, at.command.id)
    case CancelPublishes => at == Commanding(Clearing)
  }

  function StartStep(s: State): State {
    Goto(Lock(s, Some(Socket)), Socket, Commanding(Starting))
  }

  /** An overrun recording is dropped, a live one refuses the start. */
  function LookAtSlotStep(s: State): State {
    if s.life.slot.None? then Goto(s, Socket, Commanding(Opening))
    else if IsRecording(s) then Return(Lock(s, None), Socket)
    else Goto(Fill(Close(s, s.life.slot.value), None), Socket, Commanding(DroppingStale(s.life.slot.value)))
  }

  function OpenStep(s: State, ok: bool): State {
    var id := s.life.nextId;
    var s := s.(life := s.life.(nextId := id + 1));
    if ok then Goto(s.(captures := s.captures[id := Capture(Reading, false)]), Socket, Commanding(Opened(id)))
    else Return(Lock(s, None), Socket)
  }

  /** `start` publishes `recording`; the history notes a complaint this hides. */
  function AnnounceStep(s: State, id: nat): State {
    var hides := Overrun(s, id) && !ReaderAt(s, id, CapHit);
    Goto(Show(s, Recording).(log := s.log.(masked := hides)), Socket, Commanding(Announced(id)))
  }

  function FillStep(s: State, id: nat): State {
    Return(Lock(Fill(s, Some(id)), None), Socket)
  }

  function StopStep(s: State): State {
    if s.life.slot.None? then s
    else Goto(Fill(s, None), Socket, Closing(s.life.slot.value, Taken))
  }

  function CancelStep(s: State): State {
    var c := s.(life := s.life.(cancelledBelow := s.life.nextId));
    if s.life.slot.None? then Goto(c, Socket, Commanding(Clearing))
    else Goto(Fill(Close(c, s.life.slot.value), None), Socket, Commanding(DroppingCancelled(s.life.slot.value)))
  }

  function DoCommand(s: State, c: CommandStep): State
    requires CanCommand(s, c)
  {
    match c
    case Start => StartStep(s)
    case LookAtSlot => LookAtSlotStep(s)
    case StaleJoined => Goto(s, Socket, Commanding(Opening))
    case OpenCapture(ok) => OpenStep(s, ok)
    case Announce => AnnounceStep(s, s.pc[Socket].command.id)
    case FillSlot => FillStep(s, s.pc[Socket].command.id)
    case Stop => StopStep(s)
    case Cancel => CancelStep(s)
    case CancelJoined => Goto(s, Socket, Commanding(Clearing))
    case CancelPublishes => Return(Show(s, Idle), Socket)
  }

  // ------------------------------------------------------------------
  // Closing a recording and reporting
  // ------------------------------------------------------------------

  /** `auto_finish` takes its own recording out of the slot, if it is still there. */
  function AutoTakeStep(s: State, th: Thread, id: nat): State {
    if s.life.slot == Some(id) then Goto(Fill(s, None), th, Closing(id, Taken)) else Return(s, th)
  }

  datatype FinishStep =
    | AutoTake
    | ChooseClose
    | DiscardJoined
    | FinishJoined(kept: bool)
    | EnterReport
    | LeaveReport

  predicate CanFinish(s: State, th: Thread, f: FinishStep) {
    th in s.pc &&
    var at := s.pc[th];
    match f
    case AutoTake => at.Waiting? && s.life.lock.None?
    case ChooseClose => at.Closing? && at.stage.Taken?
    case DiscardJoined => at.Closing? && at.stage.Discarding? && Joinable(s, at.id)
    case FinishJoined(_) => at.Closing? && at.stage.Finishing? && Joinable(s, at.id)
    case EnterReport => at.Reporting? && s.life.lock.None?
    case LeaveReport => at.Publishing?
  }

  function ChooseCloseStep(s: State, th: Thread, id: nat): State {
    Goto(Close(s, id), th, Closing(id, if Overrun(s, id) then Discarding else Finishing))
  }

  /** `report` asks, under the lifecycle lock, whether it may publish. */
  function EnterReportStep(s: State, th: Thread, id: nat, news: News): State {
    if id < s.life.cancelledBelow then Return(s, th)
    else Goto(Lock(s, Some(th)), th, Publishing(id, news, !IsRecording(s)))
  }

  /** A finished recording becomes a clip; `stop` gives it a thread of its own. */
  function HandOff(s: State, th: Thread, id: nat): State {
    var s := s.(log := s.log.(handed := s.log.handed + [id]));
    if th == Socket then Goto(Return(s, th), Worker(id), Processing(id, Hearing))
    else Goto(s, th, Processing(id, Hearing))
  }

  function Tell(s: State, id: nat, news: News): State {
    var shown := Show(s, Shows(news));
    shown.(log := shown.log.(shown := s.log.shown + [Shown(id, Shows(news))]))
  }

  function LeaveReportStep(s: State, th: Thread, id: nat, news: News, show: bool): State {
    var s := Lock(if show then Tell(s, id, news) else s, None);
    if news == ClipReady then HandOff(s, th, id) else Return(s, th)
  }

  function DoFinish(s: State, th: Thread, f: FinishStep): State
    requires CanFinish(s, th, f)
  {
    var at := s.pc[th];
    match f
    case AutoTake => AutoTakeStep(s, th, at.id)
    case ChooseClose => ChooseCloseStep(s, th, at.id)
    case DiscardJoined => Return(s, th)
    case FinishJoined(kept) => Goto(s, th, Reporting(at.id, if kept then ClipReady else ClipDropped))
    case EnterReport => EnterReportStep(s, th, at.id, at.news)
    case LeaveReport => LeaveReportStep(s, th, at.id, at.news, at.show)
  }

  // ------------------------------------------------------------------
  // Processing a clip
  // ------------------------------------------------------------------

  datatype ProcessStep =
    | Transcribed(accepted: Option<string>)
    | LockInjection
    | CheckCancelled(prepared: string)
    | TypeText(ok: bool)
    | SaveClipboard(readable: bool)
    | CopyText(attempt: Attempt)
    | PressKeys(ok: bool)
    | RestoreClipboard(attempt: Attempt)

  predicate CanProcess(s: State, th: Thread, p: ProcessStep) {
    th in s.pc && s.pc[th].Processing? &&
    var job := s.pc[th].job;
    match p
    case Transcribed(_) => job.Hearing?
    case LockInjection => job.Queued? && s.desk.lock.None?
    case CheckCancelled(_) => job.Injecting? && job.at.Checking? && s.life.lock.None?
    case TypeText(_) => job.Injecting? && job.at.TypingText?
    case SaveClipboard(_) => job.Injecting? && job.at.Saving?
    case CopyText(_) => job.Injecting? && job.at.Copying?
    case PressKeys(_) => job.Injecting? && job.at.Pressing?
    case RestoreClipboard(_) => job.Injecting? && job.at.Restoring?
  }

  function Proceed(s: State, th: Thread, id: nat, text: string, at: InjectAt): State {
    Goto(s, th, Processing(id, Injecting(text, at)))
  }

  /** The injection is over: release its lock and report. */
  function EndInjection(s: State, th: Thread, id: nat, d: Delivery, clipboard: Clipboard, ok: bool): State {
    Goto(s.(desk := s.desk.(lock := None, clipboard := clipboard, deliveries := s.desk.deliveries + [d])),
         th, Reporting(id, if ok then ClipDelivered else ClipFailed))
  }

  function TranscribedStep(s: State, th: Thread, id: nat, accepted: Option<string>): State {
    Goto(s.(log := s.log.(heard := s.log.heard + [id])), th,
         if accepted.Some? then Processing(id, Queued(accepted.value)) else Reporting(id, ClipFailed))
  }

  /** The last look at the cancellation mark; `prepared` is what the text pipeline makes of the transcript. */
  function CheckStep(s: State, th: Thread, id: nat, prepared: string): State {
    if id < s.life.cancelledBelow then Return(s.(desk := s.desk.(lock := None)), th)
    else
      var s := s.(log := s.log.(injected := s.log.injected + [id], prepared := s.log.prepared[id := prepared]));
      match s.desk.mode
      case Typing => Proceed(s, th, id, prepared, TypingText)
      case Pasting(hasKeys) =>
        if hasKeys then Proceed(s, th, id, prepared, Saving)
        else EndInjection(s, th, id, Unconfigured(prepared), s.desk.clipboard, false)
  }

  function CopyStep(s: State, th: Thread, id: nat, text: string, saved: Saved, readable: bool, attempt: Attempt): State {
    if attempt.Worked?
    then Proceed(s.(desk := s.desk.(clipboard := Transcript(text))), th, id, text, Pressing(saved, readable))
    else EndInjection(s, th, id, CopyFailed(text, readable, attempt.left), attempt.left, false)
  }

  function PressStep(s: State, th: Thread, id: nat, text: string, saved: Saved, readable: bool, ok: bool): State {
    if ok
    then
      var k := Keystroke(id, text, s.desk.clipboard);
      Proceed(s.(desk := s.desk.(keystrokes := s.desk.keystrokes + [k])), th, id, text, Restoring(saved, readable))
    else EndInjection(s, th, id, KeysFailed(text, readable), s.desk.clipboard, false)
  }

  function DoProcess(s: State, th: Thread, p: ProcessStep): State
    requires CanProcess(s, th, p)
  {
    var Processing(id, job) := s.pc[th];
    match p
    case Transcribed(accepted) => TranscribedStep(s, th, id, accepted)
    case LockInjection => Proceed(s.(desk := s.desk.(lock := Some(th))), th, id, job.text, Checking)
    case CheckCancelled(prepared) => CheckStep(s, th, id, prepared)
    case TypeText(ok) => EndInjection(s, th, id, Typed(job.text, ok), s.desk.clipboard, ok)
    case SaveClipboard(readable) => Proceed(s, th, id, job.text, Copying(Save(s.desk.clipboard, readable), readable))
    case CopyText(attempt) => CopyStep(s, th, id, job.text, job.at.saved, job.at.readable, attempt)
    case PressKeys(ok) => PressStep(s, th, id, job.text, job.at.saved, job.at.readable, ok)
    case RestoreClipboard(attempt) =>
      EndInjection(s, th, id, Pasted(job.text, job.at.readable, attempt),
                   Restore(job.at.saved, s.desk.clipboard, attempt), true)
  }

  // ------------------------------------------------------------------
  // Readers
  // ------------------------------------------------------------------

  datatype ReaderStep = Tick | HitCap | Complain | Complained | HitSilence | SpawnAuto | EndOfStream

  predicate CanRead(s: State, r: nat, e: ReaderStep) {
    r in s.captures &&
    match e
    case Complain => s.captures[r].reader.CapHit?
    case Complained => s.captures[r].reader.Complaining?
    case SpawnAuto => s.captures[r].reader.SilenceHit?
    case _ => s.captures[r].reader.Reading?
  }

  function DoRead(s: State, r: nat, e: ReaderStep): State
    requires CanRead(s, r, e)
  {
    match e
    case Tick => Show(s, Recording)
    case HitCap => s.(captures := s.captures[r := Capture(CapHit, true)])
    case Complain => SetReader(Show(s, Error), r, Complaining)
    case Complained => SetReader(s, r, Gone)
    case HitSilence => SetReader(s, r, SilenceHit)
    case SpawnAuto => Goto(SetReader(s, r, Gone), Auto(r), Waiting(r))
    case EndOfStream => SetReader(s, r, Gone)
  }

  // ------------------------------------------------------------------
  // All steps, and runs
  // ------------------------------------------------------------------

  datatype Step =
    | Command(c: CommandStep)
    | Finish(th: Thread, f: FinishStep)
    | Process(th: Thread, p: ProcessStep)
    | Read(r: nat, e: ReaderStep)
    | WakeRevert(g: nat)

  predicate Enabled(s: State, a: Step) {
    match a
    case Command(c) => CanCommand(s, c)
    case Finish(th, f) => CanFinish(s, th, f)
    case Process(th, p) => CanProcess(s, th, p)
    case Read(r, e) => CanRead(s, r, e)
    case WakeRevert(g) => g in s.board.reverts
  }

  function WakeStep(s: State, g: nat): State {
    s.(board := Wake(s.board, g), log := s.log.(masked := s.log.masked && s.board.generation != g))
  }

  function Next(s: State, a: Step): State
    requires Enabled(s, a)
  {
    match a
    case Command(c) => DoCommand(s, c)
    case Finish(th, f) => DoFinish(s, th, f)
    case Process(th, p) => DoProcess(s, th, p)
    case Read(r, e) => DoRead(s, r, e)
    case WakeRevert(g) => WakeStep(s, g)
  }

  /** A run: the states passed through and the steps between them. */
  ghost predicate IsRun(states: seq<State>, steps: seq<Step>) {
    && |states| == |steps| + 1
    && Init(states[0])
    && forall i :: 0 <= i < |steps| ==> Enabled(states[i], steps[i]) && states[i + 1] == Next(states[i], steps[i])
  }
}
