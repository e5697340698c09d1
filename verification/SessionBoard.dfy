/** What the board shows: the live recording, and nothing for ever. */
module SessionBoard {
  import opened Common
  import opened Status
  import opened SessionModel
  import opened SessionInvariants
  import opened SessionProofs

  // ------------------------------------------------------------------
  // What a step does to the board
  // ------------------------------------------------------------------

  /** `start` is about to publish `recording` for a capture that overran and has complained already. */
  predicate Hides(s: State, a: Step) {
    && a == Command(Announce) && Enabled(s, a)
    && var id := s.pc[Socket].command.id;
       Overrun(s, id) && !ReaderAt(s, id, CapHit)
  }

  /** Nothing is published, or one state is; only a publication that hides a complaint is marked. */
  predicate OnBoard(s: State, s': State, hides: bool) {
    || (s'.board == s.board && s'.log.masked == s.log.masked)
    || (s'.board == Publish(s.board, s'.board.state) && s'.log.masked == hides)
  }

  lemma ProcessKeepsBoard(s: State, th: Thread, p: ProcessStep)
    requires CanProcess(s, th, p)
    ensures var s' := DoProcess(s, th, p);
            s'.board == s.board && s'.life == s.life && s'.captures == s.captures && s'.log.masked == s.log.masked
  {
  }

  lemma CommandOnBoard(s: State, c: CommandStep)
    requires CanCommand(s, c)
    ensures OnBoard(s, DoCommand(s, c), Hides(s, Command(c)))
  {
  }

  lemma FinishOnBoard(s: State, th: Thread, f: FinishStep)
    requires CanFinish(s, th, f)
    ensures OnBoard(s, DoFinish(s, th, f), false)
  {
  }

  lemma ReadOnBoard(s: State, r: nat, e: ReaderStep)
    requires CanRead(s, r, e)
    ensures OnBoard(s, DoRead(s, r, e), false)
  {
  }

  lemma NextOnBoard(s: State, a: Step)
    requires Enabled(s, a) && !a.WakeRevert?
    ensures OnBoard(s, Next(s, a), Hides(s, a))
  {
    match a
    case Command(c) => CommandOnBoard(s, c);
    case Finish(th, f) => FinishOnBoard(s, th, f);
    case Process(th, p) => ProcessKeepsBoard(s, th, p);
    case Read(r, e) => ReadOnBoard(s, r, e);
  }

  lemma BoardKeepsReverts(b: Board, state: Phase, g: nat)
    requires Reverts(b)
    ensures Reverts(Publish(b, state)) && Reverts(Wake(b, g))
  {
  }

  lemma StepKeepsReverts(s: State, a: Step)
    requires Reverts(s.board) && Enabled(s, a)
    ensures Reverts(Next(s, a).board)
  {
    match a
    case WakeRevert(g) => BoardKeepsReverts(s.board, Idle, g);
    case _ =>
      NextOnBoard(s, a);
      BoardKeepsReverts(s.board, Next(s, a).board.state, 0);
  }

  // ------------------------------------------------------------------
  // A live recording is what the board shows
  // ------------------------------------------------------------------

  lemma CloseKeepsFaithful(s: State, th: Thread, f: FinishStep)
    requires Socket in s.pc && Faithful(s) && CanFinish(s, th, f) && !f.LeaveReport?
    ensures Socket in DoFinish(s, th, f).pc && Faithful(DoFinish(s, th, f))
  {
  }

  /** A report publishes under the lifecycle lock, so not while `start` is about to fill the slot. */
  lemma ReportKeepsFaithful(s: State, th: Thread)
    requires Socket in s.pc && Faithful(s) && CanFinish(s, th, LeaveReport) && ReportsRightly(s, s.pc[th])
    requires s.pc[Socket].Commanding? ==> !s.pc[Socket].command.Announced?
    ensures Socket in DoFinish(s, th, LeaveReport).pc && Faithful(DoFinish(s, th, LeaveReport))
  {
  }

  lemma FinishKeepsFaithful(s: State, th: Thread, f: FinishStep)
    requires Sound(s) && Faithful(s) && CanFinish(s, th, f)
    ensures Socket in DoFinish(s, th, f).pc && Faithful(DoFinish(s, th, f))
  {
    assert ThreadOk(s, th) && ThreadOk(s, Socket);
    if f.LeaveReport? { ReportKeepsFaithful(s, th); } else { CloseKeepsFaithful(s, th, f); }
  }

  lemma ProcessKeepsFaithful(s: State, s': State, th: Thread)
    requires Socket in s.pc && Faithful(s) && OnlyMoves(s, s', th) && th != Socket && s'.board == s.board
    ensures Faithful(s')
  {
  }

  /** A complaint comes from an overrun capture, so never from the live one. */
  lemma ReadKeepsFaithful(s: State, r: nat, e: ReaderStep)
    requires Sound(s) && Faithful(s) && CanRead(s, r, e)
    ensures Socket in DoRead(s, r, e).pc && Faithful(DoRead(s, r, e))
  {
    assert CaptureOk(s, r);
  }

  lemma CommandKeepsFaithful(s: State, c: CommandStep)
    requires Sound(s) && Faithful(s) && CanCommand(s, c)
    ensures Socket in DoCommand(s, c).pc && Faithful(DoCommand(s, c))
  {
  }

  lemma StepKeepsFaithful(s: State, a: Step)
    requires Sound(s) && Reverts(s.board) && Faithful(s) && Enabled(s, a)
    ensures Socket in Next(s, a).pc && Faithful(Next(s, a))
  {
    match a
    case Command(c) => CommandKeepsFaithful(s, c);
    case Finish(th, f) => FinishKeepsFaithful(s, th, f);
    case Process(th, p) =>
      assert ThreadOk(s, th);
      ProcessKeepsBoard(s, th, p);
      ProcessOnlyMoves(s, th, p);
      ProcessKeepsFaithful(s, Next(s, a), th);
    case Read(r, e) => ReadKeepsFaithful(s, r, e);
    case WakeRevert(g) =>
  }

  // ------------------------------------------------------------------
  // Neither `recording` nor `transcribing` outlives its cause
  // ------------------------------------------------------------------

  lemma RecordingIsCleared(s: State, th: Thread)
    requires th in s.pc && WillClear(s, s.pc[th])
    ensures RecordingEnds(s)
  {
  }

  lemma TranscribingIsConcluded(s: State, th: Thread)
    requires th in s.pc && WillConclude(s, s.pc[th])
    ensures TranscribingEnds(s)
  {
  }

  /** `th` moves on and hands its duties on; nothing is published. */
  lemma DutiesStay(s: State, s': State, th: Thread)
    requires RecordingEnds(s) && TranscribingEnds(s) && th in s.pc && th in s'.pc
    requires s'.board.state == s.board.state && s'.log.masked == s.log.masked && s'.captures == s.captures
    requires s'.life.cancelledBelow == s.life.cancelledBelow
    requires s'.pc == s.pc[th := s'.pc[th]]
    requires s.life.slot.Some? && s'.life.slot != s.life.slot && Unsettled(s, s.life.slot.value) ==> WillClear(s', s'.pc[th])
    requires WillClear(s, s.pc[th]) && s.board.state == Recording ==>
               WillClear(s', s'.pc[th]) || (s'.life.slot.Some? && Unsettled(s', s'.life.slot.value))
    requires WillConclude(s, s.pc[th]) && s.board.state == Transcribing ==> WillConclude(s', s'.pc[th])
    ensures RecordingEnds(s') && TranscribingEnds(s')
  {
    if s.board.state == Recording && !s.log.masked {
      if s.life.slot.Some? && Unsettled(s, s.life.slot.value) {
      } else {
        var t :| t in s.pc && WillClear(s, s.pc[t]);
        assert t != th ==> WillClear(s', s'.pc[t]);
      }
      if WillClear(s', s'.pc[th]) { RecordingIsCleared(s', th); }
    } else if s.board.state == Transcribing {
      var t :| t in s.pc && WillConclude(s, s.pc[t]);
      assert t != th ==> WillConclude(s', s'.pc[t]);
    }
  }

  lemma ProcessKeepsDuties(s: State, th: Thread, p: ProcessStep)
    requires RecordingEnds(s) && TranscribingEnds(s) && CanProcess(s, th, p)
    ensures RecordingEnds(DoProcess(s, th, p)) && TranscribingEnds(DoProcess(s, th, p))
  {
    var s' := DoProcess(s, th, p);
    ProcessKeepsBoard(s, th, p);
    ProcessOnlyMoves(s, th, p);
    ProcessKeepsAtWork(s, th, p);
    DutiesStay(s, s', th);
  }

  lemma ProcessKeepsAtWork(s: State, th: Thread, p: ProcessStep)
    requires CanProcess(s, th, p)
    ensures var s' := DoProcess(s, th, p); th in s'.pc && (WillConclude(s, s.pc[th]) ==> WillConclude(s', s'.pc[th]))
  {
  }

  lemma CloseKeepsDuties(s: State, th: Thread, f: FinishStep)
    requires Sound(s) && Faithful(s) && RecordingEnds(s) && TranscribingEnds(s) && CanFinish(s, th, f) && !f.LeaveReport?
    ensures RecordingEnds(DoFinish(s, th, f)) && TranscribingEnds(DoFinish(s, th, f))
  {
    assert ThreadOk(s, th);
    DutiesStay(s, DoFinish(s, th, f), th);
  }

  /** A report that publishes changes the board; a clip it hands on takes over the duty. */
  lemma TellKeepsDuties(s: State, th: Thread)
    requires Sound(s) && CanFinish(s, th, LeaveReport) && s.pc[th].show
    ensures RecordingEnds(DoFinish(s, th, LeaveReport)) && TranscribingEnds(DoFinish(s, th, LeaveReport))
  {
    var s', id := DoFinish(s, th, LeaveReport), s.pc[th].id;
    assert ThreadOk(s, th);
    if s.pc[th].news == ClipReady {
      TranscribingIsConcluded(s', if th == Socket then Worker(id) else th);
    }
  }

  /** A report kept quiet leaves every other thread's duty as it was. */
  lemma HushKeepsDuties(s: State, th: Thread)
    requires Sound(s) && RecordingEnds(s) && TranscribingEnds(s) && CanFinish(s, th, LeaveReport) && !s.pc[th].show
    ensures RecordingEnds(DoFinish(s, th, LeaveReport)) && TranscribingEnds(DoFinish(s, th, LeaveReport))
  {
    var id := s.pc[th].id;
    HushIsIdle(s, th, id);
    HushedKeepsDuties(s, DoFinish(s, th, LeaveReport), th, id);
  }

  /** What a quiet report leaves alone. */
  ghost predicate Hushed(s: State, s': State, th: Thread, id: nat) {
    && s'.board == s.board && s'.log.masked == s.log.masked && s'.captures == s.captures
    && s'.life == s.life.(lock := None)
    && (forall t :: t in s.pc && t != th && t != Worker(id) ==> t in s'.pc && s'.pc[t] == s.pc[t])
    && (th != Socket && th != Worker(id) && Worker(id) in s.pc ==>
          Worker(id) in s'.pc && s'.pc[Worker(id)] == s.pc[Worker(id)])
  }

  lemma HushIsIdle(s: State, th: Thread, id: nat)
    requires CanFinish(s, th, LeaveReport) && !s.pc[th].show && id == s.pc[th].id
    ensures Hushed(s, DoFinish(s, th, LeaveReport), th, id)
  {
  }

  lemma HushedKeepsDuties(s: State, s': State, th: Thread, id: nat)
    requires Sound(s) && RecordingEnds(s) && TranscribingEnds(s)
    requires th in s.pc && s.pc[th].Publishing? && !s.pc[th].show && s.pc[th].id == id && Hushed(s, s', th, id)
    ensures RecordingEnds(s') && TranscribingEnds(s')
  {
    if th == Socket { WorkerIsFree(s, id); }
    OthersKeepDuties(s, s', {th, Worker(id)});
  }

  /** The threads that changed had no duty. */
  lemma OthersKeepDuties(s: State, s': State, changed: set<Thread>)
    requires RecordingEnds(s) && TranscribingEnds(s)
    requires s'.board.state == s.board.state && s'.log.masked == s.log.masked && s'.captures == s.captures
    requires s'.life.cancelledBelow == s.life.cancelledBelow && s'.life.slot == s.life.slot
    requires forall t :: t in s.pc && t !in changed ==> t in s'.pc && s'.pc[t] == s.pc[t]
    requires forall t :: t in changed && t in s.pc ==>
               (!WillClear(s, s.pc[t]) && !WillConclude(s, s.pc[t])) || (t in s'.pc && s'.pc[t] == s.pc[t])
    ensures RecordingEnds(s') && TranscribingEnds(s')
  {
    assert forall t :: t in s.pc && WillClear(s, s.pc[t]) ==> t in s'.pc && WillClear(s', s'.pc[t]);
    assert forall t :: t in s.pc && WillConclude(s, s.pc[t]) ==> t in s'.pc && WillConclude(s', s'.pc[t]);
  }

  lemma LeaveReportKeepsDuties(s: State, th: Thread)
    requires Sound(s) && RecordingEnds(s) && TranscribingEnds(s) && CanFinish(s, th, LeaveReport)
    ensures RecordingEnds(DoFinish(s, th, LeaveReport)) && TranscribingEnds(DoFinish(s, th, LeaveReport))
  {
    if s.pc[th].show { TellKeepsDuties(s, th); } else { HushKeepsDuties(s, th); }
  }

  lemma TickKeepsDuties(s: State, r: nat)
    requires Sound(s) && CanRead(s, r, Tick)
    ensures RecordingEnds(DoRead(s, r, Tick)) && TranscribingEnds(DoRead(s, r, Tick))
  {
    var s' := DoRead(s, r, Tick);
    assert CaptureOk(s, r);
    if s.life.slot != Some(r) { RecordingIsCleared(s', Socket); }
  }

  /** A reader moves on without publishing anything. */
  lemma SilentReadKeepsDuties(s: State, r: nat, e: ReaderStep)
    requires Sound(s) && RecordingEnds(s) && TranscribingEnds(s) && CanRead(s, r, e) && !e.Tick? && !e.Complain?
    ensures RecordingEnds(DoRead(s, r, e)) && TranscribingEnds(DoRead(s, r, e))
  {
    var s' := DoRead(s, r, e);
    assert CaptureOk(s, r);
    if e.SpawnAuto? { SpawnAutoKeepsSound(s, r); }
    SilentReadIs(s, r, e);
    forall t | t in s.pc
      ensures t in s'.pc && (WillClear(s, s.pc[t]) ==> WillClear(s', s'.pc[t])) && (WillConclude(s, s.pc[t]) ==> WillConclude(s', s'.pc[t]))
    {
      SilentReadKeepsWill(s, r, e, s.pc[t]);
    }
    if s.life.slot.Some? { SilentReadKeepsUnsettled(s, r, e, s.life.slot.value); }
  }

  lemma SilentReadIs(s: State, r: nat, e: ReaderStep)
    requires CanRead(s, r, e) && !e.Tick? && !e.Complain? && (e.SpawnAuto? ==> Auto(r) !in s.pc)
    ensures var s' := DoRead(s, r, e);
            && s'.board == s.board && s'.life == s.life && s'.log.masked == s.log.masked
            && forall t :: t in s.pc ==> t in s'.pc && s'.pc[t] == s.pc[t]
  {
  }

  lemma SilentReadKeepsUnsettled(s: State, r: nat, e: ReaderStep, id: nat)
    requires CanRead(s, r, e) && !e.Tick? && !e.Complain? && Socket in s.pc && CaptureOk(s, r)
    ensures Unsettled(s, id) ==> Unsettled(DoRead(s, r, e), id)
    ensures ReaderAt(s, id, CapHit) ==> ReaderAt(DoRead(s, r, e), id, CapHit)
  {
  }

  lemma SilentReadKeepsWill(s: State, r: nat, e: ReaderStep, at: Pc)
    requires CanRead(s, r, e) && !e.Tick? && !e.Complain? && Socket in s.pc && CaptureOk(s, r)
    ensures var s' := DoRead(s, r, e);
            (WillClear(s, at) ==> WillClear(s', at)) && (WillConclude(s, at) ==> WillConclude(s', at))
  {
    match at
    case Commanding(c) => if c.Opened? || c.Announced? || c.DroppingStale? { SilentReadKeepsUnsettled(s, r, e, c.id); }
    case Closing(id, _) => SilentReadKeepsUnsettled(s, r, e, id);
    case _ =>
  }

  lemma ReadKeepsDuties(s: State, r: nat, e: ReaderStep)
    requires Sound(s) && RecordingEnds(s) && TranscribingEnds(s) && CanRead(s, r, e)
    ensures RecordingEnds(DoRead(s, r, e)) && TranscribingEnds(DoRead(s, r, e))
  {
    if e.Tick? { TickKeepsDuties(s, r); } else if !e.Complain? { SilentReadKeepsDuties(s, r, e); }
  }

  lemma CommandKeepsDuties(s: State, c: CommandStep)
    requires Sound(s) && RecordingEnds(s) && TranscribingEnds(s) && CanCommand(s, c)
    ensures RecordingEnds(DoCommand(s, c)) && TranscribingEnds(DoCommand(s, c))
  {
    var s' := DoCommand(s, c);
    assert ThreadOk(s, Socket);
    match c
    case Cancel => RecordingIsCleared(s', Socket); TranscribingIsConcluded(s', Socket);
    case Announce => if !s'.log.masked { RecordingIsCleared(s', Socket); }
    case CancelPublishes =>
    case OpenCapture(ok) => OpenKeepsDuties(s, ok);
    case _ => DutiesStay(s, s', Socket);
  }

  lemma OpenKeepsDuties(s: State, ok: bool)
    requires Sound(s) && RecordingEnds(s) && TranscribingEnds(s) && CanCommand(s, OpenCapture(ok))
    ensures RecordingEnds(OpenStep(s, ok)) && TranscribingEnds(OpenStep(s, ok))
  {
    var s' := OpenStep(s, ok);
    assert s.life.nextId in s.captures ==> CaptureOk(s, s.life.nextId);
    if s.board.state == Recording && !s.log.masked {
      var t :| t in s.pc && WillClear(s, s.pc[t]);
      assert ThreadOk(s, t) && SocketOk(s);
      assert WillClear(s', s'.pc[t]);
    }
    if s.board.state == Transcribing {
      var t :| t in s.pc && WillConclude(s, s.pc[t]);
      assert WillConclude(s', s'.pc[t]);
    }
  }

  lemma StepKeepsDuties(s: State, a: Step)
    requires Sound(s) && Faithful(s) && RecordingEnds(s) && TranscribingEnds(s)
    requires Enabled(s, a)
    ensures RecordingEnds(Next(s, a)) && TranscribingEnds(Next(s, a))
  {
    match a
    case Command(c) => CommandKeepsDuties(s, c);
    case Finish(th, f) => if f.LeaveReport? { LeaveReportKeepsDuties(s, th); } else { CloseKeepsDuties(s, th, f); }
    case Process(th, p) => ProcessKeepsDuties(s, th, p);
    case Read(r, e) => ReadKeepsDuties(s, r, e);
    case WakeRevert(g) =>
      if s.board.generation != g { DutiesStay(s, WakeStep(s, g), Socket); }
  }

  lemma StepKeepsMask(s: State, a: Step)
    requires MaskShows(s) && Enabled(s, a)
    ensures MaskShows(Next(s, a))
  {
  }
}
