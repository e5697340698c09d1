/** Every step keeps the session sound: threads, locks and recordings. */
module SessionProofs {
  import opened Common
  import opened SessionModel
  import opened SessionInvariants

  // ------------------------------------------------------------------
  // Steps that only move one thread
  // ------------------------------------------------------------------

  /** A lock stays with its holder, or passes between `th` and nobody. */
  predicate PassedBy(before: Option<Thread>, after: Option<Thread>, th: Thread) {
    after == before || (before.None? && after == Some(th)) || (before == Some(th) && after.None?)
  }

  /** `th` moves on with what it carries, or lets go of it; the slot and the captures stay. */
  predicate Moves(s: State, s': State, th: Thread) {
    && Socket in s.pc && th in s.pc && th in s'.pc
    && s'.pc == s.pc[th := s'.pc[th]] && s'.captures == s.captures && s.log.handed <= s'.log.handed
    && s'.life == s.life.(lock := s'.life.lock)
    && PassedBy(s.life.lock, s'.life.lock, th) && PassedBy(s.desk.lock, s'.desk.lock, th)
    && ThreadOk(s', th)
    && (Carried(s'.pc[th]).None? || Carried(s'.pc[th]) == Carried(s.pc[th]))
    && (th == Socket ==>
          && SocketOk(s')
          && (SocketCapture(s'.pc[th]) == SocketCapture(s.pc[th])
              || (SocketCapture(s.pc[th]).Some? ==> Joinable(s, SocketCapture(s.pc[th]).value))))
  }

  lemma MoveKeepsThreads(s: State, s': State, th: Thread)
    requires Threads(s) && Moves(s, s', th)
    ensures Threads(s')
  {
    forall t | t in s'.pc ensures ThreadOk(s', t) {
      if t != th { assert ThreadOk(s, t); }
    }
  }

  lemma MoveKeepsPlaces(s: State, s': State, th: Thread)
    requires Moves(s, s', th) && forall id :: OnePlace(s, id)
    ensures forall id :: OnePlace(s', id)
  {
    forall id ensures OnePlace(s', id) { assert OnePlace(s, id); }
  }

  lemma MoveKeepsCaptures(s: State, s': State, th: Thread)
    requires Moves(s, s', th) && forall r :: r in s.captures ==> CaptureOk(s, r)
    ensures forall r :: r in s'.captures ==> CaptureOk(s', r)
  {
    forall r | r in s'.captures ensures CaptureOk(s', r) { assert CaptureOk(s, r); }
  }

  lemma MoveKeepsSound(s: State, s': State, th: Thread)
    requires Sound(s) && Moves(s, s', th)
    ensures Sound(s')
  {
    MoveKeepsThreads(s, s', th);
    MoveKeepsPlaces(s, s', th);
    MoveKeepsCaptures(s, s', th);
  }

  /** A cancelled clip ends, and gives the injection lock back. */
  lemma CancelledMoves(s: State, th: Thread, prepared: string)
    requires Socket in s.pc && CanProcess(s, th, CheckCancelled(prepared)) && ThreadOk(s, th)
    requires s.pc[th].id < s.life.cancelledBelow
    ensures Moves(s, CheckStep(s, th, s.pc[th].id, prepared), th)
  {
  }

  /** A cleared clip is typed, pasted, or fails for want of paste keys. */
  lemma ClearedMoves(s: State, th: Thread, prepared: string)
    requires Socket in s.pc && CanProcess(s, th, CheckCancelled(prepared)) && ThreadOk(s, th)
    requires s.pc[th].id >= s.life.cancelledBelow
    ensures Moves(s, CheckStep(s, th, s.pc[th].id, prepared), th)
  {
  }

  lemma InjectMoves(s: State, th: Thread, p: ProcessStep)
    requires Socket in s.pc && CanProcess(s, th, p) && ThreadOk(s, th)
    requires p.TypeText? || p.SaveClipboard? || p.RestoreClipboard?
    ensures Moves(s, DoProcess(s, th, p), th)
  {
  }

  lemma PasteMoves(s: State, th: Thread, p: ProcessStep)
    requires Socket in s.pc && CanProcess(s, th, p) && ThreadOk(s, th) && (p.CopyText? || p.PressKeys?)
    ensures Moves(s, DoProcess(s, th, p), th)
  {
  }

  lemma QueueMoves(s: State, th: Thread, p: ProcessStep)
    requires Socket in s.pc && CanProcess(s, th, p) && ThreadOk(s, th) && (p.Transcribed? || p.LockInjection?)
    ensures Moves(s, DoProcess(s, th, p), th)
  {
  }

  lemma ProcessMoves(s: State, th: Thread, p: ProcessStep)
    requires Socket in s.pc && CanProcess(s, th, p) && ThreadOk(s, th)
    ensures Moves(s, DoProcess(s, th, p), th)
  {
    match p
    case CheckCancelled(prepared) =>
      if s.pc[th].id < s.life.cancelledBelow { CancelledMoves(s, th, prepared); } else { ClearedMoves(s, th, prepared); }
    case CopyText(_) => PasteMoves(s, th, p);
    case PressKeys(_) => PasteMoves(s, th, p);
    case Transcribed(_) => QueueMoves(s, th, p);
    case LockInjection => QueueMoves(s, th, p);
    case _ => InjectMoves(s, th, p);
  }

  /** Processing a clip moves one thread, and leaves recordings to the others. */
  predicate OnlyMoves(s: State, s': State, th: Thread) {
    && th in s.pc && th in s'.pc && s'.pc == s.pc[th := s'.pc[th]]
    && s'.life == s.life && s'.captures == s.captures
    && s'.log.closed == s.log.closed && s'.log.handed == s.log.handed
    && s.log.heard <= s'.log.heard && s.log.injected <= s'.log.injected
  }

  lemma ProcessOnlyMoves(s: State, th: Thread, p: ProcessStep)
    requires CanProcess(s, th, p)
    ensures OnlyMoves(s, DoProcess(s, th, p), th)
  {
  }

  lemma ProcessKeepsSound(s: State, th: Thread, p: ProcessStep)
    requires Sound(s) && CanProcess(s, th, p)
    ensures Sound(DoProcess(s, th, p))
  {
    ProcessMoves(s, th, p);
    MoveKeepsSound(s, DoProcess(s, th, p), th);
  }

  lemma EnterReportMoves(s: State, th: Thread)
    requires Socket in s.pc && CanFinish(s, th, EnterReport) && ThreadOk(s, th) && SocketOk(s)
    ensures Moves(s, EnterReportStep(s, th, s.pc[th].id, s.pc[th].news), th)
  {
  }

  lemma CloseMoves(s: State, th: Thread, f: FinishStep)
    requires Socket in s.pc && CanFinish(s, th, f) && ThreadOk(s, th) && SocketOk(s)
    requires f.ChooseClose? || f.DiscardJoined? || f.FinishJoined?
    ensures Moves(s, DoFinish(s, th, f), th)
  {
  }

  lemma LastReportMoves(s: State, th: Thread)
    requires Socket in s.pc && CanFinish(s, th, LeaveReport) && ThreadOk(s, th) && SocketOk(s)
    requires s.pc[th].news != ClipReady
    ensures Moves(s, DoFinish(s, th, LeaveReport), th)
  {
  }

  lemma ReadyReportMoves(s: State, th: Thread)
    requires Socket in s.pc && CanFinish(s, th, LeaveReport) && ThreadOk(s, th)
    requires s.pc[th].news == ClipReady && th != Socket
    ensures Moves(s, DoFinish(s, th, LeaveReport), th)
  {
  }

  /** A thread starts; it may be responsible for a recording nobody else has. */
  lemma SpawnKeepsSound(s: State, s': State, th: Thread)
    requires Sound(s) && th in s'.pc && !th.Socket?
    requires th in s.pc ==> s.pc[th].Ended?
    requires s'.pc == s.pc[th := s'.pc[th]]
    requires s'.life == s.life && s'.captures == s.captures && s'.desk == s.desk
    requires s.log.handed <= s'.log.handed
    requires ThreadOk(s', th)
    requires Carried(s'.pc[th]).Some? ==>
               var id := Carried(s'.pc[th]).value;
               s.life.slot != Some(id) && !Has(s, Socket, id) && !Has(s, Auto(id), id) && !Has(s, Worker(id), id)
    ensures Sound(s')
  {
    forall t | t in s'.pc ensures ThreadOk(s', t) {
      if t != th { assert ThreadOk(s, t); }
    }
    forall i ensures OnePlace(s', i) { assert OnePlace(s, i); }
    forall r | r in s'.captures ensures CaptureOk(s', r) { assert CaptureOk(s, r); }
  }

  lemma HandOffMoves(s: State, mid: State)
    requires Socket in s.pc && CanFinish(s, Socket, LeaveReport) && s.pc[Socket].news == ClipReady
    requires ThreadOk(s, Socket) && SocketOk(s)
    requires mid == DoFinish(s, Socket, LeaveReport).(pc := s.pc[Socket := Listening])
    ensures Moves(s, mid, Socket)
  {
  }

  /** `stop` hands a clip to a worker thread that is not running yet, and listens again. */
  lemma HandOffKeepsSound(s: State)
    requires Sound(s) && CanFinish(s, Socket, LeaveReport) && s.pc[Socket].news == ClipReady
    ensures Sound(DoFinish(s, Socket, LeaveReport))
  {
    var id, s' := s.pc[Socket].id, DoFinish(s, Socket, LeaveReport);
    var mid := s'.(pc := s.pc[Socket := Listening]);
    HandOffMoves(s, mid);
    MoveKeepsSound(s, mid, Socket);
    WorkerIsFree(s, id);
    SpawnKeepsSound(mid, s', Worker(id));
  }

  lemma WorkerIsFree(s: State, id: nat)
    requires Sound(s) && Has(s, Socket, id)
    ensures Worker(id) in s.pc ==> s.pc[Worker(id)].Ended?
    ensures s.life.slot != Some(id) && !Has(s, Auto(id), id) && !Has(s, Worker(id), id)
  {
    assert OnePlace(s, id);
    assert Worker(id) in s.pc ==> ThreadOk(s, Worker(id));
  }

  // ------------------------------------------------------------------
  // Commands
  // ------------------------------------------------------------------

  lemma LookAtSlotMoves(s: State)
    requires Socket in s.pc && CanCommand(s, LookAtSlot) && ThreadOk(s, Socket) && SocketOk(s)
    requires s.life.slot.Some? ==> IsRecording(s)
    ensures Moves(s, LookAtSlotStep(s), Socket)
  {
  }

  lemma LookAtSlotKeepsSound(s: State)
    requires Sound(s) && CanCommand(s, LookAtSlot)
    ensures Sound(LookAtSlotStep(s))
  {
    var s' := LookAtSlotStep(s);
    if s.life.slot.Some? && !IsRecording(s) {
      DropSlotKeepsSound(s, s');
    } else {
      LookAtSlotMoves(s);
      MoveKeepsSound(s, s', Socket);
    }
  }

  lemma DropSlotKeepsSound(s: State, s': State)
    requires Sound(s) && CanCommand(s, LookAtSlot) && s.life.slot.Some? && !IsRecording(s)
    requires s' == LookAtSlotStep(s)
    ensures Sound(s')
  {
    assert ThreadOk(s, Socket);
    forall t | t in s'.pc ensures ThreadOk(s', t) {
      if t != Socket { assert ThreadOk(s, t); }
    }
    forall id ensures OnePlace(s', id) { assert OnePlace(s, id); }
    forall r | r in s'.captures ensures CaptureOk(s', r) { assert CaptureOk(s, r); }
  }

  lemma FillSlotKeepsSound(s: State)
    requires Sound(s) && CanCommand(s, FillSlot)
    ensures Sound(FillStep(s, s.pc[Socket].command.id))
  {
    var s' := FillStep(s, s.pc[Socket].command.id);
    assert ThreadOk(s, Socket);
    forall t | t in s'.pc ensures ThreadOk(s', t) {
      if t != Socket { assert ThreadOk(s, t); }
    }
    forall id ensures OnePlace(s', id) { assert OnePlace(s, id); }
    forall r | r in s'.captures ensures CaptureOk(s', r) { assert CaptureOk(s, r); }
  }

  lemma StopKeepsSound(s: State)
    requires Sound(s) && CanCommand(s, Stop)
    ensures Sound(StopStep(s))
  {
    var s' := StopStep(s);
    assert ThreadOk(s, Socket);
    forall t | t in s'.pc ensures ThreadOk(s', t) {
      if t != Socket { assert ThreadOk(s, t); }
    }
    forall id ensures OnePlace(s', id) { assert OnePlace(s, id); }
    forall r | r in s'.captures ensures CaptureOk(s', r) { assert CaptureOk(s, r); }
  }

  lemma CancelKeepsThreads(s: State)
    requires Threads(s) && CanCommand(s, Cancel)
    ensures Threads(CancelStep(s))
  {
    var s' := CancelStep(s);
    assert ThreadOk(s, Socket);
    forall t | t in s'.pc ensures ThreadOk(s', t) {
      if t != Socket { assert ThreadOk(s, t); }
    }
  }

  lemma CancelKeepsSound(s: State)
    requires Sound(s) && CanCommand(s, Cancel)
    ensures Sound(CancelStep(s))
  {
    var s' := CancelStep(s);
    CancelKeepsThreads(s);
    forall id ensures OnePlace(s', id) { assert OnePlace(s, id); }
    forall r | r in s'.captures ensures CaptureOk(s', r) { assert CaptureOk(s, r); }
  }

  lemma OpenKeepsSound(s: State, ok: bool)
    requires Sound(s) && CanCommand(s, OpenCapture(ok))
    ensures Sound(OpenStep(s, ok))
  {
    var s' := OpenStep(s, ok);
    assert ThreadOk(s, Socket);
    assert s.life.nextId in s.captures ==> CaptureOk(s, s.life.nextId);
    forall t | t in s'.pc ensures ThreadOk(s', t) {
      if t != Socket { assert ThreadOk(s, t); }
    }
    forall id ensures OnePlace(s', id) {
      assert OnePlace(s, id);
      assert Auto(id) in s.pc ==> ThreadOk(s, Auto(id));
      assert Worker(id) in s.pc ==> ThreadOk(s, Worker(id));
    }
    forall r | r in s'.captures ensures CaptureOk(s', r) {
      if r != s.life.nextId { assert CaptureOk(s, r); }
    }
  }

  lemma QuietCommandMoves(s: State, c: CommandStep)
    requires Socket in s.pc && CanCommand(s, c) && ThreadOk(s, Socket) && SocketOk(s)
    requires c.Start? || c.StaleJoined? || c.Announce? || c.CancelJoined? || c.CancelPublishes?
    ensures Moves(s, DoCommand(s, c), Socket)
  {
  }

  lemma CommandKeepsSound(s: State, c: CommandStep)
    requires Sound(s) && CanCommand(s, c)
    ensures Sound(DoCommand(s, c))
  {
    match c
    case OpenCapture(ok) => OpenKeepsSound(s, ok);
    case LookAtSlot => LookAtSlotKeepsSound(s);
    case FillSlot => FillSlotKeepsSound(s);
    case Stop => StopKeepsSound(s);
    case Cancel => CancelKeepsSound(s);
    case _ => QuietCommandMoves(s, c); MoveKeepsSound(s, DoCommand(s, c), Socket);
  }

  // ------------------------------------------------------------------
  // Auto-finish, readers, reverts
  // ------------------------------------------------------------------

  lemma AutoTakeMoves(s: State, th: Thread)
    requires Socket in s.pc && CanFinish(s, th, AutoTake) && ThreadOk(s, th) && s.life.slot != Some(s.pc[th].id)
    ensures Moves(s, AutoTakeStep(s, th, s.pc[th].id), th)
  {
  }

  lemma AutoTakeKeepsSound(s: State, th: Thread)
    requires Sound(s) && CanFinish(s, th, AutoTake)
    ensures Sound(AutoTakeStep(s, th, s.pc[th].id))
  {
    var id := s.pc[th].id;
    var s' := AutoTakeStep(s, th, id);
    assert ThreadOk(s, th);
    if s.life.slot == Some(id) {
      forall t | t in s'.pc ensures ThreadOk(s', t) {
        if t != th { assert ThreadOk(s, t); }
      }
      assert OnePlace(s, id) && CaptureOk(s, id);
      forall i ensures OnePlace(s', i) { assert OnePlace(s, i); }
      forall r | r in s'.captures ensures CaptureOk(s', r) { assert CaptureOk(s, r); }
    } else {
      AutoTakeMoves(s, th);
      MoveKeepsSound(s, s', th);
    }
  }

  lemma FinishKeepsSound(s: State, th: Thread, f: FinishStep)
    requires Sound(s) && CanFinish(s, th, f)
    ensures Sound(DoFinish(s, th, f))
  {
    match f
    case AutoTake => AutoTakeKeepsSound(s, th);
    case EnterReport => EnterReportMoves(s, th); MoveKeepsSound(s, DoFinish(s, th, f), th);
    case LeaveReport =>
      if th == Socket && s.pc[th].news == ClipReady {
        HandOffKeepsSound(s);
      } else {
        if s.pc[th].news == ClipReady { ReadyReportMoves(s, th); } else { LastReportMoves(s, th); }
        MoveKeepsSound(s, DoFinish(s, th, f), th);
      }
    case _ => CloseMoves(s, th, f); MoveKeepsSound(s, DoFinish(s, th, f), th);
  }

  /** A reader moves on without getting louder. */
  lemma ReaderKeepsSound(s: State, s': State, r: nat)
    requires Sound(s) && r in s.captures && r in s'.captures
    requires s'.captures == s.captures[r := s'.captures[r]] && s'.pc == s.pc && s'.life == s.life
    requires s'.log.handed == s.log.handed && s'.desk == s.desk
    requires s.captures[r].autoStopped ==> s'.captures[r].autoStopped
    requires s.captures[r].reader.Gone? ==> s'.captures[r] == s.captures[r]
    requires CaptureOk(s', r)
    ensures Sound(s')
  {
    forall t | t in s'.pc ensures ThreadOk(s', t) { assert ThreadOk(s, t); }
    forall id ensures OnePlace(s', id) { assert OnePlace(s, id); }
    forall q | q in s'.captures ensures CaptureOk(s', q) { assert CaptureOk(s, q); }
  }

  /** A silent reader spawns its auto-finish thread, which did not exist before. */
  lemma SpawnAutoKeepsSound(s: State, r: nat)
    requires Sound(s) && CanRead(s, r, SpawnAuto)
    ensures Auto(r) !in s.pc
    ensures Sound(DoRead(s, r, SpawnAuto))
  {
    assert Auto(r) in s.pc ==> ThreadOk(s, Auto(r));
    assert CaptureOk(s, r);
    var mid := SetReader(s, r, Gone);
    ReaderKeepsSound(s, mid, r);
    SpawnKeepsSound(mid, DoRead(s, r, SpawnAuto), Auto(r));
  }

  lemma ReadKeepsSound(s: State, r: nat, e: ReaderStep)
    requires Sound(s) && CanRead(s, r, e)
    ensures Sound(DoRead(s, r, e))
  {
    if e.SpawnAuto? {
      SpawnAutoKeepsSound(s, r);
    } else {
      assert CaptureOk(s, r);
      ReaderKeepsSound(s, DoRead(s, r, e), r);
    }
  }

  lemma WakeMoves(s: State, g: nat)
    requires Socket in s.pc && ThreadOk(s, Socket) && SocketOk(s)
    ensures Moves(s, WakeStep(s, g), Socket)
  {
  }

  lemma StepKeepsSound(s: State, a: Step)
    requires Sound(s) && Enabled(s, a)
    ensures Sound(Next(s, a))
  {
    match a
    case Command(c) => CommandKeepsSound(s, c);
    case Finish(th, f) => FinishKeepsSound(s, th, f);
    case Process(th, p) => ProcessKeepsSound(s, th, p);
    case Read(r, e) => ReadKeepsSound(s, r, e);
    case WakeRevert(g) => WakeMoves(s, g); MoveKeepsSound(s, WakeStep(s, g), Socket);
  }
}
