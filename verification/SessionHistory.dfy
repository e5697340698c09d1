/** Nothing in the session happens twice: captures, clips, transcriptions, injections. */
module SessionHistory {
  import opened Common
  import opened SessionModel
  import opened SessionInvariants

  /** The histories say the same about `id` before and after. */
  ghost predicate SameRecord(s: State, s': State, id: nat) {
    && (id in s'.log.closed <==> id in s.log.closed)
    && (id in s'.log.handed <==> id in s.log.handed)
    && (id in s'.log.heard <==> id in s.log.heard)
    && (id in s'.log.injected <==> id in s.log.injected)
    && (PressedFor(s', id) <==> PressedFor(s, id))
  }

  lemma PlaceIsUnique(s: State, t: Thread, u: Thread, id: nat)
    requires Sound(s) && t != u && Has(s, t, id)
    ensures !Has(s, u, id) && s.life.slot != Some(id)
  {
    assert OnePlace(s, id) && ThreadOk(s, t);
    assert u in s.pc ==> ThreadOk(s, u);
  }

  /** `th` advances with its recording, or lets go of it; only its record changes. */
  lemma AdvanceKeepsProgress(s: State, s': State, th: Thread)
    requires Sound(s) && Progress(s) && th in s.pc && th in s'.pc
    requires s'.pc == s.pc[th := s'.pc[th]] && s'.life.slot == s.life.slot && s'.life.nextId == s.life.nextId
    requires forall id: nat :: Carried(s.pc[th]) != Some(id) ==> SameRecord(s, s', id)
    requires Carried(s'.pc[th]).Some? ==>
               && Carried(s'.pc[th]) == Carried(s.pc[th])
               && Recorded(s', Carried(s'.pc[th]).value, Stage(s'.pc[th]))
    ensures Progress(s')
  {
    assert ThreadOk(s, th);
    forall t | t in s'.pc && t != th && Carried(s'.pc[t]).Some?
      ensures Recorded(s', Carried(s'.pc[t]).value, Stage(s'.pc[t]))
    {
      var id := Carried(s'.pc[t]).value;
      PlaceIsUnique(s, t, th, id);
      assert SameRecord(s, s', id);
    }
    if s.life.slot.Some? {
      var id := s.life.slot.value;
      assert OnePlace(s, id);
      assert SameRecord(s, s', id);
    }
    forall id: nat | id >= s'.life.nextId ensures Recorded(s', id, 0) {
      assert Recorded(s, id, 0) && SameRecord(s, s', id);
    }
  }

  /** A step of `th` that writes no history: it goes on with its recording, or lets go of it. */
  predicate WritesNoHistory(s: State, s': State, th: Thread) {
    && th in s.pc && th in s'.pc
    && s'.pc == s.pc[th := s'.pc[th]] && s'.life.slot == s.life.slot && s'.life.nextId == s.life.nextId
    && s'.log == s.log.(shown := s'.log.shown, masked := s'.log.masked)
    && s'.desk.keystrokes == s.desk.keystrokes
    && (Carried(s'.pc[th]).Some? ==>
          && Carried(s'.pc[th]) == Carried(s.pc[th])
          && (Stage(s'.pc[th]) == Stage(s.pc[th]) || 3 <= Stage(s.pc[th]) <= Stage(s'.pc[th])))
  }

  lemma NoHistoryKeepsProgress(s: State, s': State, th: Thread)
    requires Sound(s) && Progress(s) && WritesNoHistory(s, s', th)
    ensures Progress(s') && (Once(s) ==> Once(s'))
  {
    forall id: nat ensures SameRecord(s, s', id) { }
    AdvanceKeepsProgress(s, s', th);
  }

  lemma TranscribedKeepsProgress(s: State, th: Thread, accepted: Option<string>)
    requires Sound(s) && Progress(s) && Once(s) && CanProcess(s, th, Transcribed(accepted))
    ensures Progress(DoProcess(s, th, Transcribed(accepted))) && Once(DoProcess(s, th, Transcribed(accepted)))
  {
    var id, s' := s.pc[th].id, DoProcess(s, th, Transcribed(accepted));
    assert Recorded(s, id, 2);
    NoDupAppend(s.log.heard, id);
    forall i: nat | i != id ensures SameRecord(s, s', i) { }
    assert PressedFor(s', id) ==> PressedFor(s, id);
    AdvanceKeepsProgress(s, s', th);
  }

  lemma CheckKeepsProgress(s: State, th: Thread, prepared: string)
    requires Sound(s) && Progress(s) && Once(s) && CanProcess(s, th, CheckCancelled(prepared))
    ensures var s' := CheckStep(s, th, s.pc[th].id, prepared); Progress(s') && Once(s')
  {
    var id, s' := s.pc[th].id, CheckStep(s, th, s.pc[th].id, prepared);
    CheckDecides(s, th, prepared);
    if id < s.life.cancelledBelow {
      NoHistoryKeepsProgress(s, s', th);
    } else {
      ClearKeepsProgress(s, s', th, id);
    }
  }

  /** `th` clears its clip `id` for injection, and writes nothing else. */
  predicate Clears(s: State, s': State, th: Thread, id: nat) {
    && th in s.pc && th in s'.pc
    && Carried(s.pc[th]) == Some(id) && Stage(s.pc[th]) == 3
    && s'.pc == s.pc[th := s'.pc[th]] && s'.life == s.life
    && s'.log == s.log.(injected := s.log.injected + [id], prepared := s'.log.prepared)
    && s'.desk.keystrokes == s.desk.keystrokes
    && Carried(s'.pc[th]) == Some(id) && Stage(s'.pc[th]) >= 4
  }

  lemma CheckDecides(s: State, th: Thread, prepared: string)
    requires CanProcess(s, th, CheckCancelled(prepared))
    ensures var id, s' := s.pc[th].id, CheckStep(s, th, s.pc[th].id, prepared);
            if id < s.life.cancelledBelow then WritesNoHistory(s, s', th) else Clears(s, s', th, id)
  {
  }

  /** A clip is cleared for injection. */
  lemma ClearKeepsProgress(s: State, s': State, th: Thread, id: nat)
    requires Sound(s) && Progress(s) && Once(s) && Clears(s, s', th, id)
    ensures Progress(s') && Once(s')
  {
    assert Recorded(s, id, 3);
    NoDupAppend(s.log.injected, id);
    forall i: nat | i != id ensures SameRecord(s, s', i) { }
    assert PressedFor(s', id) ==> PressedFor(s, id);
    AdvanceKeepsProgress(s, s', th);
  }

  lemma PressKeepsProgress(s: State, th: Thread)
    requires Sound(s) && Progress(s) && Once(s) && CanProcess(s, th, PressKeys(true))
    ensures Progress(DoProcess(s, th, PressKeys(true))) && Once(DoProcess(s, th, PressKeys(true)))
  {
    var id, s' := s.pc[th].id, DoProcess(s, th, PressKeys(true));
    var ks := s.desk.keystrokes;
    assert Recorded(s, id, 4);
    forall i: nat | i != id ensures SameRecord(s, s', i) {
      if PressedFor(s, i) {
        var k :| 0 <= k < |ks| && ks[k].id == i;
        assert s'.desk.keystrokes[k].id == i;
      }
    }
    AdvanceKeepsProgress(s, s', th);
    forall k | 0 <= k < |ks| ensures ks[k].id != id { assert !PressedFor(s, id); }
  }

  predicate WritesNothing(p: ProcessStep) {
    p.LockInjection? || p.TypeText? || p.SaveClipboard? || p.CopyText? || p.RestoreClipboard? || p == PressKeys(false)
  }

  lemma InjectWritesNoHistory(s: State, th: Thread, p: ProcessStep)
    requires CanProcess(s, th, p) && WritesNothing(p)
    ensures WritesNoHistory(s, DoProcess(s, th, p), th)
  {
  }

  lemma InjectKeepsProgress(s: State, th: Thread, p: ProcessStep)
    requires Sound(s) && Progress(s) && Once(s) && CanProcess(s, th, p) && WritesNothing(p)
    ensures Progress(DoProcess(s, th, p)) && Once(DoProcess(s, th, p))
  {
    InjectWritesNoHistory(s, th, p);
    NoHistoryKeepsProgress(s, DoProcess(s, th, p), th);
  }

  lemma ProcessKeepsProgress(s: State, th: Thread, p: ProcessStep)
    requires Sound(s) && Progress(s) && Once(s) && CanProcess(s, th, p)
    ensures Progress(DoProcess(s, th, p)) && Once(DoProcess(s, th, p))
  {
    match p
    case Transcribed(accepted) => TranscribedKeepsProgress(s, th, accepted);
    case CheckCancelled(prepared) => CheckKeepsProgress(s, th, prepared);
    case PressKeys(ok) => if ok { PressKeepsProgress(s, th); } else { InjectKeepsProgress(s, th, p); }
    case _ => InjectKeepsProgress(s, th, p);
  }

  // ------------------------------------------------------------------
  // Closing and reporting
  // ------------------------------------------------------------------

  lemma ChooseCloseKeepsProgress(s: State, th: Thread)
    requires Sound(s) && Progress(s) && Once(s) && CanFinish(s, th, ChooseClose)
    ensures Progress(DoFinish(s, th, ChooseClose)) && Once(DoFinish(s, th, ChooseClose))
  {
    var id, s' := s.pc[th].id, DoFinish(s, th, ChooseClose);
    assert Recorded(s, id, 0);
    NoDupAppend(s.log.closed, id);
    forall i: nat | i != id ensures SameRecord(s, s', i) { }
    assert PressedFor(s', id) ==> PressedFor(s, id);
    AdvanceKeepsProgress(s, s', th);
  }

  /** A recording that closed becomes a clip. */
  lemma HandKeepsProgress(s: State, s': State, th: Thread, id: nat)
    requires Sound(s) && Progress(s) && Once(s) && th in s.pc && th in s'.pc
    requires Carried(s.pc[th]) == Some(id) && Stage(s.pc[th]) == 1
    requires s'.pc == s.pc[th := s'.pc[th]] && s'.life == s.life.(lock := s'.life.lock) && s'.desk == s.desk
    requires s'.log == s.log.(handed := s.log.handed + [id], shown := s'.log.shown, masked := s'.log.masked)
    requires Carried(s'.pc[th]).None? || s'.pc[th] == Processing(id, Hearing)
    ensures Progress(s') && Once(s') && Recorded(s', id, 2)
  {
    assert Recorded(s, id, 1);
    NoDupAppend(s.log.handed, id);
    forall i: nat | i != id ensures SameRecord(s, s', i) { }
    assert PressedFor(s', id) ==> PressedFor(s, id);
    AdvanceKeepsProgress(s, s', th);
  }

  lemma SpawnKeepsProgress(s: State, s': State, th: Thread)
    requires Progress(s) && th in s'.pc
    requires s'.pc == s.pc[th := s'.pc[th]] && s'.life == s.life && s'.log == s.log && s'.desk == s.desk
    requires Carried(s'.pc[th]).Some? ==> Recorded(s, Carried(s'.pc[th]).value, Stage(s'.pc[th]))
    ensures Progress(s')
  {
    forall id: nat ensures SameRecord(s, s', id) { }
    forall t | t in s'.pc && Carried(s'.pc[t]).Some?
      ensures Recorded(s', Carried(s'.pc[t]).value, Stage(s'.pc[t]))
    {
      assert SameRecord(s, s', Carried(s'.pc[t]).value);
    }
    if s'.life.slot.Some? { assert SameRecord(s, s', s'.life.slot.value); }
    forall i: nat | i >= s'.life.nextId ensures Recorded(s', i, 0) {
      assert Recorded(s, i, 0) && SameRecord(s, s', i);
    }
  }

  lemma FinishWritesNoHistory(s: State, th: Thread, f: FinishStep)
    requires CanFinish(s, th, f) && !f.AutoTake? && !f.ChooseClose?
    requires f.LeaveReport? ==> s.pc[th].news != ClipReady
    ensures WritesNoHistory(s, DoFinish(s, th, f), th)
  {
  }

  lemma LeaveReportKeepsProgress(s: State, th: Thread)
    requires Sound(s) && Progress(s) && Once(s) && CanFinish(s, th, LeaveReport)
    requires s.pc[th].news != ClipReady || th != Socket
    ensures Progress(DoFinish(s, th, LeaveReport)) && Once(DoFinish(s, th, LeaveReport))
  {
    var s' := DoFinish(s, th, LeaveReport);
    if s.pc[th].news == ClipReady {
      HandKeepsProgress(s, s', th, s.pc[th].id);
    } else {
      FinishWritesNoHistory(s, th, LeaveReport);
      NoHistoryKeepsProgress(s, s', th);
    }
  }

  /** `stop` hands a clip to a worker thread, which did not exist before. */
  lemma HandOffKeepsProgress(s: State)
    requires Sound(s) && Progress(s) && Once(s) && CanFinish(s, Socket, LeaveReport)
    requires s.pc[Socket].news == ClipReady
    ensures Worker(s.pc[Socket].id) !in s.pc
    ensures Progress(DoFinish(s, Socket, LeaveReport)) && Once(DoFinish(s, Socket, LeaveReport))
  {
    var id, s' := s.pc[Socket].id, DoFinish(s, Socket, LeaveReport);
    assert Recorded(s, id, 1);
    assert Worker(id) in s.pc ==> ThreadOk(s, Worker(id));
    var mid := s'.(pc := s.pc[Socket := Listening]);
    HandKeepsProgress(s, mid, Socket, id);
    SpawnKeepsProgress(mid, s', Worker(id));
  }

  lemma FinishKeepsProgress(s: State, th: Thread, f: FinishStep)
    requires Sound(s) && Progress(s) && Once(s) && CanFinish(s, th, f)
    ensures Progress(DoFinish(s, th, f)) && Once(DoFinish(s, th, f))
  {
    match f
    case AutoTake => AutoTakeKeepsProgress(s, th);
    case ChooseClose => ChooseCloseKeepsProgress(s, th);
    case LeaveReport =>
      if th == Socket && s.pc[th].news == ClipReady { HandOffKeepsProgress(s); } else { LeaveReportKeepsProgress(s, th); }
    case _ => FinishWritesNoHistory(s, th, f); NoHistoryKeepsProgress(s, DoFinish(s, th, f), th);
  }

  // ------------------------------------------------------------------
  // The slot
  // ------------------------------------------------------------------

  lemma AutoTakeKeepsProgress(s: State, th: Thread)
    requires Sound(s) && Progress(s) && Once(s) && CanFinish(s, th, AutoTake)
    ensures Progress(DoFinish(s, th, AutoTake)) && Once(DoFinish(s, th, AutoTake))
  {
    TakeKeepsProgress(s, DoFinish(s, th, AutoTake), th);
  }

  /** A thread that carries nothing takes the recording out of the slot, or leaves it. */
  lemma TakeKeepsProgress(s: State, s': State, th: Thread)
    requires Sound(s) && Progress(s) && Once(s) && th in s.pc && th in s'.pc
    requires s'.pc == s.pc[th := s'.pc[th]] && s'.life == s.life.(slot := s'.life.slot)
    requires s'.log == s.log && s'.desk == s.desk
    requires s'.life.slot == s.life.slot || s'.life.slot.None?
    requires Carried(s'.pc[th]).Some? ==> Carried(s'.pc[th]) == s.life.slot && Stage(s'.pc[th]) == 0
    ensures Progress(s') && Once(s')
  {
    var mid := s'.(life := s.life);
    SpawnKeepsProgress(s, mid, th);
    forall id: nat ensures SameRecord(mid, s', id) { }
    assert forall t :: t in s'.pc && Carried(s'.pc[t]).Some? ==>
                         SameRecord(mid, s', Carried(s'.pc[t]).value);
    forall i: nat | i >= s'.life.nextId ensures Recorded(s', i, 0) {
      assert Recorded(mid, i, 0) && SameRecord(mid, s', i);
    }
  }

  /** The recording in the slot is closed on the spot. */
  lemma DropKeepsProgress(s: State, s': State, at: Pc)
    requires Sound(s) && Progress(s) && Once(s) && s.life.slot.Some?
    requires s'.pc == s.pc[Socket := at] && Carried(at).None?
    requires s'.life.slot.None? && s'.life.nextId == s.life.nextId && s'.desk == s.desk
    requires s'.log == s.log.(closed := s.log.closed + [s.life.slot.value])
    ensures Progress(s') && Once(s')
  {
    var id := s.life.slot.value;
    assert Recorded(s, id, 0);
    NoDupAppend(s.log.closed, id);
    forall i: nat | i != id ensures SameRecord(s, s', i) { }
    forall t | t in s'.pc && Carried(s'.pc[t]).Some?
      ensures Recorded(s', Carried(s'.pc[t]).value, Stage(s'.pc[t]))
    {
      var i := Carried(s'.pc[t]).value;
      assert Has(s, t, i) && ThreadOk(s, t) && OnePlace(s, i);
      assert SameRecord(s, s', i);
    }
    assert CaptureOk(s, id);
    forall i: nat | i >= s'.life.nextId ensures Recorded(s', i, 0) {
      assert Recorded(s, i, 0) && SameRecord(s, s', i);
    }
  }

  lemma OpenKeepsProgress(s: State, ok: bool)
    requires Sound(s) && Progress(s) && Once(s) && CanCommand(s, OpenCapture(ok))
    ensures Progress(OpenStep(s, ok)) && Once(OpenStep(s, ok))
  {
    var s', id := OpenStep(s, ok), s.life.nextId;
    forall i: nat ensures SameRecord(s, s', i) { }
    assert Recorded(s, id, 0);
    forall t | t in s'.pc && Carried(s'.pc[t]).Some?
      ensures Recorded(s', Carried(s'.pc[t]).value, Stage(s'.pc[t]))
    {
      assert SameRecord(s, s', Carried(s'.pc[t]).value);
    }
    forall i: nat | i >= s'.life.nextId ensures Recorded(s', i, 0) {
      assert Recorded(s, i, 0) && SameRecord(s, s', i);
    }
  }

  lemma FillKeepsProgress(s: State)
    requires Sound(s) && Progress(s) && Once(s) && CanCommand(s, FillSlot)
    ensures Progress(DoCommand(s, FillSlot)) && Once(DoCommand(s, FillSlot))
  {
    var id, s' := s.pc[Socket].command.id, DoCommand(s, FillSlot);
    assert Recorded(s, id, 0);
    assert ThreadOk(s, Socket);
    forall i: nat ensures SameRecord(s, s', i) { }
    forall t | t in s'.pc && Carried(s'.pc[t]).Some?
      ensures Recorded(s', Carried(s'.pc[t]).value, Stage(s'.pc[t]))
    {
      assert SameRecord(s, s', Carried(s'.pc[t]).value);
    }
    assert SameRecord(s, s', id);
    forall i: nat | i >= s'.life.nextId ensures Recorded(s', i, 0) {
      assert Recorded(s, i, 0) && SameRecord(s, s', i);
    }
  }

  lemma CommandKeepsProgress(s: State, c: CommandStep)
    requires Sound(s) && Progress(s) && Once(s) && CanCommand(s, c)
    ensures Progress(DoCommand(s, c)) && Once(DoCommand(s, c))
  {
    var s' := DoCommand(s, c);
    match c
    case OpenCapture(ok) => OpenKeepsProgress(s, ok);
    case FillSlot => FillKeepsProgress(s);
    case Stop => TakeKeepsProgress(s, s', Socket);
    case LookAtSlot =>
      if s.life.slot.Some? && !IsRecording(s) { DropKeepsProgress(s, s', s'.pc[Socket]); }
      else { NoHistoryKeepsProgress(s, s', Socket); }
    case Cancel =>
      if s.life.slot.Some? { DropKeepsProgress(s, s', s'.pc[Socket]); } else { NoHistoryKeepsProgress(s, s', Socket); }
    case _ => NoHistoryKeepsProgress(s, s', Socket);
  }

  lemma ReadKeepsProgress(s: State, r: nat, e: ReaderStep)
    requires Progress(s) && Once(s) && CanRead(s, r, e)
    ensures Progress(DoRead(s, r, e)) && Once(DoRead(s, r, e))
  {
    var s' := DoRead(s, r, e);
    forall i: nat ensures SameRecord(s, s', i) { }
    forall t | t in s'.pc && Carried(s'.pc[t]).Some?
      ensures Recorded(s', Carried(s'.pc[t]).value, Stage(s'.pc[t]))
    {
      assert SameRecord(s, s', Carried(s'.pc[t]).value);
    }
    if s'.life.slot.Some? { assert SameRecord(s, s', s'.life.slot.value); }
    forall i: nat | i >= s'.life.nextId ensures Recorded(s', i, 0) {
      assert Recorded(s, i, 0) && SameRecord(s, s', i);
    }
  }

  lemma StepKeepsProgress(s: State, a: Step)
    requires Sound(s) && Progress(s) && Once(s) && Enabled(s, a)
    ensures Progress(Next(s, a)) && Once(Next(s, a))
  {
    match a
    case Command(c) => CommandKeepsProgress(s, c);
    case Finish(th, f) => FinishKeepsProgress(s, th, f);
    case Process(th, p) => ProcessKeepsProgress(s, th, p);
    case Read(r, e) => ReadKeepsProgress(s, r, e);
    case WakeRevert(g) => NoHistoryKeepsProgress(s, WakeStep(s, g), Socket);
  }

  lemma ProcessKeepsChain(s: State, th: Thread, p: ProcessStep)
    requires Progress(s) && Chain(s) && CanProcess(s, th, p)
    ensures Chain(DoProcess(s, th, p))
  {
    assert Recorded(s, s.pc[th].id, Stage(s.pc[th]));
  }

  lemma FinishKeepsChain(s: State, th: Thread, f: FinishStep)
    requires Progress(s) && Chain(s) && CanFinish(s, th, f)
    ensures Chain(DoFinish(s, th, f))
  {
    assert f.LeaveReport? && s.pc[th].news.ClipReady? ==> Recorded(s, s.pc[th].id, 1);
  }

  lemma CommandKeepsChain(s: State, c: CommandStep)
    requires Chain(s) && CanCommand(s, c)
    ensures Chain(DoCommand(s, c))
  {
  }

  lemma ReadKeepsChain(s: State, r: nat, e: ReaderStep)
    requires Chain(s) && CanRead(s, r, e)
    ensures Chain(DoRead(s, r, e))
  {
  }

  lemma StepKeepsChain(s: State, a: Step)
    requires Progress(s) && Chain(s) && Enabled(s, a)
    ensures Chain(Next(s, a))
  {
    match a
    case Command(c) => CommandKeepsChain(s, c);
    case Finish(th, f) => FinishKeepsChain(s, th, f);
    case Process(th, p) => ProcessKeepsChain(s, th, p);
    case Read(r, e) => ReadKeepsChain(s, r, e);
    case WakeRevert(g) =>
  }
}
