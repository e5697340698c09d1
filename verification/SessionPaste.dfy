/** Deliveries of many clips, step by step under the injection lock, are as good as one after the other. */
module SessionPaste {
  import opened Common
  import opened Injection
  import opened SessionModel
  import opened SessionInvariants
  import opened SessionProofs

  /** What the clipboard holds while a delivery that found `before` on it is under way. */
  predicate MidDelivery(before: Clipboard, clipboard: Clipboard, text: string, at: InjectAt) {
    match at
    case Copying(saved, readable) => clipboard == before && saved == Save(before, readable)
    case Pressing(saved, readable) => clipboard == Text("text/plain", text) && saved == Save(before, readable)
    case Restoring(saved, readable) => clipboard == Text("text/plain", text) && saved == Save(before, readable)
    case _ => clipboard == before
  }

  predicate Prepared(s: State, id: nat, text: string) {
    id in s.log.prepared && s.log.prepared[id] == text
  }

  /** The thread with the injection lock is where the clipboard says it is. */
  predicate HolderOk(s: State, th: Thread)
    requires th in s.pc
  {
    var at := s.pc[th];
    && at.Processing? && at.job.Injecting?
    && MidDelivery(Serial(s.desk.original, s.desk.deliveries), s.desk.clipboard, at.job.text, at.job.at)
    && (!at.job.at.Checking? ==> Prepared(s, at.id, at.job.text))
  }

  ghost predicate Pastes(s: State) {
    && (s.desk.lock.None? ==> s.desk.clipboard == Serial(s.desk.original, s.desk.deliveries))
    && (s.desk.lock.Some? ==> s.desk.lock.value in s.pc && HolderOk(s, s.desk.lock.value))
    && (forall id :: id in s.log.prepared ==> id in s.log.injected)
    && (forall k :: k in s.desk.keystrokes ==> k.seen == Text("text/plain", k.text) && Prepared(s, k.id, k.text))
  }

  /** A step that leaves desk, texts and the lock's holder alone. */
  predicate Away(s: State, s': State) {
    && s'.desk == s.desk && s'.log.prepared == s.log.prepared && s'.log.injected == s.log.injected
    && (s.desk.lock.Some? ==>
          var holder := s.desk.lock.value;
          holder in s.pc && holder in s'.pc && s'.pc[holder] == s.pc[holder])
  }

  lemma AwayKeepsPastes(s: State, s': State)
    requires Pastes(s) && Away(s, s')
    ensures Pastes(s')
  {
  }

  /** A cancelled clip gives the injection lock back and leaves the clipboard as it found it. */
  lemma CancelledKeepsPastes(s: State, th: Thread, prepared: string)
    requires Pastes(s) && CanProcess(s, th, CheckCancelled(prepared)) && s.desk.lock == Some(th)
    requires s.pc[th].id < s.life.cancelledBelow
    ensures Pastes(CheckStep(s, th, s.pc[th].id, prepared))
  {
  }

  /** Clip `id` of thread `th` is cleared with its text; the lock is kept unless no paste keys are configured. */
  predicate ClearedTo(s: State, t: State, th: Thread, id: nat, prepared: string) {
    && t.log.injected == s.log.injected + [id] && t.log.prepared == s.log.prepared[id := prepared]
    && t.desk.keystrokes == s.desk.keystrokes && t.desk.original == s.desk.original
    && (if t.desk.lock.Some?
        then t.desk.lock == Some(th) && th in t.pc && HolderOk(t, th)
        else t.desk.clipboard == Serial(t.desk.original, t.desk.deliveries))
  }

  /** What the check writes: the clipboard and the deliveries stay, but for a delivery over before it began. */
  lemma ClearingWrites(s: State, th: Thread, id: nat, prepared: string)
    requires CanProcess(s, th, CheckCancelled(prepared)) && s.desk.lock == Some(th)
    requires id == s.pc[th].id >= s.life.cancelledBelow
    ensures var t := CheckStep(s, th, id, prepared);
            && t.log.injected == s.log.injected + [id] && t.log.prepared == s.log.prepared[id := prepared]
            && t.desk.keystrokes == s.desk.keystrokes && t.desk.original == s.desk.original && t.desk.clipboard == s.desk.clipboard
            && (if t.desk.lock.None? then t.desk.deliveries == s.desk.deliveries + [Unconfigured(prepared)]
                else
                  && t.desk.lock == Some(th) && th in t.pc && t.desk.deliveries == s.desk.deliveries
                  && t.pc[th] == Processing(id, Injecting(prepared, if s.desk.mode.Typing? then TypingText else Saving)))
  {
  }

  lemma ClearedIs(s: State, th: Thread, id: nat, prepared: string)
    requires CanProcess(s, th, CheckCancelled(prepared)) && s.desk.lock == Some(th) && HolderOk(s, th)
    requires id == s.pc[th].id >= s.life.cancelledBelow
    ensures ClearedTo(s, CheckStep(s, th, id, prepared), th, id, prepared)
  {
    ClearingWrites(s, th, id, prepared);
    SerialAppend(s.desk.original, s.desk.deliveries, Unconfigured(prepared));
  }

  /** A clip that is not yet cleared has no text prepared and no keystroke of its own. */
  lemma ClearedKeepsPastes(s: State, t: State, th: Thread, id: nat, prepared: string)
    requires Pastes(s) && id !in s.log.injected && ClearedTo(s, t, th, id, prepared)
    ensures Pastes(t)
  {
  }

  lemma CheckKeepsPastes(s: State, th: Thread, prepared: string)
    requires Sound(s) && Progress(s) && Pastes(s) && CanProcess(s, th, CheckCancelled(prepared))
    ensures Pastes(CheckStep(s, th, s.pc[th].id, prepared))
  {
    assert ThreadOk(s, th) && Recorded(s, s.pc[th].id, 3);
    if s.pc[th].id < s.life.cancelledBelow {
      CancelledKeepsPastes(s, th, prepared);
    } else {
      var id := s.pc[th].id;
      ClearedIs(s, th, id, prepared);
      ClearedKeepsPastes(s, CheckStep(s, th, id, prepared), th, id, prepared);
    }
  }

  lemma PressKeepsPastes(s: State, th: Thread, ok: bool)
    requires Sound(s) && Pastes(s) && CanProcess(s, th, PressKeys(ok))
    ensures Pastes(DoProcess(s, th, PressKeys(ok)))
  {
    assert ThreadOk(s, th);
    var job := s.pc[th].job;
    SerialAppend(s.desk.original, s.desk.deliveries, KeysFailed(job.text, job.at.readable));
    assert !ok ==> After(Serial(s.desk.original, s.desk.deliveries), KeysFailed(job.text, job.at.readable)) == s.desk.clipboard;
  }

  lemma CopyKeepsPastes(s: State, th: Thread, attempt: Attempt)
    requires Sound(s) && Pastes(s) && CanProcess(s, th, CopyText(attempt))
    ensures Pastes(DoProcess(s, th, CopyText(attempt)))
  {
    assert ThreadOk(s, th);
    var job := s.pc[th].job;
    if attempt.Failed? {
      SerialAppend(s.desk.original, s.desk.deliveries, CopyFailed(job.text, job.at.readable, attempt.left));
    }
  }

  lemma EndKeepsPastes(s: State, th: Thread, p: ProcessStep)
    requires Sound(s) && Pastes(s) && CanProcess(s, th, p) && (p.TypeText? || p.RestoreClipboard?)
    ensures Pastes(DoProcess(s, th, p))
  {
    assert ThreadOk(s, th);
    var s', ds := DoProcess(s, th, p), s.desk.deliveries;
    assert s'.desk.deliveries == ds + [s'.desk.deliveries[|ds|]];
    SerialAppend(s.desk.original, ds, s'.desk.deliveries[|ds|]);
  }

  lemma BeginKeepsPastes(s: State, th: Thread, p: ProcessStep)
    requires Sound(s) && Pastes(s) && CanProcess(s, th, p) && (p.Transcribed? || p.LockInjection? || p.SaveClipboard?)
    ensures Pastes(DoProcess(s, th, p))
  {
    assert ThreadOk(s, th);
  }

  lemma ProcessKeepsPastes(s: State, th: Thread, p: ProcessStep)
    requires Sound(s) && Progress(s) && Pastes(s) && CanProcess(s, th, p)
    ensures Pastes(DoProcess(s, th, p))
  {
    match p
    case CheckCancelled(prepared) => CheckKeepsPastes(s, th, prepared);
    case PressKeys(ok) => PressKeepsPastes(s, th, ok);
    case CopyText(attempt) => CopyKeepsPastes(s, th, attempt);
    case TypeText(_) => EndKeepsPastes(s, th, p);
    case RestoreClipboard(_) => EndKeepsPastes(s, th, p);
    case _ => BeginKeepsPastes(s, th, p);
  }

  /** A thread that is closing or reporting does not hold the injection lock. */
  lemma FinishIsAway(s: State, th: Thread, f: FinishStep)
    requires CanFinish(s, th, f)
    requires s.desk.lock.Some? ==> s.desk.lock.value in s.pc && s.pc[s.desk.lock.value].Processing?
    requires f.LeaveReport? && th == Socket && Worker(s.pc[th].id) in s.pc ==> s.pc[Worker(s.pc[th].id)].Ended?
    ensures Away(s, DoFinish(s, th, f))
  {
  }

  lemma FinishKeepsPastes(s: State, th: Thread, f: FinishStep)
    requires Sound(s) && Pastes(s) && CanFinish(s, th, f)
    ensures Pastes(DoFinish(s, th, f))
  {
    if f.LeaveReport? && th == Socket { WorkerIsFree(s, s.pc[th].id); }
    FinishIsAway(s, th, f);
    AwayKeepsPastes(s, DoFinish(s, th, f));
  }

  /** Neither do the socket thread in a command, a reader, or a waking revert. */
  lemma CommandIsAway(s: State, c: CommandStep)
    requires Pastes(s) && CanCommand(s, c)
    ensures Away(s, DoCommand(s, c))
  {
  }

  lemma ReadIsAway(s: State, r: nat, e: ReaderStep)
    requires Pastes(s) && CanRead(s, r, e) && (e.SpawnAuto? ==> Auto(r) !in s.pc)
    ensures Away(s, DoRead(s, r, e))
  {
  }

  lemma StepKeepsPastes(s: State, a: Step)
    requires Sound(s) && Progress(s) && Pastes(s) && Enabled(s, a)
    ensures Pastes(Next(s, a))
  {
    match a
    case Command(c) => CommandIsAway(s, c); AwayKeepsPastes(s, DoCommand(s, c));
    case Finish(th, f) => FinishKeepsPastes(s, th, f);
    case Process(th, p) => ProcessKeepsPastes(s, th, p);
    case Read(r, e) =>
      if e.SpawnAuto? { SpawnAutoKeepsSound(s, r); }
      ReadIsAway(s, r, e);
      AwayKeepsPastes(s, DoRead(s, r, e));
    case WakeRevert(g) => AwayKeepsPastes(s, WakeStep(s, g));
  }
}
