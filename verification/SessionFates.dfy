/** What becomes of a recording: how it leaves the slot, and when it yields no clip. */
module SessionFates {
  import opened Common
  import opened Status
  import opened SessionModel
  import opened SessionInvariants
  import opened SessionProofs
  import opened SessionHistory
  import opened SessionTheorems
  import opened SessionRest
  import opened SessionComplete

  // ------------------------------------------------------------------
  // Out of the slot
  // ------------------------------------------------------------------

  /** `start` has opened the capture of `id` and not yet put it in the slot. */
  predicate BeingStarted(s: State, id: nat) {
    && Socket in s.pc && s.pc[Socket].Commanding?
    && (s.pc[Socket].command.Opened? || s.pc[Socket].command.Announced?) && s.pc[Socket].command.id == id
  }

  /** Recording `id` is not in the slot and will not be any more. */
  predicate LeftSlot(s: State, id: nat) {
    id < s.life.nextId && s.life.slot != Some(id) && !BeingStarted(s, id)
  }

  lemma CommandKeepsLeft(s: State, c: CommandStep, id: nat)
    requires CanCommand(s, c) && LeftSlot(s, id)
    ensures LeftSlot(DoCommand(s, c), id)
  {
  }

  lemma FinishKeepsLeft(s: State, th: Thread, f: FinishStep, id: nat)
    requires CanFinish(s, th, f) && LeftSlot(s, id)
    ensures LeftSlot(DoFinish(s, th, f), id)
  {
  }

  lemma ProcessKeepsLeft(s: State, s': State, th: Thread, id: nat)
    requires OnlyMoves(s, s', th) && s.pc[th].Processing? && !s'.pc[th].Commanding? && LeftSlot(s, id)
    ensures LeftSlot(s', id)
  {
  }

  lemma ProcessCommandsNothing(s: State, th: Thread, p: ProcessStep)
    requires CanProcess(s, th, p)
    ensures th in DoProcess(s, th, p).pc && !DoProcess(s, th, p).pc[th].Commanding?
  {
  }

  /** A recording that has left the slot never comes back to it. */
  lemma StepKeepsLeft(s: State, a: Step, id: nat)
    requires Enabled(s, a) && LeftSlot(s, id)
    ensures LeftSlot(Next(s, a), id)
  {
    match a
    case Command(c) => CommandKeepsLeft(s, c, id);
    case Finish(th, f) => FinishKeepsLeft(s, th, f, id);
    case Process(th, p) =>
      ProcessOnlyMoves(s, th, p);
      ProcessCommandsNothing(s, th, p);
      ProcessKeepsLeft(s, Next(s, a), th, id);
    case Read(r, e) =>
    case WakeRevert(g) =>
  }

  lemma RunStepKeepsLeft(states: seq<State>, steps: seq<Step>, k: nat, id: nat)
    requires IsRun(states, steps) && k < |steps| && LeftSlot(states[k], id)
    ensures LeftSlot(states[k + 1], id)
  {
    StepKeepsLeft(states[k], steps[k], id);
  }

  lemma {:induction false} StaysOut(states: seq<State>, steps: seq<Step>, k: nat, j: nat, id: nat)
    requires IsRun(states, steps) && k <= j < |states| && LeftSlot(states[k], id)
    ensures LeftSlot(states[j], id)
    decreases j
  {
    if k == j {
    } else {
      var last := j - 1;
      StaysOut(states, steps, k, last, id);
      RunStepKeepsLeft(states, steps, last, id);
    }
  }

  lemma StopLeaves(s: State, id: nat)
    requires Sound(s) && CanCommand(s, Stop) && s.life.slot == Some(id)
    ensures LeftSlot(StopStep(s), id)
  {
    assert CaptureOk(s, id);
  }

  lemma OutIsClosed(states: seq<State>, steps: seq<Step>, j: nat, id: nat)
    requires IsRun(states, steps) && j < |states| && Resting(states[j])
    requires id in states[j].captures && LeftSlot(states[j], id)
    ensures id in states[j].log.closed && states[j].life.slot != Some(id)
  {
    NothingIsLost(states, steps, j);
  }

  lemma CapturesStay(s: State, a: Step, id: nat)
    requires Enabled(s, a) && id in s.captures
    ensures id in Next(s, a).captures
  {
    if a.Process? { ProcessOnlyMoves(s, a.th, a.p); }
    if a.Finish? { FinishTakesNothing(s, a.th, a.f); }
  }

  lemma {:induction false} CapturesRemain(states: seq<State>, steps: seq<Step>, k: nat, j: nat, id: nat)
    requires IsRun(states, steps) && k <= j < |states| && id in states[k].captures
    ensures id in states[j].captures
    decreases j
  {
    if k == j {
    } else {
      var last := j - 1;
      CapturesRemain(states, steps, k, last, id);
      CapturesStay(states[last], steps[last], id);
    }
  }

  /** A recording that was stopped is out of the slot for good, and closed by the time the session rests. */
  lemma StoppedIsClosed(states: seq<State>, steps: seq<Step>, k: nat, j: nat, id: nat)
    requires IsRun(states, steps) && k < j < |states| && steps[k] == Command(Stop) && states[k].life.slot == Some(id)
    ensures states[j].life.slot != Some(id)
    ensures Resting(states[j]) ==> id in states[j].log.closed
  {
    RunKeepsInv(states, steps, k);
    StopLeaves(states[k], id);
    StaysOut(states, steps, k + 1, j, id);
    CapturesRemain(states, steps, k, j, id);
    if Resting(states[j]) { OutIsClosed(states, steps, j, id); }
  }

  // ------------------------------------------------------------------
  // Silence
  // ------------------------------------------------------------------

  /** The reader of `id` heard enough silence, and its thread finishes the recording or has. */
  predicate Dismissed(s: State, id: nat) {
    && id in s.captures && id < s.life.nextId
    && (s.captures[id].reader.SilenceHit? || (Auto(id) in s.pc && (s.pc[Auto(id)].Waiting? || LeftSlot(s, id))))
  }

  lemma CommandKeepsDismissed(s: State, c: CommandStep, id: nat)
    requires CanCommand(s, c) && Dismissed(s, id)
    ensures Dismissed(DoCommand(s, c), id)
  {
    if LeftSlot(s, id) { CommandKeepsLeft(s, c, id); }
  }

  lemma FinishKeepsDismissed(s: State, th: Thread, f: FinishStep, id: nat)
    requires CanFinish(s, th, f) && RunsOwnCode(th, s.pc[th]) && Dismissed(s, id)
    requires BeingStarted(s, id) ==> s.life.lock.Some?
    ensures Dismissed(DoFinish(s, th, f), id)
  {
    FinishTakesNothing(s, th, f);
    if LeftSlot(s, id) { FinishKeepsLeft(s, th, f, id); }
    if th != Auto(id) && Auto(id) in s.pc { FinishSpares(s, th, f, Auto(id)); }
    if f.AutoTake? { AutoTakeLeaves(s, th); }
    FinishKeepsIds(s, th, f);
    if th == Auto(id) { OwnFinish(s, th, f); }
  }

  lemma AutoTakeLeaves(s: State, th: Thread)
    requires CanFinish(s, th, AutoTake)
    ensures var s' := AutoTakeStep(s, th, s.pc[th].id); s'.life.slot != Some(s.pc[th].id) && s'.life.nextId == s.life.nextId
  {
  }

  lemma FinishKeepsIds(s: State, th: Thread, f: FinishStep)
    requires CanFinish(s, th, f)
    ensures DoFinish(s, th, f).life.nextId == s.life.nextId
  {
  }

  lemma OwnFinish(s: State, th: Thread, f: FinishStep)
    requires CanFinish(s, th, f) && th != Socket
    ensures th in DoFinish(s, th, f).pc
    ensures Socket in s.pc && !(f.LeaveReport? && th == Socket) ==> Socket in DoFinish(s, th, f).pc && DoFinish(s, th, f).pc[Socket] == s.pc[Socket]
    ensures !f.AutoTake? ==> !s.pc[th].Waiting?
  {
  }

  lemma ProcessKeepsDismissed(s: State, s': State, th: Thread, id: nat)
    requires OnlyMoves(s, s', th) && s.pc[th].Processing? && !s'.pc[th].Commanding? && Dismissed(s, id)
    ensures Dismissed(s', id)
  {
  }

  lemma ReadKeepsDismissed(s: State, r: nat, e: ReaderStep, id: nat)
    requires CanRead(s, r, e) && Dismissed(s, id)
    ensures Dismissed(DoRead(s, r, e), id)
  {
  }

  lemma StepKeepsDismissed(s: State, a: Step, id: nat)
    requires Sound(s) && Enabled(s, a) && Dismissed(s, id)
    ensures Dismissed(Next(s, a), id)
  {
    assert ThreadOk(s, Socket);
    match a
    case Command(c) => CommandKeepsDismissed(s, c, id);
    case Finish(th, f) => assert ThreadOk(s, th); FinishKeepsDismissed(s, th, f, id);
    case Process(th, p) =>
      ProcessOnlyMoves(s, th, p);
      ProcessCommandsNothing(s, th, p);
      ProcessKeepsDismissed(s, Next(s, a), th, id);
    case Read(r, e) => ReadKeepsDismissed(s, r, e, id);
    case WakeRevert(g) =>
  }

  lemma {:induction false} StaysDismissed(states: seq<State>, steps: seq<Step>, k: nat, j: nat, id: nat)
    requires IsRun(states, steps) && k <= j < |states| && Dismissed(states[k], id)
    ensures Dismissed(states[j], id)
    decreases j
  {
    if k == j {
    } else {
      var last := j - 1;
      StaysDismissed(states, steps, k, last, id);
      RunKeepsInv(states, steps, last);
      StepKeepsDismissed(states[last], steps[last], id);
    }
  }

  lemma SilenceDismisses(s: State, id: nat)
    requires Sound(s) && CanRead(s, id, HitSilence)
    ensures Dismissed(DoRead(s, id, HitSilence), id)
  {
    assert CaptureOk(s, id);
  }

  lemma DismissedIsOut(s: State, id: nat)
    requires Resting(s) && Dismissed(s, id)
    ensures id in s.captures && LeftSlot(s, id)
  {
  }

  /** A recording that went silent is closed by the time the session rests, as if it had been stopped. */
  lemma SilentIsClosed(states: seq<State>, steps: seq<Step>, k: nat, j: nat, id: nat)
    requires IsRun(states, steps) && k < j < |states| && steps[k] == Read(id, HitSilence) && Resting(states[j])
    ensures id in states[j].log.closed && states[j].life.slot != Some(id)
  {
    RunKeepsInv(states, steps, k);
    SilenceDismisses(states[k], id);
    StaysDismissed(states, steps, k + 1, j, id);
    DismissedIsOut(states[j], id);
    OutIsClosed(states, steps, j, id);
  }

  // ------------------------------------------------------------------
  // No clip
  // ------------------------------------------------------------------

  /** The step gives recording `id` up: it is cancelled in the slot, torn down or closed after an overrun, or held too little. */
  predicate GivesUp(s: State, a: Step, id: nat) {
    Enabled(s, a) &&
    match a
    case Command(c) => s.life.slot == Some(id) && (c.Cancel? || (c.LookAtSlot? && Overrun(s, id)))
    case Finish(th, f) => s.pc[th].Closing? && s.pc[th].id == id && ((f.ChooseClose? && Overrun(s, id)) || f == FinishJoined(false))
    case _ => false
  }

  /** Who still has the recording is only about to say that it was dropped. */
  predicate Dropping(s: State, th: Thread, id: nat) {
    Has(s, th, id) ==> (s.pc[th].Reporting? || s.pc[th].Publishing?) && s.pc[th].news.ClipDropped?
  }

  predicate GivenUp(s: State, id: nat) {
    && id < s.life.nextId && s.life.slot != Some(id) && id !in s.log.handed
    && Dropping(s, Socket, id) && Dropping(s, Auto(id), id) && Dropping(s, Worker(id), id)
  }

  lemma CommandKeepsGivenUp(s: State, c: CommandStep, id: nat)
    requires CanCommand(s, c) && GivenUp(s, id)
    ensures GivenUp(DoCommand(s, c), id)
  {
  }

  lemma QuietReportKeepsGivenUp(s: State, th: Thread, id: nat)
    requires CanFinish(s, th, LeaveReport) && !s.pc[th].news.ClipReady? && GivenUp(s, id)
    ensures GivenUp(DoFinish(s, th, LeaveReport), id)
  {
  }

  /** What a report of a clip leaves alone: the slot, and every thread but the reporting one and the clip's worker. */
  lemma HandOffShape(s: State, th: Thread, other: nat)
    requires CanFinish(s, th, LeaveReport) && s.pc[th].news.ClipReady? && other == s.pc[th].id
    ensures var s' := DoFinish(s, th, LeaveReport);
            && s'.life == s.life.(lock := None) && s'.log.handed == s.log.handed + [other]
            && s'.pc == (if th == Socket then s.pc[Socket := Listening][Worker(other) := Processing(other, Hearing)]
                         else s.pc[th := Processing(other, Hearing)])
  {
  }

  lemma HandOffKeepsGivenUp(s: State, s': State, th: Thread, id: nat, other: nat)
    requires GivenUp(s, id) && other != id && th in s.pc
    requires s'.life == s.life.(lock := None) && s'.log.handed == s.log.handed + [other]
    requires s'.pc == (if th == Socket then s.pc[Socket := Listening][Worker(other) := Processing(other, Hearing)]
                       else s.pc[th := Processing(other, Hearing)])
    ensures GivenUp(s', id)
  {
  }

  lemma ReportKeepsGivenUp(s: State, th: Thread, id: nat)
    requires CanFinish(s, th, LeaveReport) && RunsOwnCode(th, s.pc[th]) && GivenUp(s, id)
    ensures GivenUp(DoFinish(s, th, LeaveReport), id)
  {
    if s.pc[th].news.ClipReady? {
      var other := s.pc[th].id;
      assert other == id ==> Has(s, th, id) && (th == Socket || th == Auto(id));
      HandOffShape(s, th, other);
      HandOffKeepsGivenUp(s, DoFinish(s, th, LeaveReport), th, id, other);
    } else {
      QuietReportKeepsGivenUp(s, th, id);
    }
  }

  lemma FinishKeepsGivenUp(s: State, th: Thread, f: FinishStep, id: nat)
    requires CanFinish(s, th, f) && !f.LeaveReport? && RunsOwnCode(th, s.pc[th]) && GivenUp(s, id)
    ensures GivenUp(DoFinish(s, th, f), id)
  {
  }

  lemma ProcessCarriesOn(s: State, th: Thread, p: ProcessStep)
    requires CanProcess(s, th, p)
    ensures var s' := DoProcess(s, th, p); th in s'.pc && (Carried(s'.pc[th]).None? || Carried(s'.pc[th]) == Carried(s.pc[th]))
  {
  }

  lemma ProcessKeepsGivenUp(s: State, s': State, th: Thread, id: nat)
    requires OnlyMoves(s, s', th) && s.pc[th].Processing? && GivenUp(s, id)
    requires Carried(s'.pc[th]).None? || Carried(s'.pc[th]) == Carried(s.pc[th])
    ensures GivenUp(s', id)
  {
  }

  lemma ReadKeepsGivenUp(s: State, r: nat, e: ReaderStep, id: nat)
    requires CanRead(s, r, e) && GivenUp(s, id)
    ensures GivenUp(DoRead(s, r, e), id)
  {
  }

  lemma StepKeepsGivenUp(s: State, a: Step, id: nat)
    requires Sound(s) && Enabled(s, a) && GivenUp(s, id)
    ensures GivenUp(Next(s, a), id)
  {
    match a
    case Command(c) => CommandKeepsGivenUp(s, c, id);
    case Finish(th, f) =>
      assert ThreadOk(s, th);
      if f.LeaveReport? { ReportKeepsGivenUp(s, th, id); } else { FinishKeepsGivenUp(s, th, f, id); }
    case Process(th, p) =>
      ProcessOnlyMoves(s, th, p);
      ProcessCarriesOn(s, th, p);
      ProcessKeepsGivenUp(s, Next(s, a), th, id);
    case Read(r, e) => ReadKeepsGivenUp(s, r, e, id);
    case WakeRevert(g) =>
  }

  lemma CommandGivesUp(s: State, c: CommandStep, id: nat)
    requires Sound(s) && Progress(s) && GivesUp(s, Command(c), id)
    ensures GivenUp(DoCommand(s, c), id)
  {
    assert OnePlace(s, id) && CaptureOk(s, id) && Recorded(s, id, 0);
  }

  lemma FinishGivesUp(s: State, th: Thread, f: FinishStep, id: nat)
    requires Sound(s) && Progress(s) && GivesUp(s, Finish(th, f), id) && Has(s, th, id)
    ensures GivenUp(DoFinish(s, th, f), id)
  {
    assert Recorded(s, id, Stage(s.pc[th])) && ThreadOk(s, th);
    PlaceIsUnique(s, th, if th == Socket then Auto(id) else Socket, id);
    PlaceIsUnique(s, th, if th == Worker(id) then Auto(id) else Worker(id), id);
  }

  lemma StepGivesUp(s: State, a: Step, id: nat)
    requires Sound(s) && Progress(s) && GivesUp(s, a, id)
    ensures GivenUp(Next(s, a), id)
  {
    match a
    case Command(c) => CommandGivesUp(s, c, id);
    case Finish(th, f) => FinishGivesUp(s, th, f, id);
  }

  lemma {:induction false} StaysGivenUp(states: seq<State>, steps: seq<Step>, k: nat, j: nat, id: nat)
    requires IsRun(states, steps) && k <= j < |states| && GivenUp(states[k], id)
    ensures GivenUp(states[j], id)
    decreases j
  {
    if k == j {
    } else {
      var last := j - 1;
      StaysGivenUp(states, steps, k, last, id);
      RunKeepsInv(states, steps, last);
      StepKeepsGivenUp(states[last], steps[last], id);
    }
  }

  /** A recording that was cancelled, that overran before it was closed, or that held too little, yields no clip: nothing of it is transcribed, or injected. */
  lemma YieldsNoClip(states: seq<State>, steps: seq<Step>, k: nat, j: nat, id: nat)
    requires IsRun(states, steps) && k < j < |states| && GivesUp(states[k], steps[k], id)
    ensures id !in states[j].log.handed && id !in states[j].log.heard && id !in states[j].log.injected
  {
    RunKeepsInv(states, steps, k);
    RunKeepsInv(states, steps, j);
    StepGivesUp(states[k], steps[k], id);
    StaysGivenUp(states, steps, k + 1, j, id);
  }

  // ------------------------------------------------------------------
  // An overrun
  // ------------------------------------------------------------------

  /** The overrun of `id` was put on the display before state `i`. */
  ghost predicate Complained(states: seq<State>, steps: seq<Step>, i: nat, id: nat)
    requires |states| == |steps| + 1 && i < |states|
  {
    exists m: nat :: m < i && steps[m] == Read(id, Complain) && states[m + 1].board.state == Error
  }

  lemma CapHitLasts(s: State, a: Step, id: nat)
    requires Sound(s) && Enabled(s, a) && ReaderAt(s, id, CapHit)
    ensures ReaderAt(Next(s, a), id, CapHit) || a == Read(id, Complain)
  {
    assert CaptureOk(s, id);
    if a.Process? { ProcessOnlyMoves(s, a.th, a.p); }
    if a.Finish? { FinishTakesNothing(s, a.th, a.f); }
  }

  lemma ComplaintShows(s: State, id: nat)
    requires CanRead(s, id, Complain)
    ensures DoRead(s, id, Complain).board.state == Error
  {
  }

  lemma {:induction false} OverrunIsHeld(states: seq<State>, steps: seq<Step>, k: nat, j: nat, id: nat)
    requires IsRun(states, steps) && k <= j < |states| && ReaderAt(states[k], id, CapHit)
    ensures ReaderAt(states[j], id, CapHit) || Complained(states, steps, j, id)
    decreases j
  {
    if k == j {
    } else {
      var last := j - 1;
      OverrunIsHeld(states, steps, k, last, id);
      RunKeepsInv(states, steps, last);
      if ReaderAt(states[last], id, CapHit) {
        CapHitLasts(states[last], steps[last], id);
        if steps[last] == Read(id, Complain) { ComplaintShows(states[last], id); }
      }
    }
  }

  /** A recording that overruns is reported: by the time the session rests, the display has shown `error` for it. */
  lemma OverrunIsReported(states: seq<State>, steps: seq<Step>, k: nat, j: nat, id: nat)
    requires IsRun(states, steps) && k < j < |states| && steps[k] == Read(id, HitCap) && Resting(states[j])
    ensures Complained(states, steps, j, id)
  {
    OverrunIsHeld(states, steps, k + 1, j, id);
  }

  /** A `start` that finds a live recording changes nothing. */
  lemma LiveRefusesStart(states: seq<State>, steps: seq<Step>, i: nat)
    requires IsRun(states, steps) && i < |steps| && steps[i] == Command(LookAtSlot) && IsRecording(states[i])
    ensures var s, t := states[i], states[i + 1];
            && t.life == s.life.(lock := None) && t.board == s.board && t.captures == s.captures && t.desk == s.desk && t.log == s.log
            && t.pc == s.pc[Socket := Listening]
  {
  }
}
