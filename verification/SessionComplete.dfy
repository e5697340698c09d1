/**
 Nothing gets lost: every capture is closed or still held, every clip handed on is transcribed or about to be,
 every clip cleared for injection is delivered or being delivered. So once the session rests, all of it is done.
 */
module SessionComplete {
  import opened Common
  import opened Injection
  import opened SessionModel
  import opened SessionInvariants
  import opened SessionProofs
  import opened SessionPaste
  import opened SessionTheorems
  import opened SessionOrder
  import opened SessionRest

  // ------------------------------------------------------------------
  // What a step of one thread leaves to the others
  // ------------------------------------------------------------------

  /** Closing and reporting leave what was transcribed and cleared, and take nothing back. */
  predicate TakesNothing(s: State, s': State) {
    && s'.life.cancelledBelow == s.life.cancelledBelow && s'.captures == s.captures
    && s.log.closed <= s'.log.closed && s.log.handed <= s'.log.handed
    && s'.log.heard == s.log.heard && s'.log.injected == s.log.injected
  }

  lemma FinishTakesNothing(s: State, th: Thread, f: FinishStep)
    requires CanFinish(s, th, f)
    ensures TakesNothing(s, DoFinish(s, th, f))
  {
  }

  lemma FinishSpares(s: State, th: Thread, f: FinishStep, other: Thread)
    requires CanFinish(s, th, f) && other in s.pc && other != th
    requires th == Socket && f.LeaveReport? ==> other != Worker(s.pc[th].id)
    ensures other in DoFinish(s, th, f).pc && DoFinish(s, th, f).pc[other] == s.pc[other]
  {
  }

  // ------------------------------------------------------------------
  // Captures
  // ------------------------------------------------------------------

  /** The thread has recording `id`, which is not closed yet. */
  predicate Capturing(s: State, th: Thread, id: nat) {
    Has(s, th, id) && Stage(s.pc[th]) == 0
  }

  predicate Accounted(s: State, id: nat) {
    id in s.log.closed || s.life.slot == Some(id) || Capturing(s, Socket, id) || Capturing(s, Auto(id), id)
  }

  ghost predicate AllAccounted(s: State) {
    forall id :: id in s.captures ==> Accounted(s, id)
  }

  lemma CommandAccounts(s: State, c: CommandStep, id: nat)
    requires CanCommand(s, c) && SocketOk(s) && (id in s.captures ==> Accounted(s, id))
    ensures id in DoCommand(s, c).captures ==> Accounted(DoCommand(s, c), id)
  {
  }

  /** A thread lets go of an open recording only by closing it. */
  lemma CloserAccounts(s: State, th: Thread, f: FinishStep, id: nat)
    requires CanFinish(s, th, f) && Capturing(s, th, id)
    ensures id in DoFinish(s, th, f).log.closed || Capturing(DoFinish(s, th, f), th, id)
  {
  }

  /** A recording leaves the slot only for the hands of its own thread. */
  lemma SlotAccounts(s: State, th: Thread, f: FinishStep, id: nat)
    requires CanFinish(s, th, f) && RunsOwnCode(th, s.pc[th]) && s.life.slot == Some(id)
    ensures DoFinish(s, th, f).life.slot == Some(id) || Capturing(DoFinish(s, th, f), Auto(id), id)
  {
  }

  lemma FinishAccounts(s: State, th: Thread, f: FinishStep, id: nat)
    requires CanFinish(s, th, f) && RunsOwnCode(th, s.pc[th]) && (id in s.captures ==> Accounted(s, id))
    ensures id in DoFinish(s, th, f).captures ==> Accounted(DoFinish(s, th, f), id)
  {
    FinishTakesNothing(s, th, f);
    if s.life.slot == Some(id) {
      SlotAccounts(s, th, f, id);
    } else if Capturing(s, th, id) {
      CloserAccounts(s, th, f, id);
    } else if Capturing(s, Socket, id) {
      FinishSpares(s, th, f, Socket);
    } else if Capturing(s, Auto(id), id) {
      FinishSpares(s, th, f, Auto(id));
    }
  }

  lemma ProcessAccounts(s: State, s': State, th: Thread, id: nat)
    requires OnlyMoves(s, s', th) && s.pc[th].Processing? && (id in s.captures ==> Accounted(s, id))
    ensures id in s'.captures ==> Accounted(s', id)
  {
  }

  lemma ReadAccounts(s: State, r: nat, e: ReaderStep, id: nat)
    requires CanRead(s, r, e) && (e.SpawnAuto? ==> Auto(r) !in s.pc) && (id in s.captures ==> Accounted(s, id))
    ensures id in DoRead(s, r, e).captures ==> Accounted(DoRead(s, r, e), id)
  {
  }

  lemma StepAccounts(s: State, a: Step, id: nat)
    requires Sound(s) && Enabled(s, a) && (id in s.captures ==> Accounted(s, id))
    ensures id in Next(s, a).captures ==> Accounted(Next(s, a), id)
  {
    match a
    case Command(c) => CommandAccounts(s, c, id);
    case Finish(th, f) =>
      assert ThreadOk(s, th);
      FinishAccounts(s, th, f, id);
    case Process(th, p) => ProcessOnlyMoves(s, th, p); ProcessAccounts(s, Next(s, a), th, id);
    case Read(r, e) =>
      if e.SpawnAuto? { SpawnAutoKeepsSound(s, r); }
      ReadAccounts(s, r, e, id);
    case WakeRevert(g) =>
  }

  // ------------------------------------------------------------------
  // Clips
  // ------------------------------------------------------------------

  predicate Hears(s: State, th: Thread, id: nat) {
    th in s.pc && s.pc[th] == Processing(id, Hearing)
  }

  /** Clip `id`, once handed on, is transcribed or about to be. */
  predicate Attended(s: State, id: nat) {
    id in s.log.handed ==> id in s.log.heard || Hears(s, Worker(id), id) || Hears(s, Auto(id), id)
  }

  ghost predicate AllAttended(s: State) {
    forall id: nat :: Attended(s, id)
  }

  lemma CommandAttends(s: State, c: CommandStep, id: nat)
    requires CanCommand(s, c) && Attended(s, id)
    ensures Attended(DoCommand(s, c), id)
  {
  }

  lemma HandingAttends(s: State, th: Thread, id: nat)
    requires CanFinish(s, th, LeaveReport) && RunsOwnCode(th, s.pc[th]) && s.pc[th].news.ClipReady? && Attended(s, id)
    ensures Attended(DoFinish(s, th, LeaveReport), id)
  {
  }

  /** The other steps of closing and reporting hand on nothing. */
  lemma ClosingAttends(s: State, th: Thread, f: FinishStep, id: nat)
    requires CanFinish(s, th, f) && (f.LeaveReport? ==> !s.pc[th].news.ClipReady?) && Attended(s, id)
    ensures Attended(DoFinish(s, th, f), id)
  {
  }

  lemma FinishAttends(s: State, th: Thread, f: FinishStep, id: nat)
    requires CanFinish(s, th, f) && RunsOwnCode(th, s.pc[th]) && Attended(s, id)
    ensures Attended(DoFinish(s, th, f), id)
  {
    if f.LeaveReport? && s.pc[th].news.ClipReady? { HandingAttends(s, th, id); } else { ClosingAttends(s, th, f, id); }
  }

  lemma ProcessAttends(s: State, th: Thread, p: ProcessStep, id: nat)
    requires CanProcess(s, th, p) && Attended(s, id)
    ensures Attended(DoProcess(s, th, p), id)
  {
  }

  lemma ReadAttends(s: State, r: nat, e: ReaderStep, id: nat)
    requires CanRead(s, r, e) && (e.SpawnAuto? ==> Auto(r) !in s.pc) && Attended(s, id)
    ensures Attended(DoRead(s, r, e), id)
  {
  }

  lemma StepAttends(s: State, a: Step, id: nat)
    requires Sound(s) && Enabled(s, a) && Attended(s, id)
    ensures Attended(Next(s, a), id)
  {
    match a
    case Command(c) => CommandAttends(s, c, id);
    case Finish(th, f) => assert ThreadOk(s, th); FinishAttends(s, th, f, id);
    case Process(th, p) => ProcessAttends(s, th, p, id);
    case Read(r, e) =>
      if e.SpawnAuto? { SpawnAutoKeepsSound(s, r); }
      ReadAttends(s, r, e, id);
    case WakeRevert(g) =>
  }

  // ------------------------------------------------------------------
  // Deliveries
  // ------------------------------------------------------------------

  /** A clip that was cleared is being delivered. */
  predicate Delivering(s: State) {
    s.desk.lock.Some? && s.desk.lock.value in s.pc && PastChecking(s.pc[s.desk.lock.value])
  }

  /** Delivery `k` was of the clip cleared in that place: its text, and a keystroke exactly if it was pasted. */
  ghost predicate Delivers(s: State, k: nat)
    requires k < |s.desk.deliveries| && k < |s.log.injected|
  {
    var id, d := s.log.injected[k], s.desk.deliveries[k];
    Prepared(s, id, d.text) && (d.Pasted? <==> PressedFor(s, id))
  }

  ghost predicate AllDelivered(s: State) {
    && |s.log.injected| == |s.desk.deliveries| + (if Delivering(s) then 1 else 0)
    && (forall k: nat :: k < |s.desk.deliveries| ==> Delivers(s, k))
    && (Delivering(s) && s.pc[s.desk.lock.value].job.at.Restoring? ==> PressedFor(s, s.pc[s.desk.lock.value].id))
  }

  lemma AwayKeepsDelivered(s: State, s': State)
    requires AllDelivered(s) && Away(s, s')
    ensures AllDelivered(s')
  {
    forall k: nat | k < |s'.desk.deliveries| ensures Delivers(s', k) { assert Delivers(s, k); }
  }

  /** The delivery of clip `id`, the last one cleared, ends as `d`. */
  predicate Ends(s: State, s': State, id: nat, d: Delivery) {
    && Delivering(s) && s.log.injected != [] && s.log.injected[|s.log.injected| - 1] == id
    && s'.log.injected == s.log.injected && s'.log.prepared == s.log.prepared
    && s'.desk.keystrokes == s.desk.keystrokes && s'.desk.lock.None? && s'.desk.deliveries == s.desk.deliveries + [d]
  }

  lemma EndKeepsDelivered(s: State, s': State, id: nat, d: Delivery)
    requires AllDelivered(s) && Ends(s, s', id, d)
    requires Prepared(s, id, d.text) && (d.Pasted? <==> PressedFor(s, id))
    ensures AllDelivered(s')
  {
    forall k: nat | k < |s'.desk.deliveries| ensures Delivers(s', k) {
      if k < |s.desk.deliveries| { assert Delivers(s, k); }
    }
  }

  /** A delivery goes on, or a clip is turned away: nothing is cleared, pressed or finished. */
  predicate GoesOn(s: State, s': State) {
    && s'.log.injected == s.log.injected && s'.log.prepared == s.log.prepared
    && s'.desk.keystrokes == s.desk.keystrokes && s'.desk.deliveries == s.desk.deliveries
    && Delivering(s') == Delivering(s)
    && (Delivering(s') ==> !s'.pc[s'.desk.lock.value].job.at.Restoring?)
  }

  lemma GoingOnKeepsDelivered(s: State, s': State)
    requires AllDelivered(s) && GoesOn(s, s')
    ensures AllDelivered(s')
  {
    forall k: nat | k < |s'.desk.deliveries| ensures Delivers(s', k) { assert Delivers(s, k); }
  }

  /** Clip `id` is cleared with its text; its delivery begins, or is over for want of paste keys. */
  predicate Begins(s: State, s': State, id: nat, prepared: string) {
    && !Delivering(s)
    && s'.log.injected == s.log.injected + [id] && s'.log.prepared == s.log.prepared[id := prepared]
    && s'.desk.keystrokes == s.desk.keystrokes
    && (if Delivering(s') then s'.desk.deliveries == s.desk.deliveries && !s'.pc[s'.desk.lock.value].job.at.Restoring?
        else s'.desk.deliveries == s.desk.deliveries + [Unconfigured(prepared)])
  }

  lemma BeginKeepsDelivered(s: State, s': State, id: nat, prepared: string)
    requires AllDelivered(s) && Begins(s, s', id, prepared) && id !in s.log.injected && !PressedFor(s, id)
    ensures AllDelivered(s')
  {
    forall k: nat | k < |s'.desk.deliveries| ensures Delivers(s', k) {
      if k < |s.desk.deliveries| { assert Delivers(s, k); }
    }
  }

  /** The clip being delivered gets its keystroke. */
  predicate Presses(s: State, s': State, id: nat) {
    && Delivering(s) && s.log.injected != [] && s.log.injected[|s.log.injected| - 1] == id
    && s'.log.injected == s.log.injected && s'.log.prepared == s.log.prepared && s'.desk.deliveries == s.desk.deliveries
    && Delivering(s') && s'.pc[s'.desk.lock.value].id == id
    && |s'.desk.keystrokes| == |s.desk.keystrokes| + 1 && s'.desk.keystrokes[..|s.desk.keystrokes|] == s.desk.keystrokes
    && s'.desk.keystrokes[|s.desk.keystrokes|].id == id
  }

  lemma PressedOnly(s: State, s': State, id: nat, other: nat)
    requires Presses(s, s', id)
    ensures PressedFor(s', other) <==> PressedFor(s, other) || other == id
  {
    var n := |s.desk.keystrokes|;
    forall i | 0 <= i < n ensures s'.desk.keystrokes[i] == s.desk.keystrokes[i] {
      assert s'.desk.keystrokes[..n][i] == s.desk.keystrokes[i];
    }
    assert s'.desk.keystrokes[n].id == id;
    if PressedFor(s, other) {
      var i :| 0 <= i < n && s.desk.keystrokes[i].id == other;
      assert s'.desk.keystrokes[i].id == other;
    }
  }

  lemma PressKeepsDelivered(s: State, s': State, id: nat)
    requires AllDelivered(s) && Presses(s, s', id) && NoDup(s.log.injected)
    ensures AllDelivered(s')
  {
    forall k: nat | k < |s'.desk.deliveries| ensures Delivers(s', k) {
      assert Delivers(s, k);
      var last := |s.log.injected| - 1;
      assert s.log.injected[k] != s.log.injected[last];
      PressedOnly(s, s', id, s.log.injected[k]);
    }
    PressedOnly(s, s', id, id);
  }

  // The steps of a delivery, one by one.

  lemma GoesOnAt(s: State, th: Thread, p: ProcessStep)
    requires CanProcess(s, th, p) && (p.LockInjection? || s.desk.lock == Some(th))
    requires p.LockInjection? || p.SaveClipboard? || p == CopyText(Worked) || (p.CheckCancelled? && s.pc[th].id < s.life.cancelledBelow)
    ensures GoesOn(s, DoProcess(s, th, p))
  {
  }

  lemma BeginsAt(s: State, th: Thread, id: nat, prepared: string)
    requires CanProcess(s, th, CheckCancelled(prepared)) && s.desk.lock == Some(th) && id == s.pc[th].id >= s.life.cancelledBelow
    ensures Begins(s, CheckStep(s, th, id, prepared), id, prepared)
  {
  }

  lemma PressesAt(s: State, th: Thread, id: nat)
    requires CanProcess(s, th, PressKeys(true)) && s.desk.lock == Some(th) && id == s.pc[th].id && LastCleared(s)
    ensures Presses(s, DoProcess(s, th, PressKeys(true)), id)
  {
  }

  predicate IsLast(p: ProcessStep) {
    p.TypeText? || (p.CopyText? && p.attempt.Failed?) || p == PressKeys(false) || p.RestoreClipboard?
  }

  lemma EndsAt(s: State, th: Thread, p: ProcessStep, id: nat) returns (d: Delivery)
    requires CanProcess(s, th, p) && IsLast(p) && s.desk.lock == Some(th) && id == s.pc[th].id && LastCleared(s)
    ensures Ends(s, DoProcess(s, th, p), id, d) && d.text == s.pc[th].job.text && (d.Pasted? <==> p.RestoreClipboard?)
  {
    var ds := DoProcess(s, th, p).desk.deliveries;
    d := ds[|ds| - 1];
  }

  /** A clip has a keystroke of its own only from the press on, and the last clip cleared is the one being delivered. */
  lemma DeliveryKeepsDelivered(s: State, th: Thread, p: ProcessStep)
    requires Inv(s) && Pastes(s) && Orderly(s) && AllDelivered(s) && CanProcess(s, th, p) && s.desk.lock == Some(th)
    ensures AllDelivered(DoProcess(s, th, p))
  {
    var id, s' := s.pc[th].id, DoProcess(s, th, p);
    assert HolderOk(s, th) && Recorded(s, id, Stage(s.pc[th]));
    if IsLast(p) {
      var d := EndsAt(s, th, p, id);
      EndKeepsDelivered(s, s', id, d);
    } else if p.PressKeys? {
      PressesAt(s, th, id);
      PressKeepsDelivered(s, s', id);
    } else if p.CheckCancelled? && s.life.cancelledBelow <= id {
      BeginsAt(s, th, id, p.prepared);
      BeginKeepsDelivered(s, s', id, p.prepared);
    } else {
      GoesOnAt(s, th, p);
      GoingOnKeepsDelivered(s, s');
    }
  }

  lemma ProcessKeepsDelivered(s: State, th: Thread, p: ProcessStep)
    requires Inv(s) && Pastes(s) && Orderly(s) && AllDelivered(s) && CanProcess(s, th, p)
    ensures AllDelivered(DoProcess(s, th, p))
  {
    assert ThreadOk(s, th);
    match p
    case Transcribed(accepted) => HearingIsAway(s, th, accepted); AwayKeepsDelivered(s, DoProcess(s, th, p));
    case LockInjection => GoesOnAt(s, th, p); GoingOnKeepsDelivered(s, DoProcess(s, th, p));
    case _ => DeliveryKeepsDelivered(s, th, p);
  }

  lemma StepKeepsDelivered(s: State, a: Step)
    requires Inv(s) && Pastes(s) && Orderly(s) && AllDelivered(s) && Enabled(s, a)
    ensures AllDelivered(Next(s, a))
  {
    if a.Process? {
      ProcessKeepsDelivered(s, a.th, a.p);
    } else {
      OthersAreAway(s, a);
      AwayKeepsDelivered(s, Next(s, a));
    }
  }

  // ------------------------------------------------------------------
  // Every state of every run
  // ------------------------------------------------------------------

  ghost predicate Complete(s: State) {
    AllAccounted(s) && AllAttended(s) && AllDelivered(s)
  }

  lemma StepKeepsComplete(s: State, a: Step)
    requires Inv(s) && Pastes(s) && Orderly(s) && Complete(s) && Enabled(s, a)
    ensures Complete(Next(s, a))
  {
    forall id | id in Next(s, a).captures ensures Accounted(Next(s, a), id) { StepAccounts(s, a, id); }
    forall id: nat ensures Attended(Next(s, a), id) { StepAttends(s, a, id); }
    StepKeepsDelivered(s, a);
  }

  lemma StartsComplete(s: State)
    requires Init(s)
    ensures Complete(s)
  {
  }

  lemma RunStepKeepsComplete(states: seq<State>, steps: seq<Step>, k: nat)
    requires IsRun(states, steps) && k < |steps| && Complete(states[k])
    ensures Complete(states[k + 1])
  {
    RunKeepsInv(states, steps, k);
    RunKeepsOrder(states, steps, k);
    StepKeepsComplete(states[k], steps[k]);
  }

  lemma {:induction false} RunKeepsComplete(states: seq<State>, steps: seq<Step>, i: nat)
    requires IsRun(states, steps) && i < |states|
    ensures Complete(states[i])
  {
    if i == 0 {
      StartsComplete(states[0]);
    } else {
      RunKeepsComplete(states, steps, i - 1);
      RunStepKeepsComplete(states, steps, i - 1);
    }
  }

  // ------------------------------------------------------------------
  // At rest
  // ------------------------------------------------------------------

  lemma NobodyBusy(s: State, th: Thread)
    requires Resting(s) && th in s.pc
    ensures s.pc[th].Listening? || s.pc[th].Ended?
  {
  }

  lemma NobodyDelivers(s: State)
    requires Resting(s)
    ensures !Delivering(s)
  {
    if Delivering(s) { NobodyBusy(s, s.desk.lock.value); }
  }

  /** Once nothing is left to run but the next command and perhaps a live recording: every capture ever opened is
      closed or in the slot, every clip ever handed on was transcribed, and every clip cleared for injection was
      delivered, once, in the order of clearing, with its own text and a keystroke exactly if it was pasted. */
  lemma NothingIsLost(states: seq<State>, steps: seq<Step>, i: nat)
    requires IsRun(states, steps) && i < |states| && Resting(states[i])
    ensures forall id :: id in states[i].captures ==> id in states[i].log.closed || states[i].life.slot == Some(id)
    ensures forall id: nat :: id in states[i].log.handed <==> id in states[i].log.heard
    ensures |states[i].desk.deliveries| == |states[i].log.injected|
    ensures forall k: nat :: k < |states[i].desk.deliveries| ==> Delivers(states[i], k)
  {
    RunKeepsInv(states, steps, i);
    RunKeepsComplete(states, steps, i);
    RestIsDone(states[i]);
  }

  lemma RestIsDone(s: State)
    requires Complete(s) && Chain(s) && Resting(s)
    ensures forall id :: id in s.captures ==> id in s.log.closed || s.life.slot == Some(id)
    ensures forall id: nat :: id in s.log.handed <==> id in s.log.heard
    ensures !Delivering(s)
  {
    NobodyDelivers(s);
    forall id | id in s.captures ensures id in s.log.closed || s.life.slot == Some(id) {
      assert Accounted(s, id);
    }
    forall id: nat | id in s.log.handed ensures id in s.log.heard {
      assert Attended(s, id);
    }
  }

  // ------------------------------------------------------------------
  // From a kept recording to its transcript
  // ------------------------------------------------------------------

  /** The thread is reporting that recording `id` became a clip. */
  predicate Keeps(s: State, th: Thread, id: nat) {
    th in s.pc && (s.pc[th].Reporting? || s.pc[th].Publishing?) && s.pc[th].id == id && s.pc[th].news.ClipReady?
  }

  /** Recording `id` became a clip or is about to, unless it is cancelled. */
  predicate Kept(s: State, id: nat) {
    id < s.life.cancelledBelow || id in s.log.handed || Keeps(s, Socket, id) || Keeps(s, Auto(id), id)
  }

  /** The thread has a transcript of clip `id` that is not cleared yet. */
  predicate Pends(s: State, th: Thread, id: nat) {
    && th in s.pc && s.pc[th].Processing? && s.pc[th].id == id
    && (s.pc[th].job.Queued? || (s.pc[th].job.Injecting? && s.pc[th].job.at.Checking?))
  }

  /** Transcribed clip `id` passed its cancellation check or is about to, unless it is cancelled. */
  predicate Wanted(s: State, id: nat) {
    id < s.life.cancelledBelow || id in s.log.injected || Pends(s, Worker(id), id) || Pends(s, Auto(id), id)
  }

  lemma CommandKeepsDue(s: State, c: CommandStep, id: nat)
    requires CanCommand(s, c) && s.life.cancelledBelow <= s.life.nextId
    ensures Kept(s, id) ==> Kept(DoCommand(s, c), id)
    ensures Wanted(s, id) ==> Wanted(DoCommand(s, c), id)
  {
  }

  lemma ReportGoesOn(s: State, th: Thread, f: FinishStep, id: nat)
    requires CanFinish(s, th, f) && Keeps(s, th, id)
    ensures var s' := DoFinish(s, th, f); id < s.life.cancelledBelow || id in s'.log.handed || Keeps(s', th, id)
  {
  }

  lemma FinishKeepsKept(s: State, th: Thread, f: FinishStep, id: nat)
    requires CanFinish(s, th, f) && TakesNothing(s, DoFinish(s, th, f)) && Kept(s, id)
    ensures Kept(DoFinish(s, th, f), id)
  {
    if Keeps(s, th, id) {
      ReportGoesOn(s, th, f, id);
    } else if Keeps(s, Socket, id) {
      FinishSpares(s, th, f, Socket);
    } else if Keeps(s, Auto(id), id) {
      FinishSpares(s, th, f, Auto(id));
    }
  }

  /** A thread that processes a clip goes on doing so while another closes or reports. */
  lemma FinishSparesProcessing(s: State, th: Thread, f: FinishStep)
    requires CanFinish(s, th, f)
    requires f.LeaveReport? && th == Socket && Worker(s.pc[th].id) in s.pc ==> s.pc[Worker(s.pc[th].id)].Ended?
    ensures var s' := DoFinish(s, th, f);
            forall other :: other in s.pc && s.pc[other].Processing? ==> other in s'.pc && s'.pc[other] == s.pc[other]
  {
    forall other | other in s.pc && s.pc[other].Processing?
      ensures other in DoFinish(s, th, f).pc && DoFinish(s, th, f).pc[other] == s.pc[other]
    {
      FinishSpares(s, th, f, other);
    }
  }

  lemma FinishKeepsWanted(s: State, s': State, id: nat)
    requires TakesNothing(s, s') && Wanted(s, id)
    requires forall other :: other in s.pc && s.pc[other].Processing? ==> other in s'.pc && s'.pc[other] == s.pc[other]
    ensures Wanted(s', id)
  {
  }

  lemma ProcessKeepsKept(s: State, s': State, th: Thread, id: nat)
    requires OnlyMoves(s, s', th) && s.pc[th].Processing? && Kept(s, id)
    ensures Kept(s', id)
  {
  }

  lemma PendingGoesOn(s: State, th: Thread, p: ProcessStep, id: nat)
    requires CanProcess(s, th, p) && Pends(s, th, id)
    ensures var s' := DoProcess(s, th, p); id < s.life.cancelledBelow || id in s'.log.injected || Pends(s', th, id)
  {
  }

  lemma ProcessKeepsWanted(s: State, th: Thread, p: ProcessStep, id: nat)
    requires CanProcess(s, th, p) && OnlyMoves(s, DoProcess(s, th, p), th) && Wanted(s, id)
    ensures Wanted(DoProcess(s, th, p), id)
  {
    if Pends(s, th, id) { PendingGoesOn(s, th, p, id); }
  }

  lemma ReadKeepsDue(s: State, r: nat, e: ReaderStep, id: nat)
    requires CanRead(s, r, e) && (e.SpawnAuto? ==> Auto(r) !in s.pc)
    ensures Kept(s, id) ==> Kept(DoRead(s, r, e), id)
    ensures Wanted(s, id) ==> Wanted(DoRead(s, r, e), id)
  {
  }

  lemma FinishKeepsDue(s: State, th: Thread, f: FinishStep, id: nat)
    requires Sound(s) && CanFinish(s, th, f)
    ensures Kept(s, id) ==> Kept(DoFinish(s, th, f), id)
    ensures Wanted(s, id) ==> Wanted(DoFinish(s, th, f), id)
  {
    if f.LeaveReport? && th == Socket { WorkerIsFree(s, s.pc[th].id); }
    FinishTakesNothing(s, th, f);
    FinishSparesProcessing(s, th, f);
    if Kept(s, id) { FinishKeepsKept(s, th, f, id); }
    if Wanted(s, id) { FinishKeepsWanted(s, DoFinish(s, th, f), id); }
  }

  lemma StepKeepsDue(s: State, a: Step, id: nat)
    requires Sound(s) && Enabled(s, a)
    ensures Kept(s, id) ==> Kept(Next(s, a), id)
    ensures Wanted(s, id) ==> Wanted(Next(s, a), id)
  {
    match a
    case Command(c) => CommandKeepsDue(s, c, id);
    case Finish(th, f) => FinishKeepsDue(s, th, f, id);
    case Process(th, p) =>
      ProcessOnlyMoves(s, th, p);
      if Kept(s, id) { ProcessKeepsKept(s, Next(s, a), th, id); }
      if Wanted(s, id) { ProcessKeepsWanted(s, th, p, id); }
    case Read(r, e) =>
      if e.SpawnAuto? { SpawnAutoKeepsSound(s, r); }
      ReadKeepsDue(s, r, e, id);
    case WakeRevert(g) =>
  }

  /** What is due for clip `id` stays due, or was done. */
  predicate StaysDue(s: State, t: State, id: nat) {
    (Kept(s, id) ==> Kept(t, id)) && (Wanted(s, id) ==> Wanted(t, id))
  }

  lemma RunStepKeepsDue(states: seq<State>, steps: seq<Step>, k: nat, id: nat)
    requires IsRun(states, steps) && k < |steps|
    ensures StaysDue(states[k], states[k + 1], id)
  {
    RunKeepsInv(states, steps, k);
    StepKeepsDue(states[k], steps[k], id);
  }

  lemma DueThrough(s: State, m: State, t: State, id: nat)
    requires StaysDue(s, m, id) && StaysDue(m, t, id)
    ensures StaysDue(s, t, id)
  {
  }

  lemma {:induction false} RunKeepsDue(states: seq<State>, steps: seq<Step>, k: nat, j: nat, id: nat)
    requires IsRun(states, steps) && k <= j < |states|
    ensures StaysDue(states[k], states[j], id)
    decreases j
  {
    if k == j {
    } else {
      var last := j - 1;
      RunKeepsDue(states, steps, k, last, id);
      RunStepKeepsDue(states, steps, last, id);
      DueThrough(states[k], states[last], states[j], id);
    }
  }

  /** At rest nothing is due any more. */
  lemma NothingIsDue(s: State, id: nat)
    requires Resting(s)
    ensures Kept(s, id) <==> id < s.life.cancelledBelow || id in s.log.handed
    ensures Wanted(s, id) <==> id < s.life.cancelledBelow || id in s.log.injected
  {
  }

  lemma KeepingKeeps(s: State, th: Thread)
    requires CanFinish(s, th, FinishJoined(true)) && RunsOwnCode(th, s.pc[th])
    ensures Kept(DoFinish(s, th, FinishJoined(true)), s.pc[th].id)
  {
  }

  /** A recording that was closed and kept is transcribed by the time the session rests, unless it was cancelled. */
  lemma KeptIsTranscribed(states: seq<State>, steps: seq<Step>, k: nat, j: nat, th: Thread)
    requires IsRun(states, steps) && k < j < |states| && steps[k] == Finish(th, FinishJoined(true)) && Resting(states[j])
    ensures var id := states[k].pc[th].id; id < states[j].life.cancelledBelow || id in states[j].log.heard
  {
    var id := states[k].pc[th].id;
    RunKeepsInv(states, steps, k);
    assert ThreadOk(states[k], th);
    KeepingKeeps(states[k], th);
    RunKeepsDue(states, steps, k + 1, j, id);
    NothingIsDue(states[j], id);
    NothingIsLost(states, steps, j);
  }

  lemma HearingIsWanted(s: State, th: Thread, text: string)
    requires CanProcess(s, th, Transcribed(Some(text))) && RunsOwnCode(th, s.pc[th])
    ensures Wanted(DoProcess(s, th, Transcribed(Some(text))), s.pc[th].id)
  {
  }

  /** An accepted transcript is delivered by the time the session rests, exactly once, unless it was cancelled. */
  lemma TranscriptIsDelivered(states: seq<State>, steps: seq<Step>, k: nat, j: nat, th: Thread, text: string)
    requires IsRun(states, steps) && k < j < |states| && steps[k] == Process(th, Transcribed(Some(text))) && Resting(states[j])
    ensures var s, id := states[j], states[k].pc[th].id;
            && |s.desk.deliveries| == |s.log.injected| && NoDup(s.log.injected)
            && (id < s.life.cancelledBelow || exists p: nat :: p < |s.log.injected| && s.log.injected[p] == id && Delivers(s, p))
  {
    var s, id := states[j], states[k].pc[th].id;
    RunKeepsInv(states, steps, k);
    assert ThreadOk(states[k], th);
    HearingIsWanted(states[k], th, text);
    RunKeepsDue(states, steps, k + 1, j, id);
    NothingIsDue(s, id);
    NothingIsLost(states, steps, j);
    RunKeepsInv(states, steps, j);
    if id >= s.life.cancelledBelow {
      var p: nat :| p < |s.log.injected| && s.log.injected[p] == id;
      assert Delivers(s, p);
    }
  }
}
