/** What holds in every state of every run of the session. */
module SessionTheorems {
  import opened Common
  import opened Status
  import opened Injection
  import opened SessionModel
  import opened SessionInvariants
  import opened SessionProofs
  import opened SessionHistory
  import opened SessionBoard
  import opened SessionPaste

  lemma InitIsSound(s: State)
    requires Init(s)
    ensures Inv(s) && Pastes(s)
  {
    assert Serial(s.desk.original, []) == s.desk.original;
  }

  lemma StepKeepsInv(s: State, a: Step)
    requires Inv(s) && Pastes(s) && Enabled(s, a)
    ensures Inv(Next(s, a)) && Pastes(Next(s, a))
  {
    StepKeepsSound(s, a);
    StepKeepsProgress(s, a);
    StepKeepsChain(s, a);
    StepKeepsReverts(s, a);
    StepKeepsFaithful(s, a);
    StepKeepsMask(s, a);
    StepKeepsDuties(s, a);
    StepKeepsPastes(s, a);
  }

  lemma {:induction false} RunKeepsInv(states: seq<State>, steps: seq<Step>, i: nat)
    requires IsRun(states, steps) && i < |states|
    ensures Inv(states[i]) && Pastes(states[i])
  {
    if i == 0 {
      InitIsSound(states[0]);
    } else {
      RunKeepsInv(states, steps, i - 1);
      StepKeepsInv(states[i - 1], steps[i - 1]);
    }
  }

  // ------------------------------------------------------------------
  // The live recording
  // ------------------------------------------------------------------

  /** While a recording is live, the board shows `recording`: no older clip's outcome
      and no delayed revert replaces it. */
  lemma LiveRecordingIsShown(states: seq<State>, steps: seq<Step>, i: nat)
    requires IsRun(states, steps) && i < |states|
    ensures IsRecording(states[i]) ==> states[i].board.state == Recording
  {
    RunKeepsInv(states, steps, i);
  }

  // ------------------------------------------------------------------
  // Cancel
  // ------------------------------------------------------------------

  /** Nobody is left who could show anything but `idle`. */
  ghost predicate Quiet(s: State) {
    && Socket in s.pc
    && s.board.state == Idle && s.life.slot.None? && s.life.cancelledBelow == s.life.nextId
    && (forall r :: r in s.captures ==> !Loud(s.captures[r].reader))
    && (s.pc[Socket].Listening? || s.pc[Socket] == Commanding(Clearing))
    && (forall th :: th in s.pc && s.pc[th].Publishing? ==> !s.pc[th].show)
  }

  lemma CancelMakesQuiet(s: State)
    requires Inv(s) && CanCommand(s, CancelPublishes)
    ensures Quiet(DoCommand(s, CancelPublishes))
  {
    forall r | r in s.captures ensures !Loud(s.captures[r].reader) { assert CaptureOk(s, r); }
    forall th | th in s.pc ensures !s.pc[th].Publishing? { assert ThreadOk(s, th); }
  }

  lemma FinishKeepsQuiet(s: State, th: Thread, f: FinishStep)
    requires Sound(s) && Quiet(s) && CanFinish(s, th, f)
    ensures Quiet(DoFinish(s, th, f))
  {
    assert ThreadOk(s, th);
  }

  lemma ProcessKeepsQuiet(s: State, th: Thread, p: ProcessStep)
    requires Sound(s) && Quiet(s) && CanProcess(s, th, p)
    ensures Quiet(DoProcess(s, th, p))
  {
    assert ThreadOk(s, th);
    ProcessKeepsBoard(s, th, p);
  }

  lemma StepKeepsQuiet(s: State, a: Step)
    requires Sound(s) && Quiet(s) && Enabled(s, a) && a != Command(Start)
    ensures Quiet(Next(s, a))
  {
    match a
    case Finish(th, f) => FinishKeepsQuiet(s, th, f);
    case Process(th, p) => ProcessKeepsQuiet(s, th, p);
    case _ =>
  }

  lemma QuietBegins(states: seq<State>, steps: seq<Step>, k: nat)
    requires IsRun(states, steps) && k < |steps| && steps[k] == Command(CancelPublishes)
    ensures Quiet(states[k + 1])
  {
    RunKeepsInv(states, steps, k);
    CancelMakesQuiet(states[k]);
  }

  lemma QuietLasts(states: seq<State>, steps: seq<Step>, k: nat)
    requires IsRun(states, steps) && k < |steps| && Quiet(states[k]) && steps[k] != Command(Start)
    ensures Quiet(states[k + 1])
  {
    RunKeepsInv(states, steps, k);
    StepKeepsQuiet(states[k], steps[k]);
  }

  /** Once `cancel` returns, the board shows `idle` until the next `start`. */
  lemma {:induction false} CancelStaysIdle(states: seq<State>, steps: seq<Step>, i: nat, j: nat)
    requires IsRun(states, steps) && i < j < |states|
    requires steps[i] == Command(CancelPublishes)
    requires forall k :: i < k < j ==> steps[k] != Command(Start)
    ensures states[j].board.state == Idle && Quiet(states[j])
    decreases j
  {
    var last := j - 1;
    if last == i {
      QuietBegins(states, steps, i);
    } else {
      CancelStaysIdle(states, steps, i, last);
      QuietLasts(states, steps, last);
    }
  }

  /** Clip `id` was cancelled and nobody is in the middle of publishing for it. */
  ghost predicate Muted(s: State, id: nat) {
    && id < s.life.cancelledBelow
    && (forall th :: th in s.pc && s.pc[th].Publishing? ==> s.pc[th].id != id)
  }

  ghost predicate NothingNewShown(before: State, after: State, id: nat) {
    && before.log.shown <= after.log.shown
    && (forall k :: |before.log.shown| <= k < |after.log.shown| ==> after.log.shown[k].id != id)
  }

  predicate NotHanded(before: State, after: State, id: nat) {
    id in after.log.handed ==> id in before.log.handed
  }

  lemma FinishKeepsMuted(s: State, th: Thread, f: FinishStep, id: nat)
    requires Muted(s, id) && CanFinish(s, th, f)
    ensures var s' := DoFinish(s, th, f);
            Muted(s', id) && NothingNewShown(s, s', id) && s'.log.injected == s.log.injected && NotHanded(s, s', id)
  {
  }

  lemma ProcessKeepsMuted(s: State, th: Thread, p: ProcessStep, id: nat)
    requires Muted(s, id) && CanProcess(s, th, p)
    ensures var s' := DoProcess(s, th, p);
            && Muted(s', id) && NothingNewShown(s, s', id)
            && (id in s'.log.injected ==> id in s.log.injected) && NotHanded(s, s', id)
  {
  }

  lemma CommandKeepsMuted(s: State, c: CommandStep, id: nat)
    requires Inv(s) && Muted(s, id) && CanCommand(s, c)
    ensures var s' := DoCommand(s, c);
            Muted(s', id) && NothingNewShown(s, s', id) && s'.log.injected == s.log.injected && NotHanded(s, s', id)
  {
  }

  lemma ReadKeepsMuted(s: State, r: nat, e: ReaderStep, id: nat)
    requires Muted(s, id) && CanRead(s, r, e)
    ensures var s' := DoRead(s, r, e);
            Muted(s', id) && NothingNewShown(s, s', id) && s'.log.injected == s.log.injected && NotHanded(s, s', id)
  {
  }

  lemma StepKeepsMuted(s: State, a: Step, id: nat)
    requires Inv(s) && Muted(s, id) && Enabled(s, a)
    ensures var s' := Next(s, a);
            && Muted(s', id) && NothingNewShown(s, s', id)
            && (id in s'.log.injected ==> id in s.log.injected) && NotHanded(s, s', id)
  {
    match a
    case Command(c) => CommandKeepsMuted(s, c, id);
    case Finish(th, f) => FinishKeepsMuted(s, th, f, id);
    case Process(th, p) => ProcessKeepsMuted(s, th, p, id);
    case Read(r, e) => ReadKeepsMuted(s, r, e, id);
    case WakeRevert(g) =>
  }

  lemma CancelMutes(s: State, id: nat)
    requires Sound(s) && CanCommand(s, Cancel) && id < s.life.nextId
    ensures var s' := CancelStep(s); Muted(s', id) && s'.log.shown == s.log.shown && s'.log.injected == s.log.injected && s'.log.handed == s.log.handed
  {
    forall th | th in s.pc ensures !s.pc[th].Publishing? { assert ThreadOk(s, th); }
  }

  lemma OnlyInjectedPress(s: State, id: nat)
    requires Pastes(s) && id !in s.log.injected
    ensures !PressedFor(s, id)
  {
    var ks := s.desk.keystrokes;
    forall k | 0 <= k < |ks| ensures ks[k].id != id { assert ks[k] in ks; }
  }

  /** Nothing of clip `id` became visible, and it did not pass its cancellation check. */
  ghost predicate StaysSilent(before: State, after: State, id: nat) {
    && Muted(after, id) && NothingNewShown(before, after, id)
    && (id in after.log.injected ==> id in before.log.injected) && NotHanded(before, after, id)
  }

  lemma SilenceBegins(s: State, id: nat)
    requires Inv(s) && Enabled(s, Command(Cancel)) && id < s.life.nextId
    ensures StaysSilent(s, Next(s, Command(Cancel)), id)
  {
    CancelMutes(s, id);
  }

  lemma SilenceLasts(before: State, s: State, a: Step, id: nat)
    requires Inv(s) && StaysSilent(before, s, id) && Enabled(s, a)
    ensures StaysSilent(before, Next(s, a), id)
  {
    StepKeepsMuted(s, a, id);
    NothingNewTwice(before, s, Next(s, a), id);
  }

  lemma {:induction false} SilenceFrom(states: seq<State>, steps: seq<Step>, i: nat, j: nat, id: nat)
    requires IsRun(states, steps) && i < j < |states|
    requires steps[i] == Command(Cancel) && id < states[i].life.nextId
    ensures StaysSilent(states[i], states[j], id)
    decreases j
  {
    RunKeepsInv(states, steps, j - 1);
    if j == i + 1 {
      SilenceBegins(states[i], id);
    } else {
      SilenceFrom(states, steps, i, j - 1, id);
      SilenceLasts(states[i], states[j - 1], steps[j - 1], id);
    }
  }

  /** From the moment `cancel` moves the mark, no older clip publishes anything any more; a recording that
      was not handed on yet never is, and a clip that had not passed its cancellation check is never injected or pasted. */
  lemma CancelledClipsAreSilent(states: seq<State>, steps: seq<Step>, i: nat, j: nat, id: nat)
    requires IsRun(states, steps) && i < j < |states|
    requires steps[i] == Command(Cancel) && id < states[i].life.nextId
    ensures NothingNewShown(states[i], states[j], id)
    ensures id !in states[i].log.handed ==> id !in states[j].log.handed
    ensures id !in states[i].log.injected ==> id !in states[j].log.injected && !PressedFor(states[j], id)
  {
    SilenceFrom(states, steps, i, j, id);
    RunKeepsInv(states, steps, j);
    if id !in states[j].log.injected { OnlyInjectedPress(states[j], id); }
  }

  lemma NothingNewTwice(a: State, b: State, c: State, id: nat)
    requires NothingNewShown(a, b, id) && NothingNewShown(b, c, id)
    ensures NothingNewShown(a, c, id)
  {
  }

  // ------------------------------------------------------------------
  // Once each
  // ------------------------------------------------------------------

  /** Every capture is closed at most once and yields at most one clip, every clip comes from a
      closed capture and is transcribed, injected and pasted at most once; the slot never
      holds a cancelled recording. */
  lemma EverythingHappensOnce(states: seq<State>, steps: seq<Step>, i: nat)
    requires IsRun(states, steps) && i < |states|
    ensures Once(states[i]) && Chain(states[i])
    ensures forall k :: k in states[i].desk.keystrokes ==> k.id in states[i].log.injected
    ensures states[i].life.slot.Some? ==>
              states[i].life.cancelledBelow <= states[i].life.slot.value && states[i].life.slot.value !in states[i].log.closed
  {
    RunKeepsInv(states, steps, i);
  }

  /** A new recording's id was never used; an auto-finish thread only ever takes its own recording. */
  lemma IdsAreFreshAndOwn(states: seq<State>, steps: seq<Step>, i: nat)
    requires IsRun(states, steps) && i < |steps|
    ensures steps[i] == Command(OpenCapture(true)) ==>
              var id := states[i].life.nextId;
              id !in states[i].captures && id !in states[i].log.closed && id !in states[i].log.handed
    ensures forall a: nat :: steps[i] == Finish(Auto(a), AutoTake) && states[i].life.slot != Some(a) ==>
              states[i + 1].life.slot == states[i].life.slot
  {
    RunKeepsInv(states, steps, i);
    var s := states[i];
    assert s.life.nextId in s.captures ==> CaptureOk(s, s.life.nextId);
    assert Recorded(s, s.life.nextId, 0);
    forall a: nat | steps[i] == Finish(Auto(a), AutoTake) && s.life.slot != Some(a)
      ensures states[i + 1].life.slot == s.life.slot
    {
      assert ThreadOk(s, Auto(a));
    }
  }

  // ------------------------------------------------------------------
  // Pasting
  // ------------------------------------------------------------------

  /** However deliveries interleave, each paste keystroke pastes that clip's own text, and whenever
      the injection lock is free the clipboard is as if the deliveries had run one after the other. */
  lemma PastesAreSerial(states: seq<State>, steps: seq<Step>, i: nat)
    requires IsRun(states, steps) && i < |states|
    ensures forall k :: k in states[i].desk.keystrokes ==>
              k.id in states[i].log.prepared && k.seen == Text("text/plain", states[i].log.prepared[k.id])
    ensures states[i].desk.lock.None? ==>
              states[i].desk.clipboard == Serial(states[i].desk.original, states[i].desk.deliveries)
  {
    RunKeepsInv(states, steps, i);
  }

  /** So if the tools did their job, a text or empty clipboard is what it was. */
  lemma ClipboardIsGivenBack(states: seq<State>, steps: seq<Step>, i: nat)
    requires IsRun(states, steps) && i < |states| && states[i].desk.lock.None?
    requires !states[i].desk.original.Binary?
    requires forall d :: d in states[i].desk.deliveries ==> Clean(d)
    ensures states[i].desk.clipboard == states[i].desk.original
  {
    RunKeepsInv(states, steps, i);
    CleanDeliveriesKeepClipboard(states[i].desk.original, states[i].desk.deliveries);
  }

  // ------------------------------------------------------------------
  // Coming to rest
  // ------------------------------------------------------------------

  /** Nothing is left to run but the next command. */
  ghost predicate Settled(s: State) {
    && Socket in s.pc && s.pc[Socket].Listening?
    && (forall th :: th in s.pc && th != Socket ==> s.pc[th].Ended?)
    && (forall r :: r in s.captures ==> s.captures[r].reader.Gone?)
    && s.board.reverts == {}
  }

  /** At rest the board shows `idle`, or the live recording; the one way to be left with
      `recording` for nothing is a `start` that published it over a complaint already made. */
  lemma SettledBoard(states: seq<State>, steps: seq<Step>, i: nat)
    requires IsRun(states, steps) && i < |states| && Settled(states[i])
    ensures states[i].board.state == Recording <==> IsRecording(states[i]) || states[i].log.masked
    ensures states[i].board.state == Idle <==> !IsRecording(states[i]) && !states[i].log.masked
  {
    RunKeepsInv(states, steps, i);
    var s := states[i];
    assert s.board.generation !in s.board.reverts;
    assert forall th :: th in s.pc ==> !WillClear(s, s.pc[th]) && !WillConclude(s, s.pc[th]);
  }
}
