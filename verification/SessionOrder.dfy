/** In which order overlapping clips paste: the order in which they were cleared, and no other. */
module SessionOrder {
  import opened Common
  import opened SessionModel
  import opened SessionInvariants
  import opened SessionProofs
  import opened SessionPaste
  import opened SessionTheorems

  predicate PastChecking(at: Pc) {
    at.Processing? && at.job.Injecting? && !at.job.at.Checking?
  }

  /** The clip being injected is the last that was cleared. */
  predicate LastCleared(s: State) {
    match s.desk.lock
    case None => true
    case Some(th) =>
      th in s.pc && PastChecking(s.pc[th]) ==>
        s.log.injected != [] && s.log.injected[|s.log.injected| - 1] == s.pc[th].id
  }

  /** Clips that were pasted one before the other were cleared in that order. */
  ghost predicate InClearingOrder(ks: seq<Keystroke>, injected: seq<nat>) {
    forall i, j, p, q ::
      0 <= i < j < |ks| && 0 <= p < |injected| && 0 <= q < |injected| && injected[p] == ks[i].id && injected[q] == ks[j].id ==> p < q
  }

  ghost predicate Orderly(s: State) {
    LastCleared(s) && InClearingOrder(s.desk.keystrokes, s.log.injected)
  }

  lemma AwayKeepsOrder(s: State, s': State)
    requires Orderly(s) && Away(s, s')
    ensures Orderly(s')
  {
  }

  lemma CheckKeepsOrder(s: State, th: Thread, prepared: string)
    requires Sound(s) && Progress(s) && Orderly(s) && CanProcess(s, th, CheckCancelled(prepared))
    ensures Orderly(DoProcess(s, th, CheckCancelled(prepared)))
  {
    assert ThreadOk(s, th) && Recorded(s, s.pc[th].id, 3);
    ClearingKeepsOrder(s.desk.keystrokes, s.log.injected, s.pc[th].id);
    CheckIsOrderly(s, th, s.pc[th].id, prepared);
  }

  lemma ClearingKeepsOrder(ks: seq<Keystroke>, injected: seq<nat>, id: nat)
    requires InClearingOrder(ks, injected) && forall i :: 0 <= i < |ks| ==> ks[i].id != id
    ensures InClearingOrder(ks, injected + [id])
  {
  }

  lemma CheckIsOrderly(s: State, th: Thread, id: nat, prepared: string)
    requires CanProcess(s, th, CheckCancelled(prepared)) && id == s.pc[th].id && s.desk.lock == Some(th)
    ensures var s' := DoProcess(s, th, CheckCancelled(prepared));
            && LastCleared(s') && s'.desk.keystrokes == s.desk.keystrokes
            && (s'.log.injected == s.log.injected || s'.log.injected == s.log.injected + [id])
  {
  }

  lemma PressKeepsOrder(s: State, th: Thread)
    requires Sound(s) && Progress(s) && Once(s) && Orderly(s) && CanProcess(s, th, PressKeys(true))
    ensures Orderly(DoProcess(s, th, PressKeys(true)))
  {
    var s', id := DoProcess(s, th, PressKeys(true)), s.pc[th].id;
    assert ThreadOk(s, th) && Recorded(s, id, 4);
    PressIsOrderly(s, th, id);
    PressedLast(s.desk.keystrokes, s.log.injected, s'.desk.keystrokes[|s.desk.keystrokes|]);
  }

  lemma PressedLast(ks: seq<Keystroke>, injected: seq<nat>, k: Keystroke)
    requires InClearingOrder(ks, injected) && injected != [] && injected[|injected| - 1] == k.id && NoDup(injected)
    requires forall i :: 0 <= i < |ks| ==> ks[i].id != k.id
    ensures InClearingOrder(ks + [k], injected)
  {
  }

  lemma PressIsOrderly(s: State, th: Thread, id: nat)
    requires CanProcess(s, th, PressKeys(true)) && id == s.pc[th].id && s.desk.lock == Some(th) && LastCleared(s)
    ensures var s' := DoProcess(s, th, PressKeys(true));
            && LastCleared(s') && s'.log.injected == s.log.injected && |s'.desk.keystrokes| == |s.desk.keystrokes| + 1
            && s'.desk.keystrokes == s.desk.keystrokes + [s'.desk.keystrokes[|s.desk.keystrokes|]]
            && s'.desk.keystrokes[|s.desk.keystrokes|].id == id
            && s.log.injected != [] && s.log.injected[|s.log.injected| - 1] == id
  {
  }

  /** The other steps of a delivery clear and press nothing. */
  lemma DeliveryKeepsOrder(s: State, th: Thread, p: ProcessStep)
    requires Orderly(s) && CanProcess(s, th, p) && !p.Transcribed? && !p.CheckCancelled? && p != PressKeys(true)
    requires p.LockInjection? || s.desk.lock == Some(th)
    ensures Orderly(DoProcess(s, th, p))
  {
  }

  lemma HearingIsAway(s: State, th: Thread, accepted: Option<string>)
    requires Pastes(s) && CanProcess(s, th, Transcribed(accepted))
    ensures Away(s, DoProcess(s, th, Transcribed(accepted)))
  {
  }

  lemma ProcessKeepsOrder(s: State, th: Thread, p: ProcessStep)
    requires Inv(s) && Pastes(s) && Orderly(s) && CanProcess(s, th, p)
    ensures Orderly(DoProcess(s, th, p))
  {
    assert ThreadOk(s, th);
    match p
    case Transcribed(accepted) => HearingIsAway(s, th, accepted); AwayKeepsOrder(s, DoProcess(s, th, p));
    case CheckCancelled(prepared) => CheckKeepsOrder(s, th, prepared);
    case PressKeys(ok) => if ok { PressKeepsOrder(s, th); } else { DeliveryKeepsOrder(s, th, p); }
    case _ => DeliveryKeepsOrder(s, th, p);
  }

  /** Only processing a clip touches the injection lock and what it guards. */
  lemma OthersAreAway(s: State, a: Step)
    requires Inv(s) && Pastes(s) && Enabled(s, a) && !a.Process?
    ensures Away(s, Next(s, a))
  {
    match a
    case Command(c) => CommandIsAway(s, c);
    case Finish(th, f) =>
      if f.LeaveReport? && th == Socket { WorkerIsFree(s, s.pc[th].id); }
      FinishIsAway(s, th, f);
    case Read(r, e) =>
      if e.SpawnAuto? { SpawnAutoKeepsSound(s, r); }
      ReadIsAway(s, r, e);
    case _ =>
  }

  lemma StepKeepsOrder(s: State, a: Step)
    requires Inv(s) && Pastes(s) && Orderly(s) && Enabled(s, a)
    ensures Orderly(Next(s, a))
  {
    if a.Process? {
      ProcessKeepsOrder(s, a.th, a.p);
    } else {
      OthersAreAway(s, a);
      AwayKeepsOrder(s, Next(s, a));
    }
  }

  lemma StartsInOrder(s: State)
    requires Init(s)
    ensures Orderly(s)
  {
  }

  lemma RunStepKeepsOrder(states: seq<State>, steps: seq<Step>, k: nat)
    requires IsRun(states, steps) && k < |steps| && Orderly(states[k])
    ensures Orderly(states[k + 1])
  {
    RunKeepsInv(states, steps, k);
    StepKeepsOrder(states[k], steps[k]);
  }

  lemma {:induction false} RunKeepsOrder(states: seq<State>, steps: seq<Step>, i: nat)
    requires IsRun(states, steps) && i < |states|
    ensures Orderly(states[i])
  {
    if i == 0 {
      StartsInOrder(states[0]);
    } else {
      RunKeepsOrder(states, steps, i - 1);
      RunStepKeepsOrder(states, steps, i - 1);
    }
  }

  /** No newer clip was pasted before an older one. */
  ghost predicate PastedInIdOrder(s: State) {
    forall i, j :: 0 <= i < j < |s.desk.keystrokes| ==> s.desk.keystrokes[i].id < s.desk.keystrokes[j].id
  }

  /** No clip that was pasted passed its cancellation check before an older one that was pasted too. */
  ghost predicate ClearedInIdOrder(s: State) {
    forall p, q :: 0 <= p < q < |s.log.injected| && PressedFor(s, s.log.injected[p]) && PressedFor(s, s.log.injected[q]) ==>
      s.log.injected[p] < s.log.injected[q]
  }

  lemma PastedThenCleared(s: State)
    requires InClearingOrder(s.desk.keystrokes, s.log.injected) && NoDup(s.log.injected) && PastedInIdOrder(s)
    ensures ClearedInIdOrder(s)
  {
    var ks, injected := s.desk.keystrokes, s.log.injected;
    forall p, q | 0 <= p < q < |injected| && PressedFor(s, injected[p]) && PressedFor(s, injected[q])
      ensures injected[p] < injected[q]
    {
      var m :| 0 <= m < |ks| && ks[m].id == injected[p];
      var n :| 0 <= n < |ks| && ks[n].id == injected[q];
      assert m != n && !(n < m);
    }
  }

  lemma ClearedThenPasted(s: State)
    requires InClearingOrder(s.desk.keystrokes, s.log.injected) && Pastes(s) && ClearedInIdOrder(s)
    ensures PastedInIdOrder(s)
  {
    var ks, injected := s.desk.keystrokes, s.log.injected;
    forall m, n | 0 <= m < n < |ks| ensures ks[m].id < ks[n].id {
      assert ks[m] in ks && ks[n] in ks;
      var p :| 0 <= p < |injected| && injected[p] == ks[m].id;
      var q :| 0 <= q < |injected| && injected[q] == ks[n].id;
      assert PressedFor(s, injected[p]) && PressedFor(s, injected[q]);
    }
  }

  /** Overlapping clips paste in order if and only if they take their turns at the injection lock in order. */
  lemma PasteOrderIff(states: seq<State>, steps: seq<Step>, i: nat)
    requires IsRun(states, steps) && i < |states|
    ensures PastedInIdOrder(states[i]) <==> ClearedInIdOrder(states[i])
  {
    RunKeepsOrder(states, steps, i);
    RunKeepsInv(states, steps, i);
    if PastedInIdOrder(states[i]) {
      PastedThenCleared(states[i]);
    } else if ClearedInIdOrder(states[i]) {
      ClearedThenPasted(states[i]);
    }
  }

  // ------------------------------------------------------------------
  // Where the order is lost
  // ------------------------------------------------------------------

  /** Clip `id` passes its delivery check in this step. */
  predicate PassesCheck(s: State, a: Step, id: nat) {
    && a.Process? && a.p.CheckCancelled? && Enabled(s, a)
    && id == s.pc[a.th].id && s.life.cancelledBelow <= id
  }

  /** Clips are cleared by passing that check and by nothing else. */
  lemma OnlyChecksClear(s: State, a: Step)
    requires Enabled(s, a)
    ensures var t := Next(s, a);
            if a.Process? && a.p.CheckCancelled? && PassesCheck(s, a, s.pc[a.th].id)
            then t.log.injected == s.log.injected + [s.pc[a.th].id]
            else t.log.injected == s.log.injected
  {
    match a
    case Command(c) => CommandClearsNothing(s, c);
    case Finish(th, f) => FinishClearsNothing(s, th, f);
    case Process(th, p) =>
    case Read(r, e) =>
    case WakeRevert(g) =>
  }

  lemma CommandClearsNothing(s: State, c: CommandStep)
    requires CanCommand(s, c)
    ensures DoCommand(s, c).log.injected == s.log.injected
  {
  }

  lemma FinishClearsNothing(s: State, th: Thread, f: FinishStep)
    requires CanFinish(s, th, f)
    ensures DoFinish(s, th, f).log.injected == s.log.injected
  {
  }

  lemma RunStepClears(states: seq<State>, steps: seq<Step>, k: nat)
    requires IsRun(states, steps) && k < |steps|
    ensures states[k].log.injected <= states[k + 1].log.injected
    ensures |states[k + 1].log.injected| <= |states[k].log.injected| + 1
    ensures |states[k + 1].log.injected| > |states[k].log.injected| ==>
              PassesCheck(states[k], steps[k], states[k + 1].log.injected[|states[k].log.injected|])
    ensures forall id :: PassesCheck(states[k], steps[k], id) ==> states[k + 1].log.injected == states[k].log.injected + [id]
  {
    OnlyChecksClear(states[k], steps[k]);
  }

  /** Each history extends the one before it by one entry at most, from nothing. */
  ghost predicate Grown(hs: seq<seq<nat>>) {
    && |hs| > 0 && hs[0] == []
    && forall k: nat :: k + 1 < |hs| ==> GrownAt(hs, k)
  }

  ghost predicate GrownAt(hs: seq<seq<nat>>, k: nat)
    requires k + 1 < |hs|
  {
    hs[k] <= hs[k + 1] && |hs[k + 1]| <= |hs[k]| + 1
  }

  lemma {:induction false} EntriesStay(hs: seq<seq<nat>>, k: nat, i: nat)
    requires Grown(hs) && k <= i < |hs|
    ensures hs[k] <= hs[i]
    decreases i
  {
    if k == i {
    } else {
      EntriesStay(hs, k, i - 1);
      assert GrownAt(hs, i - 1);
    }
  }

  lemma {:induction false} EntryAdded(hs: seq<seq<nat>>, i: nat, p: nat) returns (k: nat)
    requires Grown(hs) && i < |hs| && p < |hs[i]|
    ensures k < i && |hs[k]| == p && |hs[k + 1]| == p + 1
    decreases i
  {
    assert i > 0;
    assert GrownAt(hs, i - 1);
    if p < |hs[i - 1]| {
      k := EntryAdded(hs, i - 1, p);
    } else {
      k := i - 1;
    }
  }

  /** Which clips were cleared, at each state of a run. */
  function Clearings(states: seq<State>): seq<seq<nat>> {
    seq(|states|, k requires 0 <= k < |states| => states[k].log.injected)
  }

  lemma ClearingsGrow(states: seq<State>, steps: seq<Step>)
    requires IsRun(states, steps)
    ensures Grown(Clearings(states))
  {
    forall k: nat | k < |steps| ensures GrownAt(Clearings(states), k) {
      RunStepClears(states, steps, k);
    }
  }

  lemma ClearedStay(states: seq<State>, steps: seq<Step>, k: nat, i: nat)
    requires IsRun(states, steps) && k <= i < |states|
    ensures states[k].log.injected <= states[i].log.injected
  {
    ClearingsGrow(states, steps);
    EntriesStay(Clearings(states), k, i);
  }

  /** The step in which the clip at position `p` of the history was cleared. */
  lemma ClearingStep(states: seq<State>, steps: seq<Step>, i: nat, p: nat) returns (k: nat)
    requires IsRun(states, steps) && i < |states| && p < |states[i].log.injected|
    ensures k < i && PassesCheck(states[k], steps[k], states[i].log.injected[p])
    ensures states[k].log.injected == states[i].log.injected[..p]
  {
    ClearingsGrow(states, steps);
    k := EntryAdded(Clearings(states), i, p);
    EntriesStay(Clearings(states), k, i);
    EntriesStay(Clearings(states), k + 1, i);
    RunStepClears(states, steps, k);
  }

  /** In step `k` clip `newer` passes its delivery check while clip `older` has not; both are pasted by state `i`. */
  ghost predicate Overtakes(states: seq<State>, steps: seq<Step>, i: nat, k: nat, newer: nat, older: nat)
    requires |states| == |steps| + 1 && k < i < |states|
  {
    && PassesCheck(states[k], steps[k], newer) && older < newer && older !in states[k].log.injected
    && PressedFor(states[i], newer) && PressedFor(states[i], older)
  }

  lemma PressedWereCleared(s: State, id: nat)
    requires Pastes(s) && PressedFor(s, id)
    ensures id in s.log.injected
  {
    var j :| 0 <= j < |s.desk.keystrokes| && s.desk.keystrokes[j].id == id;
    assert s.desk.keystrokes[j] in s.desk.keystrokes;
  }

  lemma OvertakingBreaksOrder(states: seq<State>, steps: seq<Step>, i: nat, k: nat, newer: nat, older: nat)
    requires IsRun(states, steps) && k < i < |states| && Overtakes(states, steps, i, k, newer, older)
    ensures !ClearedInIdOrder(states[i])
  {
    RunStepClears(states, steps, k);
    ClearedStay(states, steps, k + 1, i);
    RunKeepsInv(states, steps, i);
    var injected, p := states[i].log.injected, |states[k].log.injected|;
    assert injected[p] == newer && states[k].log.injected == injected[..p];
    PressedWereCleared(states[i], older);
    var q :| 0 <= q < |injected| && injected[q] == older;
    AmongFirst(injected, p, q);
  }

  lemma AmongFirst(s: seq<nat>, p: nat, q: nat)
    requires p <= |s| && q < |s|
    ensures q < p ==> s[q] in s[..p]
  {
    if q < p {
      assert s[..p][q] == s[q];
    }
  }

  lemma DisorderIsOvertaking(states: seq<State>, steps: seq<Step>, i: nat)
    requires IsRun(states, steps) && i < |states| && !ClearedInIdOrder(states[i])
    ensures exists k: nat, newer, older :: k < i && Overtakes(states, steps, i, k, newer, older)
  {
    var injected := states[i].log.injected;
    var p, q :| 0 <= p < q < |injected| && PressedFor(states[i], injected[p]) && PressedFor(states[i], injected[q])
             && injected[p] >= injected[q];
    EverythingHappensOnce(states, steps, i);
    var k := ClearingStep(states, steps, i, p);
    assert Overtakes(states, steps, i, k, injected[p], injected[q]);
  }

  /** A newer clip is pasted before an older one if and only if it passed its delivery check while the older was still on its way. */
  lemma OutOfOrderIff(states: seq<State>, steps: seq<Step>, i: nat)
    requires IsRun(states, steps) && i < |states|
    ensures !PastedInIdOrder(states[i])
       <==> exists k: nat, newer, older :: k < i && Overtakes(states, steps, i, k, newer, older)
  {
    PasteOrderIff(states, steps, i);
    if k: nat, newer, older :| k < i && Overtakes(states, steps, i, k, newer, older) {
      OvertakingBreaksOrder(states, steps, i, k, newer, older);
    }
    if !ClearedInIdOrder(states[i]) {
      DisorderIsOvertaking(states, steps, i);
    }
  }
}
