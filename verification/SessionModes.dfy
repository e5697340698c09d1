/** Clips are delivered the configured way: typed, or pasted through the clipboard. */
module SessionModes {
  import opened Common
  import opened Injection
  import opened SessionModel
  import opened SessionInvariants
  import opened SessionPaste
  import opened SessionTheorems
  import opened SessionOrder

  predicate FitsMode(mode: Mode, d: Delivery) {
    match mode
    case Typing => d.Typed?
    case Pasting(hasKeys) => if hasKeys then d.CopyFailed? || d.KeysFailed? || d.Pasted? else d.Unconfigured?
  }

  /** The thread with the injection lock is on the way of that mode. */
  predicate OnItsWay(mode: Mode, at: Pc) {
    at.Processing? && at.job.Injecting? &&
    match at.job.at
    case Checking => true
    case TypingText => mode.Typing?
    case _ => mode == Pasting(true)
  }

  ghost predicate Fitting(s: State) {
    && (forall d :: d in s.desk.deliveries ==> FitsMode(s.desk.mode, d))
    && (s.desk.lock.Some? ==> s.desk.lock.value in s.pc && OnItsWay(s.desk.mode, s.pc[s.desk.lock.value]))
    && (s.desk.mode.Typing? ==> s.desk.clipboard == s.desk.original)
  }

  lemma AwayKeepsFitting(s: State, s': State)
    requires Fitting(s) && Away(s, s')
    ensures Fitting(s')
  {
  }

  /** One step of the thread that holds the injection lock or takes it. */
  lemma StepFits(s: State, th: Thread, p: ProcessStep)
    requires CanProcess(s, th, p) && !p.Transcribed? && OnItsWay(s.desk.mode, s.pc[th]) && s.desk.lock == Some(th)
    ensures var s', ds := DoProcess(s, th, p), s.desk.deliveries;
            && s'.desk.mode == s.desk.mode && s'.desk.original == s.desk.original
            && (s.desk.mode.Typing? ==> s'.desk.clipboard == s.desk.clipboard)
            && (s'.desk.lock.Some? ==> s'.desk.lock == Some(th) && th in s'.pc && OnItsWay(s.desk.mode, s'.pc[th]))
            && (s'.desk.deliveries == ds
                || (|s'.desk.deliveries| == |ds| + 1 && s'.desk.deliveries == ds + [s'.desk.deliveries[|ds|]]
                    && FitsMode(s.desk.mode, s'.desk.deliveries[|ds|])))
  {
  }

  lemma DeliveryKeepsFitting(s: State, th: Thread, p: ProcessStep)
    requires Fitting(s) && CanProcess(s, th, p) && !p.Transcribed? && s.desk.lock == Some(th)
    ensures Fitting(DoProcess(s, th, p))
  {
    StepFits(s, th, p);
  }

  lemma LockKeepsFitting(s: State, th: Thread)
    requires Fitting(s) && CanProcess(s, th, LockInjection)
    ensures Fitting(DoProcess(s, th, LockInjection))
  {
  }

  lemma StepKeepsFitting(s: State, a: Step)
    requires Inv(s) && Pastes(s) && Fitting(s) && Enabled(s, a)
    ensures Fitting(Next(s, a))
  {
    if a.Process? {
      assert ThreadOk(s, a.th);
      if a.p.Transcribed? {
        HearingIsAway(s, a.th, a.p.accepted);
        AwayKeepsFitting(s, Next(s, a));
      } else if a.p.LockInjection? {
        LockKeepsFitting(s, a.th);
      } else {
        DeliveryKeepsFitting(s, a.th, a.p);
      }
    } else {
      OthersAreAway(s, a);
      AwayKeepsFitting(s, Next(s, a));
    }
  }

  lemma RunStepKeepsFitting(states: seq<State>, steps: seq<Step>, k: nat)
    requires IsRun(states, steps) && k < |steps| && Fitting(states[k])
    ensures Fitting(states[k + 1])
  {
    RunKeepsInv(states, steps, k);
    StepKeepsFitting(states[k], steps[k]);
  }

  /** Every clip is delivered as configured, and a session that types never touches the clipboard. */
  lemma {:induction false} RunKeepsFitting(states: seq<State>, steps: seq<Step>, i: nat)
    requires IsRun(states, steps) && i < |states|
    ensures Fitting(states[i])
  {
    if i == 0 {
    } else {
      RunKeepsFitting(states, steps, i - 1);
      RunStepKeepsFitting(states, steps, i - 1);
    }
  }
}
