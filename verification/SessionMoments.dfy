/** What holds at particular moments of a run, and what the display's history tells. */
module SessionMoments {
  import opened Common
  import opened Status
  import opened SessionModel
  import opened SessionInvariants
  import opened SessionBoard
  import opened SessionTheorems

  // ------------------------------------------------------------------
  // One step of a run
  // ------------------------------------------------------------------

  /** `start` opens, announces and fills the slot with the lifecycle lock held and the slot empty. */
  lemma StartOwnsTheSlot(states: seq<State>, steps: seq<Step>, i: nat)
    requires IsRun(states, steps) && i < |steps|
    requires steps[i].Command? && (steps[i].c.OpenCapture? || steps[i].c.Announce? || steps[i].c.FillSlot?)
    ensures states[i].life.lock == Some(Socket) && states[i].life.slot.None?
  {
    RunKeepsInv(states, steps, i);
    assert ThreadOk(states[i], Socket);
  }

  lemma NoDupLast(s: seq<nat>, x: nat)
    requires NoDup(s + [x])
    ensures x !in s
  {
    forall j | 0 <= j < |s| ensures s[j] != x {
      assert (s + [x])[j] == s[j] && (s + [x])[|s|] == x;
    }
  }

  /** A capture that is closed, by `stop`, auto-stop, `cancel` or a new `start`, was not closed before. */
  lemma ClosedForTheFirstTime(states: seq<State>, steps: seq<Step>, i: nat, id: nat)
    requires IsRun(states, steps) && i < |steps| && states[i + 1].log.closed == states[i].log.closed + [id]
    ensures id !in states[i].log.closed
  {
    EverythingHappensOnce(states, steps, i + 1);
    NoDupLast(states[i].log.closed, id);
  }

  /** A report that goes through is of an uncancelled clip, under the lock, and leaves a live recording on display. */
  lemma ReportsSpareTheLive(states: seq<State>, steps: seq<Step>, i: nat, th: Thread)
    requires IsRun(states, steps) && i < |steps| && steps[i] == Finish(th, LeaveReport)
    ensures var s := states[i];
            && s.life.lock == Some(th) && s.life.cancelledBelow <= s.pc[th].id
            && (IsRecording(s) ==> states[i + 1].board == s.board && s.board.state == Recording)
  {
    RunKeepsInv(states, steps, i);
    assert ThreadOk(states[i], th);
    QuietLeaves(states[i], th);
  }

  lemma QuietLeaves(s: State, th: Thread)
    requires CanFinish(s, th, LeaveReport)
    ensures !s.pc[th].show ==> DoFinish(s, th, LeaveReport).board == s.board
  {
  }

  /** A clip is cleared with the injection lock held, above the mark, and for the first time. */
  lemma ClearedOnce(states: seq<State>, steps: seq<Step>, i: nat, th: Thread, prepared: string)
    requires IsRun(states, steps) && i < |steps| && steps[i] == Process(th, CheckCancelled(prepared))
    ensures var s, id := states[i], states[i].pc[th].id;
            && s.desk.lock == Some(th) && id !in s.log.injected && !PressedFor(s, id)
            && states[i + 1].log.injected == s.log.injected + (if s.life.cancelledBelow <= id then [id] else [])
  {
    RunKeepsInv(states, steps, i);
    assert ThreadOk(states[i], th) && Recorded(states[i], states[i].pc[th].id, 3);
    CheckAppends(states[i], th, prepared);
  }

  lemma CheckAppends(s: State, th: Thread, prepared: string)
    requires CanProcess(s, th, CheckCancelled(prepared))
    ensures DoProcess(s, th, CheckCancelled(prepared)).log.injected
         == s.log.injected + (if s.life.cancelledBelow <= s.pc[th].id then [s.pc[th].id] else [])
  {
  }

  // ------------------------------------------------------------------
  // What the mark on the history means
  // ------------------------------------------------------------------

  /** Nothing was published from state `k` to state `i`. */
  ghost predicate Unpublished(states: seq<State>, k: nat, i: nat)
    requires i < |states|
  {
    forall m: nat :: k <= m <= i ==> states[m].board.generation == states[i].board.generation
  }

  /** Step `k` is `start`'s publication over a complaint already made, and nothing was published since. */
  ghost predicate HiddenSince(states: seq<State>, steps: seq<Step>, k: nat, i: nat)
    requires |states| == |steps| + 1 && k < i < |states|
  {
    Hides(states[k], steps[k]) && Unpublished(states, k + 1, i)
  }

  /** The mark changes with publications only, and says whether the last one hid a complaint. */
  lemma MaskMoves(states: seq<State>, steps: seq<Step>, k: nat)
    requires IsRun(states, steps) && k < |steps|
    ensures if states[k + 1].board.generation == states[k].board.generation
            then states[k + 1].log.masked == states[k].log.masked && !Hides(states[k], steps[k])
            else states[k + 1].log.masked == Hides(states[k], steps[k])
  {
    StepMovesMask(states[k], steps[k]);
  }

  lemma StepMovesMask(s: State, a: Step)
    requires Enabled(s, a)
    ensures var t := Next(s, a);
            if t.board.generation == s.board.generation then t.log.masked == s.log.masked && !Hides(s, a)
            else t.log.masked == Hides(s, a)
  {
    match a
    case WakeRevert(_) =>
    case Command(c) => if c == Announce { } else { NextOnBoard(s, a); }
    case _ => NextOnBoard(s, a);
  }

  lemma HiddenStays(states: seq<State>, steps: seq<Step>, k: nat, i: nat)
    requires IsRun(states, steps) && k < i && i + 1 < |states|
    ensures HiddenSince(states, steps, k, i + 1)
       <==> HiddenSince(states, steps, k, i) && states[i + 1].board.generation == states[i].board.generation
  {
    assert Unpublished(states, k + 1, i + 1) ==> states[i].board.generation == states[i + 1].board.generation;
  }

  /** The last publication before state `i` was `start`'s, over a complaint already made. */
  ghost predicate ComplaintHidden(states: seq<State>, steps: seq<Step>, i: nat)
    requires |states| == |steps| + 1 && i < |states|
  {
    exists k: nat :: k < i && HiddenSince(states, steps, k, i)
  }

  lemma HiddenOneMore(states: seq<State>, steps: seq<Step>, i: nat)
    requires IsRun(states, steps) && i + 1 < |states|
    requires Hides(states[i], steps[i]) ==> states[i + 1].board.generation != states[i].board.generation
    ensures ComplaintHidden(states, steps, i + 1)
       <==> Hides(states[i], steps[i])
            || (ComplaintHidden(states, steps, i) && states[i + 1].board.generation == states[i].board.generation)
  {
    LastStepHides(states, steps, i);
    if states[i + 1].board.generation == states[i].board.generation {
      HiddenBefore(states, steps, i);
    } else {
      HiddenNow(states, steps, i);
    }
  }

  /** A step that publishes nothing hides nothing, and what was hidden stays so. */
  lemma HiddenBefore(states: seq<State>, steps: seq<Step>, i: nat)
    requires IsRun(states, steps) && i + 1 < |states| && states[i + 1].board.generation == states[i].board.generation
    requires !HiddenSince(states, steps, i, i + 1)
    ensures ComplaintHidden(states, steps, i + 1) <==> ComplaintHidden(states, steps, i)
  {
    var next := i + 1;
    if k: nat :| k < i && HiddenSince(states, steps, k, next) {
      HiddenStays(states, steps, k, i);
    }
    if k: nat :| k < i && HiddenSince(states, steps, k, i) {
      HiddenStays(states, steps, k, i);
    }
  }

  /** After one that publishes, only that step can have hidden anything. */
  lemma HiddenNow(states: seq<State>, steps: seq<Step>, i: nat)
    requires IsRun(states, steps) && i + 1 < |states| && states[i + 1].board.generation != states[i].board.generation
    ensures ComplaintHidden(states, steps, i + 1) <==> HiddenSince(states, steps, i, i + 1)
  {
    var next := i + 1;
    if k: nat :| k < i && HiddenSince(states, steps, k, next) {
      HiddenStays(states, steps, k, i);
    }
  }

  /** That is what the mark on the history says. */
  lemma {:induction false} MaskedMeans(states: seq<State>, steps: seq<Step>, i: nat)
    requires IsRun(states, steps) && i < |states|
    ensures states[i].log.masked <==> ComplaintHidden(states, steps, i)
  {
    if i == 0 {
    } else {
      MaskedMeans(states, steps, i - 1);
      MaskMoves(states, steps, i - 1);
      HiddenOneMore(states, steps, i - 1);
    }
  }

  lemma LastStepHides(states: seq<State>, steps: seq<Step>, k: nat)
    requires IsRun(states, steps) && k < |steps|
    ensures HiddenSince(states, steps, k, k + 1) <==> Hides(states[k], steps[k])
  {
  }

  /** With nothing recording, the display at rest is wrong if and only if `start` published last, over a complaint. */
  lemma WrongAtRestIff(states: seq<State>, steps: seq<Step>, i: nat)
    requires IsRun(states, steps) && i < |states| && Settled(states[i]) && !IsRecording(states[i])
    ensures states[i].board.state == Recording <==> ComplaintHidden(states, steps, i)
    ensures states[i].board.state != Recording ==> states[i].board.state == Idle
  {
    SettledBoard(states, steps, i);
    MaskedMeans(states, steps, i);
  }
}
