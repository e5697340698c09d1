/** A recording is closed with one result, a clip comes back with one verdict, and only an accepted transcript is injected. */
module SessionVerdicts {
  import opened Common
  import opened Status
  import opened SessionModel
  import opened SessionInvariants
  import opened SessionProofs
  import opened SessionHistory
  import opened SessionTheorems
  import opened SessionOrder
  import opened SessionComplete
  import opened SessionOutcomes

  // ------------------------------------------------------------------
  // Past closing
  // ------------------------------------------------------------------

  /** The thread has recording `id` and has not closed it. */
  predicate HasOpen(s: State, th: Thread, id: nat) {
    Has(s, th, id) && (s.pc[th].Commanding? || s.pc[th].Closing?)
  }

  /** Nobody has recording `id` open, and nobody will again. */
  predicate Over(s: State, id: nat) {
    id < s.life.nextId && s.life.slot != Some(id) && !HasOpen(s, Socket, id) && !HasOpen(s, Auto(id), id)
  }

  lemma CommandKeepsOver(s: State, c: CommandStep, id: nat)
    requires CanCommand(s, c) && Over(s, id)
    ensures Over(DoCommand(s, c), id)
  {
  }

  lemma FinishKeepsOver(s: State, th: Thread, f: FinishStep, id: nat)
    requires CanFinish(s, th, f) && RunsOwnCode(th, s.pc[th]) && Over(s, id)
    ensures Over(DoFinish(s, th, f), id)
  {
  }

  lemma ProcessOpensNothing(s: State, th: Thread, p: ProcessStep)
    requires CanProcess(s, th, p)
    ensures th in DoProcess(s, th, p).pc && !DoProcess(s, th, p).pc[th].Commanding? && !DoProcess(s, th, p).pc[th].Closing?
  {
  }

  lemma ProcessKeepsOver(s: State, s': State, th: Thread, id: nat)
    requires OnlyMoves(s, s', th) && !s'.pc[th].Commanding? && !s'.pc[th].Closing? && Over(s, id)
    ensures Over(s', id)
  {
  }

  lemma StepKeepsOver(s: State, a: Step, id: nat)
    requires Sound(s) && Enabled(s, a) && Over(s, id)
    ensures Over(Next(s, a), id)
  {
    match a
    case Command(c) => CommandKeepsOver(s, c, id);
    case Finish(th, f) => assert ThreadOk(s, th); FinishKeepsOver(s, th, f, id);
    case Process(th, p) =>
      ProcessOnlyMoves(s, th, p);
      ProcessOpensNothing(s, th, p);
      ProcessKeepsOver(s, Next(s, a), th, id);
    case Read(r, e) =>
    case WakeRevert(g) =>
  }

  lemma ClosingIsOver(s: State, th: Thread, kept: bool)
    requires Sound(s) && CanFinish(s, th, FinishJoined(kept))
    ensures !Over(s, s.pc[th].id) && Over(DoFinish(s, th, FinishJoined(kept)), s.pc[th].id)
  {
    var id := s.pc[th].id;
    assert ThreadOk(s, th);
    PlaceIsUnique(s, th, if th == Socket then Auto(id) else Socket, id);
  }

  // ------------------------------------------------------------------
  // One result, one verdict
  // ------------------------------------------------------------------

  ghost predicate Apart(t: Told, s: State, id: nat) {
    && (id in t.kept || id in t.dropped ==> Over(s, id))
    && !(id in t.kept && id in t.dropped)
    && (id in t.rejected ==> id in s.log.heard)
    && (forall text :: (id, text) in t.accepted ==> id in s.log.heard && id !in t.rejected)
    && (forall a, b :: (id, a) in t.accepted && (id, b) in t.accepted ==> a == b)
    && (id in s.log.injected ==> exists text :: (id, text) in t.accepted)
  }

  lemma JoinKeepsApart(t: Told, s: State, th: Thread, kept: bool, id: nat)
    requires Sound(s) && CanFinish(s, th, FinishJoined(kept)) && Apart(t, s, id)
    ensures Apart(Noted(t, s, Finish(th, FinishJoined(kept))), DoFinish(s, th, FinishJoined(kept)), id)
  {
    ClosingIsOver(s, th, kept);
    FinishTakesNothing(s, th, FinishJoined(kept));
    if Over(s, id) {
      assert ThreadOk(s, th);
      FinishKeepsOver(s, th, FinishJoined(kept), id);
    }
  }

  lemma HearingKeepsApart(t: Told, s: State, th: Thread, accepted: Option<string>, id: nat)
    requires Sound(s) && Progress(s) && CanProcess(s, th, Transcribed(accepted)) && Apart(t, s, id)
    ensures Apart(Noted(t, s, Process(th, Transcribed(accepted))), DoProcess(s, th, Transcribed(accepted)), id)
  {
    assert Recorded(s, s.pc[th].id, 2);
    if Over(s, id) { StepKeepsOver(s, Process(th, Transcribed(accepted)), id); }
  }

  lemma CheckKeepsApart(t: Told, s: State, th: Thread, prepared: string, id: nat)
    requires Sound(s) && CanProcess(s, th, CheckCancelled(prepared)) && Backed(t, s, s.pc[th]) && Apart(t, s, id)
    ensures Apart(t, DoProcess(s, th, CheckCancelled(prepared)), id)
  {
    if Over(s, id) { StepKeepsOver(s, Process(th, CheckCancelled(prepared)), id); }
    CheckAdds(s, th, prepared);
    assert (s.pc[th].id, s.pc[th].job.text) in t.accepted;
  }

  lemma CheckAdds(s: State, th: Thread, prepared: string)
    requires CanProcess(s, th, CheckCancelled(prepared))
    ensures var s' := DoProcess(s, th, CheckCancelled(prepared));
            && s'.log.heard == s.log.heard
            && (s'.log.injected == s.log.injected || s'.log.injected == s.log.injected + [s.pc[th].id])
  {
  }

  /** The other steps say nothing of the kind. */
  lemma OthersKeepApart(t: Told, s: State, s': State, id: nat)
    requires Apart(t, s, id) && (Over(s, id) ==> Over(s', id)) && s'.log.heard == s.log.heard && s'.log.injected == s.log.injected
    ensures Apart(t, s', id)
  {
  }

  lemma OthersSayNothing(s: State, a: Step)
    requires Enabled(s, a) && !(a.Process? && (a.p.Transcribed? || a.p.CheckCancelled?))
    ensures Next(s, a).log.heard == s.log.heard && Next(s, a).log.injected == s.log.injected
  {
    match a
    case Command(c) => CommandClearsNothing(s, c);
    case Finish(th, f) => FinishTakesNothing(s, th, f);
    case _ =>
  }

  lemma StepKeepsApart(t: Told, s: State, a: Step, id: nat)
    requires Sound(s) && Progress(s) && Truthful(t, s) && Enabled(s, a) && Apart(t, s, id)
    ensures Apart(Noted(t, s, a), Next(s, a), id)
  {
    if a.Finish? && a.f.FinishJoined? {
      JoinKeepsApart(t, s, a.th, a.f.kept, id);
    } else if a.Process? && a.p.Transcribed? {
      HearingKeepsApart(t, s, a.th, a.p.accepted, id);
    } else if a.Process? && a.p.CheckCancelled? {
      CheckKeepsApart(t, s, a.th, a.p.prepared, id);
    } else {
      OthersSayNothing(s, a);
      if Over(s, id) { StepKeepsOver(s, a, id); }
      OthersKeepApart(t, s, Next(s, a), id);
    }
  }

  lemma RunStepKeepsApart(states: seq<State>, steps: seq<Step>, k: nat, id: nat)
    requires IsRun(states, steps) && k < |steps| && Apart(ToldBy(states, steps, k), states[k], id)
    ensures Apart(ToldBy(states, steps, k + 1), states[k + 1], id)
  {
    RunKeepsInv(states, steps, k);
    RunIsTruthful(states, steps, k);
    StepKeepsApart(ToldBy(states, steps, k), states[k], steps[k], id);
  }

  lemma {:induction false} RunKeepsApart(states: seq<State>, steps: seq<Step>, i: nat, id: nat)
    requires IsRun(states, steps) && i < |states|
    ensures Apart(ToldBy(states, steps, i), states[i], id)
  {
    if i == 0 {
    } else {
      RunKeepsApart(states, steps, i - 1, id);
      RunStepKeepsApart(states, steps, i - 1, id);
    }
  }

  lemma FaredOneWay(s: State, id: nat)
    requires NoDup(s.log.injected)
    ensures !(Fared(s, id, true) && Fared(s, id, false))
  {
  }

  lemma FaredWasCleared(s: State, id: nat, arrived: bool)
    requires Fared(s, id, arrived)
    ensures id in s.log.injected
  {
  }

  /** What is said of a clip is said one way: kept or dropped, rejected or accepted with one transcript, arrived or not; and only accepted transcripts are injected. */
  lemma VerdictsAreFinal(states: seq<State>, steps: seq<Step>, i: nat, id: nat, a: string, b: string)
    requires IsRun(states, steps) && i < |states|
    ensures !(Closed(states, steps, i, id, true) && Closed(states, steps, i, id, false))
    ensures !(Heard(states, steps, i, id, None) && Heard(states, steps, i, id, Some(a)))
    ensures Heard(states, steps, i, id, Some(a)) && Heard(states, steps, i, id, Some(b)) ==> a == b
    ensures Heard(states, steps, i, id, None) ==> id !in states[i].log.injected
    ensures !(Fared(states[i], id, true) && Fared(states[i], id, false))
  {
    RunKeepsApart(states, steps, i, id);
    ToldMeans(states, steps, i, id, a);
    ToldMeans(states, steps, i, id, b);
    EverythingHappensOnce(states, steps, i);
    FaredOneWay(states[i], id);
  }

  /** A clip passes its delivery check with the transcript that was accepted for it, which its text is prepared from. */
  lemma ClearedWithItsTranscript(states: seq<State>, steps: seq<Step>, i: nat, th: Thread, prepared: string)
    requires IsRun(states, steps) && i < |steps| && steps[i] == Process(th, CheckCancelled(prepared))
    ensures Heard(states, steps, i, states[i].pc[th].id, Some(states[i].pc[th].job.text))
  {
    RunIsTruthful(states, steps, i);
    assert Backed(ToldBy(states, steps, i), states[i], states[i].pc[th]);
    ToldMeans(states, steps, i, states[i].pc[th].id, states[i].pc[th].job.text);
  }

  // ------------------------------------------------------------------
  // The moment of a report
  // ------------------------------------------------------------------

  lemma ReportedState(s: State, th: Thread)
    requires CanFinish(s, th, LeaveReport) && s.pc[th].show
    ensures DoFinish(s, th, LeaveReport).log.shown == s.log.shown + [Shown(s.pc[th].id, DoFinish(s, th, LeaveReport).board.state)]
    ensures DoFinish(s, th, LeaveReport).log.injected == s.log.injected && DoFinish(s, th, LeaveReport).desk == s.desk
  {
  }

  lemma ReportMeans(states: seq<State>, steps: seq<Step>, i: nat, th: Thread)
    requires IsRun(states, steps) && i < |steps| && steps[i] == Finish(th, LeaveReport) && states[i].pc[th].show
    ensures Means(states, steps, i + 1, states[i].pc[th].id, states[i + 1].board.state)
  {
    var s, t := states[i], states[i + 1];
    ReportedState(s, th);
    DisplayIsTrue(states, steps, i + 1);
    assert t.log.shown[|s.log.shown|] == Shown(s.pc[th].id, t.board.state);
    assert Shown(s.pc[th].id, t.board.state) in t.log.shown;
  }

  /** Before it is handed on a clip has no verdict; after, it is past closing. */
  lemma ReportStage(s: State, th: Thread)
    requires Sound(s) && Progress(s) && CanFinish(s, th, LeaveReport)
    ensures var id := s.pc[th].id;
            && (ClosingNews(s.pc[th].news) ==> id !in s.log.handed && id !in s.log.heard && id !in s.log.injected)
            && (!ClosingNews(s.pc[th].news) ==> id in s.log.heard)
  {
    assert Recorded(s, s.pc[th].id, Stage(s.pc[th]));
  }

  lemma ReportKind(s: State, th: Thread)
    requires CanFinish(s, th, LeaveReport) && s.pc[th].show
    ensures var now := DoFinish(s, th, LeaveReport).board.state;
            if ClosingNews(s.pc[th].news) then now == Idle || now == Transcribing else now == Success || now == Error
  {
  }

  /** There is no verdict on a clip that has not come back, and one that has is past closing. */
  lemma NothingToldYet(states: seq<State>, steps: seq<Step>, i: nat, id: nat)
    requires IsRun(states, steps) && i < |states| && id !in states[i].log.heard
    ensures !Heard(states, steps, i, id, None) && !Fared(states[i], id, true) && !Fared(states[i], id, false)
  {
    RunKeepsApart(states, steps, i, id);
    ToldMeans(states, steps, i, id, "");
    RunKeepsInv(states, steps, i);
  }

  lemma HeardWasKept(states: seq<State>, steps: seq<Step>, i: nat, th: Thread)
    requires IsRun(states, steps) && i < |steps| && steps[i] == Finish(th, LeaveReport)
    ensures var s, id := states[i], states[i].pc[th].id;
            && (ClosingNews(s.pc[th].news) ==> id !in states[i + 1].log.heard)
            && (!ClosingNews(s.pc[th].news) ==> id in s.log.heard)
  {
    RunKeepsInv(states, steps, i);
    ReportStage(states[i], th);
    FinishTakesNothing(states[i], th, LeaveReport);
  }

  /**
   What a report that publishes puts on the display is exactly what became of the clip: before it was
   sent to the speech server, `transcribing` if it was kept and `idle` if it was dropped; after,
   `success` if its text arrived, and `error` if its transcript was rejected or its text did not arrive.
   */
  lemma ReportIsExact(states: seq<State>, steps: seq<Step>, i: nat, th: Thread)
    requires IsRun(states, steps) && i < |steps| && steps[i] == Finish(th, LeaveReport) && states[i].pc[th].show
    ensures var id, n, now := states[i].pc[th].id, i + 1, states[i + 1].board.state;
            && (now == Transcribing <==> id !in states[i].log.heard && Closed(states, steps, n, id, true))
            && (now == Idle <==> id !in states[i].log.heard && Closed(states, steps, n, id, false))
            && (now == Success <==> Fared(states[n], id, true))
            && (now == Error <==> Heard(states, steps, n, id, None) || Fared(states[n], id, false))
  {
    var id, n := states[i].pc[th].id, i + 1;
    ReportMeans(states, steps, i, th);
    ReportKind(states[i], th);
    HeardWasKept(states, steps, i, th);
    VerdictsAreFinal(states, steps, n, id, "", "");
    FinishTakesNothing(states[i], th, LeaveReport);
    if id !in states[n].log.heard { NothingToldYet(states, steps, n, id); }
    if Fared(states[n], id, true) { FaredWasCleared(states[n], id, true); }
  }
}
