/** What the display says about a clip is what became of it. */
module SessionOutcomes {
  import opened Common
  import opened Status
  import opened Injection
  import opened SessionModel
  import opened SessionInvariants
  import opened SessionProofs
  import opened SessionPaste
  import opened SessionTheorems
  import opened SessionOrder
  import opened SessionComplete

  // ------------------------------------------------------------------
  // What the steps said
  // ------------------------------------------------------------------

  /** The closed capture of recording `id` is joined, and its clip is kept or dropped. */
  predicate ClosesAt(s: State, a: Step, id: nat, kept: bool) {
    Enabled(s, a) && a.Finish? && a.f == FinishJoined(kept) && s.pc[a.th].id == id
  }

  /** Clip `id` comes back from the speech server: with a transcript that is accepted, or with none. */
  predicate HearsAt(s: State, a: Step, id: nat, accepted: Option<string>) {
    Enabled(s, a) && a.Process? && a.p == Transcribed(accepted) && s.pc[a.th].id == id
  }

  /** Before state `i` of the run. */
  ghost predicate Closed(states: seq<State>, steps: seq<Step>, i: nat, id: nat, kept: bool)
    requires |states| == |steps| + 1 && i < |states|
  {
    exists k: nat :: k < i && ClosesAt(states[k], steps[k], id, kept)
  }

  ghost predicate Heard(states: seq<State>, steps: seq<Step>, i: nat, id: nat, accepted: Option<string>)
    requires |states| == |steps| + 1 && i < |states|
  {
    exists k: nat :: k < i && HearsAt(states[k], steps[k], id, accepted)
  }

  /** All of that, gathered step by step. */
  datatype Told = Told(kept: set<nat>, dropped: set<nat>, accepted: set<(nat, string)>, rejected: set<nat>)

  function Noted(t: Told, s: State, a: Step): Told
    requires Enabled(s, a)
  {
    match a
    case Finish(th, FinishJoined(kept)) =>
      if kept then t.(kept := t.kept + {s.pc[th].id}) else t.(dropped := t.dropped + {s.pc[th].id})
    case Process(th, Transcribed(accepted)) =>
      if accepted.Some? then t.(accepted := t.accepted + {(s.pc[th].id, accepted.value)})
      else t.(rejected := t.rejected + {s.pc[th].id})
    case _ => t
  }

  lemma NotedIs(t: Told, s: State, a: Step, id: nat, text: string)
    requires Enabled(s, a)
    ensures var u := Noted(t, s, a);
            && (id in u.kept <==> id in t.kept || ClosesAt(s, a, id, true))
            && (id in u.dropped <==> id in t.dropped || ClosesAt(s, a, id, false))
            && ((id, text) in u.accepted <==> (id, text) in t.accepted || HearsAt(s, a, id, Some(text)))
            && (id in u.rejected <==> id in t.rejected || HearsAt(s, a, id, None))
  {
  }

  ghost function ToldBy(states: seq<State>, steps: seq<Step>, i: nat): Told
    requires IsRun(states, steps) && i < |states|
  {
    if i == 0 then Told({}, {}, {}, {}) else Noted(ToldBy(states, steps, i - 1), states[i - 1], steps[i - 1])
  }

  lemma OneMoreTold(states: seq<State>, steps: seq<Step>, k: nat, id: nat, text: string)
    requires IsRun(states, steps) && k < |steps|
    ensures forall kept :: Closed(states, steps, k + 1, id, kept)
                      <==> Closed(states, steps, k, id, kept) || ClosesAt(states[k], steps[k], id, kept)
    ensures forall accepted :: Heard(states, steps, k + 1, id, accepted)
                          <==> Heard(states, steps, k, id, accepted) || HearsAt(states[k], steps[k], id, accepted)
    ensures Enabled(states[k], steps[k]) && ToldBy(states, steps, k + 1) == Noted(ToldBy(states, steps, k), states[k], steps[k])
  {
  }

  lemma {:induction false} ToldMeans(states: seq<State>, steps: seq<Step>, i: nat, id: nat, text: string)
    requires IsRun(states, steps) && i < |states|
    ensures var t := ToldBy(states, steps, i);
            && (id in t.kept <==> Closed(states, steps, i, id, true))
            && (id in t.dropped <==> Closed(states, steps, i, id, false))
            && ((id, text) in t.accepted <==> Heard(states, steps, i, id, Some(text)))
            && (id in t.rejected <==> Heard(states, steps, i, id, None))
  {
    if i == 0 {
    } else {
      var last := i - 1;
      ToldMeans(states, steps, last, id, text);
      OneMoreTold(states, steps, last, id, text);
      NotedIs(ToldBy(states, steps, last), states[last], steps[last], id, text);
    }
  }

  // ------------------------------------------------------------------
  // Every thread has grounds for what it is about to report
  // ------------------------------------------------------------------

  /** The text reached the window: it was typed, or pasted. */
  predicate Arrived(d: Delivery) {
    match d
    case Typed(_, ok) => ok
    case Pasted(_, _, _) => true
    case _ => false
  }

  /** Clip `id` was delivered, and its text arrived or not; deliveries come in the order of clearing. */
  ghost predicate Fared(s: State, id: nat, arrived: bool) {
    exists k: nat :: k < |s.desk.deliveries| && k < |s.log.injected| && s.log.injected[k] == id && Arrived(s.desk.deliveries[k]) == arrived
  }

  ghost predicate Grounds(t: Told, s: State, id: nat, news: News) {
    match news
    case ClipReady => id in t.kept
    case ClipDropped => id in t.dropped
    case ClipDelivered => Fared(s, id, true)
    case ClipFailed => id in t.rejected || Fared(s, id, false)
  }

  ghost predicate Backed(t: Told, s: State, at: Pc) {
    match at
    case Reporting(id, news) => Grounds(t, s, id, news)
    case Publishing(id, news, _) => Grounds(t, s, id, news)
    case Processing(id, job) =>
      && id in t.kept
      && (job.Queued? || (job.Injecting? && job.at.Checking?) ==> (id, job.text) in t.accepted)
    case _ => true
  }

  /** What an entry of the display's history means. */
  ghost predicate Right(t: Told, s: State, shown: Shown) {
    match shown.state
    case Success => Fared(s, shown.id, true)
    case Error => shown.id in t.rejected || Fared(s, shown.id, false)
    case Transcribing => shown.id in t.kept
    case Idle => shown.id in t.dropped
    case Recording => false
  }

  ghost predicate Truthful(t: Told, s: State) {
    && (forall th :: th in s.pc ==> Backed(t, s, s.pc[th]))
    && (forall e :: e in s.log.shown ==> Right(t, s, e))
  }

  /** Nothing said before is taken back. */
  predicate Grows(t: Told, s: State, t': Told, s': State) {
    && t.kept <= t'.kept && t.dropped <= t'.dropped && t.accepted <= t'.accepted && t.rejected <= t'.rejected
    && s.log.injected <= s'.log.injected && s.desk.deliveries <= s'.desk.deliveries
  }

  lemma FaredStays(s: State, s': State, id: nat, arrived: bool)
    requires s.log.injected <= s'.log.injected && s.desk.deliveries <= s'.desk.deliveries && Fared(s, id, arrived)
    ensures Fared(s', id, arrived)
  {
  }

  lemma GroundsStay(t: Told, s: State, t': Told, s': State, id: nat, news: News)
    requires Grows(t, s, t', s') && Grounds(t, s, id, news)
    ensures Grounds(t', s', id, news)
  {
    if Fared(s, id, true) { FaredStays(s, s', id, true); }
    if Fared(s, id, false) { FaredStays(s, s', id, false); }
  }

  lemma BackedStays(t: Told, s: State, t': Told, s': State, at: Pc)
    requires Grows(t, s, t', s') && Backed(t, s, at)
    ensures Backed(t', s', at)
  {
    match at
    case Reporting(id, news) => GroundsStay(t, s, t', s', id, news);
    case Publishing(id, news, _) => GroundsStay(t, s, t', s', id, news);
    case _ =>
  }

  lemma RightStays(t: Told, s: State, t': Told, s': State, e: Shown)
    requires Grows(t, s, t', s') && Right(t, s, e)
    ensures Right(t', s', e)
  {
    if Fared(s, e.id, true) { FaredStays(s, s', e.id, true); }
    if Fared(s, e.id, false) { FaredStays(s, s', e.id, false); }
  }

  lemma DeliveriesGrow(s: State, th: Thread, p: ProcessStep)
    requires CanProcess(s, th, p)
    ensures s.desk.deliveries <= DoProcess(s, th, p).desk.deliveries && DoProcess(s, th, p).log.shown == s.log.shown
  {
  }

  lemma StepGrows(t: Told, s: State, a: Step)
    requires Inv(s) && Pastes(s) && Enabled(s, a)
    ensures Grows(t, s, Noted(t, s, a), Next(s, a))
  {
    NotedGrows(t, s, a);
    if a.Process? {
      ProcessOnlyMoves(s, a.th, a.p);
      DeliveriesGrow(s, a.th, a.p);
    } else {
      OthersAreAway(s, a);
    }
  }

  lemma NotedGrows(t: Told, s: State, a: Step)
    requires Enabled(s, a)
    ensures var u := Noted(t, s, a);
            t.kept <= u.kept && t.dropped <= u.dropped && t.accepted <= u.accepted && t.rejected <= u.rejected
  {
  }

  // ------------------------------------------------------------------
  // A thread that moves has grounds for where it goes
  // ------------------------------------------------------------------

  /** Nothing to report there. */
  predicate Silent(at: Pc) {
    !at.Reporting? && !at.Publishing? && !at.Processing?
  }

  lemma CommandBacks(s: State, c: CommandStep)
    requires CanCommand(s, c)
    ensures var s' := DoCommand(s, c);
            Socket in s'.pc && s'.pc == s.pc[Socket := s'.pc[Socket]] && Silent(s'.pc[Socket]) && s'.log.shown == s.log.shown
  {
  }

  lemma ReadBacks(s: State, r: nat, e: ReaderStep)
    requires CanRead(s, r, e)
    ensures var s' := DoRead(s, r, e);
            && s'.log.shown == s.log.shown
            && (s'.pc == s.pc || s'.pc == s.pc[Auto(r) := Waiting(r)])
  {
  }

  lemma CloseBacks(t: Told, s: State, th: Thread, f: FinishStep)
    requires CanFinish(s, th, f) && !f.LeaveReport? && Backed(t, s, s.pc[th])
    ensures var t', s' := Noted(t, s, Finish(th, f)), DoFinish(s, th, f);
            && th in s'.pc && s'.pc == s.pc[th := s'.pc[th]] && s'.log.shown == s.log.shown
            && (Silent(s'.pc[th]) || (s'.pc[th].Reporting? && Grounds(t', s', s'.pc[th].id, s'.pc[th].news))
                || (s'.pc[th].Publishing? && s'.pc[th].id == s.pc[th].id && s'.pc[th].news == s.pc[th].news && s.pc[th].Reporting?))
  {
  }

  /** A report publishes what it has grounds for. */
  lemma ReportSays(t: Told, s: State, th: Thread)
    requires CanFinish(s, th, LeaveReport) && Backed(t, s, s.pc[th])
    ensures var s', id := DoFinish(s, th, LeaveReport), s.pc[th].id;
            && s'.log.shown == s.log.shown + (if s.pc[th].show then [Shown(id, s'.board.state)] else [])
            && (s.pc[th].show ==> Right(t, s, Shown(id, s'.board.state)))
  {
  }

  /** It leaves the threads silent that it does not leave alone, or has them process the clip. */
  lemma ReportLeaves(s: State, th: Thread, other: Thread)
    requires CanFinish(s, th, LeaveReport) && other in DoFinish(s, th, LeaveReport).pc
    ensures var s', id := DoFinish(s, th, LeaveReport), s.pc[th].id;
            || (other in s.pc && s'.pc[other] == s.pc[other]) || Silent(s'.pc[other])
            || (s'.pc[other] == Processing(id, Hearing) && s.pc[th].news.ClipReady?)
  {
  }

  /** The transcript arrives, waits its turn, and is cleared. */
  lemma TurnBacks(t: Told, s: State, th: Thread, p: ProcessStep)
    requires CanProcess(s, th, p) && Backed(t, s, s.pc[th]) && (p.Transcribed? || p.LockInjection?)
    ensures var t', s' := Noted(t, s, Process(th, p)), DoProcess(s, th, p); th in s'.pc && Backed(t', s', s'.pc[th])
  {
  }

  /** A delivery goes on, or a clip is turned away. */
  lemma GoingOnBacks(t: Told, s: State, th: Thread, p: ProcessStep)
    requires CanProcess(s, th, p) && Backed(t, s, s.pc[th]) && !p.Transcribed? && !p.LockInjection?
    ensures var s' := DoProcess(s, th, p);
            th in s'.pc && (s'.pc[th].Reporting? || Backed(t, s', s'.pc[th]))
  {
  }

  /** A delivery that ends is reported as what it was. */
  lemma EndingTells(s: State, th: Thread, p: ProcessStep)
    requires CanProcess(s, th, p) && (IsLast(p) || p.CheckCancelled?) && DoProcess(s, th, p).pc[th].Reporting?
    ensures var s', ds := DoProcess(s, th, p), s.desk.deliveries;
            && s'.pc[th].id == s.pc[th].id && |s'.desk.deliveries| == |ds| + 1
            && s'.pc[th].news == (if Arrived(s'.desk.deliveries[|ds|]) then ClipDelivered else ClipFailed)
  {
  }

  /** It was the delivery of the clip cleared last. */
  lemma EndingIsLast(s: State, th: Thread, p: ProcessStep, id: nat)
    requires CanProcess(s, th, p) && s.desk.lock == Some(th) && id == s.pc[th].id && LastCleared(s)
    requires (IsLast(p) || p.CheckCancelled?) && DoProcess(s, th, p).pc[th].Reporting?
    requires |s.log.injected| == |s.desk.deliveries| + (if Delivering(s) then 1 else 0)
    ensures var s', k := DoProcess(s, th, p), |s.desk.deliveries|; k < |s'.log.injected| && s'.log.injected[k] == id
  {
  }

  lemma EndingBacks(t: Told, s: State, th: Thread, p: ProcessStep)
    requires CanProcess(s, th, p) && s.desk.lock == Some(th) && LastCleared(s) && (IsLast(p) || p.CheckCancelled?)
    requires |s.log.injected| == |s.desk.deliveries| + (if Delivering(s) then 1 else 0)
    requires DoProcess(s, th, p).pc[th].Reporting?
    ensures Backed(t, DoProcess(s, th, p), DoProcess(s, th, p).pc[th])
  {
    EndingTells(s, th, p);
    EndingIsLast(s, th, p, s.pc[th].id);
  }

  lemma OnlyLastReports(s: State, th: Thread, p: ProcessStep)
    requires CanProcess(s, th, p) && !p.Transcribed?
    ensures th in DoProcess(s, th, p).pc && (DoProcess(s, th, p).pc[th].Reporting? ==> IsLast(p) || p.CheckCancelled?)
  {
  }

  lemma ProcessBacks(t: Told, s: State, th: Thread, p: ProcessStep)
    requires Sound(s) && LastCleared(s) && CanProcess(s, th, p) && Backed(t, s, s.pc[th])
    requires |s.log.injected| == |s.desk.deliveries| + (if Delivering(s) then 1 else 0)
    ensures var t', s' := Noted(t, s, Process(th, p)), DoProcess(s, th, p); th in s'.pc && Backed(t', s', s'.pc[th])
  {
    assert ThreadOk(s, th);
    if p.Transcribed? || p.LockInjection? {
      TurnBacks(t, s, th, p);
    } else {
      OnlyLastReports(s, th, p);
      GoingOnBacks(t, s, th, p);
      if DoProcess(s, th, p).pc[th].Reporting? { EndingBacks(t, s, th, p); }
    }
  }

  // ------------------------------------------------------------------
  // Every step
  // ------------------------------------------------------------------

  /** Threads that did not move keep their grounds; what moved is silent, or has its own. */
  lemma OthersStayBacked(t: Told, s: State, t': Told, s': State)
    requires Truthful(t, s) && Grows(t, s, t', s')
    requires forall th :: th in s'.pc ==> (th in s.pc && s'.pc[th] == s.pc[th]) || Backed(t', s', s'.pc[th])
    requires forall e :: e in s'.log.shown ==> e in s.log.shown || Right(t', s', e)
    ensures Truthful(t', s')
  {
    forall th | th in s'.pc ensures Backed(t', s', s'.pc[th]) {
      if th in s.pc && s'.pc[th] == s.pc[th] { BackedStays(t, s, t', s', s.pc[th]); }
    }
    forall e | e in s'.log.shown ensures Right(t', s', e) {
      if e in s.log.shown { RightStays(t, s, t', s', e); }
    }
  }

  lemma ReportKeepsTruthful(t: Told, s: State, th: Thread)
    requires Truthful(t, s) && CanFinish(s, th, LeaveReport) && Grows(t, s, t, DoFinish(s, th, LeaveReport))
    ensures Truthful(t, DoFinish(s, th, LeaveReport))
  {
    var s', id := DoFinish(s, th, LeaveReport), s.pc[th].id;
    ReportSays(t, s, th);
    forall e | e in s'.log.shown ensures e in s.log.shown || Right(t, s', e) {
      if e !in s.log.shown { RightStays(t, s, t, s', e); }
    }
    forall other | other in s'.pc
      ensures (other in s.pc && s'.pc[other] == s.pc[other]) || Backed(t, s', s'.pc[other])
    {
      ReportLeaves(s, th, other);
    }
    OthersStayBacked(t, s, t, s');
  }

  lemma CloseKeepsTruthful(t: Told, s: State, t': Told, s': State, th: Thread, f: FinishStep)
    requires Truthful(t, s) && CanFinish(s, th, f) && !f.LeaveReport?
    requires t' == Noted(t, s, Finish(th, f)) && s' == DoFinish(s, th, f) && Grows(t, s, t', s')
    ensures Truthful(t', s')
  {
    CloseBacks(t, s, th, f);
    if s'.pc[th].Publishing? { GroundsStay(t, s, t', s', s.pc[th].id, s.pc[th].news); }
    OthersStayBacked(t, s, t', s');
  }

  lemma ProcessKeepsTruthful(t: Told, s: State, t': Told, s': State, th: Thread, p: ProcessStep)
    requires Sound(s) && LastCleared(s) && Truthful(t, s) && CanProcess(s, th, p)
    requires |s.log.injected| == |s.desk.deliveries| + (if Delivering(s) then 1 else 0)
    requires t' == Noted(t, s, Process(th, p)) && s' == DoProcess(s, th, p) && Grows(t, s, t', s')
    ensures Truthful(t', s')
  {
    ProcessBacks(t, s, th, p);
    ProcessOnlyMoves(s, th, p);
    DeliveriesGrow(s, th, p);
    OthersStayBacked(t, s, t', s');
  }

  lemma CommandKeepsTruthful(t: Told, s: State, c: CommandStep)
    requires Truthful(t, s) && CanCommand(s, c) && Grows(t, s, t, DoCommand(s, c))
    ensures Truthful(t, DoCommand(s, c))
  {
    CommandBacks(s, c);
    OthersStayBacked(t, s, t, DoCommand(s, c));
  }

  lemma ReadKeepsTruthful(t: Told, s: State, r: nat, e: ReaderStep)
    requires Truthful(t, s) && CanRead(s, r, e) && Grows(t, s, t, DoRead(s, r, e))
    ensures Truthful(t, DoRead(s, r, e))
  {
    ReadBacks(s, r, e);
    OthersStayBacked(t, s, t, DoRead(s, r, e));
  }

  lemma StepKeepsTruthful(t: Told, s: State, a: Step)
    requires Inv(s) && Pastes(s) && Orderly(s) && AllDelivered(s) && Truthful(t, s) && Enabled(s, a)
    ensures Truthful(Noted(t, s, a), Next(s, a))
  {
    StepGrows(t, s, a);
    match a
    case Command(c) => CommandKeepsTruthful(t, s, c);
    case Finish(th, f) =>
      if f.LeaveReport? { ReportKeepsTruthful(t, s, th); } else { CloseKeepsTruthful(t, s, Noted(t, s, a), Next(s, a), th, f); }
    case Process(th, p) => ProcessKeepsTruthful(t, s, Noted(t, s, a), Next(s, a), th, p);
    case Read(r, e) => ReadKeepsTruthful(t, s, r, e);
    case WakeRevert(g) => OthersStayBacked(t, s, t, Next(s, a));
  }

  lemma RunStepKeepsTruthful(states: seq<State>, steps: seq<Step>, k: nat)
    requires IsRun(states, steps) && k < |steps| && Truthful(ToldBy(states, steps, k), states[k])
    ensures Truthful(ToldBy(states, steps, k + 1), states[k + 1])
  {
    RunKeepsInv(states, steps, k);
    RunKeepsOrder(states, steps, k);
    RunKeepsComplete(states, steps, k);
    StepKeepsTruthful(ToldBy(states, steps, k), states[k], steps[k]);
  }

  lemma {:induction false} RunIsTruthful(states: seq<State>, steps: seq<Step>, i: nat)
    requires IsRun(states, steps) && i < |states|
    ensures Truthful(ToldBy(states, steps, i), states[i])
  {
    if i == 0 {
    } else {
      RunIsTruthful(states, steps, i - 1);
      RunStepKeepsTruthful(states, steps, i - 1);
    }
  }

  // ------------------------------------------------------------------
  // What the display means
  // ------------------------------------------------------------------

  /** What it takes to show a state for clip `id`. */
  ghost predicate Means(states: seq<State>, steps: seq<Step>, i: nat, id: nat, state: Phase)
    requires |states| == |steps| + 1 && i < |states|
  {
    match state
    case Success => Fared(states[i], id, true)
    case Error => Heard(states, steps, i, id, None) || Fared(states[i], id, false)
    case Transcribing => Closed(states, steps, i, id, true)
    case Idle => Closed(states, steps, i, id, false)
    case Recording => false
  }

  lemma RightMeans(states: seq<State>, steps: seq<Step>, i: nat, e: Shown)
    requires IsRun(states, steps) && i < |states|
    ensures Right(ToldBy(states, steps, i), states[i], e) <==> Means(states, steps, i, e.id, e.state)
  {
    ToldMeans(states, steps, i, e.id, "");
  }

  /**
   Whatever the display ever said about a clip is true: `success` only of one whose text was typed or pasted,
   `error` only of one that was rejected or whose delivery failed, `transcribing` only of a recording that
   was kept, `idle` only of one that was dropped.
   */
  lemma DisplayIsTrue(states: seq<State>, steps: seq<Step>, i: nat)
    requires IsRun(states, steps) && i < |states|
    ensures forall e :: e in states[i].log.shown ==> Means(states, steps, i, e.id, e.state)
  {
    RunIsTruthful(states, steps, i);
    forall e | e in states[i].log.shown ensures Means(states, steps, i, e.id, e.state) {
      RightMeans(states, steps, i, e);
    }
  }
}
