/**
 Left alone, the session comes to rest: whatever is scheduled, every step but a reader's tick leaves less to
 do, and short of rest such a step can be taken. No lock or join is waited for in vain.
 */
module SessionRest {
  import opened Common
  import opened Status
  import opened Injection
  import opened SessionModel
  import opened SessionInvariants
  import opened SessionProofs
  import opened SessionTheorems
  import opened SessionRuns
  import opened Totals

  // ------------------------------------------------------------------
  // How much is left to do
  // ------------------------------------------------------------------

  /** More than what is left once the thread has taken its next step, whatever that starts. */
  function Work(at: Pc): nat {
    match at
    case Listening => 0
    case Ended => 0
    case Commanding(c) => CommandWork(c)
    case Waiting(_) => 15
    case Closing(_, stage) => if stage.Taken? then 14 else if stage.Finishing? then 13 else 1
    case Reporting(_, news) => if news.ClipReady? then 12 else 3
    case Publishing(_, news, _) => if news.ClipReady? then 11 else 2
    case Processing(_, job) => JobWork(job)
  }

  function CommandWork(c: Command): nat {
    match c
    case Starting => 22
    case DroppingStale(_) => 21
    case Opening => 20
    case Opened(_) => 2
    case Announced(_) => 1
    case DroppingCancelled(_) => 2
    case Clearing => 1
  }

  function JobWork(job: Job): nat {
    match job
    case Hearing => 10
    case Queued(_) => 9
    case Injecting(_, at) =>
      match at
      case Checking => 8
      case Saving => 7
      case Copying(_, _) => 6
      case Pressing(_, _) => 5
      case _ => 4
  }

  function ReaderWork(reader: ReaderPc): nat {
    match reader
    case Reading => 17
    case SilenceHit => 16
    case CapHit => 3
    case Complaining => 1
    case Gone => 0
  }

  function ThreadWorks(pc: map<Thread, Pc>): map<Thread, nat> {
    map th | th in pc :: Work(pc[th])
  }

  function ReaderWorks(captures: map<nat, Capture>): map<nat, nat> {
    map r | r in captures :: ReaderWork(captures[r].reader)
  }

  ghost function Left(s: State): nat {
    Total(ThreadWorks(s.pc)) + Total(ReaderWorks(s.captures)) + |s.board.reverts|
  }

  lemma ThreadMoves(pc: map<Thread, Pc>, th: Thread, at: Pc)
    ensures Total(ThreadWorks(pc[th := at])) == Total(ThreadWorks(pc)) + Work(at) - (if th in pc then Work(pc[th]) else 0)
  {
    PutIn(ThreadWorks(pc), th, Work(at));
    assert ThreadWorks(pc)[th := Work(at)] == ThreadWorks(pc[th := at]);
  }

  lemma ReaderMoves(captures: map<nat, Capture>, r: nat, c: Capture)
    ensures Total(ReaderWorks(captures[r := c]))
         == Total(ReaderWorks(captures)) + ReaderWork(c.reader) - (if r in captures then ReaderWork(captures[r].reader) else 0)
  {
    PutIn(ReaderWorks(captures), r, ReaderWork(c.reader));
    assert ReaderWorks(captures)[r := ReaderWork(c.reader)] == ReaderWorks(captures[r := c]);
  }

  /** What one publication adds to the sleeping reverts. */
  function Reverting(b: Board, after: Board): nat {
    if after.reverts == b.reverts then 0 else 1
  }

  predicate OneMoreRevert(b: Board, after: Board) {
    after.reverts == b.reverts || after.reverts == b.reverts + {after.generation}
  }

  lemma RevertsAdded(b: Board, after: Board)
    requires OneMoreRevert(b, after)
    ensures |after.reverts| <= |b.reverts| + Reverting(b, after)
  {
  }

  // ------------------------------------------------------------------
  // Every step leaves less
  // ------------------------------------------------------------------

  /** One thread moves, and has more left to do before than after, reverts included. */
  predicate Lightens(s: State, t: State, th: Thread) {
    && t.captures == s.captures && th in s.pc && th in t.pc && t.pc == s.pc[th := t.pc[th]]
    && OneMoreRevert(s.board, t.board) && Work(t.pc[th]) + Reverting(s.board, t.board) < Work(s.pc[th])
  }

  lemma LightensIsLess(s: State, t: State, th: Thread)
    requires Lightens(s, t, th)
    ensures Left(t) < Left(s)
  {
    ThreadMoves(s.pc, th, t.pc[th]);
    RevertsAdded(s.board, t.board);
  }

  lemma CommandLightens(s: State, c: CommandStep)
    requires CanCommand(s, c) && !c.Start? && !c.Stop? && !c.Cancel? && c != OpenCapture(true)
    ensures Lightens(s, DoCommand(s, c), Socket)
  {
  }

  lemma OpeningIsLess(s: State)
    requires Sound(s) && CanCommand(s, OpenCapture(true))
    ensures Left(DoCommand(s, OpenCapture(true))) < Left(s)
  {
    var id := s.life.nextId;
    assert id in s.captures ==> CaptureOk(s, id);
    ThreadMoves(s.pc, Socket, Commanding(Opened(id)));
    ReaderMoves(s.captures, id, Capture(Reading, false));
    OpeningIs(s, id);
  }

  lemma OpeningIs(s: State, id: nat)
    requires CanCommand(s, OpenCapture(true)) && id == s.life.nextId
    ensures var t := DoCommand(s, OpenCapture(true));
            && t.pc == s.pc[Socket := Commanding(Opened(id))] && t.captures == s.captures[id := Capture(Reading, false)]
            && t.board == s.board
  {
  }

  lemma FinishLightens(s: State, th: Thread, f: FinishStep)
    requires CanFinish(s, th, f) && (f.LeaveReport? && s.pc[th].news.ClipReady? ==> th != Socket)
    ensures Lightens(s, DoFinish(s, th, f), th)
  {
  }

  lemma HandOffIsLess(s: State)
    requires Sound(s) && CanFinish(s, Socket, LeaveReport) && s.pc[Socket].news.ClipReady?
    ensures Left(DoFinish(s, Socket, LeaveReport)) < Left(s)
  {
    var id := s.pc[Socket].id;
    WorkerIsFree(s, id);
    ThreadMoves(s.pc, Socket, Listening);
    ThreadMoves(s.pc[Socket := Listening], Worker(id), Processing(id, Hearing));
    HandOffIs(s, id);
  }

  lemma HandOffIs(s: State, id: nat)
    requires CanFinish(s, Socket, LeaveReport) && s.pc[Socket].news.ClipReady? && id == s.pc[Socket].id
    ensures var t := DoFinish(s, Socket, LeaveReport);
            && t.pc == s.pc[Socket := Listening][Worker(id) := Processing(id, Hearing)]
            && t.captures == s.captures && t.board.reverts == s.board.reverts
  {
  }

  lemma DeliveryLightens(s: State, th: Thread, p: ProcessStep)
    requires CanProcess(s, th, p) && !p.CheckCancelled?
    ensures Lightens(s, DoProcess(s, th, p), th)
  {
  }

  lemma CheckLightens(s: State, th: Thread, prepared: string)
    requires CanProcess(s, th, CheckCancelled(prepared))
    ensures Lightens(s, DoProcess(s, th, CheckCancelled(prepared)), th)
  {
  }

  /** A reader moves on, and may leave a revert or an auto-finish thread behind. */
  lemma ReadIsLess(s: State, r: nat, e: ReaderStep)
    requires Sound(s) && CanRead(s, r, e) && !e.Tick?
    ensures Left(DoRead(s, r, e)) < Left(s)
  {
    var t := DoRead(s, r, e);
    ReadIs(s, r, e);
    ReaderMoves(s.captures, r, t.captures[r]);
    RevertsAdded(s.board, t.board);
    if e.SpawnAuto? {
      SpawnAutoKeepsSound(s, r);
      ThreadMoves(s.pc, Auto(r), Waiting(r));
    }
  }

  lemma ReadIs(s: State, r: nat, e: ReaderStep)
    requires CanRead(s, r, e) && !e.Tick?
    ensures var t := DoRead(s, r, e);
            && r in t.captures && t.captures == s.captures[r := t.captures[r]] && OneMoreRevert(s.board, t.board)
            && t.pc == (if e.SpawnAuto? then s.pc[Auto(r) := Waiting(r)] else s.pc)
            && ReaderWork(t.captures[r].reader) + (if e.SpawnAuto? then 15 else 0) + Reverting(s.board, t.board)
               < ReaderWork(s.captures[r].reader)
  {
  }

  lemma WakeIsLess(s: State, g: nat)
    requires g in s.board.reverts
    ensures Left(WakeStep(s, g)) < Left(s)
  {
    assert WakeStep(s, g).board.reverts == s.board.reverts - {g};
  }

  /** Any step but a new command. */
  predicate Own(a: Step) {
    a != Command(Start) && a != Command(Stop) && a != Command(Cancel)
  }

  /** Any of those but one more reading of a running capture. */
  predicate Working(a: Step) {
    Own(a) && !(a.Read? && a.e.Tick?)
  }

  /** Whatever is scheduled, it leaves less to do. */
  lemma WorkIsLess(s: State, a: Step)
    requires Sound(s) && Enabled(s, a) && Working(a)
    ensures Left(Next(s, a)) < Left(s)
  {
    match a
    case Command(c) =>
      if c == OpenCapture(true) {
        OpeningIsLess(s);
      } else {
        CommandLightens(s, c);
        LightensIsLess(s, Next(s, a), Socket);
      }
    case Finish(th, f) =>
      if f.LeaveReport? && th == Socket && s.pc[th].news.ClipReady? {
        HandOffIsLess(s);
      } else {
        FinishLightens(s, th, f);
        LightensIsLess(s, Next(s, a), th);
      }
    case Process(th, p) =>
      if p.CheckCancelled? { CheckLightens(s, th, p.prepared); } else { DeliveryLightens(s, th, p); }
      LightensIsLess(s, Next(s, a), th);
    case Read(r, e) => ReadIsLess(s, r, e);
    case WakeRevert(g) => WakeIsLess(s, g);
  }

  // ------------------------------------------------------------------
  // Short of rest there is work that can be done
  // ------------------------------------------------------------------

  /** The recording in the slot is capturing, and its reader reads. */
  predicate Live(s: State, id: nat) {
    s.life.slot == Some(id) && ReaderAt(s, id, Reading)
  }

  /** No reader is left but that of the recording in the slot. */
  ghost predicate OnlyLiveReads(s: State) {
    forall r :: r in s.captures ==> s.captures[r].reader.Gone? || Live(s, r)
  }

  /** Nothing is left to run but the next command and the recording in the slot. */
  ghost predicate Resting(s: State) {
    && Socket in s.pc && s.pc[Socket].Listening?
    && (forall th :: th in s.pc && th != Socket ==> s.pc[th].Ended?)
    && OnlyLiveReads(s)
    && s.board.reverts == {}
  }

  lemma ReaderCanStep(s: State, r: nat) returns (a: Step)
    requires r in s.captures && !s.captures[r].reader.Gone?
    ensures Enabled(s, a) && Working(a) && a.Read? && a.r == r
  {
    match s.captures[r].reader
    case Reading => a := Read(r, EndOfStream);
    case CapHit => a := Read(r, Complain);
    case Complaining => a := Read(r, Complained);
    case SilenceHit => a := Read(r, SpawnAuto);
    case Gone =>
  }

  /** The socket thread, in a command, waits for nothing but a reader's end. */
  lemma CommandCanStep(s: State) returns (a: Step)
    requires Sound(s) && s.pc[Socket].Commanding?
    requires OnlyLiveReads(s)
    ensures Enabled(s, a) && Working(a) && !a.Read?
  {
    match s.pc[Socket].command
    case Starting => a := Command(LookAtSlot);
    case DroppingStale(id) => a := Command(StaleJoined);
    case Opening => a := Command(OpenCapture(true));
    case Opened(_) => a := Command(Announce);
    case Announced(_) => a := Command(FillSlot);
    case DroppingCancelled(id) => a := Command(CancelJoined);
    case Clearing => a := Command(CancelPublishes);
  }

  lemma HolderCanStep(s: State) returns (a: Step)
    requires Sound(s) && s.life.lock.Some?
    requires OnlyLiveReads(s)
    ensures Enabled(s, a) && Working(a) && !a.Read?
  {
    var th := s.life.lock.value;
    assert ThreadOk(s, th);
    if s.pc[th].Publishing? {
      a := Finish(th, LeaveReport);
    } else {
      a := CommandCanStep(s);
    }
  }

  lemma JobCanStep(s: State, th: Thread) returns (a: Step)
    requires th in s.pc && s.pc[th].Processing? && s.life.lock.None?
    requires s.pc[th].job.Queued? ==> s.desk.lock.None?
    ensures Enabled(s, a) && Working(a) && !a.Read?
  {
    match s.pc[th].job
    case Hearing => a := Process(th, Transcribed(None));
    case Queued(_) => a := Process(th, LockInjection);
    case Injecting(_, at) =>
      match at {
        case Checking => a := Process(th, CheckCancelled(""));
        case TypingText => a := Process(th, TypeText(true));
        case Saving => a := Process(th, SaveClipboard(true));
        case Copying(_, _) => a := Process(th, CopyText(Worked));
        case Pressing(_, _) => a := Process(th, PressKeys(true));
        case Restoring(_, _) => a := Process(th, RestoreClipboard(Worked));
      }
  }

  lemma CloserCanStep(s: State, th: Thread) returns (a: Step)
    requires Sound(s) && s.life.lock.None? && th in s.pc && s.pc[th].Closing?
    requires OnlyLiveReads(s)
    ensures Enabled(s, a) && Working(a) && !a.Read?
  {
    assert ThreadOk(s, th);
    match s.pc[th].stage
    case Taken => a := Finish(th, ChooseClose);
    case Discarding => a := Finish(th, DiscardJoined);
    case Finishing => a := Finish(th, FinishJoined(true));
  }

  /** With the lifecycle lock free, a thread waits for at most the holder of the injection lock. */
  lemma ThreadCanStep(s: State, th: Thread) returns (a: Step)
    requires Sound(s) && s.life.lock.None? && th in s.pc && !s.pc[th].Listening? && !s.pc[th].Ended?
    requires OnlyLiveReads(s)
    ensures Enabled(s, a) && Working(a) && !a.Read?
  {
    assert ThreadOk(s, th);
    match s.pc[th]
    case Commanding(_) => a := CommandCanStep(s);
    case Waiting(_) => a := Finish(th, AutoTake);
    case Closing(_, _) => a := CloserCanStep(s, th);
    case Reporting(_, _) => a := Finish(th, EnterReport);
    case Processing(_, job) =>
      var worker := if job.Queued? && s.desk.lock.Some? then s.desk.lock.value else th;
      assert ThreadOk(s, worker);
      a := JobCanStep(s, worker);
    case _ => a := Finish(th, LeaveReport);
  }

  /** The recording in the slot need not end for another thread to go on: nobody joins its reader. */
  lemma OthersCanStep(s: State) returns (a: Step)
    requires Sound(s) && !Resting(s)
    ensures Enabled(s, a) && Working(a) && !(a.Read? && Live(s, a.r))
  {
    if r :| r in s.captures && !s.captures[r].reader.Gone? && !Live(s, r) {
      a := ReaderCanStep(s, r);
    } else if s.life.lock.Some? {
      a := HolderCanStep(s);
    } else if th :| th in s.pc && !s.pc[th].Listening? && !s.pc[th].Ended? {
      a := ThreadCanStep(s, th);
    } else {
      forall th | th in s.pc && th != Socket ensures s.pc[th].Ended? { assert ThreadOk(s, th); }
      assert ThreadOk(s, Socket);
      var g :| g in s.board.reverts;
      a := WakeRevert(g);
    }
  }

  lemma CanStep(s: State) returns (a: Step)
    requires Sound(s) && !Settled(s)
    ensures Enabled(s, a) && Working(a)
  {
    if Resting(s) {
      var r :| r in s.captures && !s.captures[r].reader.Gone?;
      a := ReaderCanStep(s, r);
    } else {
      a := OthersCanStep(s);
    }
  }

  // ------------------------------------------------------------------
  // Rest
  // ------------------------------------------------------------------

  /** The session is never stuck: short of rest there is a step that is neither a new command nor a tick, and
      as long as anything besides the recording in the slot is left to run, one that does not end that recording. */
  lemma NeverStuck(states: seq<State>, steps: seq<Step>, i: nat)
    requires IsRun(states, steps) && i < |states| && !Settled(states[i])
    ensures exists a :: Enabled(states[i], a) && Working(a)
    ensures !Resting(states[i]) ==> exists a :: Enabled(states[i], a) && Working(a) && !(a.Read? && Live(states[i], a.r))
  {
    RunKeepsInv(states, steps, i);
    var a := CanStep(states[i]);
    if !Resting(states[i]) {
      var other := OthersCanStep(states[i]);
    }
  }

  lemma TickLeavesAll(s: State, r: nat)
    requires CanRead(s, r, Tick)
    ensures Left(DoRead(s, r, Tick)) == Left(s)
  {
  }

  lemma RunStepIsLess(states: seq<State>, steps: seq<Step>, k: nat)
    requires IsRun(states, steps) && k < |steps| && Own(steps[k])
    ensures (if Working(steps[k]) then 1 else 0) + Left(states[k + 1]) <= Left(states[k])
  {
    RunKeepsInv(states, steps, k);
    if Working(steps[k]) {
      WorkIsLess(states[k], steps[k]);
    } else {
      TickLeavesAll(states[k], steps[k].r);
    }
  }

  /** How many of the steps from `i` to `j` are more than a tick. */
  function WorkDone(steps: seq<Step>, i: nat, j: nat): nat
    requires i <= j <= |steps|
    decreases j
  {
    if i == j then 0 else WorkDone(steps, i, j - 1) + if Working(steps[j - 1]) then 1 else 0
  }

  /** No new command begins from `i` to `j`. */
  ghost predicate Uncommanded(steps: seq<Step>, i: nat, j: nat)
    requires j <= |steps|
  {
    forall k :: i <= k < j ==> Own(steps[k])
  }

  /** What was left to do, at each state of a run. */
  ghost function Lefts(states: seq<State>): seq<nat> {
    seq(|states|, k requires 0 <= k < |states| => Left(states[k]))
  }

  predicate PaidAt(lefts: seq<nat>, steps: seq<Step>, k: nat)
    requires |lefts| == |steps| + 1 && k < |steps|
  {
    (if Working(steps[k]) then 1 else 0) + lefts[k + 1] <= lefts[k]
  }

  lemma {:induction false} WorkIsPaid(lefts: seq<nat>, steps: seq<Step>, i: nat, j: nat)
    requires |lefts| == |steps| + 1 && i <= j < |lefts| && forall k: nat :: i <= k < j ==> PaidAt(lefts, steps, k)
    ensures WorkDone(steps, i, j) + lefts[j] <= lefts[i]
    decreases j
  {
    if i == j {
    } else {
      WorkIsPaid(lefts, steps, i, j - 1);
      assert PaidAt(lefts, steps, j - 1);
    }
  }

  /** And under any schedule without a new command, only so much happens besides ticks: what was left to do bounds it. */
  lemma WorkRunsOut(states: seq<State>, steps: seq<Step>, i: nat, j: nat)
    requires IsRun(states, steps) && i <= j < |states| && Uncommanded(steps, i, j)
    ensures WorkDone(steps, i, j) + Left(states[j]) <= Left(states[i])
  {
    var lefts := Lefts(states);
    forall k: nat | i <= k < j ensures PaidAt(lefts, steps, k) {
      RunStepIsLess(states, steps, k);
    }
    WorkIsPaid(lefts, steps, i, j);
  }

  /** So from every state of every run, steps without a new command lead to rest. */
  lemma ComesToRest(states: seq<State>, steps: seq<Step>, i: nat) returns (more: seq<Step>, t: State)
    requires IsRun(states, steps) && i < |states|
    ensures Leads(states[i], more, t) && Settled(t) && forall a :: a in more ==> Working(a)
  {
    RunKeepsInv(states, steps, i);
    more, t := Settles(states[i]);
  }

  lemma {:induction false} Settles(s: State) returns (more: seq<Step>, t: State)
    requires Sound(s)
    ensures Leads(s, more, t) && Settled(t) && forall a :: a in more ==> Working(a)
    decreases Left(s)
  {
    if Settled(s) {
      more, t := [], s;
    } else {
      var a := CanStep(s);
      StepKeepsSound(s, a);
      WorkIsLess(s, a);
      var rest;
      rest, t := Settles(Next(s, a));
      LeadsOn(s, a, rest, t);
      more := [a] + rest;
    }
  }

  // ------------------------------------------------------------------
  // Rest beside a recording
  // ------------------------------------------------------------------

  lemma CommandSparesLive(s: State, c: CommandStep, id: nat)
    requires Sound(s) && CanCommand(s, c) && Own(Command(c)) && Live(s, id)
    ensures Live(DoCommand(s, c), id)
  {
    assert CaptureOk(s, id);
  }

  lemma FinishSparesLive(s: State, th: Thread, f: FinishStep, id: nat)
    requires CanFinish(s, th, f) && ThreadOk(s, th) && Live(s, id)
    ensures Live(DoFinish(s, th, f), id)
  {
  }

  lemma ProcessSparesLive(s: State, th: Thread, p: ProcessStep, id: nat)
    requires CanProcess(s, th, p) && Live(s, id)
    ensures Live(DoProcess(s, th, p), id)
  {
  }

  /** Only a command or its own reader ends the recording in the slot. */
  lemma OthersSpareLive(s: State, a: Step, id: nat)
    requires Sound(s) && Enabled(s, a) && Own(a) && Live(s, id) && !(a.Read? && a.r == id)
    ensures Live(Next(s, a), id)
  {
    match a
    case Command(c) => CommandSparesLive(s, c, id);
    case Finish(th, f) => assert ThreadOk(s, th); FinishSparesLive(s, th, f, id);
    case Process(th, p) => ProcessSparesLive(s, th, p, id);
    case Read(r, e) =>
    case WakeRevert(g) =>
  }

  /** Beside a recording that goes on, everything else comes to rest, and the recording is still live then. */
  lemma RestsBeside(states: seq<State>, steps: seq<Step>, i: nat, id: nat) returns (more: seq<Step>, t: State)
    requires IsRun(states, steps) && i < |states| && Live(states[i], id)
    ensures Leads(states[i], more, t) && Resting(t) && Live(t, id)
    ensures forall a :: a in more ==> Working(a) && !(a.Read? && a.r == id)
  {
    RunKeepsInv(states, steps, i);
    more, t := SettlesBeside(states[i], id);
  }

  lemma {:induction false} SettlesBeside(s: State, id: nat) returns (more: seq<Step>, t: State)
    requires Sound(s) && Live(s, id)
    ensures Leads(s, more, t) && Resting(t) && Live(t, id)
    ensures forall a :: a in more ==> Working(a) && !(a.Read? && a.r == id)
    decreases Left(s)
  {
    if Resting(s) {
      more, t := [], s;
    } else {
      var a := OthersCanStep(s);
      StepKeepsSound(s, a);
      OthersSpareLive(s, a, id);
      WorkIsLess(s, a);
      var rest;
      rest, t := SettlesBeside(Next(s, a), id);
      LeadsOn(s, a, rest, t);
      more := [a] + rest;
    }
  }
}
