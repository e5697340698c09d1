/** Runs that show what can go wrong: `recording` left on the board, and a newer clip pasted before an older one. */
module SessionExample {
  import opened Common
  import opened Status
  import opened Injection
  import opened SessionModel
  import opened SessionRuns
  import opened SessionTheorems

  const DESK := Desk(Pasting(true), None, Clipboard.Empty, Clipboard.Empty, [], [])

  function At(lock: Option<Thread>, next: nat, board: Board, captures: map<nat, Capture>, at: Pc, closed: seq<nat>, masked: bool): State {
    State(Lifecycle(lock, None, next, 0), board, captures, map[Socket := at], DESK, Log(closed, [], [], [], map[], [], masked))
  }

  const S0 := At(None, 0, Board(Idle, 0, {}), map[], Listening, [], false)
  /** `start` has just opened the capture. */
  const S1 := At(Some(Socket), 1, Board(Idle, 0, {}), map[0 := Capture(Reading, false)], Commanding(Opened(0)), [], false)
  /** The capture overran and complained before `start` published `recording` over it. */
  const S2 := At(Some(Socket), 1, Board(Recording, 2, {1}), map[0 := Capture(Complaining, true)], Commanding(Announced(0)), [], true)
  /** `stop` took the recording. */
  const S3 := At(None, 1, Board(Recording, 2, {1}), map[0 := Capture(Gone, true)], Closing(0, Taken), [], true)
  /** It was discarded without a word, and the complaint's revert found its flash replaced. */
  const S4 := At(None, 1, Board(Recording, 2, {}), map[0 := Capture(Gone, true)], Listening, [0], true)

  lemma Opens()
    ensures Leads(S0, [Command(Start), Command(LookAtSlot), Command(OpenCapture(true))], S1)
  {
    ThreeSteps(S0, Command(Start), Command(LookAtSlot), Command(OpenCapture(true)));
  }

  lemma Complains()
    ensures Leads(S1, [Read(0, HitCap), Read(0, Complain), Command(Announce)], S2)
  {
    ThreeSteps(S1, Read(0, HitCap), Read(0, Complain), Command(Announce));
  }

  lemma Stops()
    ensures Leads(S2, [Command(FillSlot), Read(0, Complained), Command(Stop)], S3)
  {
    ThreeSteps(S2, Command(FillSlot), Read(0, Complained), Command(Stop));
  }

  lemma Discards()
    ensures Leads(S3, [Finish(Socket, ChooseClose), Finish(Socket, DiscardJoined), WakeRevert(1)], S4)
  {
    ThreeSteps(S3, Finish(Socket, ChooseClose), Finish(Socket, DiscardJoined), WakeRevert(1));
  }

  /** The board can be left at `recording` with nothing recording and nothing left to run. */
  lemma RecordingCanStick() returns (states: seq<State>, steps: seq<Step>)
    ensures IsRun(states, steps)
    ensures var s := states[|states| - 1]; Settled(s) && s.life.slot.None? && s.board.state == Recording
  {
    Opens();
    Complains();
    Stops();
    Discards();
    var a := [Command(Start), Command(LookAtSlot), Command(OpenCapture(true))];
    var b := [Read(0, HitCap), Read(0, Complain), Command(Announce)];
    var c := [Command(FillSlot), Read(0, Complained), Command(Stop)];
    var d := [Finish(Socket, ChooseClose), Finish(Socket, DiscardJoined), WakeRevert(1)];
    LeadsThrough(S2, c, S3, d, S4);
    LeadsThrough(S1, b, S2, c + d, S4);
    LeadsThrough(S0, a, S1, b + (c + d), S4);
    steps := a + (b + (c + d));
    states := LeadsIsRun([S0], [], steps, S4);
    assert [] + steps == steps;
  }

  // ------------------------------------------------------------------
  // A newer clip that pastes first
  // ------------------------------------------------------------------

  /** Nothing is recording, no command runs, no clip was cancelled, and both locks are free. */
  ghost predicate AtEase(s: State) {
    && s.life.lock.None? && s.life.slot.None? && s.life.cancelledBelow == 0
    && (forall r :: r in s.captures ==> r < s.life.nextId)
    && Socket in s.pc && s.pc[Socket] == Listening
    && s.desk.lock.None? && s.desk.mode == Pasting(true)
  }

  /** Recording `id`: its capture is open, then it is in the slot, then closed, then a clip of its own thread. */
  function Open(s: State, id: nat): State {
    s.(life := Lifecycle(Some(Socket), None, id + 1, 0), captures := s.captures[id := Capture(Reading, false)],
       pc := s.pc[Socket := Commanding(Opened(id))])
  }

  function InSlot(s: State, id: nat): State {
    s.(life := Lifecycle(None, Some(id), id + 1, 0), captures := s.captures[id := Capture(Gone, false)],
       pc := s.pc[Socket := Listening], board := Publish(s.board, Recording), log := s.log.(masked := false))
  }

  function Closed(s: State, id: nat): State {
    s.(life := Lifecycle(None, None, id + 1, 0), pc := s.pc[Socket := Reporting(id, ClipReady)],
       log := s.log.(closed := s.log.closed + [id]))
  }

  function Handed(s: State, id: nat): State {
    s.(pc := s.pc[Socket := Listening][Worker(id) := Processing(id, Hearing)], board := Publish(s.board, Transcribing),
       log := s.log.(masked := false, handed := s.log.handed + [id], shown := s.log.shown + [Shown(id, Transcribing)]))
  }

  lemma Opening3(s: State, id: nat)
    requires AtEase(s) && id == s.life.nextId
    ensures Leads(s, [Command(Start), Command(LookAtSlot), Command(OpenCapture(true))], Open(s, id))
  {
    ThreeSteps(s, Command(Start), Command(LookAtSlot), Command(OpenCapture(true)));
  }

  lemma Filling3(s: State, id: nat, t: State)
    requires AtEase(s) && id == s.life.nextId && t == Open(s, id)
    ensures Leads(t, [Command(Announce), Command(FillSlot), Read(id, EndOfStream)], InSlot(t, id))
  {
    ThreeSteps(t, Command(Announce), Command(FillSlot), Read(id, EndOfStream));
    assert t.pc[Socket := Commanding(Announced(id))][Socket := Listening] == t.pc[Socket := Listening];
  }

  lemma Stopping3(s: State, id: nat, t: State)
    requires t == InSlot(s, id)
    ensures Leads(t, [Command(Stop), Finish(Socket, ChooseClose), Finish(Socket, FinishJoined(true))], Closed(t, id))
  {
    ThreeSteps(t, Command(Stop), Finish(Socket, ChooseClose), Finish(Socket, FinishJoined(true)));
  }

  lemma Handing2(s: State, id: nat, t: State)
    requires t == Closed(s, id)
    ensures Leads(t, [Finish(Socket, EnterReport), Finish(Socket, LeaveReport)], Handed(t, id))
  {
    var m := Next(t, Finish(Socket, EnterReport));
    LeadsOn(m, Finish(Socket, LeaveReport), [], Handed(t, id));
    LeadsOn(t, Finish(Socket, EnterReport), [Finish(Socket, LeaveReport)], Handed(t, id));
  }

  /** A clip is recorded and handed to a thread of its own, where it is about to be transcribed. */
  lemma Records(s: State, id: nat) returns (steps: seq<Step>, t: State)
    requires AtEase(s) && id == s.life.nextId
    ensures Leads(s, steps, t) && AtEase(t) && t.life.nextId == id + 1
    ensures t.pc == s.pc[Worker(id) := Processing(id, Hearing)] && t.desk == s.desk
  {
    var a := Open(s, id);
    var b := InSlot(a, id);
    var c := Closed(b, id);
    t := Handed(c, id);
    Opening3(s, id);
    Filling3(s, id, a);
    Stopping3(a, id, b);
    Handing2(b, id, c);
    var one, two := [Command(Start), Command(LookAtSlot), Command(OpenCapture(true))], [Command(Announce), Command(FillSlot), Read(id, EndOfStream)];
    var three, four := [Command(Stop), Finish(Socket, ChooseClose), Finish(Socket, FinishJoined(true))],
                       [Finish(Socket, EnterReport), Finish(Socket, LeaveReport)];
    LeadsThrough(b, three, c, four, t);
    LeadsThrough(a, two, b, three + four, t);
    LeadsThrough(s, one, a, two + (three + four), t);
    steps := one + (two + (three + four));
    HandedIsAtEase(s, id);
  }

  lemma HandedIsAtEase(s: State, id: nat)
    requires AtEase(s) && id == s.life.nextId
    ensures var t := Handed(Closed(InSlot(Open(s, id), id), id), id);
            AtEase(t) && t.life.nextId == id + 1 && t.pc == s.pc[Worker(id) := Processing(id, Hearing)] && t.desk == s.desk
  {
  }

  /** Clip `id` cleared, then pasted, then done. */
  function Cleared(s: State, th: Thread, id: nat, text: string): State {
    s.(pc := s.pc[th := Processing(id, Injecting(text, Saving))], desk := s.desk.(lock := Some(th)),
       log := s.log.(heard := s.log.heard + [id], injected := s.log.injected + [id], prepared := s.log.prepared[id := text]))
  }

  function Pressed(s: State, th: Thread, id: nat, text: string): State {
    s.(pc := s.pc[th := Processing(id, Injecting(text, Restoring(Save(s.desk.clipboard, true), true)))],
       desk := s.desk.(clipboard := Transcript(text), keystrokes := s.desk.keystrokes + [Keystroke(id, text, Transcript(text))]))
  }

  lemma Clearing3(s: State, th: Thread, id: nat, text: string)
    requires th in s.pc && s.pc[th] == Processing(id, Hearing) && s.life.lock.None? && s.life.cancelledBelow == 0
    requires s.desk.lock.None? && s.desk.mode == Pasting(true)
    ensures Leads(s, [Process(th, Transcribed(Some(text))), Process(th, LockInjection), Process(th, CheckCancelled(text))],
                  Cleared(s, th, id, text))
  {
    ThreeSteps(s, Process(th, Transcribed(Some(text))), Process(th, LockInjection), Process(th, CheckCancelled(text)));
    assert s.pc[th := Processing(id, Queued(text))][th := Processing(id, Injecting(text, Checking))][th := Processing(id, Injecting(text, Saving))]
        == s.pc[th := Processing(id, Injecting(text, Saving))];
  }

  lemma Pressing3(s: State, th: Thread, id: nat, text: string)
    requires th in s.pc && s.pc[th] == Processing(id, Injecting(text, Saving))
    ensures Leads(s, [Process(th, SaveClipboard(true)), Process(th, CopyText(Worked)), Process(th, PressKeys(true))],
                  Pressed(s, th, id, text))
  {
    var saved := Save(s.desk.clipboard, true);
    ThreeSteps(s, Process(th, SaveClipboard(true)), Process(th, CopyText(Worked)), Process(th, PressKeys(true)));
    assert s.pc[th := Processing(id, Injecting(text, Copying(saved, true)))][th := Processing(id, Injecting(text, Pressing(saved, true)))]
               [th := Processing(id, Injecting(text, Restoring(saved, true)))]
        == s.pc[th := Processing(id, Injecting(text, Restoring(saved, true)))];
  }

  /** A clip is pasted, from its transcription to the restored clipboard. */
  lemma PastesClip(s: State, th: Thread, id: nat, text: string) returns (steps: seq<Step>, t: State)
    requires th in s.pc && s.pc[th] == Processing(id, Hearing) && s.life.lock.None? && s.life.cancelledBelow == 0
    requires s.desk.lock.None? && s.desk.mode == Pasting(true)
    ensures Leads(s, steps, t) && t.life == s.life && t.desk.lock.None? && t.desk.mode == s.desk.mode
    ensures th in t.pc && t.pc == s.pc[th := t.pc[th]]
    ensures t.desk.keystrokes == s.desk.keystrokes + [Keystroke(id, text, Transcript(text))]
  {
    var a := Cleared(s, th, id, text);
    var b := Pressed(a, th, id, text);
    Clearing3(s, th, id, text);
    Pressing3(a, th, id, text);
    var restore := Process(th, RestoreClipboard(Worked));
    t := Next(b, restore);
    LeadsOn(b, restore, [], t);
    var one := [Process(th, Transcribed(Some(text))), Process(th, LockInjection), Process(th, CheckCancelled(text))];
    var two := [Process(th, SaveClipboard(true)), Process(th, CopyText(Worked)), Process(th, PressKeys(true))];
    assert [restore] + [] == [restore];
    LeadsThrough(a, two, b, [restore], t);
    LeadsThrough(s, one, a, two + [restore], t);
    steps := one + (two + [restore]);
    assert t.pc == s.pc[th := t.pc[th]];
  }

  /** Two clips in flight, and the newer is transcribed first: it pastes first. */
  lemma NewerClipCanPasteFirst() returns (states: seq<State>, steps: seq<Step>)
    ensures IsRun(states, steps)
    ensures var ks := states[|states| - 1].desk.keystrokes; |ks| == 2 && ks[0].id == 1 && ks[1].id == 0
  {
    assert AtEase(S0);
    var first, a := Records(S0, 0);
    var second, b := Records(a, 1);
    var newer, c := PastesClip(b, Worker(1), 1, "newer");
    var older, d := PastesClip(c, Worker(0), 0, "older");
    LeadsThrough(b, newer, c, older, d);
    LeadsThrough(a, second, b, newer + older, d);
    LeadsThrough(S0, first, a, second + (newer + older), d);
    steps := first + (second + (newer + older));
    states := LeadsIsRun([S0], [], steps, d);
    assert [] + steps == steps;
  }
}
