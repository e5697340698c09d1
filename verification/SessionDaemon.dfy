/**
 The daemon's fields, updated in place one critical section at a time.

 Each method is what one thread does between two points where others may run, and changes
 the fields exactly as the session's step says. A scheduler may call them in any order.
 */
module SessionDaemon {
  import opened Common
  import opened Status
  import opened Injection
  import Model = SessionModel
  import opened SessionModel
  import opened SessionInvariants
  import opened SessionPaste
  import opened SessionTheorems
  import Outcomes = SessionOutcomes

  class Daemon {
    // Under the lifecycle lock, and who holds it over several steps.
    var lock: Option<Thread>
    var slot: Option<nat>
    var nextId: nat
    var cancelledBelow: nat
    // What is published.
    var board: Board
    // Threads, captures, and the desktop behind the injection lock.
    var captures: map<nat, Capture>
    var pc: map<Thread, Pc>
    var desk: Desk
    /** What happened so far. */
    var log: Log

    function Value(): State
      reads this
    {
      State(Lifecycle(lock, slot, nextId, cancelledBelow), board, captures, pc, desk, log)
    }

    constructor (mode: Mode, clipboard: Clipboard)
      ensures Init(Value()) && desk.mode == mode && desk.clipboard == clipboard
    {
      lock, slot, nextId, cancelledBelow := None, None, 0, 0;
      board := Board(Idle, 0, {});
      captures, pc := map[], map[Socket := Listening];
      desk := Desk(mode, None, clipboard, clipboard, [], []);
      log := Log([], [], [], [], map[], [], false);
    }

    /** `is_recording`: the slot is filled and its capture has not overrun. */
    predicate Live()
      reads this
      ensures Live() == IsRecording(Value())
    {
      slot.Some? && !(slot.value in captures && captures[slot.value].autoStopped)
    }

    method Move(th: Thread, at: Pc)
      modifies this`pc
      ensures pc == old(pc)[th := at]
    {
      pc := pc[th := at];
    }

    method Leave(th: Thread)
      modifies this`pc
      ensures pc == old(pc)[th := if th == Socket then Listening else Ended]
    {
      pc := pc[th := if th == Socket then Listening else Ended];
    }

    method Publish(state: Phase)
      modifies this`board, this`log
      ensures Value() == Model.Show(old(Value()), state)
    {
      board := Status.Publish(board, state);
      log := log.(masked := false);
    }

    // ----------------------------------------------------------------
    // `start`
    // ----------------------------------------------------------------

    method EnterStart()
      requires CanCommand(Value(), Start)
      modifies this
      ensures Value() == DoCommand(old(Value()), Start)
    {
      lock := Some(Socket);
      Move(Socket, Commanding(Starting));
    }

    /** An overrun recording nobody reclaimed is torn down; a live one refuses the start. */
    method LookAtSlot()
      requires CanCommand(Value(), CommandStep.LookAtSlot)
      modifies this
      ensures Value() == DoCommand(old(Value()), CommandStep.LookAtSlot)
    {
      if slot.None? {
        Move(Socket, Commanding(Opening));
      } else if Live() {
        lock := None;
        Leave(Socket);
      } else {
        log := log.(closed := log.closed + [slot.value]);
        Move(Socket, Commanding(DroppingStale(slot.value)));
        slot := None;
      }
    }

    method OpenCapture(ok: bool)
      requires CanCommand(Value(), CommandStep.OpenCapture(ok))
      modifies this
      ensures Value() == DoCommand(old(Value()), CommandStep.OpenCapture(ok))
    {
      var id := nextId;
      nextId := nextId + 1;
      if ok {
        captures := captures[id := Capture(Reading, false)];
        Move(Socket, Commanding(Opened(id)));
      } else {
        lock := None;
        Leave(Socket);
      }
    }

    method Announce(id: nat)
      requires CanCommand(Value(), CommandStep.Announce) && pc[Socket].command.id == id
      modifies this
      ensures Value() == DoCommand(old(Value()), CommandStep.Announce)
    {
      var hides := Overrun(Value(), id) && !ReaderAt(Value(), id, CapHit);
      Publish(Recording);
      log := log.(masked := hides);
      Move(Socket, Commanding(Announced(id)));
    }

    method FillSlot(id: nat)
      requires CanCommand(Value(), CommandStep.FillSlot) && pc[Socket].command.id == id
      modifies this
      ensures Value() == DoCommand(old(Value()), CommandStep.FillSlot)
    {
      slot, lock := Some(id), None;
      Leave(Socket);
    }

    // ----------------------------------------------------------------
    // `stop`, `auto_finish` and `cancel`
    // ----------------------------------------------------------------

    /** `take_recording`: the recording leaves the slot if it is the one wanted. */
    method TakeRecording(th: Thread, which: Option<nat>) returns (taken: bool)
      modifies this`slot, this`pc
      ensures taken == (old(slot).Some? && (which.None? || which == old(slot)))
      ensures slot == if taken then None else old(slot)
      ensures pc == if taken then old(pc)[th := Closing(old(slot).value, Taken)] else old(pc)
    {
      taken := slot.Some? && (which.None? || which == slot);
      if taken {
        Move(th, Closing(slot.value, Taken));
        slot := None;
      }
    }

    method EnterStop()
      requires CanCommand(Value(), Stop)
      modifies this
      ensures Value() == DoCommand(old(Value()), Stop)
    {
      var taken := TakeRecording(Socket, None);
    }

    method AutoFinish(th: Thread, id: nat)
      requires CanFinish(Value(), th, AutoTake) && pc[th].id == id
      modifies this
      ensures Value() == DoFinish(old(Value()), th, AutoTake)
    {
      var taken := TakeRecording(th, Some(id));
      if !taken {
        Leave(th);
      }
    }

    method EnterCancel()
      requires CanCommand(Value(), Cancel)
      modifies this
      ensures Value() == DoCommand(old(Value()), Cancel)
    {
      cancelledBelow := nextId;
      match slot {
        case None => Move(Socket, Commanding(Clearing));
        case Some(id) =>
          log := log.(closed := log.closed + [id]);
          slot := None;
          Move(Socket, Commanding(DroppingCancelled(id)));
      }
    }

    method CancelPublishes()
      requires CanCommand(Value(), CommandStep.CancelPublishes)
      modifies this
      ensures Value() == DoCommand(old(Value()), CommandStep.CancelPublishes)
    {
      Publish(Idle);
      Leave(Socket);
    }

    method DoCommandStep(c: CommandStep)
      requires CanCommand(Value(), c)
      modifies this
      ensures Value() == DoCommand(old(Value()), c)
    {
      match c {
        case Start => EnterStart();
        case LookAtSlot => LookAtSlot();
        case StaleJoined => Move(Socket, Commanding(Opening));
        case OpenCapture(ok) => OpenCapture(ok);
        case Announce => Announce(pc[Socket].command.id);
        case FillSlot => FillSlot(pc[Socket].command.id);
        case Stop => EnterStop();
        case Cancel => EnterCancel();
        case CancelJoined => Move(Socket, Commanding(Clearing));
        case CancelPublishes => CancelPublishes();
      }
    }

    // ----------------------------------------------------------------
    // `close`, `report` and `process`
    // ----------------------------------------------------------------

    /** `close`: an overrun capture is discarded, any other finished. */
    method CloseCapture(th: Thread, id: nat)
      requires CanFinish(Value(), th, ChooseClose) && pc[th].id == id
      modifies this
      ensures Value() == DoFinish(old(Value()), th, ChooseClose)
    {
      log := log.(closed := log.closed + [id]);
      var overrun := id in captures && captures[id].autoStopped;
      Move(th, Closing(id, if overrun then Discarding else Finishing));
    }

    /** `report`, lock taken: nothing for a cancelled clip, nothing over a live recording. */
    method EnterReport(th: Thread, id: nat, news: News)
      requires CanFinish(Value(), th, FinishStep.EnterReport) && pc[th] == Reporting(id, news)
      modifies this
      ensures Value() == DoFinish(old(Value()), th, FinishStep.EnterReport)
    {
      if id < cancelledBelow {
        Leave(th);
      } else {
        lock := Some(th);
        Move(th, Publishing(id, news, !Live()));
      }
    }

    /** `report` publishes and unlocks; a finished recording goes on as a clip, from `stop` on a thread of its own. */
    method LeaveReport(th: Thread, id: nat, news: News, show: bool)
      requires CanFinish(Value(), th, FinishStep.LeaveReport) && pc[th] == Publishing(id, news, show)
      modifies this
      ensures Value() == DoFinish(old(Value()), th, FinishStep.LeaveReport)
    {
      if show {
        Publish(Shows(news));
        log := log.(shown := log.shown + [Shown(id, Shows(news))]);
      }
      lock := None;
      if news != ClipReady {
        Leave(th);
      } else {
        log := log.(handed := log.handed + [id]);
        if th == Socket {
          Leave(th);
          Move(Worker(id), Processing(id, Hearing));
        } else {
          Move(th, Processing(id, Hearing));
        }
      }
    }

    method DoFinishStep(th: Thread, f: FinishStep)
      requires CanFinish(Value(), th, f)
      modifies this
      ensures Value() == DoFinish(old(Value()), th, f)
    {
      match f {
        case AutoTake => AutoFinish(th, pc[th].id);
        case ChooseClose => CloseCapture(th, pc[th].id);
        case DiscardJoined => Leave(th);
        case FinishJoined(kept) => Move(th, Reporting(pc[th].id, if kept then ClipReady else ClipDropped));
        case EnterReport => EnterReport(th, pc[th].id, pc[th].news);
        case LeaveReport => LeaveReport(th, pc[th].id, pc[th].news, pc[th].show);
      }
    }

    /** The injection ends, and its lock is given up. */
    method EndDelivery(th: Thread, id: nat, d: Delivery, clipboard: Clipboard, ok: bool)
      modifies this`desk, this`pc
      ensures desk == old(desk).(lock := None, clipboard := clipboard, deliveries := old(desk).deliveries + [d])
      ensures pc == old(pc)[th := Reporting(id, if ok then ClipDelivered else ClipFailed)]
    {
      desk := desk.(lock := None, clipboard := clipboard, deliveries := desk.deliveries + [d]);
      Move(th, Reporting(id, if ok then ClipDelivered else ClipFailed));
    }

    method Hear(th: Thread, id: nat, accepted: Option<string>)
      requires CanProcess(Value(), th, Transcribed(accepted)) && pc[th].id == id
      modifies this
      ensures Value() == DoProcess(old(Value()), th, Transcribed(accepted))
    {
      log := log.(heard := log.heard + [id]);
      match accepted {
        case Some(text) => Move(th, Processing(id, Queued(text)));
        case None => Move(th, Reporting(id, ClipFailed));
      }
    }

    /** `deliver`, injection lock held: a clip cancelled before its turn is dropped. */
    method CheckCancelled(th: Thread, id: nat, prepared: string)
      requires CanProcess(Value(), th, ProcessStep.CheckCancelled(prepared)) && pc[th].id == id
      modifies this
      ensures Value() == DoProcess(old(Value()), th, ProcessStep.CheckCancelled(prepared))
    {
      if id < cancelledBelow {
        desk := desk.(lock := None);
        Leave(th);
        return;
      }
      log := log.(injected := log.injected + [id], prepared := log.prepared[id := prepared]);
      match desk.mode {
        case Typing => Move(th, Processing(id, Injecting(prepared, TypingText)));
        case Pasting(hasKeys) =>
          if hasKeys {
            Move(th, Processing(id, Injecting(prepared, Saving)));
          } else {
            EndDelivery(th, id, Unconfigured(prepared), desk.clipboard, false);
          }
      }
    }

    /** `paste_text`, a tool at a time. */
    method Inject(th: Thread, id: nat, text: string, at: InjectAt, p: ProcessStep)
      requires CanProcess(Value(), th, p) && pc[th] == Processing(id, Injecting(text, at)) && !at.Checking?
      modifies this
      ensures Value() == DoProcess(old(Value()), th, p)
    {
      match p {
        case TypeText(ok) => EndDelivery(th, id, Typed(text, ok), desk.clipboard, ok);
        case SaveClipboard(readable) =>
          Move(th, Processing(id, Injecting(text, Copying(Save(desk.clipboard, readable), readable))));
        case CopyText(attempt) =>
          if attempt.Worked? {
            desk := desk.(clipboard := Transcript(text));
            Move(th, Processing(id, Injecting(text, Pressing(at.saved, at.readable))));
          } else {
            EndDelivery(th, id, CopyFailed(text, at.readable, attempt.left), attempt.left, false);
          }
        case PressKeys(ok) =>
          if ok {
            desk := desk.(keystrokes := desk.keystrokes + [Keystroke(id, text, desk.clipboard)]);
            Move(th, Processing(id, Injecting(text, Restoring(at.saved, at.readable))));
          } else {
            EndDelivery(th, id, KeysFailed(text, at.readable), desk.clipboard, false);
          }
        case RestoreClipboard(attempt) =>
          EndDelivery(th, id, Pasted(text, at.readable, attempt), Restore(at.saved, desk.clipboard, attempt), true);
      }
    }

    method DoProcessStep(th: Thread, p: ProcessStep)
      requires CanProcess(Value(), th, p)
      modifies this
      ensures Value() == DoProcess(old(Value()), th, p)
    {
      var id, job := pc[th].id, pc[th].job;
      match p {
        case Transcribed(accepted) => Hear(th, id, accepted);
        case LockInjection =>
          desk := desk.(lock := Some(th));
          Move(th, Processing(id, Injecting(job.text, Checking)));
        case CheckCancelled(prepared) => CheckCancelled(th, id, prepared);
        case _ => Inject(th, id, job.text, job.at, p);
      }
    }

    // ----------------------------------------------------------------
    // Readers, reverts, and any schedule
    // ----------------------------------------------------------------

    method DoReadStep(r: nat, e: ReaderStep)
      requires CanRead(Value(), r, e)
      modifies this
      ensures Value() == DoRead(old(Value()), r, e)
    {
      match e {
        case Tick => Publish(Recording);
        case HitCap => captures := captures[r := Capture(CapHit, true)];
        case Complain =>
          Publish(Error);
          captures := captures[r := captures[r].(reader := Complaining)];
        case HitSilence => captures := captures[r := captures[r].(reader := SilenceHit)];
        case SpawnAuto =>
          captures := captures[r := captures[r].(reader := Gone)];
          Move(Auto(r), Waiting(r));
        case _ => captures := captures[r := captures[r].(reader := Gone)];
      }
    }

    method DoWake(g: nat)
      requires g in board.reverts
      modifies this
      ensures Value() == WakeStep(old(Value()), g)
    {
      log := log.(masked := log.masked && board.generation != g);
      board := Wake(board, g);
    }

    method Step(a: Model.Step)
      requires Enabled(Value(), a)
      modifies this
      ensures Value() == Next(old(Value()), a)
    {
      match a {
        case Command(c) => DoCommandStep(c);
        case Finish(th, f) => DoFinishStep(th, f);
        case Process(th, p) => DoProcessStep(th, p);
        case Read(r, e) => DoReadStep(r, e);
        case WakeRevert(g) => DoWake(g);
      }
    }

    /** Any scheduler's choices, those not possible at the moment passed over: the fields run through a run of the session. */
    method RunSchedule(schedule: seq<Model.Step>) returns (ghost states: seq<State>, ghost steps: seq<Model.Step>)
      requires Init(Value())
      modifies this
      ensures IsRun(states, steps) && Value() == states[|states| - 1]
      ensures Inv(Value()) && Pastes(Value())
      ensures forall e :: e in log.shown ==> Outcomes.Means(states, steps, |steps|, e.id, e.state)
    {
      states, steps := [Value()], [];
      for i := 0 to |schedule|
        invariant IsRun(states, steps) && Value() == states[|states| - 1]
      {
        if Enabled(Value(), schedule[i]) {
          Step(schedule[i]);
          states, steps := states + [Value()], steps + [schedule[i]];
        }
      }
      RunKeepsInv(states, steps, |steps|);
      Outcomes.DisplayIsTrue(states, steps, |steps|);
    }
  }
}
