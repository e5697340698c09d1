/** What every step of the session keeps. */
module SessionInvariants {
  import opened Common
  import opened Status
  import opened SessionModel

  // ------------------------------------------------------------------
  // One thread
  // ------------------------------------------------------------------

  /** News that closes a recording, as against news of a clip's end. */
  predicate ClosingNews(news: News) {
    news.ClipReady? || news.ClipDropped?
  }

  /** The recording or clip a thread is responsible for. */
  function Carried(at: Pc): Option<nat> {
    match at
    case Commanding(c) => if c.Opened? || c.Announced? then Some(c.id) else None
    case Closing(id, stage) => if stage.Discarding? then None else Some(id)
    case Reporting(id, _) => Some(id)
    case Publishing(id, _, _) => Some(id)
    case Processing(id, _) => Some(id)
    case _ => None
  }

  /** How far it has come: 0 still capturing, 1 capture closed, 2 handed to
      `process`, 3 transcribed, 4 cleared for injection, 5 nothing left to inject. */
  function Stage(at: Pc): nat {
    match at
    case Closing(_, stage) => if stage.Taken? then 0 else 1
    case Reporting(_, news) => if ClosingNews(news) then 1 else 5
    case Publishing(_, news, _) => if ClosingNews(news) then 1 else 5
    case Processing(_, job) => JobStage(job)
    case _ => 0
  }

  function JobStage(job: Job): nat {
    match job
    case Hearing => 2
    case Queued(_) => 3
    case Injecting(_, at) => if at.Checking? then 3 else if at.Restoring? then 5 else 4
  }

  /** The capture the socket thread holds, or is joining. */
  function SocketCapture(at: Pc): Option<nat> {
    match at
    case Commanding(c) => if c.Starting? || c.Opening? || c.Clearing? then None else Some(c.id)
    case Closing(id, _) => Some(id)
    case _ => None
  }

  predicate HoldsLifecycle(at: Pc) {
    at.Publishing? || (at.Commanding? && !at.command.DroppingCancelled? && !at.command.Clearing?)
  }

  predicate HoldsInjection(at: Pc) {
    at.Processing? && at.job.Injecting?
  }

  /** The code each thread runs; auto-finish and worker threads are about one recording only. */
  predicate RunsOwnCode(th: Thread, at: Pc) {
    match th
    case Socket =>
      at.Listening? || at.Commanding? || at.Closing?
      || (at.Reporting? && ClosingNews(at.news)) || (at.Publishing? && ClosingNews(at.news))
    case Auto(a) =>
      at.Ended? || (!at.Listening? && !at.Commanding? && at.id == a)
    case Worker(w) =>
      at.Ended?
      || (((at.Reporting? && !ClosingNews(at.news)) || (at.Publishing? && !ClosingNews(at.news)) || at.Processing?)
          && at.id == w)
  }

  /** A thread inside `report` was told the truth, and it stays true while it holds the lock. */
  predicate ReportsRightly(s: State, at: Pc) {
    at.Publishing? ==> s.life.cancelledBelow <= at.id && (at.show ==> !IsRecording(s))
  }

  predicate ThreadOk(s: State, th: Thread)
    requires th in s.pc
  {
    var at := s.pc[th];
    && RunsOwnCode(th, at)
    && (HoldsLifecycle(at) <==> s.life.lock == Some(th))
    && (HoldsInjection(at) <==> s.desk.lock == Some(th))
    && (Carried(at).Some? ==> Carried(at).value < s.life.nextId)
    && ReportsRightly(s, at)
    && (th.Auto? ==> ReaderAt(s, th.id, Gone) && !Overrun(s, th.id))
    && (th.Worker? ==> th.id in s.log.handed && th.id < s.life.nextId)
  }

  ghost predicate Threads(s: State) {
    && Socket in s.pc
    && (forall th :: th in s.pc ==> ThreadOk(s, th))
    && (s.life.lock.Some? ==> s.life.lock.value in s.pc)
    && (s.desk.lock.Some? ==> s.desk.lock.value in s.pc)
  }

  // ------------------------------------------------------------------
  // Recordings
  // ------------------------------------------------------------------

  predicate Has(s: State, th: Thread, id: nat) {
    th in s.pc && Carried(s.pc[th]) == Some(id)
  }

  /** Recording `id` is in one place at most: the slot, or one thread's hands. */
  predicate OnePlace(s: State, id: nat) {
    && (s.life.slot == Some(id) ==> !Has(s, Socket, id) && !Has(s, Auto(id), id) && !Has(s, Worker(id), id))
    && (Has(s, Socket, id) ==> !Has(s, Auto(id), id) && !Has(s, Worker(id), id))
    && !(Has(s, Auto(id), id) && Has(s, Worker(id), id))
  }

  predicate Loud(reader: ReaderPc) {
    reader.Reading? || reader.CapHit?
  }

  /** A reader that may still publish belongs to the slot or to the socket thread. */
  predicate CaptureOk(s: State, r: nat)
    requires r in s.captures && Socket in s.pc
  {
    var c := s.captures[r];
    && r < s.life.nextId
    && (c.reader.Reading? || c.reader.SilenceHit? ==> !c.autoStopped)
    && (c.reader.CapHit? || c.reader.Complaining? ==> c.autoStopped)
    && (Loud(c.reader) ==> s.life.slot == Some(r) || SocketCapture(s.pc[Socket]) == Some(r))
  }

  /** Only the socket thread fills the slot, so it stays empty while that thread is in a command
      or closes a recording; and what it holds was not cancelled. */
  predicate SocketOk(s: State)
    requires Socket in s.pc
  {
    var at := s.pc[Socket];
    && (SocketCapture(at).Some? ==> s.life.slot.None? && SocketCapture(at).value in s.captures)
    && (at == Commanding(Opening) || at == Commanding(Clearing) ==> s.life.slot.None?)
    && (at.Commanding? && (at.command.DroppingCancelled? || at.command.Clearing?) ==> s.life.cancelledBelow == s.life.nextId)
    && (Carried(at).Some? ==> s.life.cancelledBelow <= Carried(at).value)
    && (at.Closing? ==> s.life.cancelledBelow <= at.id && (at.stage.Discarding? ==> Overrun(s, at.id)))
    && (at.Commanding? && at.command.DroppingStale? ==> Overrun(s, at.command.id))
  }

  ghost predicate Recordings(s: State)
    requires Socket in s.pc
  {
    && (forall id :: OnePlace(s, id))
    && (forall r :: r in s.captures ==> CaptureOk(s, r))
    && SocketOk(s)
    && s.life.cancelledBelow <= s.life.nextId
    && (s.life.slot.Some? ==> s.life.cancelledBelow <= s.life.slot.value && s.life.slot.value in s.captures)
  }

  /** Who runs what, who holds which lock, and where each recording is. */
  ghost predicate Sound(s: State) {
    Threads(s) && Recordings(s)
  }

  // ------------------------------------------------------------------
  // Histories
  // ------------------------------------------------------------------

  ghost predicate PressedFor(s: State, id: nat) {
    exists i :: 0 <= i < |s.desk.keystrokes| && s.desk.keystrokes[i].id == id
  }

  /** The histories know exactly how far recording `id` has come. */
  ghost predicate Recorded(s: State, id: nat, stage: nat) {
    && (id in s.log.closed <==> stage >= 1)
    && (id in s.log.handed <==> stage >= 2)
    && (id in s.log.heard <==> stage >= 3)
    && (id in s.log.injected ==> stage >= 4)
    && (PressedFor(s, id) ==> stage >= 5)
  }

  ghost predicate Progress(s: State) {
    && (forall th :: th in s.pc && Carried(s.pc[th]).Some? ==>
          Recorded(s, Carried(s.pc[th]).value, Stage(s.pc[th])))
    && (s.life.slot.Some? ==> Recorded(s, s.life.slot.value, 0))
    && (forall id :: id >= s.life.nextId ==> Recorded(s, id, 0))
  }

  /** No capture is closed twice, and no clip handed on, transcribed, injected or pasted twice. */
  ghost predicate Once(s: State) {
    && NoDup(s.log.closed) && NoDup(s.log.handed) && NoDup(s.log.heard) && NoDup(s.log.injected)
    && (forall i, j :: 0 <= i < j < |s.desk.keystrokes| ==> s.desk.keystrokes[i].id != s.desk.keystrokes[j].id)
  }

  /** Every clip comes from a closed capture, every transcription from a clip, and so on. */
  ghost predicate Chain(s: State) {
    && (forall id :: id in s.log.handed ==> id in s.log.closed)
    && (forall id :: id in s.log.heard ==> id in s.log.handed)
    && (forall id :: id in s.log.injected ==> id in s.log.heard)
  }

  // ------------------------------------------------------------------
  // The board
  // ------------------------------------------------------------------

  /** Reverts are no newer than the board, and the newest is there just while a flash shows. */
  ghost predicate Reverts(b: Board) {
    && (forall g :: g in b.reverts ==> g <= b.generation)
    && (b.generation in b.reverts <==> Flash(b.state))
  }

  /** A live recording is what the board shows. */
  predicate Faithful(s: State)
    requires Socket in s.pc
  {
    && (IsRecording(s) ==> s.board.state == Recording)
    && (var at := s.pc[Socket];
        at.Commanding? && at.command.Announced? && !Overrun(s, at.command.id) ==> s.board.state == Recording)
  }

  /** The capture of `id` still runs, or will complain: `recording` will be replaced on its account. */
  predicate Unsettled(s: State, id: nat) {
    !Overrun(s, id) || ReaderAt(s, id, CapHit)
  }

  /** The thread will replace `recording` on the board. */
  predicate WillClear(s: State, at: Pc) {
    match at
    case Commanding(c) =>
      c.DroppingCancelled? || c.Clearing?
      || ((c.Opened? || c.Announced?) && Unsettled(s, c.id))
      || (c.DroppingStale? && ReaderAt(s, c.id, CapHit))
    case Closing(id, stage) =>
      if stage.Discarding? then ReaderAt(s, id, CapHit)
      else s.life.cancelledBelow <= id && (stage.Taken? ==> Unsettled(s, id))
    case Reporting(id, news) => ClosingNews(news) && s.life.cancelledBelow <= id
    case Publishing(_, news, show) => ClosingNews(news) && show
    case _ => false
  }

  /** The thread will replace `transcribing` on the board. */
  predicate WillConclude(s: State, at: Pc) {
    match at
    case Commanding(c) => c.DroppingCancelled? || c.Clearing?
    case Processing(id, _) => s.life.cancelledBelow <= id
    case Reporting(id, news) => !ClosingNews(news) && s.life.cancelledBelow <= id
    case Publishing(_, news, show) => !ClosingNews(news) && show
    case _ => false
  }

  /** `recording` is never shown without somebody to replace it, unless `start` published it
      over a complaint that had already been made. */
  ghost predicate RecordingEnds(s: State) {
    s.board.state == Recording && !s.log.masked ==>
      || (s.life.slot.Some? && Unsettled(s, s.life.slot.value))
      || (exists th :: th in s.pc && WillClear(s, s.pc[th]))
  }

  ghost predicate TranscribingEnds(s: State) {
    s.board.state == Transcribing ==> exists th :: th in s.pc && WillConclude(s, s.pc[th])
  }

  predicate MaskShows(s: State) {
    s.log.masked ==> s.board.state == Recording
  }

  /** The whole invariant. */
  ghost predicate Inv(s: State) {
    && Sound(s)
    && Progress(s) && Once(s) && Chain(s)
    && Reverts(s.board) && Faithful(s) && MaskShows(s)
    && RecordingEnds(s) && TranscribingEnds(s)
  }
}
