/**
 The state the daemon shows: an in-memory snapshot (answered to the `status`
 command) and the file the pill watches.

 Every write takes the snapshot's lock, bumps the generation and publishes the
 file unless it is one more `recording` tick within the throttling interval.
 `success` and `error` leave a delayed revert behind that only fires while their
 generation is still the newest.
 */
module Status {
  import opened Common

  datatype Phase = Idle | Recording | Transcribing | Success | Error

  datatype Snapshot = Snapshot(
    state: Phase,
    rms: real,
    errorKind: Option<string>,
    errorMessage: Option<string>,
    timestamp: real)

  function Plain(state: Phase, rms: real, stamp: real): Snapshot {
    Snapshot(state, rms, None, None, stamp)
  }

  /** Readings of the two clocks during one write, and whether the file write works. */
  datatype Moment = Moment(now: nat, stamp: real, disk: bool)

  // ------------------------------------------------------------------
  // The board: what other threads can tell apart
  // ------------------------------------------------------------------

  /** The state shown, its generation, and the generations with a revert still sleeping. */
  datatype Board = Board(state: Phase, generation: nat, reverts: set<nat>)

  predicate Flash(state: Phase) {
    state == Success || state == Error
  }

  function Publish(b: Board, state: Phase): Board {
    var g := b.generation + 1;
    Board(state, g, if Flash(state) then b.reverts + {g} else b.reverts)
  }

  /** A sleeping revert wakes up: it writes `idle` only if nothing was written since. */
  function Wake(b: Board, g: nat): Board {
    var awake := b.(reverts := b.reverts - {g});
    if b.generation == g then Publish(awake, Idle) else awake
  }

  // ------------------------------------------------------------------
  // Memory and file together
  // ------------------------------------------------------------------

  /** One write of the file: when, and the state in memory before and after it. */
  datatype Publication = Publication(at: nat, previous: Phase, state: Phase)

  datatype Cells = Cells(
    shared: Snapshot,
    file: Option<Snapshot>,
    generation: nat,
    lastPublish: nat,
    reverts: set<nat>,
    published: seq<Publication>)

  function Public(v: Cells): Board {
    Board(v.shared.state, v.generation, v.reverts)
  }

  /** A fresh status: idle in memory, nothing on disk. */
  function Fresh(now: nat): Cells {
    Cells(Plain(Idle, 0.0, 0.0), None, 0, now, {}, [])
  }

  function Due(v: Cells, minInterval: nat, state: Phase, now: nat): bool {
    if state == Recording && v.shared.state == Recording && minInterval != 0
    then now >= v.lastPublish + minInterval
    else true
  }

  function Written(v: Cells, minInterval: nat, snapshot: Snapshot, m: Moment): Cells {
    var due := Due(v, minInterval, snapshot.state, m.now);
    Cells(
      snapshot,
      if due && m.disk then Some(snapshot) else v.file,
      v.generation + 1,
      if due then m.now else v.lastPublish,
      if Flash(snapshot.state) then v.reverts + {v.generation + 1} else v.reverts,
      if due then v.published + [Publication(m.now, v.shared.state, snapshot.state)] else v.published)
  }

  /** The calls other modules make, and the revert thread waking up. */
  datatype Call =
    | Set(state: Phase, rms: real)
    | Fail(kind: string, message: string)
    | WakeUp(generation: nat)

  function Perform(v: Cells, minInterval: nat, c: Call, m: Moment): Cells {
    match c
    case Set(state, rms) => Written(v, minInterval, Plain(state, rms, m.stamp), m)
    case Fail(kind, message) =>
      Written(v, minInterval, Snapshot(Error, 0.0, Some(kind), Some(message), m.stamp), m)
    case WakeUp(g) =>
      var awake := v.(reverts := v.reverts - {g});
      if v.generation == g then Written(awake, minInterval, Plain(Idle, 0.0, m.stamp), m) else awake
  }

  /** What the session reasons about is exactly what a call does to the board. */
  lemma CallOnBoard(v: Cells, minInterval: nat, c: Call, m: Moment)
    ensures var b := Public(Perform(v, minInterval, c, m));
            match c
            case Set(state, _) => b == Publish(Public(v), state)
            case Fail(_, _) => b == Publish(Public(v), Error)
            case WakeUp(g) => b == Wake(Public(v), g)
  {
  }

  /** What a write of `snapshot` leaves behind: in memory at once, on disk when due and the disk works. */
  lemma WrittenIs(v: Cells, minInterval: nat, snapshot: Snapshot, m: Moment)
    ensures var w := Written(v, minInterval, snapshot, m);
            && w.shared == snapshot && w.generation == v.generation + 1
            && (w.file == Some(snapshot) || w.file == v.file)
            && (m.disk && (snapshot.state != Recording || v.shared.state != Recording) ==> w.file == Some(snapshot))
  {
  }

  /**
   What each call shows: the state and loudness given and no error, or `error` with its kind and its
   message, or, for a revert that is still the newest, `idle`; with `success` and `error`, and
   nothing else, leaving a revert behind.
   */
  lemma CallShows(v: Cells, minInterval: nat, c: Call, m: Moment)
    ensures var w := Perform(v, minInterval, c, m);
            match c
            case Set(state, rms) =>
              && w.shared == Snapshot(state, rms, None, None, m.stamp)
              && w.reverts == (if state == Success || state == Error then v.reverts + {v.generation + 1} else v.reverts)
            case Fail(kind, message) =>
              && w.shared == Snapshot(Error, 0.0, Some(kind), Some(message), m.stamp)
              && w.reverts == v.reverts + {v.generation + 1}
            case WakeUp(g) =>
              && w.shared == (if g == v.generation then Snapshot(Idle, 0.0, None, None, m.stamp) else v.shared)
              && w.reverts == v.reverts - {g}
  {
  }

  /** `Status`: the shared snapshot, the file and the bookkeeping, updated in place. */
  class Shared {
    const minInterval: nat
    var shared: Snapshot
    var file: Option<Snapshot>
    var generation: nat
    var lastPublish: nat
    var reverts: set<nat>
    var published: seq<Publication>

    ghost function Value(): Cells
      reads this
    {
      Cells(shared, file, generation, lastPublish, reverts, published)
    }

    constructor (minInterval: nat, now: nat)
      ensures Value() == Fresh(now) && this.minInterval == minInterval
    {
      this.minInterval := minInterval;
      shared, file := Plain(Idle, 0.0, 0.0), None;
      generation, lastPublish, reverts, published := 0, now, {}, [];
    }

    method ShouldPublish(next: Phase, previous: Phase, now: nat) returns (due: bool)
      modifies this`lastPublish
      ensures due <==> !(next == Recording && previous == Recording) || minInterval == 0 || now >= old(lastPublish) + minInterval
      ensures lastPublish == if due then now else old(lastPublish)
    {
      var throttled := next == Recording && previous == Recording;
      if !throttled || minInterval == 0 {
        lastPublish := now;
        return true;
      }
      if now >= lastPublish + minInterval {
        lastPublish := now;
        return true;
      }
      return false;
    }

    method Write(snapshot: Snapshot, m: Moment) returns (g: nat)
      modifies this
      ensures g == generation
      ensures Value() == Written(old(Value()), minInterval, snapshot, m).(reverts := old(reverts))
    {
      generation := generation + 1;
      var previous := shared.state;
      shared := snapshot;
      var due := ShouldPublish(shared.state, previous, m.now);
      if due {
        published := published + [Publication(m.now, previous, shared.state)];
        if m.disk {
          file := Some(shared);
        }
      }
      g := generation;
    }

    method SetState(state: Phase, rms: real, m: Moment)
      modifies this
      ensures Value() == Perform(old(Value()), minInterval, Set(state, rms), m)
      ensures shared == Snapshot(state, rms, None, None, m.stamp)
    {
      var g := Write(Plain(state, rms, m.stamp), m);
      if Flash(state) {
        reverts := reverts + {g};
      }
    }

    method ReportError(kind: string, message: string, m: Moment)
      modifies this
      ensures Value() == Perform(old(Value()), minInterval, Fail(kind, message), m)
      ensures shared == Snapshot(Error, 0.0, Some(kind), Some(message), m.stamp)
    {
      var g := Write(Snapshot(Error, 0.0, Some(kind), Some(message), m.stamp), m);
      reverts := reverts + {g};
    }

    method RevertToIdle(g: nat, m: Moment)
      modifies this
      ensures Value() == Perform(old(Value()), minInterval, WakeUp(g), m)
      ensures shared == if g == old(generation) then Snapshot(Idle, 0.0, None, None, m.stamp) else old(shared)
    {
      reverts := reverts - {g};
      if generation == g {
        var _ := Write(Plain(Idle, 0.0, m.stamp), m);
      }
    }
  }

  // ------------------------------------------------------------------
  // Whole runs
  // ------------------------------------------------------------------

  function Run(now: nat, minInterval: nat, calls: seq<(Call, Moment)>): Cells {
    if calls == [] then Fresh(now)
    else
      var last := calls[|calls| - 1];
      Perform(Run(now, minInterval, calls[..|calls| - 1]), minInterval, last.0, last.1)
  }

  /** The clock never goes back. */
  ghost predicate Monotone(now: nat, calls: seq<(Call, Moment)>) {
    && (forall i :: 0 <= i < |calls| ==> now <= calls[i].1.now)
    && (forall i, j :: 0 <= i < j < |calls| ==> calls[i].1.now <= calls[j].1.now)
  }

  /** File and memory show the same state and the same error; while recording
      the file may lag in loudness and timestamp only. */
  ghost predicate Agree(v: Cells) {
    && v.file.Some?
    && v.file.value.state == v.shared.state
    && v.file.value.errorKind == v.shared.errorKind
    && v.file.value.errorMessage == v.shared.errorMessage
    && (v.shared.state != Recording ==> v.file.value == v.shared)
  }

  /** If the disk works, file and memory agree from the first write on. */
  lemma {:induction false} FileFollowsMemory(now: nat, minInterval: nat, calls: seq<(Call, Moment)>)
    requires forall i :: 0 <= i < |calls| ==> calls[i].1.disk
    ensures var v := Run(now, minInterval, calls);
            if v.generation == 0 then v == Fresh(now).(reverts := v.reverts)
            else Agree(v) && (v.shared.state == Recording ==> v.shared.errorKind == None && v.shared.errorMessage == None)
  {
    if calls == [] {
    } else {
      FileFollowsMemory(now, minInterval, calls[..|calls| - 1]);
    }
  }

  /** A repeated `recording` write of the file comes at least the interval after the
      write before it, whatever that one showed. */
  ghost predicate Spaced(published: seq<Publication>, minInterval: nat) {
    forall k :: 0 < k < |published| && published[k].previous == Recording && published[k].state == Recording ==>
      published[k].at >= published[k - 1].at + minInterval
  }

  /** The throttle's clock reads the last write, which a repeated `recording` has before it. */
  ghost predicate Throttled(v: Cells, minInterval: nat, now: nat) {
    && Spaced(v.published, minInterval)
    && (v.published == [] <==> v.generation == 0)
    && (v.generation == 0 ==> v.shared.state == Idle)
    && v.lastPublish == (if v.published == [] then now else v.published[|v.published| - 1].at)
  }

  lemma WriteKeepsThrottled(v: Cells, minInterval: nat, now: nat, snapshot: Snapshot, m: Moment)
    requires Throttled(v, minInterval, now) && v.lastPublish <= m.now
    ensures var w := Written(v, minInterval, snapshot, m); Throttled(w, minInterval, now) && w.lastPublish <= m.now
  {
  }

  lemma CallKeepsThrottled(v: Cells, minInterval: nat, now: nat, c: Call, m: Moment)
    requires Throttled(v, minInterval, now) && v.lastPublish <= m.now
    ensures var w := Perform(v, minInterval, c, m); Throttled(w, minInterval, now) && w.lastPublish <= m.now
  {
    match c
    case Set(state, rms) => WriteKeepsThrottled(v, minInterval, now, Plain(state, rms, m.stamp), m);
    case Fail(kind, message) =>
      WriteKeepsThrottled(v, minInterval, now, Snapshot(Error, 0.0, Some(kind), Some(message), m.stamp), m);
    case WakeUp(g) =>
      WriteKeepsThrottled(v.(reverts := v.reverts - {g}), minInterval, now, Plain(Idle, 0.0, m.stamp), m);
  }

  /** Over any calls on a clock that never goes back, the writes of the file are throttled. */
  lemma {:induction false} RecordingIsThrottled(now: nat, minInterval: nat, calls: seq<(Call, Moment)>)
    requires Monotone(now, calls)
    ensures var v := Run(now, minInterval, calls);
            Throttled(v, minInterval, now) && v.lastPublish <= (if calls == [] then now else calls[|calls| - 1].1.now)
  {
    if calls == [] {
    } else {
      var front, last := calls[..|calls| - 1], calls[|calls| - 1];
      RecordingIsThrottled(now, minInterval, front);
      assert front != [] ==> front[|front| - 1] == calls[|front| - 1];
      CallKeepsThrottled(Run(now, minInterval, front), minInterval, now, last.0, last.1);
    }
  }
}
