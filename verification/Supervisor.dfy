/**
 The supervisor of the speech server: restart delays, and who reaps the children.

 Time, the fate of a child and the outcome of a spawn are read from scripts, so that a
 claim about every script is a claim about every run.
 */
module Supervisor {
  import opened Common

  // ------------------------------------------------------------------
  // Backoff
  // ------------------------------------------------------------------

  newtype u32 = x: int | 0 <= x < 0x1_0000_0000

  const U32_MAX: u32 := 0xFFFF_FFFF

  /** Durations are counted in nanoseconds, up to the longest representable one. */
  const DURATION_MAX: nat := 0x1_0000_0000_0000_0000 * 1_000_000_000 - 1

  type Duration = d: nat | d <= DURATION_MAX

  function Min(a: nat, b: nat): nat {
    if a <= b then a else b
  }

  function Pow2(n: nat): (p: nat)
    ensures p >= 1
  {
    if n == 0 then 1 else 2 * Pow2(n - 1)
  }

  lemma {:induction false} Pow2Grows(m: nat, n: nat)
    requires m <= n
    ensures Pow2(m) <= Pow2(n)
  {
    if m == n {
    } else {
      Pow2Grows(m, n - 1);
    }
  }

  lemma Pow2IsSmall(n: nat)
    requires n <= 16
    ensures Pow2(n) <= 65536
  {
    Pow2Grows(n, 16);
    assert Pow2(4) == 16 && Pow2(8) == 256;
    assert Pow2(12) == 4096 && Pow2(16) == 65536;
  }

  function Shift(failures: u32): nat {
    Min(if failures == 0 then 0 else failures as nat - 1, 16)
  }

  /** `1 << shift`, which fits the integer it is computed in. */
  function Factor(failures: u32): u32 {
    Pow2IsSmall(Shift(failures));
    Pow2(Shift(failures)) as u32
  }

  function SaturatingMul(d: Duration, k: u32): Duration {
    Min(d * k as nat, DURATION_MAX)
  }

  function DelayAfter(base: Duration, cap: Duration, failures: u32): (d: Duration)
    ensures d <= cap
  {
    Min(SaturatingMul(base, Factor(failures)), cap)
  }

  /** The base doubled `n` times. */
  function Doubled(base: nat, n: nat): nat {
    if n == 0 then base else 2 * Doubled(base, n - 1)
  }

  lemma {:induction false} DoubledIsScaled(base: nat, n: nat)
    ensures Doubled(base, n) == base * Pow2(n)
  {
    if n == 0 {
    } else {
      DoubledIsScaled(base, n - 1);
      assert base * (2 * Pow2(n - 1)) == 2 * (base * Pow2(n - 1));
    }
  }

  lemma {:induction false} DoubledGrows(base: nat, m: nat, n: nat)
    requires m <= n
    ensures Doubled(base, m) <= Doubled(base, n)
    ensures base > 0 ==> Doubled(base, m) > 0
    ensures base == 0 ==> Doubled(base, m) == 0
    decreases n
  {
    if n == 0 {
    } else if m < n {
      DoubledGrows(base, m, n - 1);
    } else {
      DoubledGrows(base, m - 1, n - 1);
    }
  }

  /** Neither the integer nor the duration overflows where it would show. */
  lemma DelayIsCapped(base: Duration, cap: Duration, failures: u32)
    ensures DelayAfter(base, cap, failures) == Min(Doubled(base, Shift(failures)), cap)
  {
    DoubledIsScaled(base, Shift(failures));
  }

  /** More failures never shorten the delay, which never exceeds the cap. */
  lemma DelayGrows(base: Duration, cap: Duration, f: u32, g: u32)
    requires f <= g
    ensures DelayAfter(base, cap, f) <= DelayAfter(base, cap, g) <= cap
  {
    DelayIsCapped(base, cap, f);
    DelayIsCapped(base, cap, g);
    DoubledGrows(base, Shift(f), Shift(g));
  }

  lemma DelayDoubles(base: Duration, cap: Duration, f: u32)
    requires f >= 1 && (base == 0 || cap <= Doubled(base, 16))
    ensures DelayAfter(base, cap, f) == Min(Doubled(base, f as nat - 1), cap)
  {
    DelayIsCapped(base, cap, f);
    if f as nat - 1 > 16 {
      DoubledGrows(base, 16, f as nat - 1);
      DoubledGrows(base, f as nat - 1, f as nat - 1);
    }
  }

  lemma DelayStopsDoubling(base: Duration, cap: Duration, f: u32)
    requires f == 18 && base > 0 && cap > Doubled(base, 16)
    ensures DelayAfter(base, cap, f) != Min(Doubled(base, f as nat - 1), cap)
  {
    DelayIsCapped(base, cap, f);
    DoubledGrows(base, 16, 16);
    assert Doubled(base, 17) == 2 * Doubled(base, 16);
  }

  /** Clamping the shift is invisible just when the cap is within sixteen doublings of the base. */
  lemma DelayDoublesIff(base: Duration, cap: Duration)
    ensures (forall f: u32 :: f >= 1 ==> DelayAfter(base, cap, f) == Min(Doubled(base, f as nat - 1), cap))
       <==> (base == 0 || cap <= Doubled(base, 16))
  {
    if base == 0 || cap <= Doubled(base, 16) {
      forall f: u32 | f >= 1 ensures DelayAfter(base, cap, f) == Min(Doubled(base, f as nat - 1), cap) {
        DelayDoubles(base, cap, f);
      }
    } else {
      DelayStopsDoubling(base, cap, 18);
    }
  }

  class Backoff {
    const base: Duration
    const cap: Duration
    var failures: u32

    constructor (base: Duration, cap: Duration)
      ensures this.base == base && this.cap == cap && failures == 0
    {
      this.base, this.cap, failures := base, cap, 0;
    }

    function Delay(): (d: Duration)
      reads this
      ensures d == DelayAfter(base, cap, failures)
    {
      var factor := Factor(failures);
      Min(SaturatingMul(base, factor), cap)
    }

    method Fail() returns (retry: Duration)
      modifies this
      ensures failures as nat == Min(old(failures) as nat + 1, U32_MAX as nat)
      ensures retry == DelayAfter(base, cap, failures)
    {
      failures := if failures == U32_MAX then failures else failures + 1;
      retry := Delay();
    }

    method Reset()
      modifies this
      ensures failures == 0
    {
      failures := 0;
    }
  }

  /** What a restart came to: the server answered, it counted as a failure, or a halt cut it short. */
  datatype Outcome = CameUp | Failed | CutShort

  /** Consecutive counted failures at the end of a history; a restart cut short does not count. */
  function Streak(history: seq<Outcome>): nat {
    if history == [] then 0
    else
      var rest := Streak(history[..|history| - 1]);
      match history[|history| - 1]
      case CameUp => 0
      case Failed => rest + 1
      case CutShort => rest
  }

  // ------------------------------------------------------------------
  // Children
  // ------------------------------------------------------------------

  /** What a look at a child finds; a look may also go wrong. */
  datatype Look = Running | Exited | LookFailed

  /** The operating system's children of this process that have not been waited for. */
  class Children {
    var unreaped: set<nat>
    var spawned: nat
    /** The most there have ever been at once. */
    ghost var peak: nat

    ghost predicate Valid()
      reads this
    {
      |unreaped| <= peak && forall c :: c in unreaped ==> c < spawned
    }

    constructor ()
      ensures Valid() && unreaped == {} && peak == 0
    {
      unreaped, spawned, peak := {}, 0, 0;
    }

    method Spawn() returns (child: nat)
      requires Valid()
      modifies this
      ensures Valid() && child !in old(unreaped) && unreaped == old(unreaped) + {child} && spawned == old(spawned) + 1
      ensures peak == if |unreaped| > old(peak) then |unreaped| else old(peak)
    {
      child := spawned;
      unreaped, spawned := unreaped + {child}, spawned + 1;
      peak := if |unreaped| > peak then |unreaped| else peak;
    }

    /** `try_wait`: an exited child is reaped by being looked at. */
    method TryWait(child: nat, look: Look) returns (running: bool)
      requires Valid()
      modifies this
      ensures Valid() && peak == old(peak) && spawned == old(spawned)
      ensures unreaped == if look.Exited? then old(unreaped) - {child} else old(unreaped)
      ensures running <==> child in unreaped && look.Running?
    {
      Shrinks(unreaped, child);
      if look.Exited? {
        unreaped := unreaped - {child};
      }
      running := child in unreaped && look.Running?;
    }

    /** `wait`, which returns once the child has exited. */
    method Wait(child: nat)
      requires Valid()
      modifies this
      ensures Valid() && peak == old(peak) && unreaped == old(unreaped) - {child} && spawned == old(spawned)
    {
      Shrinks(unreaped, child);
      unreaped := unreaped - {child};
    }
  }

  lemma Shrinks(s: set<nat>, x: nat)
    ensures |s - {x}| <= |s|
  {
    assert s - {x} <= s;
    if x in s {
      assert s == (s - {x}) + {x};
    } else {
      assert s - {x} == s;
    }
  }

  /** One turn of waiting for the server: a halt asked for, a look at it, a connection tried. */
  datatype Turn = Turn(halted: bool, look: Look, connects: bool)

  /** How a wait for the server goes; it ends with its turns when time runs out. */
  datatype Wait = Wait(resolves: bool, turns: seq<Turn>)

  /** How a wait ends: the server answers, it is seen to have exited, or the wait is given up. */
  datatype WaitEnd = Answered | SeenDead | GivenUp

  function EndOf(turns: seq<Turn>): WaitEnd {
    if turns == [] || turns[0].halted || turns[0].look.LookFailed? then GivenUp
    else if turns[0].look.Exited? then SeenDead
    else if turns[0].connects then Answered
    else EndOf(turns[1..])
  }

  function Ends(w: Wait): WaitEnd {
    if w.resolves then EndOf(w.turns) else GivenUp
  }

  /** The server answers if and only if a connection succeeds at some turn up to which nobody asked for a halt and it ran. */
  lemma {:induction false} AnsweredIff(turns: seq<Turn>)
    ensures EndOf(turns).Answered?
       <==> exists i: nat :: i < |turns| && turns[i].connects && forall j :: 0 <= j <= i ==> !turns[j].halted && turns[j].look.Running?
  {
    if turns == [] {
    } else {
      AnsweredIff(turns[1..]);
      if EndOf(turns).Answered? && !turns[0].connects {
        var i: nat :| i < |turns[1..]| && turns[1..][i].connects
                   && forall j :: 0 <= j <= i ==> !turns[1..][j].halted && turns[1..][j].look.Running?;
        assert turns[i + 1].connects && forall j :: 1 <= j <= i + 1 ==> turns[j] == turns[1..][j - 1];
      }
      if i: nat :| i < |turns| && turns[i].connects && forall j :: 0 <= j <= i ==> !turns[j].halted && turns[j].look.Running? {
        if i > 0 {
          assert turns[1..][i - 1].connects && forall j :: 0 <= j <= i - 1 ==> turns[1..][j] == turns[j + 1];
        }
      }
    }
  }

  lemma OneMoreTurn(turns: seq<Turn>, i: nat)
    requires i < |turns| && EndOf(turns) == EndOf(turns[i..])
    ensures var turn := turns[i];
            EndOf(turns) == if turn.halted || turn.look.LookFailed? then GivenUp
                            else if turn.look.Exited? then SeenDead
                            else if turn.connects then Answered else EndOf(turns[i + 1..])
  {
    assert turns[i..][1..] == turns[i + 1..];
  }

  /** `wait_ready`. */
  method WaitReady(children: Children, child: nat, w: Wait) returns (ready: bool)
    requires children.Valid()
    modifies children
    ensures children.Valid() && children.peak == old(children.peak) && children.spawned == old(children.spawned)
    ensures old(children.unreaped) - {child} <= children.unreaped <= old(children.unreaped)
    ensures child in old(children.unreaped) ==>
              && (ready <==> Ends(w).Answered?)
              && children.unreaped == if Ends(w).SeenDead? then old(children.unreaped) - {child} else old(children.unreaped)
  {
    if !w.resolves {
      return false;
    }
    assert w.turns[0..] == w.turns;
    for i := 0 to |w.turns|
      invariant children.Valid() && children.peak == old(children.peak) && children.spawned == old(children.spawned)
      invariant children.unreaped == old(children.unreaped) && EndOf(w.turns) == EndOf(w.turns[i..])
    {
      var turn := w.turns[i];
      OneMoreTurn(w.turns, i);
      if turn.halted {
        return false;
      }
      var running := children.TryWait(child, turn.look);
      if !running {
        return false;
      }
      if turn.connects {
        return true;
      }
    }
    return false;
  }

  /** `terminate`: kill the child and reap it. */
  method Terminate(children: Children, child: nat)
    requires children.Valid()
    modifies children
    ensures children.Valid() && children.peak == old(children.peak) && children.spawned == old(children.spawned)
    ensures children.unreaped == old(children.unreaped) - {child}
  {
    children.Wait(child);
  }

  /** One poll of the monitor: what it sees, and how a restart would go. */
  datatype Poll = Poll(look: Look, spawns: bool, wait: Wait, halted: bool)

  /** What one restart comes to. */
  function OutcomeOf(p: Poll): Outcome {
    if !p.spawns then Failed
    else if Ends(p.wait).Answered? then CameUp
    else if p.halted then CutShort else Failed
  }

  /** A child runs, as far as anybody has seen, after a restart. */
  predicate Survives(p: Poll) {
    p.spawns && !Ends(p.wait).SeenDead?
  }

  /** The restarts over some polls: one whenever the server is not found running, and none else. */
  function Restarts(up: bool, polls: seq<Poll>): seq<Outcome>
    decreases |polls|
  {
    if polls == [] then []
    else if up && polls[0].look.Running? then Restarts(true, polls[1..])
    else [OutcomeOf(polls[0])] + Restarts(Survives(polls[0]), polls[1..])
  }

  lemma OneMorePoll(up: bool, polls: seq<Poll>, i: nat, history: seq<Outcome>)
    requires i < |polls|
    ensures var p, alive := polls[i], up && polls[i].look.Running?;
            history + Restarts(up, polls[i..]) == history + (if alive then [] else [OutcomeOf(p)]) + Restarts(alive || Survives(p), polls[i + 1..])
  {
    assert polls[i..][1..] == polls[i + 1..];
    assert history + [] == history;
  }

  /** The monitor owns the child from the moment `start` succeeds. */
  class Monitor {
    const children: Children
    const backoff: Backoff
    var child: Option<nat>
    ghost var history: seq<Outcome>

    ghost predicate Valid()
      reads this, children, backoff
    {
      && children.Valid() && children.peak <= 1
      && children.unreaped <= (if child.Some? then {child.value} else {})
      && backoff.failures as nat == Min(Streak(history), U32_MAX as nat)
    }

    constructor (children: Children, child: nat, base: Duration, cap: Duration)
      requires children.Valid() && children.peak <= 1 && children.unreaped <= {child}
      ensures Valid() && this.children == children && this.child == Some(child) && history == []
      ensures fresh(backoff) && backoff.base == base && backoff.cap == cap
    {
      this.children, this.child, history := children, Some(child), [];
      backoff := new Backoff(base, cap);
    }

    /** It owns a child that nobody has seen exit. */
    predicate Up()
      reads this, children
    {
      child.Some? && child.value in children.unreaped
    }

    /** The outcome is counted, and the backoff with it. */
    method Count(outcome: Outcome)
      requires backoff.failures as nat == Min(Streak(history), U32_MAX as nat)
      modifies this`history, backoff
      ensures history == old(history) + [outcome]
      ensures backoff.failures as nat == Min(Streak(history), U32_MAX as nat)
    {
      history := history + [outcome];
      assert history[..|history| - 1] == old(history);
      match outcome {
        case CameUp => backoff.Reset();
        case Failed => var retry := backoff.Fail();
        case CutShort =>
      }
    }

    /** One restart attempt: the dead child is reaped before another is spawned. */
    method Restart(p: Poll)
      requires Valid()
      modifies this, children, backoff
      ensures Valid() && history == old(history) + [OutcomeOf(p)] && Up() == Survives(p)
      ensures children.spawned == old(children.spawned) + if p.spawns then 1 else 0
      ensures !p.spawns ==> child.None? && children.unreaped == {}
      ensures OutcomeOf(p).CameUp? ==> child.Some? && children.unreaped == {child.value}
    {
      if child.Some? {
        children.Wait(child.value);
        child := None;
      }
      assert children.unreaped == {};
      if !p.spawns {
        Count(Failed);
        return;
      }
      var next := children.Spawn();
      assert children.unreaped == {next};
      var ready := WaitReady(children, next, p.wait);
      child := Some(next);
      Count(if ready then CameUp else if p.halted then CutShort else Failed);
    }

    /** The server is left alone if it is found running, and restarted otherwise. */
    method Watch(p: Poll)
      requires Valid()
      modifies this, children, backoff
      ensures Valid()
      ensures var alive := old(Up()) && p.look.Running?;
              history == old(history) + (if alive then [] else [OutcomeOf(p)]) && Up() == (alive || Survives(p))
    {
      var alive := false;
      if child.Some? {
        alive := children.TryWait(child.value, p.look);
      }
      if !alive {
        Restart(p);
      } else {
        assert history + [] == history;
      }
    }

    /** The monitor's life: it polls until a halt, then kills and reaps what it owns. */
    method Run(polls: seq<Poll>)
      requires Valid()
      modifies this, children, backoff
      ensures children.Valid() && children.unreaped == {} && children.peak <= 1
      ensures history == old(history) + Restarts(old(Up()), polls)
    {
      assert polls[0..] == polls;
      for i := 0 to |polls|
        invariant Valid() && old(history) + Restarts(old(Up()), polls) == history + Restarts(Up(), polls[i..])
      {
        OneMorePoll(Up(), polls, i, history);
        Watch(polls[i]);
      }
      if child.Some? {
        Terminate(children, child.value);
      }
    }
  }

  /** `start_with`: a monitor that owns the ready server, or no child left behind. */
  method Start(children: Children, spawns: bool, wait: Wait, base: Duration, cap: Duration) returns (monitor: Option<Monitor>)
    requires children.Valid() && children.unreaped == {} && children.peak <= 1
    modifies children
    ensures children.Valid() && children.peak <= 1
    ensures monitor.Some? <==> spawns && Ends(wait).Answered?
    ensures monitor.None? ==> children.unreaped == {}
    ensures monitor.Some? ==> fresh(monitor.value) && fresh(monitor.value.backoff) && monitor.value.children == children
    ensures monitor.Some? ==> monitor.value.Valid() && monitor.value.child.Some? && children.unreaped == {monitor.value.child.value}
  {
    if !spawns {
      return None;
    }
    var child := children.Spawn();
    assert children.unreaped == {child};
    var ready := WaitReady(children, child, wait);
    if !ready {
      Terminate(children, child);
      return None;
    }
    var m := new Monitor(children, child, base, cap);
    return Some(m);
  }

  /** The whole life of the server: started, watched through any polls, stopped. */
  method Live(spawns: bool, wait: Wait, base: Duration, cap: Duration, polls: seq<Poll>) returns (children: Children)
    ensures fresh(children) && children.unreaped == {} && children.peak <= 1
  {
    children := new Children();
    var monitor := Start(children, spawns, wait, base, cap);
    if monitor.Some? {
      monitor.value.Run(polls);
    }
  }
}
