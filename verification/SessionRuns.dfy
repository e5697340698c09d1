/** Going on from a state of a run, step by step. */
module SessionRuns {
  import opened SessionModel

  /** Runs as a list of steps taken from a state. */
  ghost predicate Leads(s: State, steps: seq<Step>, t: State)
    decreases |steps|
  {
    if steps == [] then s == t
    else Enabled(s, steps[0]) && Leads(Next(s, steps[0]), steps[1..], t)
  }

  lemma LeadsOn(s: State, a: Step, steps: seq<Step>, t: State)
    requires Enabled(s, a) && Leads(Next(s, a), steps, t)
    ensures Leads(s, [a] + steps, t)
  {
    assert ([a] + steps)[1..] == steps;
  }

  lemma {:induction false} LeadsIsRun(states: seq<State>, done: seq<Step>, steps: seq<Step>, t: State) returns (run: seq<State>)
    requires IsRun(states, done) && Leads(states[|done|], steps, t)
    ensures IsRun(run, done + steps) && run[|run| - 1] == t
    decreases |steps|
  {
    if steps == [] {
      run := states;
      assert done + steps == done;
    } else {
      var next := Next(states[|done|], steps[0]);
      run := LeadsIsRun(states + [next], done + [steps[0]], steps[1..], t);
      assert done + [steps[0]] + steps[1..] == done + steps;
    }
  }

  lemma {:induction false} LeadsThrough(s: State, front: seq<Step>, m: State, back: seq<Step>, t: State)
    requires Leads(s, front, m) && Leads(m, back, t)
    ensures Leads(s, front + back, t)
    decreases |front|
  {
    if front == [] {
      assert front + back == back;
    } else {
      LeadsThrough(Next(s, front[0]), front[1..], m, back, t);
      assert (front + back)[1..] == front[1..] + back;
    }
  }

  lemma ThreeSteps(s: State, a: Step, b: Step, c: Step)
    requires Enabled(s, a) && Enabled(Next(s, a), b) && Enabled(Next(Next(s, a), b), c)
    ensures Leads(s, [a, b, c], Next(Next(Next(s, a), b), c))
  {
    var t := Next(Next(Next(s, a), b), c);
    LeadsOn(Next(Next(s, a), b), c, [], t);
    LeadsOn(Next(s, a), b, [c], t);
    LeadsOn(s, a, [b, c], t);
    assert [a] + ([b] + ([c] + [])) == [a, b, c];
  }
}
