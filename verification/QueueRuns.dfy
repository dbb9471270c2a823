/** Putting runs of the queue together, step by step and end to end. */
module QueueRuns {
  import opened Queue

  /** The run leads from s to t. */
  ghost predicate Leads(cfg: Config, s: State, run: seq<Step>, t: State) {
    IsRun(cfg, s, run) && Exec(cfg, s, run) == t
  }

  lemma {:induction false} Concat(cfg: Config, s: State, run: seq<Step>, t: State, more: seq<Step>, u: State)
    requires Leads(cfg, s, run, t) && Leads(cfg, t, more, u)
    ensures Leads(cfg, s, run + more, u)
    decreases |run|
  {
    if run == [] {
      assert run + more == more;
    } else {
      Concat(cfg, Do(cfg, s, run[0]), run[1..], t, more, u);
      assert (run + more)[1..] == run[1..] + more;
    }
  }

  lemma Single(cfg: Config, s: State, step: Step)
    requires Enabled(cfg, s, step)
    ensures Leads(cfg, s, [step], Do(cfg, s, step))
  {
    assert [step][1..] == [];
  }

  /** One more step. */
  lemma Then(cfg: Config, s: State, run: seq<Step>, t: State, step: Step) returns (longer: seq<Step>, u: State)
    requires Leads(cfg, s, run, t) && Enabled(cfg, t, step)
    ensures longer == run + [step] && u == Do(cfg, t, step) && Leads(cfg, s, longer, u)
  {
    longer, u := run + [step], Do(cfg, t, step);
    Single(cfg, t, step);
    Concat(cfg, s, run, t, [step], u);
  }

  lemma Two(cfg: Config, s: State, a: Step, b: Step)
    requires Enabled(cfg, s, a) && Enabled(cfg, Do(cfg, s, a), b)
    ensures Leads(cfg, s, [a, b], Do(cfg, Do(cfg, s, a), b))
  {
    Single(cfg, s, a);
    var run, t := Then(cfg, s, [a], Do(cfg, s, a), b);
    assert run == [a, b];
  }

  lemma Three(cfg: Config, s: State, a: Step, b: Step, c: Step)
    requires Enabled(cfg, s, a) && Enabled(cfg, Do(cfg, s, a), b) && Enabled(cfg, Do(cfg, Do(cfg, s, a), b), c)
    ensures Leads(cfg, s, [a, b, c], Do(cfg, Do(cfg, Do(cfg, s, a), b), c))
  {
    Two(cfg, s, a, b);
    var run, t := Then(cfg, s, [a, b], Do(cfg, Do(cfg, s, a), b), c);
    assert run == [a, b, c];
  }
}
