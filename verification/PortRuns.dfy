/** How runs of the completion-port protocol are put together, step by step. */
module PortRuns {
  import opened CompletionPort

  lemma ReachInit(s: State, p: Policy)
    requires Init(s)
    ensures Reachable(s, p)
  {
    assert Run([s], p);
  }

  lemma ReachStep(s: State, a: Step, p: Policy)
    requires Reachable(s, p) && Enabled(s, a, p)
    ensures Reachable(Apply(s, a, p), p)
  {
    hide Init, Apply, Enabled;
    var states :| Run(states, p) && states[|states| - 1] == s;
    var s' := Apply(s, a, p);
    var longer := states + [s'];
    forall i | 0 <= i < |longer| - 1 ensures Next(longer[i], longer[i + 1], p) {
      if i < |states| - 1 {
        assert Next(states[i], states[i + 1], p);
      } else {
        StepIsNext(s, a, p);
      }
    }
    assert Run(longer, p);
  }

  lemma StepIsNext(s: State, a: Step, p: Policy)
    requires Enabled(s, a, p)
    ensures Next(s, Apply(s, a, p), p)
  {
  }

  /** One step of a run that is written out state by state. */
  lemma Do(p: Policy, s: State, a: Step, s': State)
    requires Reachable(s, p) && Enabled(s, a, p) && Apply(s, a, p) == s'
    ensures Reachable(s', p)
  {
    hide Reachable, Apply, Enabled;
    ReachStep(s, a, p);
  }
}
