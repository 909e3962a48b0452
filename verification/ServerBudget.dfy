/** The two phases of a POST to a service share one deadline. */
module ServerBudget {
  import opened Protocol
  import Frames

  /** In one of the two phases of a POST, with this deadline. */
  predicate Phase(p: Handler, deadline: real) {
    (p.Enqueuing? || p.Awaiting?) && p.deadline == deadline
  }

  /** While the handler is there, it stays in its two phases and its deadline is the same. */
  lemma DeadlineStays(cfg: Config, s: State, step: Step, h: nat, deadline: real)
    requires cfg.Valid() && Inv(cfg, s) && Enabled(cfg, s, step)
    requires h in s.handlers && Phase(s.handlers[h], deadline)
    requires h in Apply(cfg, s, step).handlers
    ensures Phase(Apply(cfg, s, step).handlers[h], deadline)
  {
    if Frames.Starts(step) {
      Frames.StartAddsNext(cfg, s, step);
    } else if step.Enqueue? || step.Answer? {
      Frames.MoveStays(cfg, s, step.h);
    } else if step.PutRequest? {
      HandlerIsOk(cfg, s, step.h);
      Frames.PutRequestShape(s, step.h);
    } else {
      Frames.HandlersStay(cfg, s, step);
    }
  }

  lemma {:induction false} RunKeepsDeadline(cfg: Config, s: State, steps: seq<Step>, h: nat, deadline: real)
    requires cfg.Valid() && Inv(cfg, s) && Legal(cfg, s, steps)
    requires h in s.handlers && Phase(s.handlers[h], deadline)
    ensures var t := Exec(cfg, s, steps);
            h in t.handlers ==> Phase(t.handlers[h], deadline)
    decreases |steps|
  {
    hide Enabled, Apply, HandlerOk, StoreInv;
    if steps != [] {
      var s1 := Apply(cfg, s, steps[0]);
      StepKeepsInv(cfg, s, steps[0]);
      if h in s1.handlers {
        DeadlineStays(cfg, s, steps[0], h, deadline);
        RunKeepsDeadline(cfg, s1, steps[1..], h, deadline);
      } else {
        Frames.NumberStaysUsed(cfg, s, steps[0], h);
        Frames.GoneAfterRun(cfg, s1, steps[1..], h);
      }
    }
  }

  /** From the moment the body has been read, both phases together last at most the caller's
      timeout: in whatever way the run goes on, the POST has been answered by then. */
  lemma BothPhasesWithinTimeout(cfg: Config, s: State, h: nat, steps: seq<Step>)
    requires cfg.Valid() && Inv(cfg, s) && Enabled(cfg, s, Enqueue(h))
    requires Legal(cfg, s, [Enqueue(h)] + steps)
    ensures var t := Exec(cfg, s, [Enqueue(h)] + steps);
            h in t.handlers ==> t.clock <= s.clock + s.handlers[h].total as real
  {
    var s1 := DoEnqueue(s, h);
    EnqueueKeepsInv(cfg, s, h);
    assert ([Enqueue(h)] + steps)[1..] == steps;
    RunKeepsDeadline(cfg, s1, steps, h, s1.handlers[h].deadline);
    var t := Exec(cfg, s1, steps);
    if h in t.handlers {
      HandlerIsOk(cfg, t, h);
    }
  }
}
