/** No service is ever handed a request that was not posted to it, just as it was posted. */
module CrossService {
  import opened Messages
  import opened Store
  import opened Sweeping
  import opened Protocol
  import opened Frames
  import opened Conservation
  import opened ConservationTheorems
  import opened Answers
  import opened Outcomes

  /** What the run has posted, and to which service. */
  ghost function Asked(steps: seq<Step>): set<(ServiceName, PypeRequest)> {
    set step | step in steps && step.PostRequest? :: (step.service, step.request)
  }

  ghost predicate HandlersAsked(s: State, asked: set<(ServiceName, PypeRequest)>) {
    forall h :: h in s.handlers && IsPoster(s.handlers[h]) ==> (s.handlers[h].service, s.handlers[h].request) in asked
  }

  ghost predicate QueuesAsked(services: Services, asked: set<(ServiceName, PypeRequest)>) {
    forall n, x :: n in services && x in services[n].items ==> (n, x) in asked
  }

  ghost predicate AllAsked(s: State, asked: set<(ServiceName, PypeRequest)>) {
    HandlersAsked(s, asked) && QueuesAsked(s.services, asked)
  }

  lemma SameItemsAsked(a: Services, b: Services, asked: set<(ServiceName, PypeRequest)>)
    requires QueuesAsked(a, asked) && SameServiceItems(a, b)
    ensures QueuesAsked(b, asked)
  {
  }

  /** What a step does to the service queues. */
  lemma StepQueues(cfg: Config, s: State, step: Step)
    requires cfg.Valid() && Inv(cfg, s) && Enabled(cfg, s, step)
    ensures var t := Apply(cfg, s, step);
            if step.PutRequest? then
              && step.h in s.handlers && s.handlers[step.h].Enqueuing? && s.handlers[step.h].service in s.services
              && var p := s.handlers[step.h];
                 t.services == s.services[p.service := s.services[p.service].Put(p.request)]
            else if step.TakeRequest? then
              && RequestAvailable(s, step.h)
              && var n := s.handlers[step.h].service;
                 t.services == s.services[n := s.services[n].Take()]
            else SameServiceItems(s.services, t.services)
  {
    hide DoPostRequest, DoPollResponses, DoPullRequest, DoPostResponse, DoEnqueue, DoPutRequest, DoRefuseRequest, DoReap, DoLogoff, Ensure;
    hide DoTakeRequest, DoNoRequest, DoTakeResponse, DoNoResponse, DoAnswer, DoPutResponse, DoRefuseResponse, DoCollectRequest, DoCollectResponse;
    hide Inv, MayGiveUp, MayAdvance, Still;
    match step
    case PostRequest(c, service, request, timeout, block) => PostRequestShape(cfg, s, c, service, request, timeout, block);
    case PostResponse(c, x, timeout) => PostResponseShape(cfg, s, c, x, timeout);
    case PutRequest(h) =>
      HandlerIsOk(cfg, s, h);
      PutRequestShape(s, h);
    case TakeRequest(h) => TakeOnly(s, h);
    case PutResponse(h) =>
      HandlerIsOk(cfg, s, h);
      ServicesLeft(s, h, false);
    case RefuseResponse(h) => ServicesLeft(s, h, false);
    case TakeResponse(h) => TakeResponseShape(s, h);
    case CollectRequest(h) => ServicesLeft(s, h, false);
    case CollectResponse(h, toCaller) => ServicesLeft(s, h, toCaller);
    case PopCached(_) =>
    case _ =>
      StillStep(cfg, s, step);
      StillQueues(s, Apply(cfg, s, step));
  }

  lemma StillQueues(s: State, t: State)
    requires Still(s, t)
    ensures SameServiceItems(s.services, t.services)
  {
  }

  lemma TakeOnly(s: State, h: nat)
    requires RequestAvailable(s, h)
    ensures var n := s.handlers[h].service; DoTakeRequest(s, h).services == s.services[n := s.services[n].Take()]
  {
  }

  lemma ServicesLeft(s: State, h: nat, toCaller: bool)
    ensures h in s.handlers && s.handlers[h].Delivering? && s.handlers[h].entry < |s.clients.entries| ==> DoPutResponse(s, h).services == s.services
    ensures h in s.handlers && s.handlers[h].Delivering? ==> DoRefuseResponse(s, h).services == s.services
    ensures h in s.replies && s.replies[h].Request? ==> DoCollectRequest(s, h).services == s.services
    ensures h in s.replies && s.replies[h].Response? ==> DoCollectResponse(s, h, toCaller).services == s.services
  {
    hide Clients.Put;
  }

  lemma StepKeepsAsked(cfg: Config, s: State, step: Step, asked: set<(ServiceName, PypeRequest)>)
    requires cfg.Valid() && Inv(cfg, s) && Enabled(cfg, s, step) && AllAsked(s, asked)
    ensures AllAsked(Apply(cfg, s, step), asked + Asked([step]))
  {
    hide Inv, Enabled, Apply;
    var t, all := Apply(cfg, s, step), asked + Asked([step]);
    StepQueues(cfg, s, step);
    forall h | h in t.handlers && IsPoster(t.handlers[h])
      ensures (t.handlers[h].service, t.handlers[h].request) in all
    {
      StepPosters(cfg, s, step, h);
      assert step in [step];
    }
    if !step.PutRequest? && !step.TakeRequest? {
      SameItemsAsked(s.services, t.services, all);
    }
  }

  lemma {:induction false} RunKeepsAsked(cfg: Config, s: State, steps: seq<Step>, asked: set<(ServiceName, PypeRequest)>)
    requires cfg.Valid() && Inv(cfg, s) && Legal(cfg, s, steps) && AllAsked(s, asked)
    ensures AllAsked(Exec(cfg, s, steps), asked + Asked(steps))
    decreases |steps|
  {
    hide Inv, Enabled, Apply, AllAsked;
    if steps == [] {
      assert asked + Asked([]) == asked;
    } else {
      StepKeepsInv(cfg, s, steps[0]);
      StepKeepsAsked(cfg, s, steps[0], asked);
      RunKeepsAsked(cfg, Apply(cfg, s, steps[0]), steps[1..], asked + Asked([steps[0]]));
      AskedInTwo(steps);
      assert asked + Asked([steps[0]]) + Asked(steps[1..]) == asked + (Asked([steps[0]]) + Asked(steps[1..]));
    }
  }

  lemma AskedInTwo(steps: seq<Step>)
    requires steps != []
    ensures Asked(steps) == Asked([steps[0]]) + Asked(steps[1..])
  {
    assert steps == [steps[0]] + steps[1..];
    forall step | step in steps
      ensures step in [steps[0]] || step in steps[1..]
    {
    }
  }

  /** In any run, what a pull hands out was posted to its service, under the same ids and with the same content. */
  lemma NoCrossServiceDelivery(cfg: Config, steps: seq<Step>, h: nat)
    requires cfg.Valid() && IsRun(cfg, steps) && Enabled(cfg, Reached(cfg, steps), TakeRequest(h))
    ensures var s := Reached(cfg, steps);
            && h in s.handlers && s.handlers[h].Pulling?
            && var t := Next(cfg, s, TakeRequest(h));
               h in t.replies && t.replies[h].Request? && (s.handlers[h].service, t.replies[h].request) in Asked(steps)
  {
    hide Inv, Legal, Exec, HandlersAsked;
    InitInv(cfg);
    NothingAsked();
    RunKeepsAsked(cfg, Init(), steps, {});
    var s := Reached(cfg, steps);
    ActorIsAnswered(cfg, s, TakeRequest(h), h);
    var n := s.handlers[h].service;
    assert s.services[n].items[0] in s.services[n].items;
  }

  lemma NothingAsked()
    ensures AllAsked(Init(), {})
  {
  }
}
