/** When a blocked GET can be left waiting on a queue that nobody can post to any more. */
module Orphans {
  import opened Messages
  import opened Deadlines
  import opened Store
  import opened Sweeping
  import opened Protocol
  import opened Frames

  ghost function LastSeenOf(s: State, r: Ref): real
    requires r < |s.clients.entries|
  {
    s.clients.entries[r].lastSeen
  }

  /** The entry is still the registered one and no less recently seen. */
  ghost predicate StaysAlive(a: Clients, b: Clients, r: Ref) {
    Registered(a, r) ==> Registered(b, r) && b.entries[r].lastSeen >= a.entries[r].lastSeen
  }

  lemma TouchStaysAlive(s: State, c: ClientId, r: Ref)
    requires SeenBy(s.clients, s.clock)
    ensures StaysAlive(s.clients, s.clients.GetOrCreate(c, s.clock), r)
    ensures StaysAlive(s.clients, s.clients.Bump(c, s.clock), r)
    ensures StaysAlive(s.clients, Touch(s, c).clients, r)
  {
  }

  lemma TakeStaysAlive(s: State, h: nat, r: Ref)
    requires SeenBy(s.clients, s.clock) && ResponseAvailable(s, h)
    ensures StaysAlive(s.clients, DoTakeResponse(s, h).clients, r)
  {
    TouchStaysAlive(s.(clients := s.clients.Take(s.handlers[h].entry)), s.handlers[h].client, r);
  }

  lemma PostRequestStaysAlive(cfg: Config, s: State, c: ClientId, service: ServiceName, request: PypeRequest, timeout: Option<int>, block: bool, r: Ref)
    requires SeenBy(s.clients, s.clock)
    ensures StaysAlive(s.clients, DoPostRequest(cfg, s, c, service, request, timeout, block).clients, r)
  {
    TouchStaysAlive(s, c, r);
  }

  lemma PostResponseStaysAlive(cfg: Config, s: State, c: ClientId, x: PypeResponse, timeout: Option<int>, r: Ref)
    requires SeenBy(s.clients, s.clock)
    ensures StaysAlive(s.clients, DoPostResponse(cfg, s, c, x, timeout).clients, r)
  {
    TouchStaysAlive(s, c, r);
  }

  lemma LeftIsAlive(clients: Clients, r: Ref)
    ensures StaysAlive(clients, clients, r)
  {
  }

  lemma PollStaysAlive(cfg: Config, s: State, c: ClientId, timeout: Option<int>, r: Ref)
    requires SeenBy(s.clients, s.clock)
    ensures StaysAlive(s.clients, DoPollResponses(cfg, s, c, timeout).clients, r)
  {
    TouchStaysAlive(s, c, r);
  }

  /** The reaper spares an entry seen within the threshold. */
  lemma ReapStaysAlive(cfg: Config, s: State, snapshot: seq<ClientId>, r: Ref)
    requires cfg.Valid() && Registered(s.clients, r) && s.clock - LastSeenOf(s, r) <= cfg.reaper.threshold
    ensures StaysAlive(s.clients, DoReap(cfg, s, snapshot).clients, r)
  {
  }

  lemma HandlerStaysAlive(cfg: Config, s: State, h: nat, r: Ref)
    requires SeenBy(s.clients, s.clock) && h in s.handlers
    ensures s.handlers[h].Enqueuing? && s.handlers[h].service in s.services ==> StaysAlive(s.clients, DoPutRequest(s, h).clients, r)
    ensures s.handlers[h].Enqueuing? ==> StaysAlive(s.clients, DoRefuseRequest(s, h).clients, r)
    ensures GetsResponse(s, h) ==> StaysAlive(s.clients, DoNoResponse(s, h).clients, r)
    ensures s.handlers[h].Delivering? && s.handlers[h].entry < |s.clients.entries| ==> StaysAlive(s.clients, DoPutResponse(s, h).clients, r)
  {
  }

  lemma LogoffStaysAlive(s: State, c: ClientId, r: Ref)
    requires Registered(s.clients, r) && s.clients.entries[r].client != c
    ensures StaysAlive(s.clients, DoLogoff(s, c).clients, r)
  {
  }

  /** Only the client's own logoff or a tick of the reaper over the threshold ends an entry. */
  lemma StepStaysAlive(cfg: Config, s: State, step: Step, r: Ref)
    requires cfg.Valid() && Inv(cfg, s) && Enabled(cfg, s, step)
    requires Registered(s.clients, r) && step != Logoff(s.clients.entries[r].client)
    requires step.Reap? ==> s.clock - LastSeenOf(s, r) <= cfg.reaper.threshold
    ensures StaysAlive(s.clients, Apply(cfg, s, step).clients, r)
  {
    hide DoPostRequest, DoPollResponses, DoPostResponse, DoPutRequest, DoRefuseRequest, DoTakeResponse, DoNoResponse, DoPutResponse, DoReap;
    hide HandlersInv, DoLogoff, StaysAlive, MayGiveUp, MayAdvance, DoEnqueue, DoAnswer, DoRefuseResponse, DoPullRequest, DoTakeRequest, DoNoRequest;
    if LeavesClients(step) {
      ClientsLeft(cfg, s, step);
      LeftIsAlive(s.clients, r);
    } else {
      match step
      case PostRequest(c, service, request, timeout, block) => PostRequestStaysAlive(cfg, s, c, service, request, timeout, block, r);
      case PollResponses(c, timeout) => PollStaysAlive(cfg, s, c, timeout, r);
      case PostResponse(c, x, timeout) => PostResponseStaysAlive(cfg, s, c, x, timeout, r);
      case PutRequest(h) => HandlerStaysAlive(cfg, s, h, r);
      case RefuseRequest(h) => HandlerStaysAlive(cfg, s, h, r);
      case TakeResponse(h) => TakeStaysAlive(s, h, r);
      case NoResponse(h) => HandlerStaysAlive(cfg, s, h, r);
      case PutResponse(h) => HandlerStaysAlive(cfg, s, h, r);
      case Reap(snapshot) => ReapStaysAlive(cfg, s, snapshot, r);
      case Logoff(c) => LogoffStaysAlive(s, c, r);
    }
  }

  // ---------------------------------------------------------------- a getter that is safe stays safe

  /** A blocked getter whose entry is registered and cannot go over the threshold before the getter's time is up. */
  ghost predicate Safe(cfg: Config, s: State, p: Handler) {
    && (p.Polling? || p.Awaiting?)
    && Registered(s.clients, p.entry)
    && p.until - LastSeenOf(s, p.entry) <= cfg.reaper.threshold
  }

  /** A POST to a service that is not over the threshold since its first bump still holds the registered entry. */
  ghost predicate PromptPoster(cfg: Config, s: State, p: Handler) {
    && (p.Posting? || p.Enqueuing?)
    && (s.clock - p.since <= cfg.reaper.threshold ==> Registered(s.clients, p.entry) && LastSeenOf(s, p.entry) >= p.since)
  }

  /** What this module keeps for the handlers of a client that does not log off. */
  ghost predicate Attended(cfg: Config, s: State, c: ClientId) {
    forall h :: h in s.handlers && !s.handlers[h].Pulling? && s.handlers[h].client == c ==> HandlerAttended(cfg, s, s.handlers[h])
  }

  ghost predicate HandlerAttended(cfg: Config, s: State, p: Handler) {
    && (p.Polling? && cfg.reaper.threshold >= cfg.maxTimeout as real ==> Safe(cfg, s, p))
    && (p.Awaiting? && cfg.reaper.threshold >= cfg.maxTimeout as real && p.waited <= cfg.reaper.threshold ==> Safe(cfg, s, p))
    && (p.Posting? || p.Enqueuing? ==> PromptPoster(cfg, s, p))
  }

  lemma SameHandlerStaysAttended(cfg: Config, s: State, step: Step, h: nat)
    requires cfg.Valid() && Inv(cfg, s) && Enabled(cfg, s, step)
    requires h in s.handlers && !s.handlers[h].Pulling? && HandlerAttended(cfg, s, s.handlers[h])
    requires step != Logoff(s.handlers[h].client)
    ensures HandlerAttended(cfg, Apply(cfg, s, step), s.handlers[h])
  {
    var p, t := s.handlers[h], Apply(cfg, s, step);
    assert HandlerOk(cfg, s.clock, s.clients, s.services, p);
    ClockMovesOn(cfg, s, step);
    if Safe(cfg, s, p) {
      StepStaysAlive(cfg, s, step, p.entry);
    }
    if (p.Posting? || p.Enqueuing?) && s.clock - p.since <= cfg.reaper.threshold {
      StepStaysAlive(cfg, s, step, p.entry);
    }
  }

  lemma AdvanceGoesForward(cfg: Config, s: State, step: Step)
    requires Inv(cfg, s) && Enabled(cfg, s, step) && step.Advance?
    ensures step.to >= s.clock
  {
  }

  lemma ClockMovesOn(cfg: Config, s: State, step: Step)
    requires cfg.Valid() && Inv(cfg, s) && Enabled(cfg, s, step)
    ensures Apply(cfg, s, step).clock >= s.clock
    ensures !step.Advance? ==> Apply(cfg, s, step).clock == s.clock
  {
    hide Inv, Enabled, Apply;
    StepClock(cfg, s, step);
    if step.Advance? {
      AdvanceGoesForward(cfg, s, step);
    }
  }

  lemma PostRequestAttended(cfg: Config, s: State, c: ClientId, service: ServiceName, request: PypeRequest, timeout: Option<int>, block: bool)
    requires Inv(cfg, s)
    ensures var t := DoPostRequest(cfg, s, c, service, request, timeout, block);
            s.next in t.handlers ==> HandlerAttended(cfg, t, t.handlers[s.next])
  {
    TouchKeepsInv(cfg, s, c);
  }

  lemma PollAttended(cfg: Config, s: State, c: ClientId, timeout: Option<int>)
    requires Inv(cfg, s)
    ensures var t := DoPollResponses(cfg, s, c, timeout);
            s.next in t.handlers ==> HandlerAttended(cfg, t, t.handlers[s.next])
  {
  }

  lemma EnqueueAttended(cfg: Config, s: State, h: nat)
    requires h in s.handlers && s.handlers[h].Posting? && HandlerAttended(cfg, s, s.handlers[h])
    ensures HandlerAttended(cfg, DoEnqueue(s, h), DoEnqueue(s, h).handlers[h])
  {
  }

  /** The second phase starts attached exactly when the entry is still registered: then the bump after the enqueue is its own. */
  lemma PutRequestAttended(cfg: Config, s: State, h: nat)
    requires Inv(cfg, s) && h in s.handlers && s.handlers[h].Enqueuing? && s.handlers[h].block && s.handlers[h].service in s.services
    ensures var p, t := s.handlers[h], DoPutRequest(s, h);
            && h in t.handlers && t.handlers[h].Awaiting? && t.handlers[h].waited == s.clock - p.since
            && (Registered(s.clients, p.entry) <==> Registered(t.clients, t.handlers[h].entry))
            && (Registered(s.clients, p.entry) && cfg.reaper.threshold >= cfg.maxTimeout as real ==> Safe(cfg, t, t.handlers[h]))
  {
  }

  lemma AnsweringIsAttended(cfg: Config, s: State, p: Handler)
    requires p.Answering?
    ensures HandlerAttended(cfg, s, p)
  {
  }

  lemma NewHandlerAttended(cfg: Config, s: State, step: Step, h: nat)
    requires cfg.Valid() && Inv(cfg, s) && Enabled(cfg, s, step)
    requires h !in s.handlers && h in Apply(cfg, s, step).handlers && !Apply(cfg, s, step).handlers[h].Pulling?
    ensures HandlerAttended(cfg, Apply(cfg, s, step), Apply(cfg, s, step).handlers[h])
  {
    hide DoPostRequest, DoPollResponses, DoPostResponse, DoPullRequest, DoEnqueue, DoPutRequest, DoAnswer, DoRefuseRequest, DoTakeResponse;
    hide DoNoResponse, DoPutResponse, DoRefuseResponse, DoTakeRequest, DoNoRequest, DoReap, Inv, Ready, HandlerAttended;
    if Starts(step) {
      StartAddsNext(cfg, s, step);
      match step
      case PostRequest(c, service, request, timeout, block) => PostRequestAttended(cfg, s, c, service, request, timeout, block);
      case PollResponses(c, timeout) => PollAttended(cfg, s, c, timeout);
      case _ => AnsweringIsAttended(cfg, Apply(cfg, s, step), Apply(cfg, s, step).handlers[h]);
    } else {
      OnlyStartsAddHandlers(cfg, s, step);
    }
  }

  /** A handler keeps its client, and one that is not the same handler any more is attended in its new role. */
  lemma OldHandlerAttended(cfg: Config, s: State, step: Step, h: nat)
    requires cfg.Valid() && Inv(cfg, s) && Enabled(cfg, s, step)
    requires h in s.handlers && h in Apply(cfg, s, step).handlers
    ensures var p, q := s.handlers[h], Apply(cfg, s, step).handlers[h];
            && p.Pulling? == q.Pulling?
            && (!p.Pulling? ==> p.client == q.client)
            && (!p.Pulling? && q != p && HandlerAttended(cfg, s, p) ==> HandlerAttended(cfg, Apply(cfg, s, step), q))
  {
    if Starts(step) {
      StartAddsNext(cfg, s, step);
    } else if step.Enqueue? {
      MoveStays(cfg, s, step.h);
      if HandlerAttended(cfg, s, s.handlers[step.h]) {
        EnqueueAttended(cfg, s, step.h);
      }
    } else if step.Answer? {
      MoveStays(cfg, s, step.h);
    } else if step.PutRequest? {
      PutRequestShape(s, step.h);
      if s.handlers[step.h].block {
        PutRequestAttended(cfg, s, step.h);
      }
    } else {
      HandlersStay(cfg, s, step);
    }
  }

  lemma StepKeepsAttended(cfg: Config, s: State, step: Step, c: ClientId)
    requires cfg.Valid() && Inv(cfg, s) && Enabled(cfg, s, step)
    requires Attended(cfg, s, c) && step != Logoff(c)
    ensures Attended(cfg, Apply(cfg, s, step), c)
  {
    var t := Apply(cfg, s, step);
    forall h | h in t.handlers && !t.handlers[h].Pulling? && t.handlers[h].client == c
      ensures HandlerAttended(cfg, t, t.handlers[h])
    {
      if h !in s.handlers {
        NewHandlerAttended(cfg, s, step, h);
      } else {
        OldHandlerAttended(cfg, s, step, h);
        if t.handlers[h] == s.handlers[h] {
          SameHandlerStaysAttended(cfg, s, step, h);
        }
      }
    }
  }

  lemma {:induction false} RunKeepsAttended(cfg: Config, s: State, steps: seq<Step>, c: ClientId)
    requires cfg.Valid() && Inv(cfg, s) && Legal(cfg, s, steps)
    requires Attended(cfg, s, c) && Logoff(c) !in steps
    ensures Attended(cfg, Exec(cfg, s, steps), c)
    decreases |steps|
  {
    if steps != [] {
      StepKeepsInv(cfg, s, steps[0]);
      StepKeepsAttended(cfg, s, steps[0], c);
      RunKeepsAttended(cfg, Apply(cfg, s, steps[0]), steps[1..], c);
    }
  }

  // ---------------------------------------------------------------- theorems

  /** In every run in which `c` does not log off, every GET of `c` that is blocked waits on the
      queue registered for `c`. */
  ghost predicate PollsNeverOrphaned(cfg: Config)
    requires cfg.Valid()
  {
    forall steps, c: ClientId, h :: IsRun(cfg, steps) && Logoff(c) !in steps && BlockedPoll(Reached(cfg, steps), c, h) ==>
                            Registered(Reached(cfg, steps).clients, Reached(cfg, steps).handlers[h].entry)
  }

  ghost predicate BlockedPoll(s: State, c: ClientId, h: nat) {
    h in s.handlers && s.handlers[h].Polling? && s.handlers[h].client == c
  }

  /** A blocked GET is never orphaned if and only if the inactivity threshold is at least the
      longest timeout the server grants. */
  lemma PollsNeverOrphanedIff(cfg: Config)
    requires cfg.Valid()
    ensures PollsNeverOrphaned(cfg) <==> cfg.reaper.threshold >= cfg.maxTimeout as real
  {
    if cfg.reaper.threshold >= cfg.maxTimeout as real {
      forall steps, c: ClientId, h | IsRun(cfg, steps) && Logoff(c) !in steps && BlockedPoll(Reached(cfg, steps), c, h)
        ensures Registered(Reached(cfg, steps).clients, Reached(cfg, steps).handlers[h].entry)
      {
        InitInv(cfg);
        RunKeepsAttended(cfg, Init(), steps, c);
      }
    } else {
      var steps := OrphaningRun(cfg, None);
    }
  }

  /** The second phase of a POST of `c`, at most `w` after its first bump. */
  ghost predicate BlockedAwait(s: State, c: ClientId, h: nat, w: real) {
    h in s.handlers && s.handlers[h].Awaiting? && s.handlers[h].client == c && s.handlers[h].waited <= w
  }

  /** In every run in which `c` does not log off, every second phase that began at most `w` after its
      POST waits on the queue registered for `c`. */
  ghost predicate AwaitsNeverOrphaned(cfg: Config, w: real)
    requires cfg.Valid()
  {
    forall steps, c: ClientId, h :: IsRun(cfg, steps) && Logoff(c) !in steps && BlockedAwait(Reached(cfg, steps), c, h, w) ==>
                            Registered(Reached(cfg, steps).clients, Reached(cfg, steps).handlers[h].entry)
  }

  /** The second phase of block=1 is never orphaned if and only if reading the body and enqueuing
      together take no longer than the threshold, and the threshold is at least the longest timeout
      the server grants. */
  lemma AwaitsNeverOrphanedIff(cfg: Config, w: real)
    requires cfg.Valid() && w >= 0.0
    ensures AwaitsNeverOrphaned(cfg, w) <==> w <= cfg.reaper.threshold && cfg.reaper.threshold >= cfg.maxTimeout as real
  {
    hide IsRun, Reached;
    if w <= cfg.reaper.threshold && cfg.reaper.threshold >= cfg.maxTimeout as real {
      forall steps, c: ClientId, h | IsRun(cfg, steps) && Logoff(c) !in steps && BlockedAwait(Reached(cfg, steps), c, h, w)
        ensures Registered(Reached(cfg, steps).clients, Reached(cfg, steps).handlers[h].entry)
      {
        PromptSecondPhaseNotOrphaned(cfg, steps, c, h);
      }
    } else {
      var request := PypeRequest(SOMEONE, "", "", []);
      var steps;
      if w > cfg.reaper.threshold {
        steps := SlowBodyOrphansSecondPhase(cfg, "", request, w);
      } else {
        steps := LongSecondPhaseRun(cfg, "", request, None, cfg.maxTimeout);
      }
      assert BlockedAwait(Reached(cfg, steps), SOMEONE, 0, w);
    }
  }

  lemma PromptSecondPhaseNotOrphaned(cfg: Config, steps: seq<Step>, c: ClientId, h: nat)
    requires cfg.Valid() && IsRun(cfg, steps) && Logoff(c) !in steps
    requires cfg.reaper.threshold >= cfg.maxTimeout as real
    requires BlockedAwait(Reached(cfg, steps), c, h, cfg.reaper.threshold)
    ensures Registered(Reached(cfg, steps).clients, Reached(cfg, steps).handlers[h].entry)
  {
    InitInv(cfg);
    RunKeepsAttended(cfg, Init(), steps, c);
  }

  const SOMEONE: ClientId := "c"

  /** The store after `SOMEONE` was seen for the first time, at time zero. */
  ghost function OneEntry(): Clients {
    Clients([Entry(SOMEONE, 0.0, NewQueue())], map[SOMEONE := 0])
  }

  /** Only `SOMEONE`'s entry exists, it was last seen at time zero, and one handler waits. */
  ghost predicate OneWaiting(s: State, p: Handler) {
    && s.clients == OneEntry() && s.handlers == map[0 := p] && s.hot == None && s.cursor == IDLE && s.clock == 0.0
    && s.next == 1
  }

  /** The entry has been evicted while the handler waited; nothing else has happened. */
  ghost predicate OneDetached(s: State, t: State, p: Handler, now: real) {
    && t.clients == Clients(OneEntry().entries, map[]) && t.handlers == map[0 := p] && t.hot == None && t.clock == now
    && t.next == 1 && t.services == s.services
  }

  /** Time passes over the threshold, and a tick of the reaper evicts the entry. */
  lemma WaitAndReap(cfg: Config, steps: seq<Step>, p: Handler, to: real) returns (longer: seq<Step>)
    requires cfg.Valid() && IsRun(cfg, steps) && OneWaiting(Reached(cfg, steps), p)
    requires to > cfg.reaper.threshold && (p.Blocked() ==> to <= p.until)
    ensures longer == steps + [Advance(to)] + [Reap([SOMEONE])] && IsRun(cfg, longer)
    ensures OneDetached(Reached(cfg, steps), Reached(cfg, longer), p, to)
  {
    hide IsRun, Reached, Inv, Evicted, TickCursor, IsSnapshot;
    var s := Reached(cfg, steps);
    ProlongRun(cfg, steps, Advance(to));
    var s1 := Reached(cfg, steps + [Advance(to)]);
    ReapOneEvicts(cfg, s1);
    ProlongRun(cfg, steps + [Advance(to)], Reap([SOMEONE]));
    longer := steps + [Advance(to)] + [Reap([SOMEONE])];
  }

  lemma FirstStep(cfg: Config, step: Step)
    requires cfg.Valid() && Inv(cfg, Init()) && Enabled(cfg, Init(), step)
    ensures IsRun(cfg, [step]) && Reached(cfg, [step]) == Apply(cfg, Init(), step)
  {
    assert [] + [step] == [step];
    assert Legal(cfg, Init(), []);
    ProlongRun(cfg, [], step);
  }

  /** A poll that may wait for longer than the threshold, and a tick of the reaper when its time is
      almost up. */
  lemma OrphaningRun(cfg: Config, timeout: Option<int>) returns (steps: seq<Step>)
    requires cfg.Valid() && NormalizeTimeout(timeout, cfg.maxTimeout).Ok?
    requires cfg.reaper.threshold < NormalizeTimeout(timeout, cfg.maxTimeout).value as real
    ensures |steps| == 3 && steps[0] == PollResponses(SOMEONE, timeout)
    ensures IsRun(cfg, steps) && Logoff(SOMEONE) !in steps && BlockedPoll(Reached(cfg, steps), SOMEONE, 0)
    ensures !Registered(Reached(cfg, steps).clients, Reached(cfg, steps).handlers[0].entry)
  {
    hide IsRun, Reached, Inv, NormalizeTimeout;
    var poll := PollResponses(SOMEONE, timeout);
    var until := NormalizeTimeout(timeout, cfg.maxTimeout).value as real;
    InitInv(cfg);
    FirstStep(cfg, poll);
    assert OneWaiting(DoPollResponses(cfg, Init(), SOMEONE, timeout), Polling(SOMEONE, 0, until));
    steps := WaitAndReap(cfg, [poll], Polling(SOMEONE, 0, until), until);
  }

  /** A first tick over a single stale entry evicts it. */
  lemma ReapOneEvicts(cfg: Config, s: State)
    requires cfg.Valid() && Inv(cfg, s) && s.hot == None && s.cursor == IDLE
    requires s.clients.registry == map[SOMEONE := 0] && |s.clients.entries| == 1
    requires s.clock - s.clients.entries[0].lastSeen > cfg.reaper.threshold
    ensures Enabled(cfg, s, Reap([SOMEONE]))
    ensures var t := DoReap(cfg, s, [SOMEONE]);
            t.clients.registry == map[] && t.clients.entries == s.clients.entries && t == s.(clients := t.clients, cursor := t.cursor)
  {
    hide Inv, Evicted, TickCursor;
    var m := MomentOf(s, [SOMEONE]);
    assert m.lastSeen.Keys == {SOMEONE};
    OneStaleKey(cfg.reaper, m, SOMEONE);
    assert s.clients.registry - {SOMEONE} == map[];
  }

  lemma OneStaleKey(cfg: ReaperConfig, m: Moment, key: ClientId)
    requires cfg.Valid() && m.snapshot == [key] && m.lastSeen.Keys == {key} && m.now - m.lastSeen[key] > cfg.threshold
    ensures Evicted(cfg, IDLE, m) == {key}
  {
    hide TicksPerSweep, CeilDiv;
    assert TickEnd(cfg, Cursor([key], 0), |m.lastSeen|) == 1;
    assert Examined(cfg, IDLE, m) == [key];
  }

  /** When the body comes slowly, a run without a logoff leaves the second phase waiting on a
      detached queue: for every configuration, and for every delay over the threshold. */
  lemma SlowBodyOrphansSecondPhase(cfg: Config, service: ServiceName, request: PypeRequest, w: real) returns (steps: seq<Step>)
    requires cfg.Valid() && request.clientId == SOMEONE && w > cfg.reaper.threshold
    ensures IsRun(cfg, steps) && Logoff(SOMEONE) !in steps
    ensures var t := Reached(cfg, steps);
            0 in t.handlers && t.handlers[0].Awaiting? && t.handlers[0].client == SOMEONE && t.handlers[0].waited == w
            && !Registered(t.clients, t.handlers[0].entry)
  {
    hide IsRun, Reached, Inv;
    var p := Posting(SOMEONE, 0, service, request, cfg.maxTimeout, true, 0.0);
    var posted := FirstPost(cfg, service, request, None, cfg.maxTimeout);
    var evicted := WaitAndReap(cfg, posted, p, w);
    steps := EnqueueDetached(cfg, evicted, p);
  }

  lemma FirstPost(cfg: Config, service: ServiceName, request: PypeRequest, timeout: Option<int>, total: nat) returns (steps: seq<Step>)
    requires cfg.Valid() && request.clientId == SOMEONE && NormalizeTimeout(timeout, cfg.maxTimeout) == Ok(total)
    ensures steps == [PostRequest(SOMEONE, service, request, timeout, true)] && IsRun(cfg, steps)
    ensures var s := Reached(cfg, steps);
            OneWaiting(s, Posting(SOMEONE, 0, service, request, total, true, 0.0)) && s.services == map[]
  {
    hide NormalizeTimeout;
    InitInv(cfg);
    FirstStep(cfg, PostRequest(SOMEONE, service, request, timeout, true));
    steps := [PostRequest(SOMEONE, service, request, timeout, true)];
  }

  /** A prompt POST whose second phase lasts for longer than the threshold. */
  lemma LongSecondPhaseRun(cfg: Config, service: ServiceName, request: PypeRequest, timeout: Option<int>, total: nat) returns (steps: seq<Step>)
    requires cfg.Valid() && request.clientId == SOMEONE && NormalizeTimeout(timeout, cfg.maxTimeout) == Ok(total)
    requires cfg.reaper.threshold < total as real
    ensures IsRun(cfg, steps) && Logoff(SOMEONE) !in steps
    ensures var t := Reached(cfg, steps);
            0 in t.handlers && t.handlers[0].Awaiting? && t.handlers[0].client == SOMEONE && t.handlers[0].waited == 0.0
            && !Registered(t.clients, t.handlers[0].entry)
    ensures [PostRequest(SOMEONE, service, request, timeout, true)] + [Enqueue(0)] + [PutRequest(0)] <= steps
  {
    hide IsRun, Reached, Inv;
    var until := total as real;
    var posted := FirstPost(cfg, service, request, timeout, total);
    var waiting := EnqueueAtOnce(cfg, posted, Posting(SOMEONE, 0, service, request, total, true, 0.0));
    steps := WaitAndReap(cfg, waiting, Awaiting(SOMEONE, 0, total, 0.0, until, until), until);
  }

  lemma EnqueueAtOnce(cfg: Config, steps: seq<Step>, p: Handler) returns (longer: seq<Step>)
    requires cfg.Valid() && IsRun(cfg, steps) && p.Posting? && p.block && p.total > 0 && p.since == 0.0
    requires p.client == SOMEONE && p.entry == 0
    requires OneWaiting(Reached(cfg, steps), p) && Reached(cfg, steps).services == map[]
    ensures longer == steps + [Enqueue(0)] + [PutRequest(0)] && IsRun(cfg, longer)
    ensures OneWaiting(Reached(cfg, longer), Awaiting(SOMEONE, 0, p.total, 0.0, p.total as real, p.total as real))
  {
    hide IsRun, Reached, Inv;
    var s := Reached(cfg, steps);
    EnqueueFirst(cfg, s, p);
    ProlongRun(cfg, steps, Enqueue(0));
    ProlongRun(cfg, steps + [Enqueue(0)], PutRequest(0));
    longer := steps + [Enqueue(0)] + [PutRequest(0)];
  }

  /** The two steps from a body read at `s` to a second phase. */
  lemma EnqueueFirst(cfg: Config, s: State, p: Handler)
    requires cfg.Valid() && Inv(cfg, s) && p.Posting? && p.block && p.total > 0
    requires s.handlers == map[0 := p] && s.hot == None && s.services == map[]
    ensures Enabled(cfg, s, Enqueue(0))
    ensures var s1 := Apply(cfg, s, Enqueue(0));
            && s1 == DoEnqueue(s, 0) && Inv(cfg, s1) && Enabled(cfg, s1, PutRequest(0))
            && var t, until := Apply(cfg, s1, PutRequest(0)), s.clock + p.total as real;
               && t.handlers == map[0 := Awaiting(p.client, p.entry, p.total, s.clock - p.since, until, until)] && t.hot == None
               && t.clients == s.clients.Bump(p.client, s.clock) && t.clock == s.clock && t.cursor == s.cursor && t.next == s.next
  {
    hide Inv, DoEnqueue, DoPutRequest;
    EnqueueKeepsInv(cfg, s, 0);
    EnqueuedFirst(cfg, s, p);
    AwaitingFirst(cfg, DoEnqueue(s, 0), s.clock + p.total as real);
  }

  lemma EnqueuedFirst(cfg: Config, s: State, p: Handler)
    requires p.Posting? && p.total > 0 && cfg.Valid() && s.handlers == map[0 := p] && s.services == map[]
    ensures var t, until := DoEnqueue(s, 0), s.clock + p.total as real;
            && t.handlers == map[0 := Enqueuing(p.client, p.entry, p.service, p.request, p.total, p.block, p.since, until, until)]
            && t == s.(services := map[p.service := NewQueue()], handlers := t.handlers, hot := None)
  {
    WholeGrant(s.clock, p.total);
  }

  lemma AwaitingFirst(cfg: Config, s: State, until: real)
    requires cfg.Valid() && s.handlers.Keys == {0} && s.handlers[0].Enqueuing? && s.handlers[0].block
    requires s.handlers[0].service in s.services
    requires s.handlers[0].total > 0 && s.handlers[0].deadline == until == s.clock + s.handlers[0].total as real
    ensures var p, t := s.handlers[0], DoPutRequest(s, 0);
            && t.handlers == map[0 := Awaiting(p.client, p.entry, p.total, s.clock - p.since, until, until)] && t.hot == None
            && t.clients == s.clients.Bump(p.client, s.clock) && t.clock == s.clock && t.cursor == s.cursor && t.next == s.next
  {
    hide Clients.Bump;
    WholeGrant(s.clock, s.handlers[0].total);
  }

  /** The body has been read at last: the request is enqueued, and the second phase begins. */
  lemma EnqueueDetached(cfg: Config, steps: seq<Step>, p: Handler) returns (longer: seq<Step>)
    requires cfg.Valid() && IsRun(cfg, steps) && p.Posting? && p.block && p.total > 0 && p.since == 0.0
    requires var s := Reached(cfg, steps);
             s.clients.registry == map[] && s.handlers == map[0 := p] && s.hot == None && s.services == map[]
    ensures longer == steps + [Enqueue(0)] + [PutRequest(0)] && IsRun(cfg, longer)
    ensures var t := Reached(cfg, longer);
            0 in t.handlers && t.handlers[0].Awaiting? && t.handlers[0].client == p.client
            && t.handlers[0].waited == Reached(cfg, steps).clock && !Registered(t.clients, t.handlers[0].entry)
  {
    hide IsRun, Reached, Inv;
    EnqueueFirst(cfg, Reached(cfg, steps), p);
    ProlongRun(cfg, steps, Enqueue(0));
    ProlongRun(cfg, steps + [Enqueue(0)], PutRequest(0));
    longer := steps + [Enqueue(0)] + [PutRequest(0)];
  }
}
