/** Which queue a posted response reaches: the one its POST fetched when it started, whoever waits
    by the time of the put. */
module Reach {
  import opened Messages
  import opened Deadlines
  import opened Store
  import opened Sweeping
  import opened Protocol
  import opened Frames
  import LifeCycle
  import Orphans

  // ---------------------------------------------------------------- what a handler holds on to

  /** A POST of response `x` for client `c`, holding entry `r`. */
  predicate Carries(p: Handler, c: ClientId, x: PypeResponse, r: Ref) {
    (p.Answering? || p.Delivering?) && p.client == c && p.response == x && p.entry == r
  }

  predicate Waits(p: Handler) {
    p.Polling? || p.Awaiting?
  }

  lemma AnswerCarriesOn(s: State, h: nat)
    requires h in s.handlers && s.handlers[h].Answering?
    ensures var t, p := DoAnswer(s, h), s.handlers[h];
            t.handlers == s.handlers[h := t.handlers[h]] && Carries(t.handlers[h], p.client, p.response, p.entry)
  {
  }

  /** A POST keeps its response and its entry, and a getter stays as it is, as long as they last. */
  lemma HandlerStays(cfg: Config, s: State, step: Step, h: nat)
    requires cfg.Valid() && Inv(cfg, s) && Enabled(cfg, s, step)
    requires h in s.handlers && h in Apply(cfg, s, step).handlers
    ensures var p, q := s.handlers[h], Apply(cfg, s, step).handlers[h];
            && (p.Answering? || p.Delivering? ==> Carries(q, p.client, p.response, p.entry))
            && (Waits(p) ==> q == p)
  {
    hide Inv, DoEnqueue, DoAnswer, DoPutRequest, DoPostRequest, DoPollResponses, DoPostResponse, DoPullRequest, MayGiveUp, MayAdvance;
    if Starts(step) {
      StartAddsNext(cfg, s, step);
    } else if step.Enqueue? {
      MoveStays(cfg, s, step.h);
    } else if step.Answer? {
      AnswerCarriesOn(s, step.h);
    } else if step.PutRequest? {
      HandlerIsOk(cfg, s, step.h);
      PutRequestShape(s, step.h);
    } else {
      HandlersStay(cfg, s, step);
    }
  }

  lemma {:induction false} HandlerStaysInRun(cfg: Config, s: State, steps: seq<Step>, h: nat)
    requires cfg.Valid() && Inv(cfg, s) && Legal(cfg, s, steps)
    requires h in s.handlers && h in Exec(cfg, s, steps).handlers
    ensures var p, q := s.handlers[h], Exec(cfg, s, steps).handlers[h];
            && (p.Answering? || p.Delivering? ==> Carries(q, p.client, p.response, p.entry))
            && (Waits(p) ==> q == p)
    decreases |steps|
  {
    hide Inv, Enabled, Apply;
    if steps != [] {
      var s1 := Apply(cfg, s, steps[0]);
      StepKeepsInv(cfg, s, steps[0]);
      if h in s1.handlers {
        HandlerStays(cfg, s, steps[0], h);
        HandlerStaysInRun(cfg, s1, steps[1..], h);
      } else {
        NumberStaysUsed(cfg, s, steps[0], h);
        GoneAfterRun(cfg, s1, steps[1..], h);
      }
    }
  }

  // ---------------------------------------------------------------- how long a client stays registered

  /** The client is registered in every state of the run. */
  ghost predicate StaysRegistered(cfg: Config, s: State, steps: seq<Step>, c: ClientId)
    requires cfg.Valid() && Inv(cfg, s) && Legal(cfg, s, steps)
    decreases |steps|
  {
    c in s.clients.registry
    && (steps == [] || (StepKeepsInv(cfg, s, steps[0]); StaysRegistered(cfg, Apply(cfg, s, steps[0]), steps[1..], c)))
  }

  lemma RemovalKeepsRefs(cfg: Config, s: State, step: Step)
    requires cfg.Valid() && Inv(cfg, s) && Enabled(cfg, s, step) && (step.Reap? || step.Logoff?)
    ensures var t := Apply(cfg, s, step);
            && t.clients.entries == s.clients.entries
            && (forall c :: c in t.clients.registry ==> c in s.clients.registry && t.clients.registry[c] == s.clients.registry[c])
            && (step.Logoff? ==> step.client !in t.clients.registry)
  {
    hide Inv, Evicted, TickCursor, MomentOf;
  }

  /** As long as the client of a registered entry is registered, it is registered with that entry. */
  lemma RefStays(cfg: Config, s: State, step: Step, r: Ref)
    requires cfg.Valid() && Inv(cfg, s) && Enabled(cfg, s, step) && Registered(s.clients, r)
    ensures var t, c := Apply(cfg, s, step), s.clients.entries[r].client;
            r < |t.clients.entries| && t.clients.entries[r].client == c
            && (Registered(t.clients, r) <==> c in t.clients.registry)
  {
    hide Inv, Enabled, Apply;
    LifeCycle.ClientStays(cfg, s, step, r);
    if step.Reap? || step.Logoff? {
      RemovalKeepsRefs(cfg, s, step);
    } else {
      Orphans.StepStaysAlive(cfg, s, step, r);
    }
  }

  lemma {:induction false} RegisteredIffStays(cfg: Config, s: State, steps: seq<Step>, r: Ref)
    requires cfg.Valid() && Inv(cfg, s) && Legal(cfg, s, steps) && Registered(s.clients, r)
    ensures Registered(Exec(cfg, s, steps).clients, r) <==> StaysRegistered(cfg, s, steps, s.clients.entries[r].client)
    decreases |steps|
  {
    hide Inv, Enabled, Apply;
    if steps != [] {
      var s1 := Apply(cfg, s, steps[0]);
      StepKeepsInv(cfg, s, steps[0]);
      RefStays(cfg, s, steps[0], r);
      if Registered(s1.clients, r) {
        RegisteredIffStays(cfg, s1, steps[1..], r);
      } else if Registered(Exec(cfg, s, steps).clients, r) {
        LifeCycle.StillRegistered(cfg, s1, steps[1..], r);
      }
    }
  }

  // ---------------------------------------------------------------- which queue the put reaches

  /** The queue that handler `g` waits on. */
  ghost function QueueOf(s: State, g: nat): Queue<PypeResponse>
    requires g in s.handlers && !s.handlers[g].Pulling? && s.handlers[g].entry < |s.clients.entries|
  {
    s.clients.entries[s.handlers[g].entry].queue
  }

  /** A POST of a response starts, as handler `s.next`. */
  ghost function PostStarted(cfg: Config, s: State, c: ClientId, x: PypeResponse, timeout: Option<int>): (t: State)
    requires cfg.Valid() && Inv(cfg, s) && Enabled(cfg, s, PostResponse(c, x, timeout))
    ensures Inv(cfg, t)
  {
    StepKeepsInv(cfg, s, PostResponse(c, x, timeout));
    Apply(cfg, s, PostResponse(c, x, timeout))
  }

  /** `g` waits for a response for `c`, on the entry registered for `c`. */
  ghost predicate WaitsRegistered(s: State, c: ClientId, g: nat) {
    GetsResponse(s, g) && s.handlers[g].client == c && Registered(s.clients, s.handlers[g].entry)
  }

  lemma PostHoldsRegistered(cfg: Config, s: State, c: ClientId, x: PypeResponse, timeout: Option<int>)
    requires cfg.Valid() && Inv(cfg, s) && Enabled(cfg, s, PostResponse(c, x, timeout))
    requires NormalizeTimeout(timeout, cfg.maxTimeout).Ok?
    ensures var s1 := PostStarted(cfg, s, c, x, timeout);
            && s1 == DoPostResponse(cfg, s, c, x, timeout)
            && c in s1.clients.registry && Registered(s1.clients, s1.clients.registry[c])
            && s1.clients.entries[s1.clients.registry[c]].client == c
            && s.next in s1.handlers && Carries(s1.handlers[s.next], c, x, s1.clients.registry[c])
            && (c in s.clients.registry ==> s1.clients.registry == s.clients.registry)
            && forall h :: h in s.handlers ==> h in s1.handlers && s1.handlers[h] == s.handlers[h]
  {
    hide HandlerOk, NormalizeTimeout;
    PostResponseKeepsInv(cfg, s, c, x, timeout);
  }

  lemma GetterHoldsRegistered(cfg: Config, s: State, c: ClientId, g: nat)
    requires Inv(cfg, s) && WaitsRegistered(s, c, g)
    ensures c in s.clients.registry && s.clients.registry[c] == s.handlers[g].entry
  {
    hide Inv;
    HandlerIsOk(cfg, s, g);
  }

  /** The POST of a response holds the entry registered for its client, which is the one that every
      getter holds that waits on its registered entry. */
  lemma PostStarts(cfg: Config, s: State, c: ClientId, x: PypeResponse, timeout: Option<int>)
    requires cfg.Valid() && Inv(cfg, s) && Enabled(cfg, s, PostResponse(c, x, timeout))
    requires NormalizeTimeout(timeout, cfg.maxTimeout).Ok?
    ensures var s1 := PostStarted(cfg, s, c, x, timeout);
            && s1 == DoPostResponse(cfg, s, c, x, timeout)
            && c in s1.clients.registry && Registered(s1.clients, s1.clients.registry[c])
            && s1.clients.entries[s1.clients.registry[c]].client == c
            && s.next in s1.handlers && Carries(s1.handlers[s.next], c, x, s1.clients.registry[c])
            && (c in s.clients.registry ==> s1.clients.registry == s.clients.registry)
            && (forall g :: WaitsRegistered(s, c, g) ==> s1.handlers[s.next].entry == s.handlers[g].entry)
            && forall h :: h in s.handlers ==> h in s1.handlers && s1.handlers[h] == s.handlers[h]
  {
    hide Inv, Enabled, PostStarted, DoPostResponse, NormalizeTimeout;
    PostHoldsRegistered(cfg, s, c, x, timeout);
    forall g | WaitsRegistered(s, c, g)
      ensures c in s.clients.registry && s.clients.registry[c] == s.handlers[g].entry
    {
      GetterHoldsRegistered(cfg, s, c, g);
    }
  }

  lemma PutGoesToItsEntry(cfg: Config, s: State, h: nat, g: nat)
    requires cfg.Valid() && Inv(cfg, s) && Enabled(cfg, s, PutResponse(h))
    requires g in s.handlers && !s.handlers[g].Pulling?
    ensures && s.handlers[h].Delivering? && s.handlers[g].entry < |s.clients.entries|
            && var t := Apply(cfg, s, PutResponse(h));
               && s.handlers[g].entry < |t.clients.entries|
               && t.clients.entries[s.handlers[g].entry].queue
                  == if s.handlers[h].entry == s.handlers[g].entry then QueueOf(s, g).Put(s.handlers[h].response) else QueueOf(s, g)
  {
    hide Inv;
    HandlerIsOk(cfg, s, h);
    HandlerIsOk(cfg, s, g);
  }

  /** What the getter finds on the queue it waits on once handler `h` has done its put. */
  ghost function QueueAfterPut(cfg: Config, s: State, h: nat, g: nat): Queue<PypeResponse>
    requires cfg.Valid() && Inv(cfg, s) && Enabled(cfg, s, PutResponse(h))
    requires g in s.handlers && !s.handlers[g].Pulling?
  {
    PutGoesToItsEntry(cfg, s, h, g);
    Apply(cfg, s, PutResponse(h)).clients.entries[s.handlers[g].entry].queue
  }

  /** A POST of a response starts, the run goes on, and when its put is done a getter of the same
      client waits on the entry registered then. The response reaches the getter's queue if and
      only if the client was never unregistered in between. */
  lemma PutReachesGetterIff(cfg: Config, s: State, c: ClientId, x: PypeResponse, timeout: Option<int>, steps: seq<Step>, g: nat)
    requires cfg.Valid() && Inv(cfg, s) && Enabled(cfg, s, PostResponse(c, x, timeout))
    requires NormalizeTimeout(timeout, cfg.maxTimeout).Ok?
    requires Legal(cfg, PostStarted(cfg, s, c, x, timeout), steps)
    requires var t := Exec(cfg, PostStarted(cfg, s, c, x, timeout), steps);
             Enabled(cfg, t, PutResponse(s.next)) && WaitsRegistered(t, c, g)
    ensures var s1 := PostStarted(cfg, s, c, x, timeout);
            var t := Exec(cfg, s1, steps);
            && g in t.handlers && !t.handlers[g].Pulling? && t.handlers[g].entry < |t.clients.entries|
            && QueueAfterPut(cfg, t, s.next, g) == if StaysRegistered(cfg, s1, steps, c) then QueueOf(t, g).Put(x) else QueueOf(t, g)
  {
    hide Inv, Apply, Legal, Exec, PostStarted, StaysRegistered, DoPostResponse, NormalizeTimeout, MayGiveUp, MayAdvance;
    var s1 := PostStarted(cfg, s, c, x, timeout);
    var t := Exec(cfg, s1, steps);
    PostStarts(cfg, s, c, x, timeout);
    HandlerStaysInRun(cfg, s1, steps, s.next);
    RegisteredIffStays(cfg, s1, steps, s1.clients.registry[c]);
    ClientOfEntryStays(cfg, s1, steps, s1.clients.registry[c]);
    HandlerIsOk(cfg, t, g);
    PutGoesToItsEntry(cfg, t, s.next, g);
  }

  lemma ClientOfEntryStays(cfg: Config, s: State, steps: seq<Step>, r: Ref)
    requires cfg.Valid() && Inv(cfg, s) && Legal(cfg, s, steps) && Registered(s.clients, r)
    ensures var t := Exec(cfg, s, steps);
            r < |t.clients.entries| && t.clients.entries[r].client == s.clients.entries[r].client
  {
    hide Inv, Legal, Exec;
    LifeCycle.StillThere(cfg, s, steps, r);
    LifeCycle.EntriesOnlyAge(cfg, s, steps, r);
  }

  /** So a response whose POST starts while the getter is already waiting reaches the getter, if
      its client does not log off and the getter is not one of those that can be orphaned: a GET,
      or a second phase that began within the threshold. */
  lemma PostAfterGetterReachesIt(cfg: Config, before: seq<Step>, c: ClientId, x: PypeResponse, timeout: Option<int>, steps: seq<Step>, g: nat)
    requires cfg.Valid() && cfg.reaper.threshold >= cfg.maxTimeout as real && IsRun(cfg, before)
    requires Logoff(c) !in before && Logoff(c) !in steps
    requires NormalizeTimeout(timeout, cfg.maxTimeout).Ok? && Enabled(cfg, Reached(cfg, before), PostResponse(c, x, timeout))
    requires GetsResponse(Reached(cfg, before), g) && Reached(cfg, before).handlers[g].client == c
    requires Reached(cfg, before).handlers[g].Awaiting? ==> Reached(cfg, before).handlers[g].waited <= cfg.reaper.threshold
    requires Legal(cfg, PostStarted(cfg, Reached(cfg, before), c, x, timeout), steps)
    requires var s := Reached(cfg, before);
             var t := Exec(cfg, PostStarted(cfg, s, c, x, timeout), steps);
             Enabled(cfg, t, PutResponse(s.next)) && g in t.handlers
    ensures var s := Reached(cfg, before);
            var t := Exec(cfg, PostStarted(cfg, s, c, x, timeout), steps);
            && !t.handlers[g].Pulling? && t.handlers[g].entry < |t.clients.entries|
            && QueueAfterPut(cfg, t, s.next, g) == QueueOf(t, g).Put(x)
  {
    hide Inv, Apply, Legal, Exec, IsRun, Reached, PostStarted, StaysRegistered, DoPostResponse, NormalizeTimeout, MayGiveUp, MayAdvance, Enabled;
    var s := Reached(cfg, before);
    var s1 := PostStarted(cfg, s, c, x, timeout);
    var t := Exec(cfg, s1, steps);
    PostStarts(cfg, s, c, x, timeout);
    GetterStaysRegistered(cfg, before, c, x, timeout, steps, g);
    HandlerStaysInRun(cfg, s1, steps, g);
    HandlerIsOk(cfg, s1, g);
    RegisteredIffStays(cfg, s1, steps, s1.handlers[g].entry);
    PutReachesGetterIff(cfg, s, c, x, timeout, steps, g);
  }

  lemma GetterStaysRegistered(cfg: Config, before: seq<Step>, c: ClientId, x: PypeResponse, timeout: Option<int>, steps: seq<Step>, g: nat)
    requires cfg.Valid() && cfg.reaper.threshold >= cfg.maxTimeout as real && IsRun(cfg, before)
    requires Logoff(c) !in before && Logoff(c) !in steps
    requires NormalizeTimeout(timeout, cfg.maxTimeout).Ok? && Enabled(cfg, Reached(cfg, before), PostResponse(c, x, timeout))
    requires GetsResponse(Reached(cfg, before), g) && Reached(cfg, before).handlers[g].client == c
    requires Reached(cfg, before).handlers[g].Awaiting? ==> Reached(cfg, before).handlers[g].waited <= cfg.reaper.threshold
    requires Legal(cfg, PostStarted(cfg, Reached(cfg, before), c, x, timeout), steps)
    requires g in Exec(cfg, PostStarted(cfg, Reached(cfg, before), c, x, timeout), steps).handlers
    ensures var s1 := PostStarted(cfg, Reached(cfg, before), c, x, timeout);
            && WaitsRegistered(s1, c, g) && WaitsRegistered(Exec(cfg, s1, steps), c, g)
  {
    hide Inv, Legal, Exec, IsRun, PostStarted, Init, DoPostResponse, NormalizeTimeout, Enabled;
    var s := Reached(cfg, before);
    var post, s1 := PostResponse(c, x, timeout), PostStarted(cfg, s, c, x, timeout);
    PostStarts(cfg, s, c, x, timeout);
    AttendedAfterPost(cfg, before, c, x, timeout);
    Orphans.RunKeepsAttended(cfg, s1, steps, c);
    HandlerStaysInRun(cfg, s1, steps, g);
    assert Orphans.HandlerAttended(cfg, s1, s1.handlers[g]);
    assert Orphans.HandlerAttended(cfg, Exec(cfg, s1, steps), s1.handlers[g]);
  }

  lemma AttendedAfterPost(cfg: Config, before: seq<Step>, c: ClientId, x: PypeResponse, timeout: Option<int>)
    requires cfg.Valid() && IsRun(cfg, before) && Logoff(c) !in before
    requires Enabled(cfg, Reached(cfg, before), PostResponse(c, x, timeout))
    ensures Orphans.Attended(cfg, PostStarted(cfg, Reached(cfg, before), c, x, timeout), c)
  {
    hide Inv, Legal, Exec, Enabled, Apply, Orphans.HandlerAttended;
    InitInv(cfg);
    Orphans.RunKeepsAttended(cfg, Init(), before, c);
    Orphans.StepKeepsAttended(cfg, Reached(cfg, before), PostResponse(c, x, timeout), c);
  }

  // ---------------------------------------------------------------- a POST that started earlier can miss

  /** Only `SOMEONE`'s entry exists, it is over the threshold, and no tick has come to it yet. */
  ghost predicate StaleNotSwept(cfg: Config, s: State) {
    && s.clients == Orphans.OneEntry() && s.handlers == map[] && s.hot == None && s.cursor == IDLE && s.next == 1
    && s.clock == cfg.reaper.threshold + 1.0
  }

  /** A poll with a negative timeout is refused, and leaves an entry behind it. */
  lemma StaleNotSweptRun(cfg: Config) returns (steps: seq<Step>)
    requires cfg.Valid()
    ensures steps == [PollResponses(Orphans.SOMEONE, Some(-1))] + [Advance(cfg.reaper.threshold + 1.0)]
    ensures IsRun(cfg, steps) && StaleNotSwept(cfg, Reached(cfg, steps))
  {
    hide IsRun, Reached, Inv;
    var poll, wait := PollResponses(Orphans.SOMEONE, Some(-1)), Advance(cfg.reaper.threshold + 1.0);
    InitInv(cfg);
    Orphans.FirstStep(cfg, poll);
    ProlongRun(cfg, [poll], wait);
    steps := [poll] + [wait];
  }

  /** The entry has been evicted while a POST that holds it reads its body. */
  ghost predicate PostHoldsDetached(cfg: Config, s: State, x: PypeResponse) {
    && s.clients == Clients(Orphans.OneEntry().entries, map[]) && s.hot == None && s.next == 2
    && s.handlers == map[1 := Answering(Orphans.SOMEONE, 0, x, cfg.maxTimeout)]
  }

  lemma PostOnStale(cfg: Config, s: State, x: PypeResponse)
    requires cfg.Valid() && Inv(cfg, s) && StaleNotSwept(cfg, s)
    ensures var t := DoPostResponse(cfg, s, Orphans.SOMEONE, x, None);
            && t.handlers == map[1 := Answering(Orphans.SOMEONE, 0, x, cfg.maxTimeout)] && t.next == 2 && t.hot == None
            && t.clients == s.clients && t.cursor == s.cursor && t.clock == s.clock
  {
    hide Inv;
  }

  /** The POST starts on the stale entry and reads its body for `d`; then the entry is evicted. */
  lemma PostThenReap(cfg: Config, before: seq<Step>, x: PypeResponse, d: real) returns (steps: seq<Step>)
    requires cfg.Valid() && IsRun(cfg, before) && StaleNotSwept(cfg, Reached(cfg, before)) && d >= 0.0
    ensures steps == before + [PostResponse(Orphans.SOMEONE, x, None)] + [Advance(Reached(cfg, before).clock + d)] + [Reap([Orphans.SOMEONE])]
    ensures IsRun(cfg, steps) && PostHoldsDetached(cfg, Reached(cfg, steps), x)
    ensures Reached(cfg, steps).clock == Reached(cfg, before).clock + d
  {
    hide IsRun, Reached, Inv, Evicted, TickCursor, IsSnapshot, DoPostResponse;
    var s := Reached(cfg, before);
    var post, wait := PostResponse(Orphans.SOMEONE, x, None), Advance(s.clock + d);
    PostOnStale(cfg, s, x);
    ProlongRun(cfg, before, post);
    ProlongRun(cfg, before + [post], wait);
    var s2 := Reached(cfg, before + [post] + [wait]);
    Orphans.ReapOneEvicts(cfg, s2);
    ProlongRun(cfg, before + [post] + [wait], Reap([Orphans.SOMEONE]));
    steps := before + [post] + [wait] + [Reap([Orphans.SOMEONE])];
  }

  /** The service has been told that `x` is accepted; a poll waits on the registered entry, whose
      queue is empty, while `x` lies in the queue of a detached one. */
  ghost predicate PutMissed(s: State, x: PypeResponse) {
    && 1 in s.replies && s.replies[1] == AcceptedReply
    && 2 in s.handlers && s.handlers[2].Polling? && WaitsRegistered(s, Orphans.SOMEONE, 2)
    && s.clients.entries[s.handlers[2].entry].queue == NewQueue()
    && Detached(s.clients, 0) && s.clients.entries[0].queue.items == [x]
  }

  /** A poll comes after the eviction, while the POST that started before it still reads its body. */
  ghost predicate PollWaits(cfg: Config, s: State, x: PypeResponse) {
    && s.hot == None
    && s.clients == Clients(Orphans.OneEntry().entries + [Entry(Orphans.SOMEONE, s.clock, NewQueue())], map[Orphans.SOMEONE := 1])
    && s.handlers == map[1 := Answering(Orphans.SOMEONE, 0, x, cfg.maxTimeout), 2 := Polling(Orphans.SOMEONE, 1, s.clock + cfg.maxTimeout as real)]
  }

  lemma PollAfterEviction(cfg: Config, s: State, x: PypeResponse)
    requires cfg.Valid() && Inv(cfg, s) && PostHoldsDetached(cfg, s, x)
    ensures var poll := PollResponses(Orphans.SOMEONE, None);
            Enabled(cfg, s, poll) && PollWaits(cfg, Apply(cfg, s, poll), x) && Apply(cfg, s, poll).clock == s.clock
  {
    hide Inv;
  }

  lemma AnswerLate(cfg: Config, s: State, x: PypeResponse)
    requires cfg.Valid() && Inv(cfg, s) && PollWaits(cfg, s, x)
    ensures Enabled(cfg, s, Answer(1))
    ensures var t, until := Apply(cfg, s, Answer(1)), s.clock + cfg.maxTimeout as real;
            && t.hot == None && t.clients == s.clients && t.clock == s.clock
            && t.handlers == map[1 := Delivering(Orphans.SOMEONE, 0, x, until), 2 := Polling(Orphans.SOMEONE, 1, until)]
  {
    hide Inv;
  }

  lemma PutLate(cfg: Config, s: State, x: PypeResponse, until: real)
    requires cfg.Valid() && Inv(cfg, s) && s.hot == None
    requires s.clients == Clients(Orphans.OneEntry().entries + [Entry(Orphans.SOMEONE, s.clock, NewQueue())], map[Orphans.SOMEONE := 1])
    requires s.handlers == map[1 := Delivering(Orphans.SOMEONE, 0, x, until), 2 := Polling(Orphans.SOMEONE, 1, until)]
    ensures Enabled(cfg, s, PutResponse(1))
    ensures var t := Apply(cfg, s, PutResponse(1)); PutMissed(t, x) && t.clock == s.clock
  {
    hide Inv;
    assert s.clients.entries[0].queue == NewQueue();
  }

  /** In every configuration, without a logoff, and however short or long the POST takes: a response
      whose POST started before the getter came can be accepted and still miss it. The POST starts
      after `before` and is done `d` later. */
  lemma EarlierPostMissesGetter(cfg: Config, x: PypeResponse, d: real) returns (before: seq<Step>, steps: seq<Step>)
    requires cfg.Valid() && d >= 0.0
    ensures IsRun(cfg, before) && IsRun(cfg, steps) && Logoff(Orphans.SOMEONE) !in steps
    ensures before + [PostResponse(Orphans.SOMEONE, x, None)] <= steps && steps[|steps| - 1] == PutResponse(1)
    ensures Reached(cfg, steps).clock == Reached(cfg, before).clock + d
    ensures PutMissed(Reached(cfg, steps), x)
  {
    hide IsRun, Reached, Inv, Enabled, Apply, PutMissed;
    before := StaleNotSweptRun(cfg);
    var evicted := PostThenReap(cfg, before, x, d);
    var poll := PollResponses(Orphans.SOMEONE, None);
    PollAfterEviction(cfg, Reached(cfg, evicted), x);
    ProlongRun(cfg, evicted, poll);
    var s := Reached(cfg, evicted + [poll]);
    AnswerLate(cfg, s, x);
    ProlongRun(cfg, evicted + [poll], Answer(1));
    PutLate(cfg, Reached(cfg, evicted + [poll] + [Answer(1)]), x, s.clock + cfg.maxTimeout as real);
    ProlongRun(cfg, evicted + [poll] + [Answer(1)], PutResponse(1));
    steps := evicted + [poll] + [Answer(1)] + [PutResponse(1)];
  }
}
