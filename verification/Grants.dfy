/** How long a getter may wait without losing its entry: exactly up to the threshold of the reaper,
    and that by the wait that the server granted to this one getter. */
module Grants {
  import opened Messages
  import opened Deadlines
  import opened Store
  import opened Sweeping
  import opened Protocol
  import opened Frames
  import opened Orphans
  import opened Reach

  // ---------------------------------------------------------------- a safe getter stays safe

  lemma SafeStays(cfg: Config, s: State, step: Step, h: nat)
    requires cfg.Valid() && Inv(cfg, s) && Enabled(cfg, s, step)
    requires h in s.handlers && Safe(cfg, s, s.handlers[h]) && step != Logoff(s.handlers[h].client)
    requires h in Apply(cfg, s, step).handlers
    ensures Apply(cfg, s, step).handlers[h] == s.handlers[h] && Safe(cfg, Apply(cfg, s, step), s.handlers[h])
  {
    hide Inv, Enabled, Apply;
    HandlerStays(cfg, s, step, h);
    HandlerIsOk(cfg, s, h);
    StepStaysAlive(cfg, s, step, s.handlers[h].entry);
  }

  lemma {:induction false} SafeStaysInRun(cfg: Config, s: State, steps: seq<Step>, h: nat)
    requires cfg.Valid() && Inv(cfg, s) && Legal(cfg, s, steps)
    requires h in s.handlers && Safe(cfg, s, s.handlers[h]) && Logoff(s.handlers[h].client) !in steps
    requires h in Exec(cfg, s, steps).handlers
    ensures Exec(cfg, s, steps).handlers[h] == s.handlers[h] && Safe(cfg, Exec(cfg, s, steps), s.handlers[h])
    decreases |steps|
  {
    hide Inv, Enabled, Apply, Safe;
    if steps != [] {
      var s1 := Apply(cfg, s, steps[0]);
      StepKeepsInv(cfg, s, steps[0]);
      if h in s1.handlers {
        SafeStays(cfg, s, steps[0], h);
        SafeStaysInRun(cfg, s1, steps[1..], h);
      } else {
        NumberStaysUsed(cfg, s, steps[0], h);
        GoneAfterRun(cfg, s1, steps[1..], h);
      }
    }
  }

  /** Handler `h`, as long as it waits for a response, waits on the queue registered for its client. */
  ghost predicate KeepsEntry(s: State, h: nat) {
    GetsResponse(s, h) ==> Registered(s.clients, s.handlers[h].entry)
  }

  lemma SafeKeepsEntry(cfg: Config, s: State, steps: seq<Step>, h: nat)
    requires cfg.Valid() && Inv(cfg, s) && Legal(cfg, s, steps)
    requires h in s.handlers && Safe(cfg, s, s.handlers[h]) && Logoff(s.handlers[h].client) !in steps
    ensures KeepsEntry(Exec(cfg, s, steps), h)
  {
    hide Inv, Legal, Exec;
    if h in Exec(cfg, s, steps).handlers {
      SafeStaysInRun(cfg, s, steps, h);
    }
  }

  // ---------------------------------------------------------------- GET /clients/{id}

  /** A poll starts, as handler `s.next`. */
  ghost function PollStarted(cfg: Config, s: State, c: ClientId, timeout: Option<int>): (t: State)
    requires cfg.Valid() && Inv(cfg, s) && Enabled(cfg, s, PollResponses(c, timeout))
    ensures Inv(cfg, t)
  {
    StepKeepsInv(cfg, s, PollResponses(c, timeout));
    Apply(cfg, s, PollResponses(c, timeout))
  }

  /** A GET with this timeout, whenever it starts and whatever happens then, keeps its entry for as
      long as its client does not log off. */
  ghost predicate PollsKeepTheirEntry(cfg: Config, timeout: Option<int>)
    requires cfg.Valid()
  {
    forall s, c: ClientId, steps ::
      && Inv(cfg, s) && Enabled(cfg, s, PollResponses(c, timeout))
      && Legal(cfg, PollStarted(cfg, s, c, timeout), steps) && Logoff(c) !in steps
      ==> KeepsEntry(Exec(cfg, PollStarted(cfg, s, c, timeout), steps), s.next)
  }

  lemma ShortPollIsSafe(cfg: Config, s: State, c: ClientId, timeout: Option<int>, n: nat)
    requires cfg.Valid() && Inv(cfg, s) && Enabled(cfg, s, PollResponses(c, timeout))
    requires NormalizeTimeout(timeout, cfg.maxTimeout) == Ok(n) && n as real <= cfg.reaper.threshold
    ensures var t := PollStarted(cfg, s, c, timeout);
            s.next in t.handlers && t.handlers[s.next].Polling? && t.handlers[s.next].client == c && Safe(cfg, t, t.handlers[s.next])
  {
    hide NormalizeTimeout, HandlersInv;
    PollShape(cfg, s, c, timeout);
  }

  /** A GET never loses its entry without a logoff of its client if and only if the wait it is
      granted is no longer than the threshold, however long the longest timeout is. */
  lemma PollKeepsItsEntryIff(cfg: Config, timeout: Option<int>, n: nat)
    requires cfg.Valid() && NormalizeTimeout(timeout, cfg.maxTimeout) == Ok(n)
    ensures PollsKeepTheirEntry(cfg, timeout) <==> n as real <= cfg.reaper.threshold
  {
    hide Inv, Legal, Exec, PollStarted, NormalizeTimeout, Safe, Enabled, KeepsEntry;
    if n as real <= cfg.reaper.threshold {
      forall s, c: ClientId, steps | && Inv(cfg, s) && Enabled(cfg, s, PollResponses(c, timeout))
                                     && Legal(cfg, PollStarted(cfg, s, c, timeout), steps) && Logoff(c) !in steps
        ensures KeepsEntry(Exec(cfg, PollStarted(cfg, s, c, timeout), steps), s.next)
      {
        ShortPollIsSafe(cfg, s, c, timeout, n);
        SafeKeepsEntry(cfg, PollStarted(cfg, s, c, timeout), steps, s.next);
      }
    } else {
      var rest := LongPollLosesIt(cfg, timeout);
      InitInv(cfg);
      assert !KeepsEntry(Exec(cfg, PollStarted(cfg, Init(), SOMEONE, timeout), rest), Init().next);
    }
  }

  lemma LongPollLosesIt(cfg: Config, timeout: Option<int>) returns (rest: seq<Step>)
    requires cfg.Valid() && NormalizeTimeout(timeout, cfg.maxTimeout).Ok?
    requires NormalizeTimeout(timeout, cfg.maxTimeout).value as real > cfg.reaper.threshold
    ensures Inv(cfg, Init()) && Enabled(cfg, Init(), PollResponses(SOMEONE, timeout))
    ensures Legal(cfg, PollStarted(cfg, Init(), SOMEONE, timeout), rest) && Logoff(SOMEONE) !in rest
    ensures !KeepsEntry(Exec(cfg, PollStarted(cfg, Init(), SOMEONE, timeout), rest), 0)
  {
    hide Inv, NormalizeTimeout;
    InitInv(cfg);
    var steps := OrphaningRun(cfg, timeout);
    rest := steps[1..];
  }

  // ---------------------------------------------------------------- the second phase of POST /services/{name}?block=1

  /** Phase 2 of handler `h` starts. */
  ghost function PhaseStarted(cfg: Config, s: State, h: nat): (t: State)
    requires cfg.Valid() && Inv(cfg, s) && Enabled(cfg, s, PutRequest(h))
    ensures Inv(cfg, t)
  {
    StepKeepsInv(cfg, s, PutRequest(h));
    Apply(cfg, s, PutRequest(h))
  }

  /** Phase 2 can start, granted `n`, and the client is still registered with the entry it holds. */
  ghost predicate StartsRegistered(cfg: Config, s: State, h: nat, n: nat) {
    && Enabled(cfg, s, PutRequest(h)) && s.handlers[h].block && Registered(s.clients, s.handlers[h].entry)
    && ServerRemaining(s.handlers[h].deadline, s.clock) == n
  }

  /** A second phase that is granted `n` and starts on the registered entry keeps it for as long as
      its client does not log off. */
  ghost predicate PhasesKeepTheirEntry(cfg: Config, n: nat)
    requires cfg.Valid()
  {
    forall s, h: nat, steps ::
      && Inv(cfg, s) && StartsRegistered(cfg, s, h, n)
      && Legal(cfg, PhaseStarted(cfg, s, h), steps) && Logoff(s.handlers[h].client) !in steps
      ==> KeepsEntry(Exec(cfg, PhaseStarted(cfg, s, h), steps), h)
  }

  lemma ShortPhaseIsSafe(cfg: Config, s: State, h: nat, n: nat)
    requires cfg.Valid() && Inv(cfg, s) && StartsRegistered(cfg, s, h, n) && n as real <= cfg.reaper.threshold
    ensures var t := PhaseStarted(cfg, s, h);
            h in t.handlers && t.handlers[h].Awaiting? && t.handlers[h].client == s.handlers[h].client && Safe(cfg, t, t.handlers[h])
  {
    HandlerIsOk(cfg, s, h);
    PutRequestShape(s, h);
  }

  /** The second phase never loses the entry it starts on without a logoff of its client if and
      only if the wait it is granted is no longer than the threshold. */
  lemma PhaseKeepsItsEntryIff(cfg: Config, n: nat)
    requires cfg.Valid() && n <= cfg.maxTimeout
    ensures PhasesKeepTheirEntry(cfg, n) <==> n as real <= cfg.reaper.threshold
  {
    hide Inv, Legal, Exec, PhaseStarted, Safe, KeepsEntry, MayGiveUp, MayAdvance;
    if n as real <= cfg.reaper.threshold {
      forall s, h: nat, steps | && Inv(cfg, s) && StartsRegistered(cfg, s, h, n)
                                && Legal(cfg, PhaseStarted(cfg, s, h), steps) && Logoff(s.handlers[h].client) !in steps
        ensures KeepsEntry(Exec(cfg, PhaseStarted(cfg, s, h), steps), h)
      {
        ShortPhaseIsSafe(cfg, s, h, n);
        SafeKeepsEntry(cfg, PhaseStarted(cfg, s, h), steps, h);
      }
    } else {
      var s, rest := LongPhaseLosesIt(cfg, n);
      assert !KeepsEntry(Exec(cfg, PhaseStarted(cfg, s, 0), rest), 0);
    }
  }

  lemma LongPhaseLosesIt(cfg: Config, n: nat) returns (s: State, rest: seq<Step>)
    requires cfg.Valid() && n <= cfg.maxTimeout && n as real > cfg.reaper.threshold
    ensures Inv(cfg, s) && StartsRegistered(cfg, s, 0, n)
    ensures Legal(cfg, PhaseStarted(cfg, s, 0), rest) && Logoff(s.handlers[0].client) !in rest
    ensures !KeepsEntry(Exec(cfg, PhaseStarted(cfg, s, 0), rest), 0)
  {
    hide Inv, NormalizeTimeout, StartsRegistered, Enabled, Apply;
    var request := PypeRequest(SOMEONE, "", "", []);
    var steps := LongSecondPhaseRun(cfg, "", request, Some(n), n);
    var first := PromptPost(cfg, request, n);
    assert steps == first + steps[2..] && steps[2] == PutRequest(0);
    InitInv(cfg);
    Split(cfg, Init(), first, steps[2..]);
    s := Exec(cfg, Init(), first);
    rest := steps[3..];
    assert steps[2..][1..] == rest;
  }

  /** A POST whose body comes at once stands before its second phase. */
  lemma PromptPost(cfg: Config, request: PypeRequest, n: nat) returns (steps: seq<Step>)
    requires cfg.Valid() && 0 < n <= cfg.maxTimeout && request.clientId == SOMEONE
    ensures steps == [PostRequest(SOMEONE, "", request, Some(n), true)] + [Enqueue(0)] && IsRun(cfg, steps)
    ensures StartsRegistered(cfg, Reached(cfg, steps), 0, n) && Reached(cfg, steps).handlers[0].client == SOMEONE
  {
    hide IsRun, Reached, Inv, DoEnqueue, StartsRegistered;
    var posted := FirstPost(cfg, "", request, Some(n), n);
    var s := Reached(cfg, posted);
    var p := Posting(SOMEONE, 0, "", request, n, true, 0.0);
    EnqueueFirst(cfg, s, p);
    EnqueuedFirst(cfg, s, p);
    ProlongRun(cfg, posted, Enqueue(0));
    EnqueuedStartsRegistered(cfg, s, Reached(cfg, posted + [Enqueue(0)]), p);
    steps := posted + [Enqueue(0)];
  }

  lemma EnqueuedStartsRegistered(cfg: Config, s: State, t: State, p: Handler)
    requires p.Posting? && p.block && p.client == SOMEONE && p.entry == 0
    requires s.clients == OneEntry() && t.clients == s.clients && t.clock == s.clock && Enabled(cfg, t, PutRequest(0))
    requires var until := s.clock + p.total as real;
             t.handlers == map[0 := Enqueuing(p.client, p.entry, p.service, p.request, p.total, p.block, p.since, until, until)]
    ensures StartsRegistered(cfg, t, 0, p.total)
  {
    WholeGrant(s.clock, p.total);
  }
}
