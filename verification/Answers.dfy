/** What every request to the server is told, and when: over all runs, a wait ends without an item
    only when its time is up, it never lasts longer, and what the caller is told is what happened. */
module Answers {
  import opened Messages
  import opened Deadlines
  import opened Store
  import opened Sweeping
  import opened Protocol
  import opened Frames
  import Orphans
  import Reach

  // ---------------------------------------------------------------- one step

  /** What the step, which ends the wait of its handler, tells the caller. */
  ghost predicate Tells(s: State, step: Step, reply: Reply) {
    match step
    case PutRequest(_) => reply == AcceptedReply
    case RefuseRequest(_) => reply == Unavailable
    case TakeResponse(h) =>
      ResponseAvailable(s, h) && reply == Response(s.handlers[h].client, s.clients.entries[s.handlers[h].entry].queue.items[0])
    case NoResponse(h) => GetsResponse(s, h) && reply == if s.handlers[h].Polling? then NoContent else AcceptedReply
    case PutResponse(_) => reply == AcceptedReply
    case RefuseResponse(_) => reply == Unavailable
    case TakeRequest(h) => RequestAvailable(s, h) && reply == Request(s.services[s.handlers[h].service].items[0])
    case NoRequest(_) => reply == NoContent
    case _ => false
  }

  /** The handler is answered, and nobody else is. */
  ghost predicate AnswersOnly(s: State, t: State, step: Step, h: nat) {
    t.handlers == s.handlers - {h} && h in t.replies && t.replies == s.replies[h := t.replies[h]] && Tells(s, step, t.replies[h])
  }

  lemma RequestEndsAnswer(s: State, h: nat)
    requires h in s.handlers
    ensures s.handlers[h].Enqueuing? ==> AnswersOnly(s, DoRefuseRequest(s, h), RefuseRequest(h), h)
    ensures RequestAvailable(s, h) ==> AnswersOnly(s, DoTakeRequest(s, h), TakeRequest(h), h)
    ensures AnswersOnly(s, DoNoRequest(s, h), NoRequest(h), h)
  {
    hide Clients.Bump;
  }

  lemma ResponseEndsAnswer(s: State, h: nat)
    requires h in s.handlers
    ensures ResponseAvailable(s, h) ==> AnswersOnly(s, DoTakeResponse(s, h), TakeResponse(h), h)
    ensures GetsResponse(s, h) ==> AnswersOnly(s, DoNoResponse(s, h), NoResponse(h), h)
    ensures s.handlers[h].Delivering? && s.handlers[h].entry < |s.clients.entries| ==> AnswersOnly(s, DoPutResponse(s, h), PutResponse(h), h)
    ensures s.handlers[h].Delivering? ==> AnswersOnly(s, DoRefuseResponse(s, h), RefuseResponse(h), h)
  {
    hide Clients.Bump, Clients.Take, Clients.Put;
  }

  lemma PutRequestAnswers(s: State, h: nat)
    requires h in s.handlers && s.handlers[h].Enqueuing? && s.handlers[h].service in s.services
    ensures var t := DoPutRequest(s, h);
            if s.handlers[h].block then h in t.handlers && t.handlers.Keys == s.handlers.Keys && t.replies == s.replies
            else AnswersOnly(s, t, PutRequest(h), h)
  {
    hide DoPutRequest, Clients.Bump;
    PutRequestShape(s, h);
  }

  /** The step that resolves the wait of `h` either answers it or, after a put with block=1, lets it wait again. */
  lemma ActorIsAnswered(cfg: Config, s: State, step: Step, h: nat)
    requires cfg.Valid() && Inv(cfg, s) && Enabled(cfg, s, step) && Actor(step) == Some(h)
    ensures h in s.handlers
    ensures var t := Apply(cfg, s, step);
            if step.PutRequest? && s.handlers[h].Enqueuing? && s.handlers[h].block
            then h in t.handlers && t.handlers.Keys == s.handlers.Keys && t.replies == s.replies
            else AnswersOnly(s, t, step, h)
  {
    hide Inv, DoPutRequest, DoRefuseRequest, DoTakeResponse, DoNoResponse, DoPutResponse, DoRefuseResponse, DoTakeRequest, DoNoRequest;
    hide MayGiveUp, MayAdvance, AnswersOnly;
    HandlerIsOk(cfg, s, h);
    RequestEndsAnswer(s, h);
    ResponseEndsAnswer(s, h);
    if step.PutRequest? {
      PutRequestAnswers(s, h);
    }
  }

  /** A step that ends no wait leaves the replies to others alone: it may refuse the request it starts
      with, or take a reply off the wire. */
  lemma OthersKeepReplies(cfg: Config, s: State, step: Step)
    requires cfg.Valid() && Inv(cfg, s) && Enabled(cfg, s, step) && Actor(step) == None
    ensures forall h :: h in s.handlers ==> h in Apply(cfg, s, step).handlers
    ensures forall h :: h in Apply(cfg, s, step).replies && h != s.next ==> h in s.replies && Apply(cfg, s, step).replies[h] == s.replies[h]
  {
    hide Inv, DoPostRequest, DoPollResponses, DoPostResponse, DoPullRequest, DoEnqueue, DoAnswer, DoCollectRequest, DoCollectResponse;
    hide Evicted, TickCursor, MomentOf, MayGiveUp, MayAdvance;
    NextIsNew(cfg, s);
    match step
    case PostRequest(c, service, request, timeout, block) =>
      StartsKeepReplies(cfg, s, step);
    case PollResponses(c, timeout) => StartsKeepReplies(cfg, s, step);
    case PostResponse(c, x, timeout) => StartsKeepReplies(cfg, s, step);
    case PullRequest(service, timeout) => StartsKeepReplies(cfg, s, step);
    case Enqueue(h) => MovesKeepReplies(s, h);
    case Answer(h) => MovesKeepReplies(s, h);
    case AuthService(_) =>
    case Logoff(_) =>
    case Reap(_) =>
    case Advance(_) =>
    case CollectRequest(h) => CollectKeepsReplies(s, h, false);
    case CollectResponse(h, toCaller) => CollectKeepsReplies(s, h, toCaller);
    case PopCached(_) =>
  }

  lemma MovesKeepReplies(s: State, h: nat)
    requires h in s.handlers
    ensures s.handlers[h].Posting? ==> DoEnqueue(s, h).replies == s.replies && s.handlers.Keys <= DoEnqueue(s, h).handlers.Keys
    ensures s.handlers[h].Answering? ==> DoAnswer(s, h).replies == s.replies && s.handlers.Keys <= DoAnswer(s, h).handlers.Keys
  {
  }

  lemma CollectKeepsReplies(s: State, h: nat, toCaller: bool)
    requires h in s.replies
    ensures s.replies[h].Request? ==> DoCollectRequest(s, h).replies == s.replies - {h} && DoCollectRequest(s, h).handlers == s.handlers
    ensures s.replies[h].Response? ==>
              DoCollectResponse(s, h, toCaller).replies == s.replies - {h} && DoCollectResponse(s, h, toCaller).handlers == s.handlers
  {
  }

  lemma PollKeepsReplies(cfg: Config, s: State, c: ClientId, timeout: Option<int>)
    ensures var t := DoPollResponses(cfg, s, c, timeout);
            && (t.replies == s.replies || t.replies == s.replies[s.next := BadRequest])
            && (t.handlers == s.handlers || t.handlers == s.handlers[s.next := t.handlers[s.next]])
  {
    hide Clients.GetOrCreate, Clients.Bump;
  }

  lemma StartsKeepReplies(cfg: Config, s: State, step: Step)
    requires cfg.Valid() && Inv(cfg, s) && Enabled(cfg, s, step) && Starts(step)
    ensures var t := Apply(cfg, s, step);
            && (t.replies == s.replies || t.replies == s.replies[s.next := BadRequest])
            && s.handlers.Keys <= t.handlers.Keys
  {
    hide Inv, DoPostRequest, DoPollResponses, DoPostResponse, DoPullRequest, NormalizeTimeout, Clients.GetOrCreate, Clients.Bump;
    match step
    case PostRequest(c, service, request, timeout, block) => PostRequestShape(cfg, s, c, service, request, timeout, block);
    case PollResponses(c, timeout) => PollKeepsReplies(cfg, s, c, timeout);
    case PostResponse(c, x, timeout) => PostResponseShape(cfg, s, c, x, timeout);
    case PullRequest(service, timeout) => PullShape(cfg, s, service, timeout);
  }

  /** A handler is there until its own step answers it. */
  lemma StepAnswers(cfg: Config, s: State, step: Step, h: nat)
    requires cfg.Valid() && Inv(cfg, s) && Enabled(cfg, s, step) && h in s.handlers
    ensures var t := Apply(cfg, s, step);
            if h in t.handlers then h !in t.replies
            else h in t.replies && Actor(step) == Some(h) && Tells(s, step, t.replies[h]) && t.replies == s.replies[h := t.replies[h]]
  {
    hide Enabled, Apply, Tells, StoreInv, HandlerOk;
    StepKeepsInv(cfg, s, step);
    if Actor(step).Some? {
      ActorIsAnswered(cfg, s, step, Actor(step).value);
    } else {
      OthersKeepReplies(cfg, s, step);
    }
  }

  /** What has been told stays told. */
  lemma ReplyStays(cfg: Config, s: State, step: Step, h: nat)
    requires cfg.Valid() && Inv(cfg, s) && Enabled(cfg, s, step) && h !in s.handlers && h < s.next
    ensures var t := Apply(cfg, s, step);
            h in t.replies ==> h in s.replies && t.replies[h] == s.replies[h]
  {
    hide Enabled, Apply, Tells, Inv;
    if Actor(step).Some? {
      ActorIsAnswered(cfg, s, step, Actor(step).value);
    } else {
      OthersKeepReplies(cfg, s, step);
    }
  }

  // ---------------------------------------------------------------- whole runs

  lemma {:induction false} ReplyStaysInRun(cfg: Config, s: State, steps: seq<Step>, h: nat)
    requires cfg.Valid() && Inv(cfg, s) && Legal(cfg, s, steps) && h !in s.handlers && h < s.next
    ensures var t := Exec(cfg, s, steps);
            h in t.replies ==> h in s.replies && t.replies[h] == s.replies[h]
    decreases |steps|
  {
    hide Inv, Enabled, Apply;
    if steps != [] {
      StepKeepsInv(cfg, s, steps[0]);
      GoneForGood(cfg, s, steps[0], h);
      ReplyStays(cfg, s, steps[0], h);
      ReplyStaysInRun(cfg, Apply(cfg, s, steps[0]), steps[1..], h);
    }
  }

  lemma {:induction false} ClockMovesOnInRun(cfg: Config, s: State, steps: seq<Step>)
    requires cfg.Valid() && Inv(cfg, s) && Legal(cfg, s, steps)
    ensures s.clock <= Exec(cfg, s, steps).clock
    decreases |steps|
  {
    hide Inv, Enabled, Apply;
    if steps != [] {
      StepKeepsInv(cfg, s, steps[0]);
      Orphans.ClockMovesOn(cfg, s, steps[0]);
      ClockMovesOnInRun(cfg, Apply(cfg, s, steps[0]), steps[1..]);
    }
  }

  /** Step `i` of the run ends the wait of `h`, and that is what `h` has been told. */
  ghost predicate AnsweredBy(cfg: Config, s: State, steps: seq<Step>, h: nat, i: nat)
    requires cfg.Valid() && Inv(cfg, s) && Legal(cfg, s, steps) && h in Exec(cfg, s, steps).replies
  {
    && i < |steps| && Legal(cfg, s, steps[..i])
    && var u := Exec(cfg, s, steps[..i]);
       && h in u.handlers && Enabled(cfg, u, steps[i]) && Actor(steps[i]) == Some(h)
       && h !in Apply(cfg, u, steps[i]).handlers && Tells(u, steps[i], Exec(cfg, s, steps).replies[h])
       && u.clock <= Exec(cfg, s, steps).clock
  }

  lemma {:induction false} Answered(cfg: Config, s: State, steps: seq<Step>, h: nat) returns (i: nat)
    requires cfg.Valid() && Inv(cfg, s) && Legal(cfg, s, steps)
    requires h in s.handlers && h in Exec(cfg, s, steps).replies
    ensures AnsweredBy(cfg, s, steps, h, i)
    decreases |steps|
  {
    hide Inv, Enabled, Apply, Tells;
    if steps == [] {
      NotBoth(cfg, s, h);
      assert false;
    } else {
      var s1 := Apply(cfg, s, steps[0]);
      StepKeepsInv(cfg, s, steps[0]);
      StepAnswers(cfg, s, steps[0], h);
      if h in s1.handlers {
        var j := Answered(cfg, s1, steps[1..], h);
        i := j + 1;
        assert steps[..i][1..] == steps[1..][..j] && steps[..i][0] == steps[0];
      } else {
        NumberStaysUsed(cfg, s, steps[0], h);
        ReplyStaysInRun(cfg, s1, steps[1..], h);
        ClockMovesOnInRun(cfg, s, steps);
        i := 0;
        assert steps[..0] == [];
        assert Legal(cfg, s, []) && Exec(cfg, s, []) == s;
      }
    }
  }

  lemma NotBoth(cfg: Config, s: State, h: nat)
    requires Inv(cfg, s) && h in s.handlers
    ensures h !in s.replies
  {
  }

  // ---------------------------------------------------------------- a wait lasts

  /** The step ends a wait without an item or without room. */
  predicate GivesUp(step: Step) {
    step.RefuseRequest? || step.NoResponse? || step.RefuseResponse? || step.NoRequest?
  }

  lemma HotIsDue(cfg: Config, s: State)
    requires Inv(cfg, s) && s.hot.Some?
    ensures s.hot.value in s.handlers && s.handlers[s.hot.value].Blocked() && s.handlers[s.hot.value].until <= s.clock
  {
  }

  /** Nothing gives up before its time is up. */
  lemma GivesUpWhenDue(cfg: Config, s: State, step: Step)
    requires cfg.Valid() && Inv(cfg, s) && Enabled(cfg, s, step) && GivesUp(step)
    ensures step.h in s.handlers && s.handlers[step.h].Blocked() && s.clock == s.handlers[step.h].until
  {
    hide Inv, MayAdvance;
    HandlerIsOk(cfg, s, step.h);
    if s.hot.Some? {
      HotIsDue(cfg, s);
    }
  }

  /** How the wait `p` can go on as the wait `q`: only from the first phase of a POST with block=1 to
      its second, which is granted what is left of the deadline to the whole millisecond. */
  ghost predicate WaitGoesOn(p: Handler, q: Handler) {
    if p.Enqueuing? then
      q == p || (p.block && q.Awaiting? && q.client == p.client && q.entry == p.entry && p.deadline - 1.0 < q.until <= p.deadline)
    else
      p.Blocked() ==> q == p
  }

  lemma WaitStep(cfg: Config, s: State, step: Step, h: nat)
    requires cfg.Valid() && Inv(cfg, s) && Enabled(cfg, s, step)
    requires h in s.handlers && h in Apply(cfg, s, step).handlers
    ensures WaitGoesOn(s.handlers[h], Apply(cfg, s, step).handlers[h])
  {
    hide Inv, DoEnqueue, DoAnswer, DoPutRequest, DoPostRequest, DoPollResponses, DoPostResponse, DoPullRequest, MayGiveUp, MayAdvance;
    if Starts(step) {
      StartAddsNext(cfg, s, step);
    } else if step.Enqueue? || step.Answer? {
      MoveStays(cfg, s, step.h);
    } else if step.PutRequest? {
      var p := s.handlers[step.h];
      HandlerIsOk(cfg, s, step.h);
      PutRequestShape(s, step.h);
      GrantedWaitEndsByDeadline(p.deadline, s.clock);
    } else {
      HandlersStay(cfg, s, step);
    }
  }

  lemma {:induction false} WaitInRun(cfg: Config, s: State, steps: seq<Step>, h: nat)
    requires cfg.Valid() && Inv(cfg, s) && Legal(cfg, s, steps)
    requires h in s.handlers && h in Exec(cfg, s, steps).handlers && s.handlers[h].Blocked()
    ensures WaitGoesOn(s.handlers[h], Exec(cfg, s, steps).handlers[h])
    decreases |steps|
  {
    hide Inv, Enabled, Apply;
    if steps != [] {
      var s1 := Apply(cfg, s, steps[0]);
      StepKeepsInv(cfg, s, steps[0]);
      if h in s1.handlers {
        WaitStep(cfg, s, steps[0], h);
        WaitInRun(cfg, s1, steps[1..], h);
      } else {
        NumberStaysUsed(cfg, s, steps[0], h);
        GoneAfterRun(cfg, s1, steps[1..], h);
      }
    }
  }

  /** The state after the step. */
  ghost function Next(cfg: Config, s: State, step: Step): (t: State)
    requires cfg.Valid() && Inv(cfg, s) && Enabled(cfg, s, step)
    ensures Inv(cfg, t)
  {
    StepKeepsInv(cfg, s, step);
    Apply(cfg, s, step)
  }

  /** What ends a wait of handler `p`, and what it is told then. */
  ghost predicate Ending(p: Handler, reply: Reply, clock: real) {
    match p
    case Polling(c, _, until) => (reply == NoContent && clock >= until) || (reply.Response? && reply.client == c)
    case Pulling(_, until) => (reply == NoContent && clock >= until) || reply.Request?
    case Delivering(_, _, _, until) => (reply == Unavailable && clock >= until) || reply == AcceptedReply
    case Awaiting(c, _, _, _, _, until) => (reply == AcceptedReply && clock >= until) || (reply.Response? && reply.client == c)
    case Enqueuing(c, _, _, _, _, block, _, deadline, until) =>
      || (reply == Unavailable && clock >= until)
      || (reply == AcceptedReply && (block ==> clock > deadline - 1.0))
      || (block && reply.Response? && reply.client == c)
    case _ => true
  }

  lemma StepEnds(cfg: Config, s: State, step: Step, h: nat, reply: Reply)
    requires cfg.Valid() && Inv(cfg, s) && Enabled(cfg, s, step) && Actor(step) == Some(h)
    requires h in s.handlers && h !in Apply(cfg, s, step).handlers && Tells(s, step, reply)
    ensures Ending(s.handlers[h], reply, s.clock)
  {
    hide Inv, Apply, MayGiveUp, MayAdvance;
    ActorIsAnswered(cfg, s, step, h);
    if GivesUp(step) {
      GivesUpWhenDue(cfg, s, step);
    }
  }

  lemma EndsLater(p: Handler, q: Handler, reply: Reply, a: real, b: real)
    requires WaitGoesOn(p, q) && p.Blocked() && Ending(q, reply, a) && a <= b
    ensures Ending(p, reply, b)
  {
  }

  /** A wait of the server, over any run: it does not go on past its time, and the caller is told that
      there was nothing, or no room, only when its time is up. */
  lemma WaitIsKept(cfg: Config, s: State, steps: seq<Step>, h: nat)
    requires cfg.Valid() && Inv(cfg, s) && Legal(cfg, s, steps) && h in s.handlers && s.handlers[h].Blocked()
    ensures var t, p := Exec(cfg, s, steps), s.handlers[h];
            && (h in t.handlers ==> t.clock <= if p.Enqueuing? then p.deadline else p.until)
            && (h in t.replies ==> Ending(p, t.replies[h], t.clock))
  {
    hide Inv, Legal, Exec, Enabled, Apply, Tells, Ending;
    var t, p := Exec(cfg, s, steps), s.handlers[h];
    HandlerIsOk(cfg, s, h);
    if h in t.handlers {
      WaitInRun(cfg, s, steps, h);
      HandlerIsOk(cfg, t, h);
      NotBoth(cfg, t, h);
    } else if h in t.replies {
      var i := Answered(cfg, s, steps, h);
      var u := Exec(cfg, s, steps[..i]);
      WaitInRun(cfg, s, steps[..i], h);
      StepEnds(cfg, u, steps[i], h, t.replies[h]);
      EndsLater(p, u.handlers[h], t.replies[h], u.clock, t.clock);
    }
  }

  // ---------------------------------------------------------------- the four requests

  /** The timeout that a request asks for, or the longest when it asks for none. */
  ghost predicate AsksFor(cfg: Config, timeout: Option<int>, n: nat) {
    n <= cfg.maxTimeout && if timeout.Some? then timeout.value == n else n == cfg.maxTimeout
  }

  /** GET /clients/{id}, from its start: it is answered by the time it asked for, with a response for
      its client, or with 204 and then not before that time. */
  lemma PollAnswered(cfg: Config, s: State, c: ClientId, timeout: Option<int>, n: nat, steps: seq<Step>)
    requires cfg.Valid() && Inv(cfg, s) && Enabled(cfg, s, PollResponses(c, timeout)) && AsksFor(cfg, timeout, n)
    requires Legal(cfg, Next(cfg, s, PollResponses(c, timeout)), steps)
    ensures var t, h := Exec(cfg, Next(cfg, s, PollResponses(c, timeout)), steps), s.next;
            && (h in t.handlers ==> t.clock <= s.clock + n as real)
            && (h in t.replies ==> (t.replies[h] == NoContent && t.clock >= s.clock + n as real) || (t.replies[h].Response? && t.replies[h].client == c))
  {
    hide Inv, Legal, Exec, Enabled, MayGiveUp;
    var s1 := Next(cfg, s, PollResponses(c, timeout));
    PollStarts(cfg, s, c, timeout, n);
    WaitIsKept(cfg, s1, steps, s.next);
  }

  lemma PollStarts(cfg: Config, s: State, c: ClientId, timeout: Option<int>, n: nat)
    requires cfg.Valid() && Inv(cfg, s) && Enabled(cfg, s, PollResponses(c, timeout)) && AsksFor(cfg, timeout, n)
    ensures var t := Next(cfg, s, PollResponses(c, timeout));
            && c in t.clients.registry && s.next in t.handlers
            && t.handlers[s.next] == Polling(c, t.clients.registry[c], s.clock + n as real) && t.clock == s.clock
            && t.hot == (if n == 0 then Some(s.next) else None)
  {
    hide Inv;
  }

  /** GET /services/{name}: the same, with a request. */
  lemma PullAnswered(cfg: Config, s: State, service: ServiceName, timeout: Option<int>, n: nat, steps: seq<Step>)
    requires cfg.Valid() && Inv(cfg, s) && Enabled(cfg, s, PullRequest(service, timeout)) && AsksFor(cfg, timeout, n)
    requires Legal(cfg, Next(cfg, s, PullRequest(service, timeout)), steps)
    ensures var t, h := Exec(cfg, Next(cfg, s, PullRequest(service, timeout)), steps), s.next;
            && (h in t.handlers ==> t.clock <= s.clock + n as real)
            && (h in t.replies ==> (t.replies[h] == NoContent && t.clock >= s.clock + n as real) || t.replies[h].Request?)
  {
    hide Inv, Legal, Exec, Enabled, MayGiveUp;
    var s1 := Next(cfg, s, PullRequest(service, timeout));
    PullStarts(cfg, s, service, timeout, n);
    WaitIsKept(cfg, s1, steps, s.next);
  }

  lemma PullStarts(cfg: Config, s: State, service: ServiceName, timeout: Option<int>, n: nat)
    requires cfg.Valid() && Inv(cfg, s) && Enabled(cfg, s, PullRequest(service, timeout)) && AsksFor(cfg, timeout, n)
    ensures var t := Next(cfg, s, PullRequest(service, timeout));
            && service in t.services && s.next in t.handlers
            && t.handlers[s.next] == Pulling(service, s.clock + n as real) && t.clock == s.clock
            && t.hot == (if n == 0 then Some(s.next) else None)
  {
    hide Inv;
  }

  /** POST /clients/{id}, from the moment its body has been read: it is answered by the time it asked
      for, with 202, or with 503 and then not before that time. */
  lemma ResponsePostAnswered(cfg: Config, s: State, h: nat, steps: seq<Step>)
    requires cfg.Valid() && Inv(cfg, s) && Enabled(cfg, s, Answer(h)) && Legal(cfg, Next(cfg, s, Answer(h)), steps)
    ensures h in s.handlers && s.handlers[h].Answering?
    ensures var t, n := Exec(cfg, Next(cfg, s, Answer(h)), steps), s.handlers[h].timeout;
            && (h in t.handlers ==> t.clock <= s.clock + n as real)
            && (h in t.replies ==> t.replies[h] == AcceptedReply || (t.replies[h] == Unavailable && t.clock >= s.clock + n as real))
  {
    hide Inv, Legal, Exec, MayGiveUp, MayAdvance;
    var s1 := Next(cfg, s, Answer(h));
    AnswerStarts(cfg, s, h);
    WaitIsKept(cfg, s1, steps, h);
  }

  /** POST /services/{name}, from the moment its body has been read: both phases end by the time it
      asked for; 503 comes at that time, 202 with block=1 less than a millisecond before it, and a
      response only with block=1 and for its client. */
  lemma RequestPostAnswered(cfg: Config, s: State, h: nat, steps: seq<Step>)
    requires cfg.Valid() && Inv(cfg, s) && Enabled(cfg, s, Enqueue(h)) && Legal(cfg, Next(cfg, s, Enqueue(h)), steps)
    ensures h in s.handlers && s.handlers[h].Posting?
    ensures var t, p := Exec(cfg, Next(cfg, s, Enqueue(h)), steps), s.handlers[h];
            var end := s.clock + p.total as real;
            && (h in t.handlers ==> t.clock <= end)
            && (h in t.replies ==>
                  || (t.replies[h] == Unavailable && t.clock >= end)
                  || (t.replies[h] == AcceptedReply && (p.block ==> t.clock > end - 1.0))
                  || (p.block && t.replies[h].Response? && t.replies[h].client == p.client))
  {
    hide Inv, Legal, Exec, MayGiveUp, MayAdvance;
    var s1 := Next(cfg, s, Enqueue(h));
    EnqueueStarts(cfg, s, h);
    WaitIsKept(cfg, s1, steps, h);
  }

  // ---------------------------------------------------------------- no timeout at all

  /** A handler that may not wait is the next to move. */
  lemma HotMovesNext(cfg: Config, s: State, h: nat, step: Step)
    requires cfg.Valid() && Inv(cfg, s) && s.hot == Some(h) && Enabled(cfg, s, step)
    ensures h in s.handlers
    ensures s.handlers[h].Polling? || s.handlers[h].Awaiting? ==> step == if ResponseAvailable(s, h) then TakeResponse(h) else NoResponse(h)
    ensures s.handlers[h].Pulling? ==> step == if RequestAvailable(s, h) then TakeRequest(h) else NoRequest(h)
    ensures s.handlers[h].Delivering? ==>
              s.handlers[h].entry < |s.clients.entries|
              && step == if |s.clients.entries[s.handlers[h].entry].queue.items| < cfg.clientMax then PutResponse(h) else RefuseResponse(h)
    ensures s.handlers[h].Enqueuing? ==>
              s.handlers[h].service in s.services
              && step == if |s.services[s.handlers[h].service].items| < cfg.serviceMax then PutRequest(h) else RefuseRequest(h)
  {
    hide Inv, MayAdvance;
    HotIsDue(cfg, s);
    HandlerIsOk(cfg, s, h);
  }

  /** A GET with timeout 0 is answered at once, before anything else happens: with the head of its
      queue, or with 204 exactly if that is empty. */
  lemma PollAtOnce(cfg: Config, s: State, c: ClientId, step: Step)
    requires cfg.Valid() && Inv(cfg, s) && Enabled(cfg, s, PollResponses(c, Some(0)))
    requires Enabled(cfg, Next(cfg, s, PollResponses(c, Some(0))), step)
    ensures var t := Next(cfg, s, PollResponses(c, Some(0)));
            && c in t.clients.registry && t.clients.registry[c] < |t.clients.entries|
            && var items, u := t.clients.entries[t.clients.registry[c]].queue.items, Next(cfg, t, step);
               s.next in u.replies && u.replies[s.next] == if items == [] then NoContent else Response(c, items[0])
  {
    hide Inv, Enabled;
    var t := Next(cfg, s, PollResponses(c, Some(0)));
    PollStarts(cfg, s, c, Some(0), 0);
    HandlerIsOk(cfg, t, s.next);
    HotMovesNext(cfg, t, s.next, step);
    ActorIsAnswered(cfg, t, step, s.next);
  }

  /** The same for a pull. */
  lemma PullAtOnce(cfg: Config, s: State, service: ServiceName, step: Step)
    requires cfg.Valid() && Inv(cfg, s) && Enabled(cfg, s, PullRequest(service, Some(0)))
    requires Enabled(cfg, Next(cfg, s, PullRequest(service, Some(0))), step)
    ensures var t := Next(cfg, s, PullRequest(service, Some(0)));
            && service in t.services
            && var items, u := t.services[service].items, Next(cfg, t, step);
               s.next in u.replies && u.replies[s.next] == if items == [] then NoContent else Request(items[0])
  {
    hide Inv, Enabled;
    var t := Next(cfg, s, PullRequest(service, Some(0)));
    PullStarts(cfg, s, service, Some(0), 0);
    HotMovesNext(cfg, t, s.next, step);
    ActorIsAnswered(cfg, t, step, s.next);
  }

  /** A POST of a response with timeout 0 is accepted at once, or refused exactly if the queue it holds is full. */
  lemma ResponsePostAtOnce(cfg: Config, s: State, h: nat, step: Step)
    requires cfg.Valid() && Inv(cfg, s) && Enabled(cfg, s, Answer(h)) && h in s.handlers && s.handlers[h].Answering? && s.handlers[h].timeout == 0
    requires Enabled(cfg, Next(cfg, s, Answer(h)), step)
    ensures s.handlers[h].entry < |s.clients.entries|
    ensures var items, u := s.clients.entries[s.handlers[h].entry].queue.items, Next(cfg, Next(cfg, s, Answer(h)), step);
            h in u.replies && u.replies[h] == if |items| < cfg.clientMax then AcceptedReply else Unavailable
  {
    hide Inv, Ready;
    var t := Next(cfg, s, Answer(h));
    AnswerStarts(cfg, s, h);
    HotMovesNext(cfg, t, h, step);
    ActorIsAnswered(cfg, t, step, h);
  }

  lemma AnswerStarts(cfg: Config, s: State, h: nat)
    requires cfg.Valid() && Inv(cfg, s) && Enabled(cfg, s, Answer(h)) && h in s.handlers && s.handlers[h].Answering?
    ensures var t, p := Next(cfg, s, Answer(h)), s.handlers[h];
            && h in t.handlers && t.handlers[h] == Delivering(p.client, p.entry, p.response, s.clock + p.timeout as real)
            && t.hot == (if p.timeout == 0 then Some(h) else None) && t.clients == s.clients && t.clock == s.clock
  {
    hide Inv;
  }

  lemma EnqueueStarts(cfg: Config, s: State, h: nat)
    requires cfg.Valid() && Inv(cfg, s) && Enabled(cfg, s, Enqueue(h)) && h in s.handlers && s.handlers[h].Posting?
    ensures var t, p, until := Next(cfg, s, Enqueue(h)), s.handlers[h], s.clock + s.handlers[h].total as real;
            && h in t.handlers
            && t.handlers[h] == Enqueuing(p.client, p.entry, p.service, p.request, p.total, p.block, p.since, until, until)
            && t.hot == (if p.total == 0 then Some(h) else None) && p.service in t.services && t.clock == s.clock
  {
    hide Inv;
    WholeGrant(s.clock, s.handlers[h].total);
  }

  /** The same for a POST of a request without block=1. */
  lemma RequestPostAtOnce(cfg: Config, s: State, h: nat, step: Step)
    requires cfg.Valid() && Inv(cfg, s) && Enabled(cfg, s, Enqueue(h)) && h in s.handlers && s.handlers[h].Posting?
    requires s.handlers[h].total == 0 && !s.handlers[h].block
    requires Enabled(cfg, Next(cfg, s, Enqueue(h)), step)
    ensures var t, service := Next(cfg, s, Enqueue(h)), s.handlers[h].service;
            && service in t.services
            && var u := Next(cfg, t, step);
               h in u.replies && u.replies[h] == if |t.services[service].items| < cfg.serviceMax then AcceptedReply else Unavailable
  {
    hide Inv, Ready;
    var t := Next(cfg, s, Enqueue(h));
    EnqueueStarts(cfg, s, h);
    HotMovesNext(cfg, t, h, step);
    ActorIsAnswered(cfg, t, step, h);
  }
}
