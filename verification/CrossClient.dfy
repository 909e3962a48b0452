/** No response is ever handed to a client it was not posted to. */
module CrossClient {
  import opened Messages
  import opened Store
  import opened Sweeping
  import opened Protocol
  import Frames

  ghost predicate QueuesPosted(clients: Clients, posted: set<(ClientId, PypeResponse)>) {
    forall r, x :: 0 <= r < |clients.entries| && x in clients.entries[r].queue.put ==> (clients.entries[r].client, x) in posted
  }

  ghost predicate HandlersPosted(s: State) {
    forall h :: h in s.handlers && (s.handlers[h].Answering? || s.handlers[h].Delivering?) ==>
                  (s.handlers[h].client, s.handlers[h].response) in s.posted
  }

  ghost predicate DeliveredPosted(s: State) {
    && (forall d :: d in s.delivered ==> d in s.posted)
    && (forall h :: h in s.replies && s.replies[h].Response? ==> (s.replies[h].client, s.replies[h].response) in s.posted)
  }

  ghost predicate AllPosted(s: State) {
    QueuesPosted(s.clients, s.posted) && HandlersPosted(s) && DeliveredPosted(s)
  }

  lemma TouchKeepsPosted(clients: Clients, posted: set<(ClientId, PypeResponse)>, c: ClientId, now: real)
    requires QueuesPosted(clients, posted)
    ensures QueuesPosted(clients.GetOrCreate(c, now), posted)
    ensures QueuesPosted(clients.Bump(c, now), posted)
    ensures QueuesPosted(clients.GetOrCreate(c, now).Bump(c, now), posted)
  {
  }

  lemma PostRequestKeepsPosted(cfg: Config, s: State, c: ClientId, service: ServiceName, request: PypeRequest, timeout: Option<int>, block: bool)
    requires AllPosted(s)
    ensures AllPosted(DoPostRequest(cfg, s, c, service, request, timeout, block))
  {
    TouchKeepsPosted(s.clients, s.posted, c, s.clock);
  }

  lemma PollResponsesKeepsPosted(cfg: Config, s: State, c: ClientId, timeout: Option<int>)
    requires AllPosted(s)
    ensures AllPosted(DoPollResponses(cfg, s, c, timeout))
  {
    TouchKeepsPosted(s.clients, s.posted, c, s.clock);
  }

  lemma PullRequestKeepsPosted(cfg: Config, s: State, service: ServiceName, timeout: Option<int>)
    requires AllPosted(s)
    ensures AllPosted(DoPullRequest(cfg, s, service, timeout)) && AllPosted(Ensure(s, service))
  {
  }

  lemma PostResponseKeepsPosted(cfg: Config, s: State, c: ClientId, x: PypeResponse, timeout: Option<int>)
    requires AllPosted(s)
    ensures AllPosted(DoPostResponse(cfg, s, c, x, timeout))
  {
    TouchKeepsPosted(s.clients, s.posted, c, s.clock);
  }

  lemma TakeResponseKeepsPosted(cfg: Config, s: State, h: nat)
    requires Inv(cfg, s) && ResponseAvailable(s, h) && AllPosted(s)
    ensures AllPosted(DoTakeResponse(s, h))
  {
    var p := s.handlers[h];
    var q := s.clients.entries[p.entry].queue;
    assert q.Valid(cfg.clientMax) && HandlerOk(cfg, s.clock, s.clients, s.services, p);
    assert q.items[0] == (q.taken + q.items)[|q.taken|];
    assert (p.client, q.items[0]) in s.posted;
    TouchKeepsPosted(s.clients.Take(p.entry), s.posted, p.client, s.clock);
  }

  lemma EnqueueKeepsPosted(s: State, h: nat)
    requires h in s.handlers && s.handlers[h].Posting? && AllPosted(s)
    ensures AllPosted(DoEnqueue(s, h))
  {
  }

  lemma PutRequestKeepsPosted(s: State, h: nat)
    requires h in s.handlers && s.handlers[h].Enqueuing? && s.handlers[h].service in s.services && AllPosted(s)
    ensures AllPosted(DoPutRequest(s, h))
  {
    TouchKeepsPosted(s.clients, s.posted, s.handlers[h].client, s.clock);
  }

  lemma BumpAndFinishKeepsPosted(s: State, h: nat, c: ClientId, reply: Reply)
    requires h in s.handlers && AllPosted(s) && !reply.Response?
    ensures AllPosted(Finish(Bump(s, c), h, reply)) && AllPosted(Finish(s, h, reply))
  {
    TouchKeepsPosted(s.clients, s.posted, c, s.clock);
  }

  lemma RefuseRequestKeepsPosted(s: State, h: nat)
    requires h in s.handlers && s.handlers[h].Enqueuing? && AllPosted(s)
    ensures AllPosted(DoRefuseRequest(s, h))
  {
    hide AllPosted;
    BumpAndFinishKeepsPosted(s, h, s.handlers[h].client, Unavailable);
  }

  lemma NoResponseKeepsPosted(s: State, h: nat)
    requires GetsResponse(s, h) && AllPosted(s)
    ensures AllPosted(DoNoResponse(s, h))
  {
    hide AllPosted;
    BumpAndFinishKeepsPosted(s, h, s.handlers[h].client, NoContent);
    BumpAndFinishKeepsPosted(s, h, s.handlers[h].client, AcceptedReply);
  }

  lemma PutResponseKeepsPosted(cfg: Config, s: State, h: nat)
    requires Inv(cfg, s) && h in s.handlers && s.handlers[h].Delivering? && s.handlers[h].entry < |s.clients.entries|
    requires AllPosted(s)
    ensures AllPosted(DoPutResponse(s, h))
  {
    assert HandlerOk(cfg, s.clock, s.clients, s.services, s.handlers[h]);
  }

  lemma AnswerKeepsPosted(s: State, h: nat)
    requires h in s.handlers && s.handlers[h].Answering? && AllPosted(s)
    ensures AllPosted(DoAnswer(s, h))
  {
  }

  lemma RefuseResponseKeepsPosted(s: State, h: nat)
    requires h in s.handlers && s.handlers[h].Delivering? && AllPosted(s)
    ensures AllPosted(DoRefuseResponse(s, h))
  {
  }

  lemma PullKeepsPosted(s: State, h: nat)
    requires h in s.handlers && AllPosted(s)
    ensures RequestAvailable(s, h) ==> AllPosted(DoTakeRequest(s, h))
    ensures AllPosted(DoNoRequest(s, h))
  {
  }

  lemma EvictionKeepsPosted(cfg: Config, s: State, c: ClientId, snapshot: seq<ClientId>)
    requires cfg.Valid() && AllPosted(s)
    ensures AllPosted(DoLogoff(s, c)) && AllPosted(DoReap(cfg, s, snapshot))
  {
    hide Evicted, TickCursor, MomentOf;
  }

  lemma WireKeepsPosted(s: State, h: nat)
    requires h in s.replies && AllPosted(s)
    ensures s.replies[h].Request? ==> AllPosted(DoCollectRequest(s, h))
    ensures s.replies[h].Response? ==> AllPosted(DoCollectResponse(s, h, true)) && AllPosted(DoCollectResponse(s, h, false))
  {
  }

  lemma SameKeepsPosted(s: State, t: State)
    requires AllPosted(s) && t.clients == s.clients && t.posted == s.posted && t.handlers == s.handlers
    requires t.delivered == s.delivered && t.replies == s.replies
    ensures AllPosted(t)
  {
  }

  lemma StepKeepsPosted(cfg: Config, s: State, step: Step)
    requires cfg.Valid() && Inv(cfg, s) && Enabled(cfg, s, step) && AllPosted(s)
    ensures AllPosted(Apply(cfg, s, step))
  {
    hide DoPostRequest, DoPollResponses, DoPostResponse, DoPullRequest, DoEnqueue, DoPutRequest, DoRefuseRequest, DoTakeResponse, DoNoResponse;
    hide DoAnswer, DoPutResponse, DoRefuseResponse, DoTakeRequest, DoNoRequest, Ensure, DoLogoff, DoReap, DoCollectRequest, DoCollectResponse;
    hide Inv, AllPosted, MayGiveUp, MayAdvance;
    match step
    case PostRequest(c, service, request, timeout, block) => PostRequestKeepsPosted(cfg, s, c, service, request, timeout, block);
    case PollResponses(c, timeout) => PollResponsesKeepsPosted(cfg, s, c, timeout);
    case PullRequest(service, timeout) => PullRequestKeepsPosted(cfg, s, service, timeout);
    case AuthService(service) => PullRequestKeepsPosted(cfg, s, service, None);
    case PostResponse(c, x, timeout) => PostResponseKeepsPosted(cfg, s, c, x, timeout);
    case Enqueue(h) => EnqueueKeepsPosted(s, h);
    case PutRequest(h) =>
      HandlerIsOk(cfg, s, h);
      PutRequestKeepsPosted(s, h);
    case RefuseRequest(h) => RefuseRequestKeepsPosted(s, h);
    case NoResponse(h) => NoResponseKeepsPosted(s, h);
    case TakeResponse(h) => TakeResponseKeepsPosted(cfg, s, h);
    case PutResponse(h) =>
      HandlerIsOk(cfg, s, h);
      PutResponseKeepsPosted(cfg, s, h);
    case Answer(h) => AnswerKeepsPosted(s, h);
    case RefuseResponse(h) => RefuseResponseKeepsPosted(s, h);
    case TakeRequest(h) => PullKeepsPosted(s, h);
    case NoRequest(h) => PullKeepsPosted(s, h);
    case Logoff(c) => EvictionKeepsPosted(cfg, s, c, []);
    case Reap(snapshot) => EvictionKeepsPosted(cfg, s, "", snapshot);
    case Advance(_) => SameKeepsPosted(s, Apply(cfg, s, step));
    case CollectRequest(h) => WireKeepsPosted(s, h);
    case CollectResponse(h, _) => WireKeepsPosted(s, h);
    case PopCached(_) => SameKeepsPosted(s, Apply(cfg, s, step));
  }

  lemma {:induction false} RunKeepsPosted(cfg: Config, s: State, steps: seq<Step>)
    requires cfg.Valid() && Inv(cfg, s) && Legal(cfg, s, steps) && AllPosted(s)
    ensures AllPosted(Exec(cfg, s, steps))
    decreases |steps|
  {
    if steps != [] {
      StepKeepsInv(cfg, s, steps[0]);
      StepKeepsPosted(cfg, s, steps[0]);
      RunKeepsPosted(cfg, Apply(cfg, s, steps[0]), steps[1..]);
    }
  }

  ghost predicate PostedBy(steps: seq<Step>, c: ClientId, x: PypeResponse) {
    exists i :: 0 <= i < |steps| && steps[i].PostResponse? && steps[i].client == c && steps[i].response == x
  }

  lemma {:induction false} PostedOnlyByPosts(cfg: Config, s: State, steps: seq<Step>, c: ClientId, x: PypeResponse)
    requires cfg.Valid() && Inv(cfg, s) && Legal(cfg, s, steps)
    requires (c, x) in Exec(cfg, s, steps).posted && (c, x) !in s.posted
    ensures PostedBy(steps, c, x)
    decreases |steps|
  {
    if steps != [] {
      var s1 := Apply(cfg, s, steps[0]);
      StepKeepsInv(cfg, s, steps[0]);
      if (c, x) in s1.posted {
        Frames.StepClock(cfg, s, steps[0]);
      } else {
        PostedOnlyByPosts(cfg, s1, steps[1..], c, x);
        var i :| 0 <= i < |steps[1..]| && steps[1..][i].PostResponse? && steps[1..][i].client == c && steps[1..][i].response == x;
        assert steps[i + 1] == steps[1..][i];
      }
    }
  }

  /** In any run, of honest services or not, every response taken for a client, by a poll or by the
      second phase of a POST with block=1, was posted to that very client by some step of the run. */
  lemma NoCrossClientDelivery(cfg: Config, steps: seq<Step>, c: ClientId, x: PypeResponse)
    requires cfg.Valid() && IsRun(cfg, steps)
    requires (c, x) in Reached(cfg, steps).delivered
    ensures PostedBy(steps, c, x)
  {
    InitInv(cfg);
    RunKeepsPosted(cfg, Init(), steps);
    PostedOnlyByPosts(cfg, Init(), steps, c, x);
  }
}
