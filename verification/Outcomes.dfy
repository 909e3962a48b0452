/** What the reply to a POST is worth: 503 means that the message was not taken, 202 that it was. */
module Outcomes {
  import opened Messages
  import opened Deadlines
  import opened Store
  import opened Sweeping
  import opened Protocol
  import opened Frames
  import opened Conservation
  import opened ConservationTheorems
  import opened Answers
  import Reach

  // ---------------------------------------------------------------- what a step accepts and drops

  /** The request that the step puts on a service queue. */
  ghost function AcceptedBy(s: State, step: Step): set<Token> {
    if step.PutRequest? && step.h in s.handlers && s.handlers[step.h].Enqueuing? then {TokenOf(s.handlers[step.h].request)} else {}
  }

  /** The response that the step drops. */
  ghost function DroppedBy(cfg: Config, s: State, step: Step): set<Token> {
    if step.PostResponse? && NormalizeTimeout(step.timeout, cfg.maxTimeout).Err? then
      {Token(step.client, step.response.requestId)}
    else if step.RefuseResponse? && step.h in s.handlers && s.handlers[step.h].Delivering? then
      {Token(s.handlers[step.h].client, s.handlers[step.h].response.requestId)}
    else {}
  }

  /** Nothing has been minted, accepted or dropped. */
  ghost predicate Holds(t: State, s: State) {
    t.accepted == s.accepted && t.dropped == s.dropped && t.minted == s.minted
  }

  lemma TokensOfRefusals(s: State, h: nat)
    requires h in s.handlers
    ensures s.handlers[h].Delivering? ==>
              var t := DoRefuseResponse(s, h);
              t.accepted == s.accepted && t.minted == s.minted && t.dropped == s.dropped + {Token(s.handlers[h].client, s.handlers[h].response.requestId)}
    ensures s.handlers[h].Delivering? && s.handlers[h].entry < |s.clients.entries| ==>
              Holds(DoPutResponse(s, h), s)
    ensures ResponseAvailable(s, h) ==> Holds(DoTakeResponse(s, h), s)
    ensures RequestAvailable(s, h) ==> Holds(DoTakeRequest(s, h), s)
  {
    hide Clients.Bump, Clients.Take, Clients.Put;
  }

  /** Only a put accepts, only a refusal drops. */
  lemma StepTokens(cfg: Config, s: State, step: Step)
    requires cfg.Valid() && Inv(cfg, s) && Enabled(cfg, s, step)
    ensures var t := Apply(cfg, s, step);
            && t.accepted == s.accepted + AcceptedBy(s, step) && t.dropped == s.dropped + DroppedBy(cfg, s, step)
            && s.minted <= t.minted
  {
    hide DoPostRequest, DoPollResponses, DoPullRequest, DoPostResponse, DoEnqueue, DoPutRequest, DoRefuseRequest, DoReap, DoLogoff, Ensure;
    hide DoTakeRequest, DoNoRequest, DoTakeResponse, DoNoResponse, DoAnswer, DoPutResponse, DoRefuseResponse, DoCollectRequest, DoCollectResponse;
    hide Inv, MayGiveUp, MayAdvance, Still, NormalizeTimeout;
    match step
    case PostRequest(c, service, request, timeout, block) => PostRequestShape(cfg, s, c, service, request, timeout, block);
    case PostResponse(c, x, timeout) =>
      PostResponseShape(cfg, s, c, x, timeout);
      PostResponseMints(cfg, s, c, x, timeout);
    case PutRequest(h) =>
      HandlerIsOk(cfg, s, h);
      PutRequestShape(s, h);
    case TakeRequest(h) => TokensOfRefusals(s, h);
    case PutResponse(h) =>
      HandlerIsOk(cfg, s, h);
      TokensOfRefusals(s, h);
    case RefuseResponse(h) => TokensOfRefusals(s, h);
    case TakeResponse(h) => TokensOfRefusals(s, h);
    case CollectRequest(h) => CollectTokens(s, h, false);
    case CollectResponse(h, toCaller) => CollectTokens(s, h, toCaller);
    case PopCached(_) =>
    case _ =>
      StillStep(cfg, s, step);
      StillTokens(s, Apply(cfg, s, step));
  }

  lemma StillTokens(s: State, t: State)
    requires Still(s, t)
    ensures t.accepted == s.accepted && t.dropped == s.dropped && s.minted <= t.minted
  {
  }

  lemma CollectTokens(s: State, h: nat, toCaller: bool)
    requires h in s.replies
    ensures s.replies[h].Request? ==> Holds(DoCollectRequest(s, h), s)
    ensures s.replies[h].Response? ==>
              Holds(DoCollectResponse(s, h, toCaller), s)
  {
  }

  // ---------------------------------------------------------------- the POST of a request

  lemma StepPosters(cfg: Config, s: State, step: Step, h: nat)
    requires cfg.Valid() && Inv(cfg, s) && Enabled(cfg, s, step)
    requires h in Apply(cfg, s, step).handlers && IsPoster(Apply(cfg, s, step).handlers[h])
    ensures var q := Apply(cfg, s, step).handlers[h];
            if h in s.handlers then IsPoster(s.handlers[h]) && q.request == s.handlers[h].request && q.service == s.handlers[h].service
            else step.PostRequest? && q.request == step.request && q.service == step.service
  {
    hide Inv, DoEnqueue, DoAnswer, DoPutRequest, DoPostRequest, DoPollResponses, DoPostResponse, DoPullRequest, MayGiveUp, MayAdvance;
    if Starts(step) {
      StartAddsNext(cfg, s, step);
      match step
      case PostRequest(c, service, request, timeout, block) => PostRequestShape(cfg, s, c, service, request, timeout, block);
      case PollResponses(c, timeout) => PollIsNoPoster(cfg, s, c, timeout);
      case _ =>
    } else if step.Enqueue? || step.Answer? {
      MovesKeepPosters(s, step.h);
    } else if step.PutRequest? {
      HandlerIsOk(cfg, s, step.h);
      PutRequestShape(s, step.h);
    } else {
      HandlersStay(cfg, s, step);
    }
  }

  lemma PollIsNoPoster(cfg: Config, s: State, c: ClientId, timeout: Option<int>)
    requires s.next !in s.handlers
    ensures var t := DoPollResponses(cfg, s, c, timeout); s.next in t.handlers ==> t.handlers[s.next].Polling?
  {
  }

  lemma MovesKeepPosters(s: State, h: nat)
    requires h in s.handlers
    ensures s.handlers[h].Posting? ==>
              var t := DoEnqueue(s, h);
              && t.handlers == s.handlers[h := t.handlers[h]] && IsPoster(t.handlers[h])
              && t.handlers[h].request == s.handlers[h].request && t.handlers[h].service == s.handlers[h].service
    ensures s.handlers[h].Answering? ==> var t := DoAnswer(s, h); t.handlers == s.handlers[h := t.handlers[h]] && t.handlers[h].Delivering?
  {
  }

  /** The request has been minted, was not accepted, and nobody is about to put it on a queue. */
  ghost predicate Lost(s: State, x: Token) {
    && x in s.minted && x !in s.accepted
    && forall h :: h in s.handlers && IsPoster(s.handlers[h]) ==> TokenOf(s.handlers[h].request) != x
  }

  lemma LostStep(cfg: Config, s: State, step: Step, x: Token)
    requires cfg.Valid() && Inv(cfg, s) && Enabled(cfg, s, step) && Honest(s, step) && Lost(s, x)
    ensures Lost(Apply(cfg, s, step), x)
  {
    hide Inv, Enabled, Apply;
    var t := Apply(cfg, s, step);
    StepTokens(cfg, s, step);
    forall h | h in t.handlers && IsPoster(t.handlers[h])
      ensures TokenOf(t.handlers[h].request) != x
    {
      StepPosters(cfg, s, step, h);
    }
  }

  lemma {:induction false} LostForGood(cfg: Config, s: State, steps: seq<Step>, x: Token)
    requires cfg.Valid() && Inv(cfg, s) && Legal(cfg, s, steps) && HonestRun(cfg, s, steps) && Lost(s, x)
    ensures x !in Exec(cfg, s, steps).accepted
    decreases |steps|
  {
    hide Inv, Enabled, Apply, Honest;
    if steps != [] {
      StepKeepsInv(cfg, s, steps[0]);
      LostStep(cfg, s, steps[0], x);
      LostForGood(cfg, Apply(cfg, s, steps[0]), steps[1..], x);
    }
  }

  lemma {:induction false} AcceptedForGood(cfg: Config, s: State, steps: seq<Step>, x: Token)
    requires cfg.Valid() && Inv(cfg, s) && Legal(cfg, s, steps) && x in s.accepted
    ensures x in Exec(cfg, s, steps).accepted
    decreases |steps|
  {
    hide Inv, Enabled, Apply;
    if steps != [] {
      StepKeepsInv(cfg, s, steps[0]);
      StepTokens(cfg, s, steps[0]);
      AcceptedForGood(cfg, Apply(cfg, s, steps[0]), steps[1..], x);
    }
  }

  /** What the POST of a request in `s` is told, once it has been answered in `t`. */
  ghost predicate RequestTold(t: State, h: nat, x: Token) {
    h in t.replies ==> if t.replies[h] == Unavailable then x !in t.accepted
                       else (t.replies[h] == AcceptedReply || t.replies[h].Response?) && x in t.accepted
  }

  /** The step that ends phase 1. */
  lemma PosterStep(cfg: Config, s: State, step: Step, h: nat)
    requires cfg.Valid() && Inv(cfg, s) && Enabled(cfg, s, step) && Honest(s, step) && Accounted(s)
    requires h in s.handlers && IsPoster(s.handlers[h])
    ensures var t, x := Apply(cfg, s, step), TokenOf(s.handlers[h].request);
            if h in t.handlers then
              if IsPoster(t.handlers[h]) then t.handlers[h].request == s.handlers[h].request
              else t.handlers[h].Awaiting? && x in t.accepted
            else
              && h in t.replies
              && ((t.replies[h] == Unavailable && Lost(t, x)) || (t.replies[h] == AcceptedReply && x in t.accepted))
  {
    hide Inv, Enabled, Apply, Conserved, NoDuplicates, StoreInv, HandlerOk;
    var t, x := Apply(cfg, s, step), TokenOf(s.handlers[h].request);
    StepAnswers(cfg, s, step, h);
    StepTokens(cfg, s, step);
    if h in t.handlers {
      if IsPoster(t.handlers[h]) {
        StepPosters(cfg, s, step, h);
      } else {
        PosterMoves(cfg, s, step, h);
      }
    } else {
      PosterEnds(cfg, s, step, h);
      forall k | k in t.handlers && IsPoster(t.handlers[k])
        ensures step.RefuseRequest? ==> TokenOf(t.handlers[k].request) != x
      {
        StepPosters(cfg, s, step, k);
      }
    }
  }

  lemma PosterMoves(cfg: Config, s: State, step: Step, h: nat)
    requires cfg.Valid() && Inv(cfg, s) && Enabled(cfg, s, step)
    requires h in s.handlers && IsPoster(s.handlers[h]) && h in Apply(cfg, s, step).handlers && !IsPoster(Apply(cfg, s, step).handlers[h])
    ensures Apply(cfg, s, step).handlers[h].Awaiting? && step == PutRequest(h) && s.handlers[h].Enqueuing?
  {
    hide Inv, DoEnqueue, DoAnswer, DoPutRequest, DoPostRequest, DoPollResponses, DoPostResponse, DoPullRequest, MayGiveUp, MayAdvance;
    if Starts(step) {
      StartAddsNext(cfg, s, step);
    } else if step.Enqueue? || step.Answer? {
      MovesKeepPosters(s, step.h);
    } else if step.PutRequest? {
      HandlerIsOk(cfg, s, step.h);
      PutRequestShape(s, step.h);
    } else {
      HandlersStay(cfg, s, step);
    }
  }

  /** What ends the wait of a poster. */
  lemma PosterEnds(cfg: Config, s: State, step: Step, h: nat)
    requires cfg.Valid() && Inv(cfg, s) && Enabled(cfg, s, step) && Actor(step) == Some(h)
    requires h in s.handlers && IsPoster(s.handlers[h])
    ensures (step == PutRequest(h) || step == RefuseRequest(h)) && s.handlers[h].Enqueuing?
    ensures h in Apply(cfg, s, step).replies && h !in Apply(cfg, s, step).handlers ==> Tells(s, step, Apply(cfg, s, step).replies[h])
  {
    hide Inv, Apply, MayGiveUp, MayAdvance;
    StepAnswers(cfg, s, step, h);
  }

  /** The POST of a request: in an honest run it is told 503 only if the request was never accepted,
      and 202 or a response only if it was. */
  lemma {:induction false} RequestPostTold(cfg: Config, s: State, steps: seq<Step>, h: nat)
    requires cfg.Valid() && Inv(cfg, s) && Legal(cfg, s, steps) && HonestRun(cfg, s, steps) && Accounted(s)
    requires h in s.handlers && IsPoster(s.handlers[h])
    ensures RequestTold(Exec(cfg, s, steps), h, TokenOf(s.handlers[h].request))
    decreases |steps|
  {
    hide Inv, Enabled, Apply, Honest, Accounted, Lost;
    if steps == [] {
      NotBoth(cfg, s, h);
    } else {
      var s1, x := Apply(cfg, s, steps[0]), TokenOf(s.handlers[h].request);
      StepKeepsInv(cfg, s, steps[0]);
      StepKeepsAccounted(cfg, s, steps[0]);
      PosterStep(cfg, s, steps[0], h);
      if h !in s1.handlers {
        NumberStaysUsed(cfg, s, steps[0], h);
        ReplyStaysInRun(cfg, s1, steps[1..], h);
        if s1.replies[h] == Unavailable {
          LostForGood(cfg, s1, steps[1..], x);
        } else {
          AcceptedForGood(cfg, s1, steps[1..], x);
        }
      } else if IsPoster(s1.handlers[h]) {
        RequestPostTold(cfg, s1, steps[1..], h);
      } else {
        AcceptedForGood(cfg, s1, steps[1..], x);
        WaitIsKept(cfg, s1, steps[1..], h);
      }
    }
  }

  // ---------------------------------------------------------------- the POST of a response

  /** The response has been put on a queue: it is there or further on its way, and not dropped. */
  ghost predicate OnItsWay(s: State, x: Token) {
    exists p :: At(s, x, p) && Rank(p) >= 4 && p != Dropped
  }

  lemma OnItsWayIsNotDropped(s: State, x: Token)
    requires Conserved(s) && OnItsWay(s, x)
    ensures x !in s.dropped && x !in s.hands && forall h :: !AtPost(s.handlers, h, x)
  {
    hide AtService, AtEntry, AtPost, RequestMail, ResponseMail;
    var p :| At(s, x, p) && Rank(p) >= 4 && p != Dropped;
    assert !At(s, x, Dropped) && !At(s, x, InHands);
    forall h
      ensures !AtPost(s.handlers, h, x)
    {
      assert !At(s, x, BeingPosted(h));
    }
  }

  lemma OnItsWayStep(cfg: Config, s: State, step: Step, x: Token)
    requires cfg.Valid() && Inv(cfg, s) && Enabled(cfg, s, step) && Honest(s, step) && Accounted(s) && OnItsWay(s, x)
    ensures OnItsWay(Apply(cfg, s, step), x)
  {
    hide Inv, Enabled, Apply, Conserved, NoDuplicates, PostersNew, AtService, AtEntry, RequestMail, ResponseMail;
    var t := Apply(cfg, s, step);
    OnItsWayIsNotDropped(s, x);
    StepKeepsAccounted(cfg, s, step);
    StepTokens(cfg, s, step);
    assert step.RefuseResponse? ==> !AtPost(s.handlers, step.h, x);
    assert x !in t.dropped;
    var p :| At(s, x, p) && Rank(p) >= 4 && p != Dropped;
    var q := PlaceAfterMove(s, t, x, p);
    assert At(t, x, q) && Rank(q) >= 4 && q != Dropped;
  }

  lemma {:induction false} OnItsWayForGood(cfg: Config, s: State, steps: seq<Step>, x: Token)
    requires cfg.Valid() && Inv(cfg, s) && Legal(cfg, s, steps) && HonestRun(cfg, s, steps) && Accounted(s) && OnItsWay(s, x)
    ensures OnItsWay(Exec(cfg, s, steps), x)
    decreases |steps|
  {
    hide Inv, Enabled, Apply, Honest, Accounted, OnItsWay;
    if steps != [] {
      StepKeepsInv(cfg, s, steps[0]);
      StepKeepsAccounted(cfg, s, steps[0]);
      OnItsWayStep(cfg, s, steps[0], x);
      OnItsWayForGood(cfg, Apply(cfg, s, steps[0]), steps[1..], x);
    }
  }

  lemma {:induction false} DroppedForGood(cfg: Config, s: State, steps: seq<Step>, x: Token)
    requires cfg.Valid() && Inv(cfg, s) && Legal(cfg, s, steps) && x in s.dropped
    ensures x in Exec(cfg, s, steps).dropped
    decreases |steps|
  {
    hide Inv, Enabled, Apply;
    if steps != [] {
      StepKeepsInv(cfg, s, steps[0]);
      StepTokens(cfg, s, steps[0]);
      DroppedForGood(cfg, Apply(cfg, s, steps[0]), steps[1..], x);
    }
  }

  predicate IsPost(p: Handler) {
    p.Answering? || p.Delivering?
  }

  function TokenOfPost(p: Handler): Token
    requires IsPost(p)
  {
    Token(p.client, p.response.requestId)
  }

  /** The step that ends the POST of a response. */
  lemma PostStep(cfg: Config, s: State, step: Step, h: nat)
    requires cfg.Valid() && Inv(cfg, s) && Enabled(cfg, s, step) && Accounted(s)
    requires h in s.handlers && IsPost(s.handlers[h])
    ensures var t, x := Apply(cfg, s, step), TokenOfPost(s.handlers[h]);
            if h in t.handlers then IsPost(t.handlers[h]) && TokenOfPost(t.handlers[h]) == x
            else
              && h in t.replies
              && ((t.replies[h] == Unavailable && x in t.dropped) || (t.replies[h] == AcceptedReply && OnItsWay(t, x)))
  {
    hide Inv, Apply, Accounted, MayGiveUp, MayAdvance, OnItsWay;
    var t, x := Apply(cfg, s, step), TokenOfPost(s.handlers[h]);
    StepAnswers(cfg, s, step, h);
    StepTokens(cfg, s, step);
    if h in t.handlers {
      Reach.HandlerStays(cfg, s, step, h);
    } else if step.PutResponse? {
      PutIsOnItsWay(cfg, s, h);
    }
  }

  lemma PutIsOnItsWay(cfg: Config, s: State, h: nat)
    requires cfg.Valid() && Inv(cfg, s) && Enabled(cfg, s, PutResponse(h)) && Accounted(s)
    ensures h in s.handlers && s.handlers[h].Delivering? && OnItsWay(Apply(cfg, s, PutResponse(h)), TokenOfPost(s.handlers[h]))
  {
    hide Inv, Accounted, DoPutResponse, MayGiveUp;
    HandlerIsOk(cfg, s, h);
    PutResponseMoves(cfg, s, h);
    var t, x, p := Apply(cfg, s, PutResponse(h)), TokenOfPost(s.handlers[h]), InEntry(s.handlers[h].entry);
    assert At(t, x, p) && Rank(p) >= 4;
  }

  /** What the POST of a response is told, once it has been answered in `t`. */
  ghost predicate ResponseTold(t: State, h: nat, x: Token) {
    h in t.replies ==> if t.replies[h] == Unavailable then x in t.dropped && !OnItsWay(t, x)
                       else t.replies[h] == AcceptedReply && OnItsWay(t, x) && x !in t.dropped
  }

  lemma ToldIsExact(t: State, h: nat, x: Token)
    requires Conserved(t)
    requires h in t.replies ==> if t.replies[h] == Unavailable then x in t.dropped else t.replies[h] == AcceptedReply && OnItsWay(t, x)
    ensures ResponseTold(t, h, x)
  {
    if OnItsWay(t, x) {
      OnItsWayIsNotDropped(t, x);
    }
  }

  /** The POST of a response: in an honest run it is told 202 if and only if its response has been put
      on the queue it held, and is there or further on its way to its client; and 503 if and only if
      it has been dropped. */
  lemma {:induction false} ResponsePostTold(cfg: Config, s: State, steps: seq<Step>, h: nat)
    requires cfg.Valid() && Inv(cfg, s) && Legal(cfg, s, steps) && HonestRun(cfg, s, steps) && Accounted(s)
    requires h in s.handlers && IsPost(s.handlers[h])
    ensures ResponseTold(Exec(cfg, s, steps), h, TokenOfPost(s.handlers[h]))
    decreases |steps|
  {
    hide Inv, Enabled, Apply, Honest, Accounted, OnItsWay, ResponseTold;
    if steps == [] {
      NotBoth(cfg, s, h);
      ToldNothing(s, h, TokenOfPost(s.handlers[h]));
    } else {
      var s1, x := Apply(cfg, s, steps[0]), TokenOfPost(s.handlers[h]);
      StepKeepsInv(cfg, s, steps[0]);
      StepKeepsAccounted(cfg, s, steps[0]);
      PostStep(cfg, s, steps[0], h);
      if h in s1.handlers {
        ResponsePostTold(cfg, s1, steps[1..], h);
      } else {
        NumberStaysUsed(cfg, s, steps[0], h);
        ReplyStaysInRun(cfg, s1, steps[1..], h);
        RunKeepsAccounted(cfg, s1, steps[1..]);
        if s1.replies[h] == Unavailable {
          DroppedForGood(cfg, s1, steps[1..], x);
        } else {
          OnItsWayForGood(cfg, s1, steps[1..], x);
        }
        AccountedIsConserved(Exec(cfg, s, steps));
        ToldIsExact(Exec(cfg, s, steps), h, x);
      }
    }
  }

  lemma ToldNothing(t: State, h: nat, x: Token)
    requires h !in t.replies
    ensures ResponseTold(t, h, x)
  {
  }

  lemma AccountedIsConserved(s: State)
    requires Accounted(s)
    ensures Conserved(s)
  {
  }
}
