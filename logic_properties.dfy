/**
 * Properties of the reducer: what one transition admits, dispatches and
 * emits, and what holds across any sequence of transitions.
 */
module LogicProperties {
  import opened Wrappers
  import opened Foundation
  import opened Requests
  import opened CrawlErrors
  import opened CrawlEvents
  import opened DomainQueueTables
  import opened CrawlerConfigs
  import opened Logic

  /** The requests dispatched by a list of effects (its `_visit` actions), in order. */
  function Dispatched<O, I>(es: seq<Effect<O, I>>): seq<Request<I>>
    decreases |es|
  {
    if |es| == 0 then []
    else (if es[0].NextAction? && es[0].action.VisitRequest? then [es[0].action.request] else []) + Dispatched(es[1..])
  }

  predicate Finishes<O, I>(es: seq<Effect<O, I>>)
  {
    exists i :: 0 <= i < |es| && es[i].Finish?
  }

  lemma {:induction false} DispatchedAppend<O, I>(a: seq<Effect<O, I>>, b: seq<Effect<O, I>>)
    ensures Dispatched(a + b) == Dispatched(a) + Dispatched(b)
    decreases |a|
  {
    if |a| == 0 {
      assert a + b == b;
    } else {
      assert (a + b)[0] == a[0];
      assert (a + b)[1..] == a[1..] + b;
      DispatchedAppend(a[1..], b);
    }
  }

  lemma {:induction false} DispatchedNone<O, I>(es: seq<Effect<O, I>>)
    requires forall i :: 0 <= i < |es| ==> !(es[i].NextAction? && es[i].action.VisitRequest?)
    ensures Dispatched(es) == []
    decreases |es|
  {
    if |es| > 0 {
      DispatchedNone(es[1..]);
    }
  }

  lemma {:induction false} DispatchedAllVisits<O, I>(es: seq<Effect<O, I>>)
    requires forall i :: 0 <= i < |es| ==> es[i].NextAction? && es[i].action.VisitRequest?
    ensures |Dispatched(es)| == |es|
    ensures forall i :: 0 <= i < |es| ==> Dispatched(es)[i] == es[i].action.request
    decreases |es|
  {
    if |es| > 0 {
      DispatchedAllVisits(es[1..]);
    }
  }

  /** The arguments each action other than `_visit` passes to `didFinish`. */
  function DidFinishArgs<O, I>(action: Action<O, I>): (Option<Request<I>>, seq<UserRequest<I>>, Option<Result<O, CrawlError>>)
    requires !action.VisitRequest?
  {
    match action
    case Visit(requests) => (None, requests, None)
    case DidVisit(request, nextRequests, output) => (Some(request), nextRequests, Some(Success(output)))
    case DidFailVisit(request, error) => (Some(request), [], Some(Failure(error)))
  }

  /** A transition through `didFinish`, taken apart: new state, channel effects, dispatches. */
  lemma DidFinishParts<O, I>(env: Environment, s: State, request: Option<Request<I>>, nextRequests: seq<UserRequest<I>>, outputResult: Option<Result<O, CrawlError>>)
    requires Inv(env, s)
    ensures var r := DidFinishStep(env, s, request, nextRequests, outputResult);
      var cut := Survivors(env, s, nextRequests);
      var waiting := Forget(s.waitingURLs, request) + UrlsOf(cut);
      && s.totalVisitCount + |cut| <= env.config.maxTotalRequests
      && r.0 == State(waiting, s.totalVisitCount + |cut|)
      && r.1 == ChannelEffects(request, outputResult, |waiting| == 0 && |cut| == 0) + Dispatches(env, cut, s.totalVisitCount, ParentDepth(request))
  {
  }

  lemma StepThroughDidFinish<O, I>(env: Environment, s: State, action: Action<O, I>)
    requires Inv(env, s) && !action.VisitRequest?
    ensures var args := DidFinishArgs(action);
      Step(env, s, action) == DidFinishStep(env, s, args.0, args.1, args.2)
  {
  }

  /**
   * Budget: the candidates are cut to their first
   * `min(count, maxTotalRequests - totalVisitCount)` elements, in order, and
   * the count grows by exactly that number. The completed URL is forgotten
   * and the survivors' URLs are remembered.
   */
  lemma BudgetedAdmission<O, I>(env: Environment, s: State, request: Option<Request<I>>, nextRequests: seq<UserRequest<I>>, outputResult: Option<Result<O, CrawlError>>)
    requires Inv(env, s) && |nextRequests| <= INT_MAX
    ensures var s' := DidFinishStep(env, s, request, nextRequests, outputResult).0;
      var n := Min(|nextRequests|, env.config.maxTotalRequests - s.totalVisitCount);
      && Survivors(env, s, nextRequests) == nextRequests[..n]
      && s'.totalVisitCount == s.totalVisitCount + n
      && s'.waitingURLs == Forget(s.waitingURLs, request) + UrlsOf(nextRequests[..n])
  {
    DidFinishParts(env, s, request, nextRequests, outputResult);
  }

  /** What the dispatches appended to channel effects amount to. */
  lemma DispatchedAfterChannel<O, I>(env: Environment, channel: seq<Effect<O, I>>, cut: seq<UserRequest<I>>, total: UInt64, depth: UInt64)
    requires forall i :: 0 <= i < |channel| ==> channel[i].SendDidCrawl? || channel[i].Finish?
    requires total + |cut| <= env.config.maxTotalRequests
    ensures var ds := Dispatched(channel + Dispatches<O, I>(env, cut, total, depth));
      && (depth >= env.config.maxDepths ==> ds == [])
      && (depth < env.config.maxDepths ==>
            |ds| == |cut|
            && forall i :: 0 <= i < |ds| ==>
                 ds[i].userRequest == cut[i] && ds[i].order == total + i && ds[i].depth == depth + 1)
  {
    var crawls := Dispatches<O, I>(env, cut, total, depth);
    DispatchedNone(channel);
    DispatchedAppend(channel, crawls);
    if |cut| == 0 || depth >= env.config.maxDepths {
      assert crawls == [];
    } else {
      DispatchedAllVisits(crawls);
    }
  }

  /**
   * Dispatch: unless the survivors are empty or the parent is at the depth
   * limit, each survivor is dispatched once, in order, numbered from the old
   * count and one level deeper than the parent (the caller's batch counts as
   * depth 0, so its requests get depth 1). Otherwise nothing is dispatched.
   */
  lemma DispatchedChildren<O, I>(env: Environment, s: State, request: Option<Request<I>>, nextRequests: seq<UserRequest<I>>, outputResult: Option<Result<O, CrawlError>>)
    requires Inv(env, s)
    ensures var r := DidFinishStep(env, s, request, nextRequests, outputResult);
      var cut := Survivors(env, s, nextRequests);
      var depth := ParentDepth(request);
      var ds := Dispatched(r.1);
      && r.0.totalVisitCount == s.totalVisitCount + |cut|
      && (depth >= env.config.maxDepths ==> ds == [])
      && (depth < env.config.maxDepths ==>
            |ds| == |cut|
            && forall i :: 0 <= i < |ds| ==>
                 ds[i].userRequest == cut[i] && ds[i].order == s.totalVisitCount + i && ds[i].depth == depth + 1)
  {
    DidFinishParts(env, s, request, nextRequests, outputResult);
    var cut := Survivors(env, s, nextRequests);
    var waiting := Forget(s.waitingURLs, request) + UrlsOf(cut);
    var channel := ChannelEffects(request, outputResult, |waiting| == 0 && |cut| == 0);
    DispatchedAfterChannel(env, channel, cut, s.totalVisitCount, ParentDepth(request));
  }

  /** One transition dispatches requests numbered consecutively from the old count, all below the new count. */
  lemma StepDispatchOrders<O, I>(env: Environment, s: State, action: Action<O, I>)
    requires Inv(env, s)
    ensures var r := Step(env, s, action);
      var ds := Dispatched(r.1);
      && s.totalVisitCount + |ds| <= r.0.totalVisitCount
      && forall i :: 0 <= i < |ds| ==> ds[i].order == s.totalVisitCount + i
  {
    if action.VisitRequest? {
      DispatchedNone(VisitEffects<O, I>(env, action.request));
    } else {
      var args := DidFinishArgs(action);
      StepThroughDidFinish(env, s, action);
      DispatchedChildren(env, s, args.0, args.1, args.2);
    }
  }

  /** The state after a sequence of actions. */
  function Run<O, I>(env: Environment, s: State, actions: seq<Action<O, I>>): (s': State)
    requires Inv(env, s)
    ensures Inv(env, s') && s.totalVisitCount <= s'.totalVisitCount
    decreases |actions|
  {
    if |actions| == 0 then s
    else
      var s1 := Step(env, s, actions[0]).0;
      StepDispatchOrders(env, s, actions[0]);
      Run(env, s1, actions[1..])
  }

  /** Every request dispatched along a sequence of actions, in dispatch order. */
  function TraceDispatched<O, I>(env: Environment, s: State, actions: seq<Action<O, I>>): seq<Request<I>>
    requires Inv(env, s)
    decreases |actions|
  {
    if |actions| == 0 then []
    else
      var r := Step(env, s, actions[0]);
      Dispatched(r.1) + TraceDispatched(env, r.0, actions[1..])
  }

  ghost predicate OrdersWithin<I>(ds: seq<Request<I>>, lo: int, hi: int)
  {
    forall i :: 0 <= i < |ds| ==> lo <= ds[i].order < hi
  }

  ghost predicate OrdersIncreasing<I>(ds: seq<Request<I>>)
  {
    forall i, j :: 0 <= i < j < |ds| ==> ds[i].order < ds[j].order
  }

  /** Two runs of increasing orders, the first entirely below the second, make one. */
  lemma JoinIncreasing<I>(d1: seq<Request<I>>, d2: seq<Request<I>>, lo: int, mid: int, hi: int)
    requires lo <= mid <= hi
    requires OrdersWithin(d1, lo, mid) && OrdersIncreasing(d1)
    requires OrdersWithin(d2, mid, hi) && OrdersIncreasing(d2)
    ensures OrdersWithin(d1 + d2, lo, hi) && OrdersIncreasing(d1 + d2)
  {
    var ds := d1 + d2;
    forall i | 0 <= i < |ds|
      ensures lo <= ds[i].order < hi
    {
      if i < |d1| {
        assert ds[i] == d1[i];
      } else {
        assert ds[i] == d2[i - |d1|];
      }
    }
    forall i, j | 0 <= i < j < |ds|
      ensures ds[i].order < ds[j].order
    {
      if j < |d1| {
        assert ds[i] == d1[i] && ds[j] == d1[j];
      } else if i < |d1| {
        assert ds[i] == d1[i] && ds[j] == d2[j - |d1|];
      } else {
        assert ds[i] == d2[i - |d1|] && ds[j] == d2[j - |d1|];
      }
    }
  }

  /**
   * Across any sequence of transitions, dispatched orders are strictly
   * increasing (so distinct), all lie between the old and the new count, and
   * no more requests are dispatched than the budget admitted.
   */
  lemma {:induction false} TraceOrdersIncreasing<O, I>(env: Environment, s: State, actions: seq<Action<O, I>>)
    requires Inv(env, s)
    ensures var ds := TraceDispatched(env, s, actions);
      var s' := Run(env, s, actions);
      && s'.totalVisitCount <= env.config.maxTotalRequests
      && |ds| <= s'.totalVisitCount - s.totalVisitCount
      && OrdersWithin(ds, s.totalVisitCount, s'.totalVisitCount)
      && OrdersIncreasing(ds)
    decreases |actions|
  {
    if |actions| > 0 {
      var r := Step(env, s, actions[0]);
      StepDispatchOrders(env, s, actions[0]);
      TraceOrdersIncreasing(env, r.0, actions[1..]);
      var d1 := Dispatched(r.1);
      var d2 := TraceDispatched(env, r.0, actions[1..]);
      var s' := Run(env, r.0, actions[1..]);
      assert OrdersWithin(d1, s.totalVisitCount, r.0.totalVisitCount);
      JoinIncreasing(d1, d2, s.totalVisitCount, r.0.totalVisitCount, s'.totalVisitCount);
    }
  }

  /** The inserted set holds exactly the URLs of the listed requests. */
  lemma {:induction false} UrlsOfMembers<I>(requests: seq<UserRequest<I>>)
    ensures forall u :: u in UrlsOf(requests) <==> exists i :: 0 <= i < |requests| && requests[i].url == u
    decreases |requests|
  {
    if |requests| > 0 {
      var init := requests[..|requests| - 1];
      UrlsOfMembers(init);
      assert forall i :: 0 <= i < |init| ==> init[i] == requests[i];
    }
  }

  /** The URLs of `n` requests number at most `n`. */
  lemma {:induction false} UrlsOfSize<I>(requests: seq<UserRequest<I>>)
    ensures |UrlsOf(requests)| <= |requests|
    decreases |requests|
  {
    if |requests| > 0 {
      UrlsOfSize(requests[..|requests| - 1]);
    }
  }

  /** The waiting URLs never outnumber the requests ever admitted. */
  predicate WaitingWithinCount(s: State)
  {
    |s.waitingURLs| <= s.totalVisitCount
  }

  lemma StepKeepsWaitingWithinCount<O, I>(env: Environment, s: State, action: Action<O, I>)
    requires Inv(env, s) && WaitingWithinCount(s)
    ensures WaitingWithinCount(Step(env, s, action).0)
  {
    if !action.VisitRequest? {
      var args := DidFinishArgs(action);
      StepThroughDidFinish(env, s, action);
      DidFinishParts(env, s, args.0, args.1, args.2);
      var cut := Survivors(env, s, args.1);
      var forgotten := Forget(s.waitingURLs, args.0);
      assert |forgotten| <= |s.waitingURLs|;
      UrlsOfSize(cut);
      assert |forgotten + UrlsOf(cut)| <= |forgotten| + |UrlsOf(cut)|;
    }
  }

  /** In a transition's effect list the channel effects come first (the only `.didCrawl`, then the close) and the dispatches after them in list position. */
  lemma ChannelThenDispatches<O, I>(
    env: Environment, request: Option<Request<I>>, outputResult: Option<Result<O, CrawlError>>, isFinished: bool,
    cut: seq<UserRequest<I>>, total: UInt64, depth: UInt64)
    requires total + |cut| <= env.config.maxTotalRequests
    requires isFinished ==> |cut| == 0
    ensures var es := ChannelEffects(request, outputResult, isFinished) + Dispatches(env, cut, total, depth);
      && (Finishes(es) <==> isFinished)
      && (Finishes(es) ==> Dispatched(es) == [])
      && (forall i, j :: 0 <= i < |es| && 0 <= j < |es| && es[i].SendDidCrawl? && es[j].Finish? ==> i < j)
      && ((exists i :: 0 <= i < |es| && es[i].SendDidCrawl?) <==> request.Some? && outputResult.Some?)
      && (request.Some? && outputResult.Some? ==> es[0] == SendDidCrawl(request.value, outputResult.value))
  {
    var channel := ChannelEffects(request, outputResult, isFinished);
    var crawls := Dispatches<O, I>(env, cut, total, depth);
    var es := channel + crawls;
    assert forall j :: 0 <= j < |channel| ==> es[j] == channel[j];
    assert forall j :: |channel| <= j < |es| ==> es[j] == crawls[j - |channel|];
    if Finishes(es) {
      var j :| 0 <= j < |es| && es[j].Finish?;
      assert j < |channel|;
      assert crawls == [];
      assert es == channel;
      DispatchedNone(channel);
    }
    if isFinished {
      assert es[|channel| - 1].Finish?;
    }
    if exists i :: 0 <= i < |es| && es[i].SendDidCrawl? {
      var i :| 0 <= i < |es| && es[i].SendDidCrawl?;
      assert i < |channel|;
      assert i == 0;
    }
  }

  /**
   * The run is over (the channel is closed) exactly when a batch or completion
   * leaves no waiting URL and admits nothing; a `_visit` never closes it. The
   * close comes after the `.didCrawl` send and no dispatch accompanies it.
   */
  lemma FinishExactlyWhenIdle<O, I>(env: Environment, s: State, action: Action<O, I>)
    requires Inv(env, s)
    ensures var r := Step(env, s, action);
      && (Finishes(r.1) <==> !action.VisitRequest? && r.0.waitingURLs == {} && r.0.totalVisitCount == s.totalVisitCount)
      && (Finishes(r.1) ==> Dispatched(r.1) == [])
      && (forall i, j :: 0 <= i < |r.1| && 0 <= j < |r.1| && r.1[i].SendDidCrawl? && r.1[j].Finish? ==> i < j)
  {
    if action.VisitRequest? {
      var es := Step(env, s, action).1;
      assert es == VisitEffects(env, action.request);
      assert !es[0].Finish? && !es[0].SendDidCrawl?;
    } else {
      var args := DidFinishArgs(action);
      StepThroughDidFinish(env, s, action);
      DidFinishParts(env, s, args.0, args.1, args.2);
      var cut := Survivors(env, s, args.1);
      var waiting := Forget(s.waitingURLs, args.0) + UrlsOf(cut);
      ChannelThenDispatches(env, args.0, args.2, |waiting| == 0 && |cut| == 0, cut, s.totalVisitCount, ParentDepth(args.0));
    }
  }

  /** `.didCrawl` is sent for completions and failures only, first, with the request and its result. */
  lemma DidCrawlOnlyForCompletions<O, I>(env: Environment, s: State, action: Action<O, I>)
    requires Inv(env, s)
    ensures var es := Step(env, s, action).1;
      && ((exists i :: 0 <= i < |es| && es[i].SendDidCrawl?) <==> action.DidVisit? || action.DidFailVisit?)
      && (action.DidVisit? ==> es[0] == SendDidCrawl(action.request, Success(action.output)))
      && (action.DidFailVisit? ==> es[0] == SendDidCrawl(action.request, Failure(action.error)))
  {
    if action.VisitRequest? {
      var es := Step(env, s, action).1;
      assert es == VisitEffects(env, action.request);
      assert !es[0].SendDidCrawl?;
    } else {
      var args := DidFinishArgs(action);
      StepThroughDidFinish(env, s, action);
      DidFinishParts(env, s, args.0, args.1, args.2);
      var cut := Survivors(env, s, args.1);
      var waiting := Forget(s.waitingURLs, args.0) + UrlsOf(cut);
      ChannelThenDispatches(env, args.0, args.2, |waiting| == 0 && |cut| == 0, cut, s.totalVisitCount, ParentDepth(args.0));
    }
  }

  /** A failed visit forgets its URL, admits and dispatches nothing, and reports the failure. */
  lemma FailedVisitHasNoChildren<O, I>(env: Environment, s: State, request: Request<I>, error: CrawlError)
    requires Inv(env, s)
    ensures var r := Step<O, I>(env, s, DidFailVisit(request, error));
      && r.0.waitingURLs == s.waitingURLs - {request.Url()}
      && r.0.totalVisitCount == s.totalVisitCount
      && Dispatched(r.1) == []
      && r.1[0] == SendDidCrawl(request, Failure(error))
  {
    var cut := Survivors<I>(env, s, []);
    assert UrlsOf(cut) == {};
    DidFinishParts<O, I>(env, s, Some(request), [], Some(Failure(error)));
    DispatchedChildren<O, I>(env, s, Some(request), [], Some(Failure(error)));
    DidCrawlOnlyForCompletions<O, I>(env, s, DidFailVisit(request, error));
  }

  /**
   * `waitingURLs` is a set of URLs: a completion forgets its URL even when
   * another admitted request with the same URL is still in flight, and if
   * nothing else is waiting the channel closes at once.
   */
  lemma SharedUrlForgottenByFirstCompletion<O, I>(env: Environment, t: UInt64, first: Request<I>, output: O)
    requires t <= env.config.maxTotalRequests
    ensures var r := Step(env, State({first.Url()}, t), DidVisit(first, [], output));
      r.0 == State({}, t) && r.1 == [SendDidCrawl(first, Success(output)), Finish]
  {
    var s := State({first.Url()}, t);
    var cut := Survivors<I>(env, s, []);
    assert UrlsOf(cut) == {};
    DidFinishParts<O, I>(env, s, Some(first), [], Some(Success(output)));
  }

  /**
   * At the depth limit, survivors are remembered and counted but never
   * dispatched; since they will never complete, the channel does not close
   * on this transition.
   */
  lemma DepthCutoffKeepsUrls<O, I>(env: Environment, s: State, request: Request<I>, nextRequests: seq<UserRequest<I>>, output: O)
    requires Inv(env, s) && request.depth >= env.config.maxDepths
    ensures var r := Step(env, s, DidVisit(request, nextRequests, output));
      var cut := Survivors(env, s, nextRequests);
      && Dispatched(r.1) == []
      && UrlsOf(cut) <= r.0.waitingURLs
      && r.0.totalVisitCount == s.totalVisitCount + |cut|
      && (|cut| > 0 ==> !Finishes(r.1))
  {
    DidFinishParts<O, I>(env, s, Some(request), nextRequests, Some(Success(output)));
    DispatchedChildren<O, I>(env, s, Some(request), nextRequests, Some(Success(output)));
    FinishExactlyWhenIdle(env, s, DidVisit(request, nextRequests, output));
  }

  /** An empty batch on an idle crawler just closes the channel. */
  lemma IdleEmptyVisitFinishes<O, I>(env: Environment, t: UInt64)
    requires t <= env.config.maxTotalRequests
    ensures Step<O, I>(env, State({}, t), Visit([])) == (State({}, t), [Finish])
  {
    var s := State({}, t);
    var cut := Survivors<I>(env, s, []);
    assert cut == [];
    assert UrlsOf(cut) == {};
    StepThroughDidFinish<O, I>(env, s, Visit([]));
    DidFinishParts<O, I>(env, s, None, [], None);
    assert ChannelEffects<O, I>(None, None, true) == [Finish];
    assert Dispatches<O, I>(env, cut, t, 0) == [];
    var r := DidFinishStep<O, I>(env, s, None, [], None);
    assert Forget<I>(s.waitingURLs, None) == {};
    assert r.0 == State({}, t);
    assert r.1 == [Finish];
  }

  /**
   * `_visit` changes no state; a refused host becomes an immediate failure
   * with `domainNotAllowed(host)` (no queue, no `.willCrawl`), an allowed one
   * is queued on the queue the table picks.
   */
  lemma VisitRequestFilters<O, I>(env: Environment, s: State, request: Request<I>)
    requires Inv(env, s)
    ensures var r := Step<O, I>(env, s, VisitRequest(request));
      var host := HostOf(request.Url());
      && r.0 == s
      && (!env.config.domainFilteringPolicy.IsDomainAllowed(env.regex, host) ==>
            r.1 == [NextAction(DidFailVisit(request, DomainNotAllowed(host)))])
      && (env.config.domainFilteringPolicy.IsDomainAllowed(env.regex, host) ==>
            r.1 == [RunQueued(BuildQueue(env.config.domainQueueTable, env.regex, request.Url()), request)])
  {
  }

  lemma {:induction false} DeliverAppend<O, I>(ch: Channel<O, I>, a: seq<Effect<O, I>>, b: seq<Effect<O, I>>)
    ensures Deliver(ch, a + b) == Deliver(Deliver(ch, a), b)
    decreases |a|
  {
    if |a| == 0 {
      assert a + b == b;
    } else {
      assert (a + b)[0] == a[0];
      assert (a + b)[1..] == a[1..] + b;
      DeliverAppend(DeliverOne(ch, a[0]), a[1..], b);
    }
  }

  lemma {:induction false} DeliverIgnoresDispatches<O, I>(ch: Channel<O, I>, es: seq<Effect<O, I>>)
    requires forall i :: 0 <= i < |es| ==> es[i].NextAction? || es[i].RunQueued?
    ensures Deliver(ch, es) == ch
    decreases |es|
  {
    if |es| > 0 {
      DeliverIgnoresDispatches(ch, es[1..]);
    }
  }

  /**
   * Once the channel is closed nothing more is logged: a `.didCrawl` sent by a
   * later completion (possible when a shared URL closed the stream early) is lost.
   */
  lemma {:induction false} ClosedChannelKeepsLog<O, I>(ch: Channel<O, I>, es: seq<Effect<O, I>>)
    requires ch.finished
    ensures Deliver(ch, es) == ch
    decreases |es|
  {
    if |es| > 0 {
      ClosedChannelKeepsLog(DeliverOne(ch, es[0]), es[1..]);
    }
  }

  /**
   * On an open channel, a queued crawl that starts sends `.willCrawl`; the completion it feeds
   * back then sends `.didCrawl` for the same request, with the output, or with
   * the thrown error wrapped in `crawlFailed`. A cancelled one sends nothing
   * and feeds nothing back.
   */
  lemma WillCrawlThenDidCrawl<O, I>(env: Environment, s: State, ch: Channel<O, I>, request: Request<I>, cancelled: bool, outcome: CrawlOutcome<O, I>)
    requires Inv(env, s) && !ch.finished
    ensures var task := RunQueuedTask(request, cancelled, outcome);
      && (cancelled ==> task.0 == [] && task.1 == None)
      && (!cancelled ==>
            var result: Result<O, CrawlError> := if outcome.Crawled? then Success(outcome.output) else Failure(CrawlFailed(outcome.error));
            task.1.Some? &&
            Deliver(ch.(log := ch.log + task.0), Step(env, s, task.1.value).1).log == ch.log + [WillCrawl(request), DidCrawl(request, result)])
  {
    if !cancelled {
      var task := RunQueuedTask(request, cancelled, outcome);
      var action := task.1.value;
      var ch1 := ch.(log := ch.log + task.0);
      var args := DidFinishArgs(action);
      StepThroughDidFinish(env, s, action);
      DidFinishParts(env, s, args.0, args.1, args.2);
      var cut := Survivors(env, s, args.1);
      var waiting := Forget(s.waitingURLs, args.0) + UrlsOf(cut);
      var channel := ChannelEffects(args.0, args.2, |waiting| == 0 && |cut| == 0);
      var crawls: seq<Effect<O, I>> := Dispatches(env, cut, s.totalVisitCount, ParentDepth(args.0));
      DeliverAppend(ch1, channel, crawls);
      DeliverIgnoresDispatches(Deliver(ch1, channel), crawls);
      assert channel[0] == SendDidCrawl(request, args.2.value);
      var sent := ch1.(log := ch1.log + [DidCrawl(request, args.2.value)]);
      assert Deliver(ch1, channel) == Deliver(sent, channel[1..]);
      if |channel| == 2 {
        assert channel[1..][1..] == [];
        assert Deliver(sent, channel[1..]) == sent.(finished := true);
      } else {
        assert Deliver(sent, channel[1..]) == sent;
      }
    }
  }

  /**
   * Budget of one: the caller's single request is admitted as order 0 at
   * depth 1; when it completes with five follow-ups, none fits, so the
   * channel gets its `.didCrawl` and closes.
   */
  lemma BudgetOfOneScenario<O, I>(env: Environment, root: UserRequest<I>, children: seq<UserRequest<I>>, output: O)
    requires env.config.maxTotalRequests == 1 && env.config.maxDepths >= 1 && |children| == 5
    ensures Step<O, I>(env, InitialState, Visit([root])) ==
      (State({root.url}, 1), [NextAction(VisitRequest(Request(root, 0, 1)))])
    ensures Step(env, State({root.url}, 1), DidVisit(Request(root, 0, 1), children, output)) ==
      (State({}, 1), [SendDidCrawl(Request(root, 0, 1), Success(output)), Finish])
  {
    VisitRootBatch<O, I>(env, root);
    var s1 := State({root.url}, 1);
    var parent := Request(root, 0, 1);
    StepThroughDidFinish(env, s1, DidVisit(parent, children, output));
    DidFinishParts<O, I>(env, s1, Some(parent), children, Some(Success(output)));
    var cut := Survivors(env, s1, children);
    assert cut == [];
    assert UrlsOf(cut) == {};
    assert Forget(s1.waitingURLs, Some(parent)) == {};
    var channel := ChannelEffects<O, I>(Some(parent), Some(Success(output)), true);
    assert channel == [SendDidCrawl(parent, Success(output)), Finish];
    assert Dispatches<O, I>(env, cut, 1, 1) == [];
    assert channel + [] == channel;
  }

  /** The caller's single request on a fresh crawler, with room for at least one request and one level. */
  lemma VisitRootBatch<O, I>(env: Environment, root: UserRequest<I>)
    requires env.config.maxTotalRequests >= 1 && env.config.maxDepths >= 1
    ensures Step<O, I>(env, InitialState, Visit([root])) ==
      (State({root.url}, 1), [NextAction(VisitRequest(Request(root, 0, 1)))])
  {
    StepThroughDidFinish<O, I>(env, InitialState, Visit([root]));
    DidFinishParts<O, I>(env, InitialState, None, [root], None);
    var cut := Survivors(env, InitialState, [root]);
    assert cut == [root];
    assert UrlsOf(cut) == {root.url} by {
      assert cut[..0] == [];
    }
    assert Forget<I>(InitialState.waitingURLs, None) == {};
    assert ChannelEffects<O, I>(None, None, false) == [];
    var crawls := Dispatches<O, I>(env, cut, 0, 0);
    assert |crawls| == 1;
    assert crawls[0].action.request == Request(root, 0, 1);
    assert crawls == [NextAction(VisitRequest(Request(root, 0, 1)))];
    var r := DidFinishStep<O, I>(env, InitialState, None, [root], None);
    assert r.0 == State({root.url}, 1);
    assert r.1 == [] + crawls == crawls;
    assert DidFinishArgs<O, I>(Visit([root])) == (None, [root], None);
  }

  /**
   * Depth limit of one: the root's follow-up is admitted and counted but not
   * dispatched, and its URL stays waiting, so the channel is not closed.
   */
  lemma DepthOneScenario<O, I>(env: Environment, root: UserRequest<I>, child: UserRequest<I>, output: O)
    requires env.config.maxDepths == 1 && env.config.maxTotalRequests >= 2
    ensures Step<O, I>(env, InitialState, Visit([root])).1 == [NextAction(VisitRequest(Request(root, 0, 1)))]
    ensures Step(env, State({root.url}, 1), DidVisit(Request(root, 0, 1), [child], output)) ==
      (State({child.url}, 2), [SendDidCrawl(Request(root, 0, 1), Success(output))])
  {
    VisitRootBatch<O, I>(env, root);
    var s1 := State({root.url}, 1);
    var parent := Request(root, 0, 1);
    StepThroughDidFinish(env, s1, DidVisit(parent, [child], output));
    DidFinishParts<O, I>(env, s1, Some(parent), [child], Some(Success(output)));
    var cut := Survivors(env, s1, [child]);
    assert cut == [child];
    assert UrlsOf(cut) == {child.url} by {
      assert cut[..0] == [];
    }
    assert Forget(s1.waitingURLs, Some(parent)) == {};
    var channel := ChannelEffects<O, I>(Some(parent), Some(Success(output)), false);
    assert channel == [SendDidCrawl(parent, Success(output))];
    assert Dispatches<O, I>(env, cut, 1, 1) == [];
    assert channel + [] == channel;
  }
}
