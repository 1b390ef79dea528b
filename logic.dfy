/**
 * The crawler's reducer: the single, sequential transition function that owns
 * the traversal state. Each action yields a new state and a list of effects;
 * the effects are values here (the effect runtime, the event channel and the
 * user's crawl operation are outside the model).
 *
 * `Step` and `DidFinishStep` state what a transition does; the `Store` class
 * performs the same transition in place, step by step, and is proved to agree
 * with them.
 */
module Logic {
  import opened Wrappers
  import opened Foundation
  import opened Regex
  import opened Requests
  import opened CrawlErrors
  import opened CrawlEvents
  import opened CrawlQueues
  import opened DomainQueueTables
  import opened CrawlerConfigs

  datatype Action<O, I> =
    | /** `visit(requests)`: the caller's initial batch. */
      Visit(requests: seq<UserRequest<I>>)
    | /** `_visit(request)`: an admitted request is about to be filtered and queued. */
      VisitRequest(request: Request<I>)
    | /** `_didVisit`: the crawl operation returned follow-up requests and an output. */
      DidVisit(request: Request<I>, nextRequests: seq<UserRequest<I>>, output: O)
    | /** `_didFailVisit`: the request was refused or its crawl operation threw. */
      DidFailVisit(request: Request<I>, error: CrawlError)

  /**
   * `waitingURLs` holds the URLs admitted and not yet completed (a set of URLs,
   * not of requests); `totalVisitCount` counts every request ever admitted.
   */
  datatype State = State(waitingURLs: set<URL>, totalVisitCount: UInt64)

  const InitialState: State := State({}, 0)

  /** What the reducer reads from its environment: the configuration and the regex engine. */
  datatype Environment = Environment(config: CrawlerConfig, regex: Engine)

  /** The outcome of the user's crawl operation, decided outside the engine. */
  datatype CrawlOutcome<O, I> =
    | Crawled(nextRequests: seq<UserRequest<I>>, output: O)
    | Threw(error: SwiftError)

  datatype Effect<O, I> =
    | /** Send `.didCrawl(request, result)` on the event channel. */
      SendDidCrawl(request: Request<I>, result: Result<O, CrawlError>)
    | /** Close the event channel. */
      Finish
    | /** Feed an action straight back into the reducer. */
      NextAction(action: Action<O, I>)
    | /** Run the crawl of `request` on `queue` (see `RunQueuedTask`). */
      RunQueued(queue: CrawlQueue, request: Request<I>)

  /** The budget invariant: the admitted count never exceeds `maxTotalRequests`. */
  predicate Inv(env: Environment, s: State)
  {
    s.totalVisitCount <= env.config.maxTotalRequests
  }

  /**
   * How many of `count` candidate requests survive the budget:
   * `prefix(Int(clamping: maxTotalRequests - totalVisitCount))`. The
   * subtraction cannot underflow under `Inv`, so the `max(_, 0)` around it
   * never changes anything.
   */
  function CutLength(env: Environment, totalVisitCount: UInt64, count: nat): (n: nat)
    requires totalVisitCount <= env.config.maxTotalRequests
    ensures n <= count && totalVisitCount + n <= env.config.maxTotalRequests
    ensures count <= INT_MAX ==> n == Min(count, env.config.maxTotalRequests - totalVisitCount)
  {
    var remainingVisitCount: UInt64 := env.config.maxTotalRequests - totalVisitCount;
    Min(count, ClampToInt(remainingVisitCount))
  }

  /** The candidates that survive the budget: a prefix of `nextRequests`. */
  function Survivors<I>(env: Environment, s: State, nextRequests: seq<UserRequest<I>>): (r: seq<UserRequest<I>>)
    requires Inv(env, s)
    ensures |r| <= |nextRequests| && r == nextRequests[..|r|]
    ensures s.totalVisitCount + |r| <= env.config.maxTotalRequests
    ensures |nextRequests| <= INT_MAX ==> |r| == Min(|nextRequests|, env.config.maxTotalRequests - s.totalVisitCount)
  {
    nextRequests[..CutLength(env, s.totalVisitCount, |nextRequests|)]
  }

  /** The URLs of a list of requests: what inserting them one by one adds to a set. */
  function UrlsOf<I>(requests: seq<UserRequest<I>>): set<URL>
  {
    if |requests| == 0 then {} else UrlsOf(requests[..|requests| - 1]) + {requests[|requests| - 1].url}
  }

  /** `waitingURLs.remove(request.url)` for a real completion; nothing for the caller's batch. */
  function Forget<I>(waitingURLs: set<URL>, request: Option<Request<I>>): (r: set<URL>)
    ensures request.None? ==> r == waitingURLs
    ensures request.Some? ==> request.value.Url() !in r && r + {request.value.Url()} == waitingURLs + {request.value.Url()}
  {
    if request.Some? then waitingURLs - {request.value.Url()} else waitingURLs
  }

  /** `request?.depth ?? 0`: the caller's batch behaves as the children of a depth-0 request. */
  function ParentDepth<I>(request: Option<Request<I>>): UInt64
  {
    if request.Some? then request.value.depth else 0
  }

  /** The `.didCrawl` send (after a real completion) followed by the channel close (when finished). */
  function ChannelEffects<O, I>(request: Option<Request<I>>, outputResult: Option<Result<O, CrawlError>>, isFinished: bool): (es: seq<Effect<O, I>>)
    ensures |es| == (if request.Some? && outputResult.Some? then 1 else 0) + (if isFinished then 1 else 0)
    ensures forall i :: 0 <= i < |es| ==> es[i].SendDidCrawl? || es[i].Finish?
    ensures forall i :: 0 < i < |es| ==> es[i].Finish?
    ensures (exists i :: 0 <= i < |es| && es[i].Finish?) <==> isFinished
    ensures isFinished ==> es[|es| - 1].Finish?
    ensures (request.Some? && outputResult.Some?) <==> |es| > 0 && es[0].SendDidCrawl?
    ensures |es| > 0 && es[0].SendDidCrawl? ==> es[0] == SendDidCrawl(request.value, outputResult.value)
  {
    var send := if request.Some? && outputResult.Some? then [SendDidCrawl(request.value, outputResult.value)] else [];
    var close := if isFinished then [Finish] else [];
    var es := send + close;
    assert isFinished ==> es[|send|].Finish?;
    es
  }

  /**
   * One `_visit` per surviving candidate, numbered from `totalVisitCount` in
   * list order, one level deeper than the parent.
   */
  function NextCrawls<O, I>(requests: seq<UserRequest<I>>, totalVisitCount: UInt64, parentDepth: UInt64): (es: seq<Effect<O, I>>)
    requires totalVisitCount + |requests| <= UINT64_MAX && parentDepth < UINT64_MAX
    ensures |es| == |requests|
    ensures forall i :: 0 <= i < |es| ==>
      && es[i].NextAction? && es[i].action.VisitRequest?
      && es[i].action.request.userRequest == requests[i]
      && es[i].action.request.order == totalVisitCount + i
      && es[i].action.request.depth == parentDepth + 1
  {
    seq(|requests|, i requires 0 <= i < |requests| =>
      NextAction(VisitRequest(NewRequest(requests[i].url, requests[i].urlInfo, totalVisitCount + i, parentDepth + 1))))
  }

  /** The dispatches of a transition: none when nothing survived or the parent is at the depth limit. */
  function Dispatches<O, I>(env: Environment, survivors: seq<UserRequest<I>>, totalVisitCount: UInt64, parentDepth: UInt64): (es: seq<Effect<O, I>>)
    requires totalVisitCount + |survivors| <= env.config.maxTotalRequests
    ensures forall i :: 0 <= i < |es| ==> es[i].NextAction? && es[i].action.VisitRequest?
  {
    if |survivors| == 0 || parentDepth >= env.config.maxDepths then [] else NextCrawls(survivors, totalVisitCount, parentDepth)
  }

  /**
   * `didFinish(request:nextRequests:outputResult:)`: forget the completed URL,
   * cut the candidates to the budget, remember their URLs, decide whether the
   * run is over, and emit the channel effects followed by the dispatches.
   * Candidates cut off by the depth limit are still remembered and counted.
   */
  function DidFinishStep<O, I>(
    env: Environment,
    s: State,
    request: Option<Request<I>>,
    nextRequests: seq<UserRequest<I>>,
    outputResult: Option<Result<O, CrawlError>>
  ): (r: (State, seq<Effect<O, I>>))
    requires Inv(env, s)
    ensures Inv(env, r.0)
    ensures s.totalVisitCount <= r.0.totalVisitCount <= s.totalVisitCount + |nextRequests|
  {
    var cut := Survivors(env, s, nextRequests);
    var waiting := Forget(s.waitingURLs, request) + UrlsOf(cut);
    var isFinished := |waiting| == 0 && |cut| == 0;
    (State(waiting, s.totalVisitCount + |cut|),
     ChannelEffects(request, outputResult, isFinished) + Dispatches(env, cut, s.totalVisitCount, ParentDepth(request)))
  }

  /** `url.host ?? ""`. */
  function HostOf(url: URL): Domain
  {
    url.host.GetOr("")
  }

  /**
   * The `_visit` case: a refused host turns into an immediate
   * `_didFailVisit(request, .domainNotAllowed(host))`; an allowed one into a
   * crawl queued on the queue the table picks for the URL.
   */
  function VisitEffects<O, I>(env: Environment, request: Request<I>): (es: seq<Effect<O, I>>)
    ensures |es| == 1
  {
    var host := HostOf(request.Url());
    if !env.config.domainFilteringPolicy.IsDomainAllowed(env.regex, host) then
      [NextAction(DidFailVisit(request, DomainNotAllowed(host)))]
    else
      [RunQueued(BuildQueue(env.config.domainQueueTable, env.regex, request.Url()), request)]
  }

  /** The reducer. */
  function Step<O, I>(env: Environment, s: State, action: Action<O, I>): (r: (State, seq<Effect<O, I>>))
    requires Inv(env, s)
    ensures Inv(env, r.0)
  {
    match action
    case Visit(requests) => DidFinishStep(env, s, None, requests, None)
    case VisitRequest(request) => (s, VisitEffects(env, request))
    case DidVisit(request, nextRequests, output) => DidFinishStep(env, s, Some(request), nextRequests, Some(Success(output)))
    case DidFailVisit(request, error) => DidFinishStep(env, s, Some(request), [], Some(Failure(error)))
  }

  /**
   * The body of a queued crawl, run when the queue lets it start: if the
   * effect was cancelled while it waited, it stops without events or action;
   * otherwise it sends `.willCrawl`, runs the crawl operation (whose outcome is
   * an input here) and turns it into the next action, wrapping a thrown error
   * in `crawlFailed`.
   */
  function RunQueuedTask<O, I>(request: Request<I>, cancelled: bool, outcome: CrawlOutcome<O, I>): (r: (seq<CrawlEvent<O, I>>, Option<Action<O, I>>))
    ensures cancelled ==> r.0 == [] && r.1 == None
    ensures !cancelled ==> r.0 == [WillCrawl(request)] && r.1.Some?
    ensures !cancelled && outcome.Crawled? ==> r.1 == Some(DidVisit(request, outcome.nextRequests, outcome.output))
    ensures !cancelled && outcome.Threw? ==> r.1 == Some(DidFailVisit(request, CrawlFailed(outcome.error)))
  {
    if cancelled then ([], None)
    else
      var next := match outcome
        case Crawled(nextRequests, output) => DidVisit(request, nextRequests, output)
        case Threw(error) => DidFailVisit(request, CrawlFailed(error));
      ([WillCrawl(request)], Some(next))
  }

  /** The event channel: the events sent so far and whether it was closed. */
  datatype Channel<O, I> = Channel(log: seq<CrawlEvent<O, I>>, finished: bool)

  /** One channel effect: a send after the close is dropped, as `AsyncChannel` does; other effects do not touch the channel. */
  function DeliverOne<O, I>(ch: Channel<O, I>, e: Effect<O, I>): Channel<O, I>
  {
    match e
    case SendDidCrawl(request, result) => if ch.finished then ch else ch.(log := ch.log + [DidCrawl(request, result)])
    case Finish => ch.(finished := true)
    case _ => ch
  }

  /** Apply the channel effects of a transition, in list order. */
  function Deliver<O, I>(ch: Channel<O, I>, es: seq<Effect<O, I>>): (r: Channel<O, I>)
    decreases |es|
  {
    if |es| == 0 then ch else Deliver(DeliverOne(ch, es[0]), es[1..])
  }

  /**
   * The reducer's state, updated in place. `Valid` is the budget invariant;
   * `Current` is the state as a value, for comparison with `Step`.
   */
  class Store {
    var waitingURLs: set<URL>
    var totalVisitCount: UInt64
    const env: Environment

    predicate Valid()
      reads this
    {
      Inv(env, Current())
    }

    function Current(): State
      reads this
    {
      State(waitingURLs, totalVisitCount)
    }

    constructor (env: Environment)
      ensures this.env == env && Current() == InitialState && Valid()
    {
      this.env := env;
      waitingURLs := {};
      totalVisitCount := 0;
    }

    /** The `for` loop of `didFinish`: insert each surviving URL into `waitingURLs`. */
    method InsertWaiting<I>(requests: seq<UserRequest<I>>)
      modifies this`waitingURLs
      ensures waitingURLs == old(waitingURLs) + UrlsOf(requests)
    {
      var i := 0;
      while i < |requests|
        invariant 0 <= i <= |requests|
        invariant waitingURLs == old(waitingURLs) + UrlsOf(requests[..i])
      {
        assert requests[..i + 1][..i] == requests[..i];
        waitingURLs := waitingURLs + {requests[i].url};
        i := i + 1;
      }
      assert requests[..i] == requests;
    }

    /** `didFinish`, mutating `waitingURLs` and `totalVisitCount` in place. */
    method DidFinish<O, I>(request: Option<Request<I>>, nextRequests: seq<UserRequest<I>>, outputResult: Option<Result<O, CrawlError>>)
      returns (effects: seq<Effect<O, I>>)
      requires Valid()
      modifies this
      ensures Valid()
      ensures (Current(), effects) == DidFinishStep(env, old(Current()), request, nextRequests, outputResult)
    {
      if request.Some? {
        waitingURLs := waitingURLs - {request.value.Url()};
      }

      // Cannot underflow: `Valid()` keeps the count within the budget.
      var total := totalVisitCount;
      var remainingVisitCount: UInt64 := env.config.maxTotalRequests - total;
      var next := nextRequests[..Min(|nextRequests|, ClampToInt(remainingVisitCount))];

      InsertWaiting(next);

      var isFinished := |waitingURLs| == 0 && |next| == 0;
      var nextCrawls := Dispatches(env, next, total, ParentDepth(request));
      totalVisitCount := total + |next|;
      effects := ChannelEffects(request, outputResult, isFinished) + nextCrawls;
    }

    /** The reducer, applied to the stored state. */
    method Reduce<O, I>(action: Action<O, I>) returns (effects: seq<Effect<O, I>>)
      requires Valid()
      modifies this
      ensures Valid()
      ensures (Current(), effects) == Step(env, old(Current()), action)
    {
      match action
      case Visit(requests) =>
        effects := DidFinish(None, requests, None);
      case VisitRequest(request) =>
        effects := VisitEffects(env, request);
      case DidVisit(request, nextRequests, output) =>
        effects := DidFinish(Some(request), nextRequests, Some(Success(output)));
      case DidFailVisit(request, error) =>
        effects := DidFinish(Some(request), [], Some(Failure(error)));
    }
  }
}
