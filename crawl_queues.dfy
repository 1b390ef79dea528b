/**
 * `CrawlQueue`: the identity of the effect queue a crawl runs on, together
 * with its concurrency limit and start-up delay. How the effect runtime
 * schedules a queue is not part of this model; only the values it is handed
 * are.
 */
module CrawlQueues {
  import opened Wrappers
  import opened Foundation

  /** The delay applied before each queued effect starts. */
  datatype EffectQueueDelay =
    | Constant(seconds: TimeInterval)
    | Random(range: ClosedRange)

  /** What happens to an effect enqueued while `maxCount` effects are running: it waits. */
  datatype OverflowPolicy = SuspendNew

  datatype EffectQueuePolicy = RunOldest(maxCount: Int, overflow: OverflowPolicy)

  datatype CrawlQueue = CrawlQueue(domain: Option<Domain>, maxConcurrency: Int, effectQueueDelay: EffectQueueDelay)
  {
    /** Run the oldest `maxConcurrency` effects; hold newer ones until a slot frees. */
    function EffectQueuePolicy(): (p: EffectQueuePolicy)
      ensures p.maxCount == maxConcurrency && p.overflow == SuspendNew
    {
      RunOldest(maxConcurrency, SuspendNew)
    }

    /**
     * The values `hash(into:)` feeds to the hasher: the domain alone.
     * Equality is Swift's synthesized one, over all three stored fields.
     */
    function HashInput(): Option<Domain>
    {
      domain
    }

    /** Swift's synthesized `==`: all three stored fields agree. */
    predicate SwiftEquals(other: CrawlQueue)
    {
      domain == other.domain && maxConcurrency == other.maxConcurrency && effectQueueDelay == other.effectQueueDelay
    }
  }

  /** The public initialiser: a queue configured for a domain pattern. */
  function NewCrawlQueue(domain: Domain, maxConcurrency: Int, delay: EffectQueueDelay): (q: CrawlQueue)
    ensures q.domain == Some(domain) && q.HashInput() == Some(domain)
    ensures q.maxConcurrency == maxConcurrency && q.effectQueueDelay == delay
  {
    CrawlQueue(Some(domain), maxConcurrency, delay)
  }

  /** `CrawlQueue.default`: no domain, unbounded concurrency, no delay. */
  function DefaultQueue(): (q: CrawlQueue)
    ensures q.domain == None && q.HashInput() == None
    ensures q.maxConcurrency == INT_MAX && q.effectQueueDelay == Constant(0.0)
    ensures q.EffectQueuePolicy() == RunOldest(INT_MAX, SuspendNew)
  {
    CrawlQueue(None, INT_MAX, Constant(0.0))
  }

  /** Queues built for the same pattern hash alike, whatever their concurrency or delay. */
  lemma SameDomainSameHash(domain: Domain, m1: Int, d1: EffectQueueDelay, m2: Int, d2: EffectQueueDelay)
    ensures NewCrawlQueue(domain, m1, d1).HashInput() == NewCrawlQueue(domain, m2, d2).HashInput()
  {
  }

  /**
   * The custom hash is consistent with the synthesized `==`, as `Hashable`
   * requires: queues that are `==` hash alike. The converse fails: queues for
   * the same pattern with different limits hash alike but are not `==`.
   */
  lemma EqualQueuesHashAlike(q1: CrawlQueue, q2: CrawlQueue)
    requires q1.SwiftEquals(q2)
    ensures q1.HashInput() == q2.HashInput()
  {
  }

  lemma HashCollisionsAreNotEqual(domain: Domain, m1: Int, m2: Int, delay: EffectQueueDelay)
    requires m1 != m2
    ensures NewCrawlQueue(domain, m1, delay).HashInput() == NewCrawlQueue(domain, m2, delay).HashInput()
    ensures !NewCrawlQueue(domain, m1, delay).SwiftEquals(NewCrawlQueue(domain, m2, delay))
  {
  }

  /** A configured queue never has the default queue's identity (neither its hash nor equality). */
  lemma ConfiguredQueueIsNotDefault(domain: Domain, maxConcurrency: Int, delay: EffectQueueDelay)
    ensures NewCrawlQueue(domain, maxConcurrency, delay).HashInput() != DefaultQueue().HashInput()
    ensures !NewCrawlQueue(domain, maxConcurrency, delay).SwiftEquals(DefaultQueue())
  {
  }
}
