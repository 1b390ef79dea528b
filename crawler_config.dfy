/** `CrawlerConfig` and the domain filtering policy it carries. */
module CrawlerConfigs {
  import opened Foundation
  import opened Regex
  import opened DomainQueueTables

  datatype DomainFilteringPolicy =
    | /** Every host passes. */
      AllDomains
    | /** Only hosts matching one of the patterns pass. */
      AllowedDomains(domains: set<Domain>)
    | /** Hosts matching one of the patterns are refused. */
      DisallowedDomains(domains: set<Domain>)
  {
    /** `isDomainAllowed(for:)`: `contains(where:)` over the pattern set, each pattern an unanchored regex search. */
    predicate IsDomainAllowed(engine: Engine, domain: Domain)
    {
      match this
      case AllDomains => true
      case AllowedDomains(domains) => exists p :: p in domains && IsRegexMatched(engine, domain, p)
      case DisallowedDomains(domains) => !exists p :: p in domains && IsRegexMatched(engine, domain, p)
    }
  }

  datatype CrawlerConfig = CrawlerConfig(
    maxDepths: UInt64,
    maxTotalRequests: UInt64,
    timeoutPerRequest: TimeInterval,
    userAgent: string,
    domainFilteringPolicy: DomainFilteringPolicy,
    domainQueueTable: DomainQueueTable)

  /** `CrawlerConfig()` with every argument left at its default. */
  function DefaultConfig(): (c: CrawlerConfig)
    ensures c.maxDepths == UINT64_MAX && c.maxTotalRequests == UINT64_MAX
    ensures c.timeoutPerRequest == GREATEST_FINITE_MAGNITUDE
    ensures c.userAgent == "ActoCrawler"
    ensures c.domainFilteringPolicy == AllDomains
    ensures c.domainQueueTable.Entries() == []
  {
    CrawlerConfig(UINT64_MAX, UINT64_MAX, GREATEST_FINITE_MAGNITUDE, "ActoCrawler", AllDomains, EmptyTable())
  }

  lemma AllDomainsAllowsEveryHost(engine: Engine, host: Domain)
    ensures AllDomains.IsDomainAllowed(engine, host)
  {
  }

  /** For the same patterns and host, the allow-list and the deny-list give opposite answers. */
  lemma AllowedAndDisallowedAreOpposite(domains: set<Domain>, engine: Engine, host: Domain)
    ensures AllowedDomains(domains).IsDomainAllowed(engine, host) != DisallowedDomains(domains).IsDomainAllowed(engine, host)
  {
  }

  /** An empty allow-list refuses every host; an empty deny-list lets every host through. */
  lemma EmptyPatternSets(engine: Engine, host: Domain)
    ensures !AllowedDomains({}).IsDomainAllowed(engine, host)
    ensures DisallowedDomains({}).IsDomainAllowed(engine, host)
  {
  }

  /** Growing an allow-list never refuses a host it let through; growing a deny-list never lets a refused host through. */
  lemma MorePatternsMonotone(small: set<Domain>, large: set<Domain>, engine: Engine, host: Domain)
    requires small <= large
    ensures AllowedDomains(small).IsDomainAllowed(engine, host) ==> AllowedDomains(large).IsDomainAllowed(engine, host)
    ensures !DisallowedDomains(small).IsDomainAllowed(engine, host) ==> !DisallowedDomains(large).IsDomainAllowed(engine, host)
  {
  }

  /** A pattern that does not compile admits nothing under an allow-list and blocks nothing under a deny-list. */
  lemma InvalidPatternIsInert(domains: set<Domain>, pattern: Domain, engine: Engine, host: Domain)
    requires !engine.compiles(pattern)
    ensures AllowedDomains(domains + {pattern}).IsDomainAllowed(engine, host) == AllowedDomains(domains).IsDomainAllowed(engine, host)
    ensures DisallowedDomains(domains + {pattern}).IsDomainAllowed(engine, host) == DisallowedDomains(domains).IsDomainAllowed(engine, host)
  {
  }
}
