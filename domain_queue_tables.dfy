/**
 * `DomainQueueTable`: an ordered dictionary from domain patterns to the
 * concurrency limit and delay range of the queue for hosts matching them.
 * Lookup tries the patterns in declaration order and the first match wins.
 */
module DomainQueueTables {
  import opened Wrappers
  import opened Foundation
  import opened Regex
  import opened CrawlQueues

  datatype Value = Value(maxConcurrency: Int, delay: ClosedRange)

  /** `Value(maxConcurrency:delay:)` with a delay range. */
  function RangedValue(maxConcurrency: Int, delay: ClosedRange): (v: Value)
    ensures v.maxConcurrency == maxConcurrency && v.delay == delay
  {
    Value(maxConcurrency, delay)
  }

  /** `Value(maxConcurrency:delay:)` with a fixed delay: the single-point range `delay ... delay`. */
  function FixedValue(maxConcurrency: Int, delay: TimeInterval): (v: Value)
    ensures v.maxConcurrency == maxConcurrency
    ensures v.delay.lowerBound == delay && v.delay.upperBound == delay
  {
    Value(maxConcurrency, ClosedRange(delay, delay))
  }

  ghost predicate DistinctKeys(entries: seq<(Domain, Value)>)
  {
    forall i, j :: 0 <= i < j < |entries| ==> entries[i].0 != entries[j].0
  }

  /** The `OrderedDictionary`: entries in declaration order, no key twice. */
  type OrderedDictionary = entries: seq<(Domain, Value)> | DistinctKeys(entries) witness []

  datatype DomainQueueTable = DomainQueueTable(dictionary: OrderedDictionary)
  {
    /** Iteration yields the entries in declaration order. */
    function Entries(): seq<(Domain, Value)>
    {
      dictionary
    }
  }

  /**
   * The dictionary literal `[pattern: value, ...]`, built with
   * `uniqueKeysWithValues`, which traps on a repeated key.
   */
  function FromDictionaryLiteral(elements: seq<(Domain, Value)>): (t: DomainQueueTable)
    requires DistinctKeys(elements)
    ensures t.Entries() == elements
  {
    DomainQueueTable(elements)
  }

  /** The empty literal `[:]`. */
  function EmptyTable(): (t: DomainQueueTable)
    ensures t.Entries() == []
  {
    DomainQueueTable([])
  }

  /** The position of the first entry whose pattern matches `host`, if any. */
  function FirstMatch(entries: seq<(Domain, Value)>, engine: Engine, host: string): (r: Option<nat>)
    ensures r.Some? ==> r.value < |entries| && IsRegexMatched(engine, host, entries[r.value].0)
    ensures r.Some? ==> forall j :: 0 <= j < r.value ==> !IsRegexMatched(engine, host, entries[j].0)
    ensures r.None? ==> forall j :: 0 <= j < |entries| ==> !IsRegexMatched(engine, host, entries[j].0)
  {
    if |entries| == 0 then None
    else if IsRegexMatched(engine, host, entries[0].0) then Some(0)
    else
      match FirstMatch(entries[1..], engine, host)
      case None => None
      case Some(k) => Some(k + 1)
  }

  /** The queue configured by one table entry: the pattern is its domain, the delay is drawn from the range. */
  function QueueFor(entry: (Domain, Value)): (q: CrawlQueue)
    ensures q.domain == Some(entry.0) && q.HashInput() == Some(entry.0)
    ensures q.maxConcurrency == entry.1.maxConcurrency
    ensures q.effectQueueDelay == Random(entry.1.delay)
    ensures q.EffectQueuePolicy() == RunOldest(entry.1.maxConcurrency, SuspendNew)
  {
    NewCrawlQueue(entry.0, entry.1.maxConcurrency, Random(entry.1.delay))
  }

  /** `buildQueue(url:)`. */
  function BuildQueue(table: DomainQueueTable, engine: Engine, url: URL): (q: CrawlQueue)
    ensures url.host.None? ==> q == DefaultQueue()
    ensures url.host.Some? ==>
      forall i :: 0 <= i < |table.Entries()| ==>
        IsRegexMatched(engine, url.host.value, table.Entries()[i].0) &&
        (forall j :: 0 <= j < i ==> !IsRegexMatched(engine, url.host.value, table.Entries()[j].0))
        ==> q == QueueFor(table.Entries()[i])
    ensures url.host.Some? &&
      (forall i :: 0 <= i < |table.Entries()| ==> !IsRegexMatched(engine, url.host.value, table.Entries()[i].0))
      ==> q == DefaultQueue()
  {
    match url.host
    case None => DefaultQueue()
    case Some(host) =>
      match FirstMatch(table.dictionary, engine, host)
      case None => DefaultQueue()
      case Some(k) =>
        assert IsRegexMatched(engine, host, table.Entries()[k].0);
        QueueFor(table.dictionary[k])
  }

  /** An empty table sends every URL to the default queue. */
  lemma EmptyTableGivesDefault(engine: Engine, url: URL)
    ensures BuildQueue(EmptyTable(), engine, url) == DefaultQueue()
  {
  }

  /** A queue chosen from the table is the one for the entry named by its domain, and it is never the default. */
  lemma {:induction false} ChosenQueueComesFromTable(table: DomainQueueTable, engine: Engine, url: URL)
    requires BuildQueue(table, engine, url) != DefaultQueue()
    ensures url.host.Some?
    ensures exists i ::
      && 0 <= i < |table.Entries()|
      && BuildQueue(table, engine, url) == QueueFor(table.Entries()[i])
      && IsRegexMatched(engine, url.host.value, table.Entries()[i].0)
  {
    var k := FirstMatch(table.dictionary, engine, url.host.value);
    assert k.Some?;
    assert BuildQueue(table, engine, url) == QueueFor(table.Entries()[k.value]);
  }

  /** Entries appended after a matching one are never consulted. */
  lemma {:induction false} LaterEntriesIgnored(entries: seq<(Domain, Value)>, more: seq<(Domain, Value)>, engine: Engine, url: URL)
    requires DistinctKeys(entries + more)
    requires url.host.Some?
    requires exists i :: 0 <= i < |entries| && IsRegexMatched(engine, url.host.value, entries[i].0)
    ensures DistinctKeys(entries)
    ensures BuildQueue(DomainQueueTable(entries + more), engine, url) == BuildQueue(DomainQueueTable(entries), engine, url)
  {
    var host := url.host.value;
    var k := FirstMatch(entries, engine, host);
    assert k.Some?;
    var all := entries + more;
    assert forall j :: 0 <= j < |entries| ==> all[j] == entries[j];
    assert BuildQueue(DomainQueueTable(all), engine, url) == QueueFor(all[k.value]);
  }

  /** An entry placed in front that matches the host overrides every other entry. */
  lemma FirstEntryWins(entry: (Domain, Value), entries: seq<(Domain, Value)>, engine: Engine, url: URL)
    requires DistinctKeys([entry] + entries)
    requires url.host.Some? && IsRegexMatched(engine, url.host.value, entry.0)
    ensures BuildQueue(DomainQueueTable([entry] + entries), engine, url) == QueueFor(entry)
  {
  }
}
