/** Events the crawler delivers on its output stream. */
module CrawlEvents {
  import opened Wrappers
  import opened Requests
  import opened CrawlErrors

  datatype CrawlEvent<O, I> =
    | WillCrawl(request: Request<I>)
    | DidCrawl(request: Request<I>, result: Result<O, CrawlError>)
}
