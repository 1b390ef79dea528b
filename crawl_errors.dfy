/** The crawler's error type. */
module CrawlErrors {
  import opened Foundation

  datatype CrawlError =
    | /** `URLResponse` could not be read as an `HTTPURLResponse`. */
      InvalidHTTPResponse(response: URLResponse)
    | /** The response data could not be turned into the crawler's preferred format. */
      InvalidData
    | /** The domain filtering policy refused the request's host. */
      DomainNotAllowed(domain: Domain)
    | /** The user's crawl operation threw. */
      CrawlFailed(error: SwiftError)
}
