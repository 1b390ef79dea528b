/**
 * `UserRequest` (what callers and crawl operations produce) and `Request`
 * (a `UserRequest` the engine has admitted, plus its `order` and `depth`).
 * `Request` keeps the `UserRequest` as a stored field and forwards `url` and
 * `urlInfo` to it, for reading and for writing; `order` and `depth` are
 * constants of the request.
 */
module Requests {
  import opened Foundation

  datatype UserRequest<I> = UserRequest(url: URL, urlInfo: I)

  /** `UserRequest(url:)`, available when the extra information is `Void`. */
  function UserRequestWithoutInfo(url: URL): (r: UserRequest<()>)
    ensures r.url == url && r.urlInfo == ()
  {
    UserRequest(url, ())
  }

  datatype Request<I> = Request(userRequest: UserRequest<I>, order: UInt64, depth: UInt64)
  {
    /** Forwarded read of `userRequest.url`. */
    function Url(): URL
    {
      userRequest.url
    }

    /** Forwarded read of `userRequest.urlInfo`. */
    function UrlInfo(): I
    {
      userRequest.urlInfo
    }

    /** Forwarded write of `userRequest.url`: a record update of the stored field. */
    function SetUrl(url: URL): (r: Request<I>)
      ensures r.Url() == url
      ensures r.UrlInfo() == UrlInfo() && r.order == order && r.depth == depth
    {
      this.(userRequest := userRequest.(url := url))
    }

    /** Forwarded write of `userRequest.urlInfo`. */
    function SetUrlInfo(urlInfo: I): (r: Request<I>)
      ensures r.UrlInfo() == urlInfo
      ensures r.Url() == Url() && r.order == order && r.depth == depth
    {
      this.(userRequest := userRequest.(urlInfo := urlInfo))
    }
  }

  /** `Request(url:urlInfo:order:depth:)`. */
  function NewRequest<I>(url: URL, urlInfo: I, order: UInt64, depth: UInt64): (r: Request<I>)
    ensures r.Url() == url && r.UrlInfo() == urlInfo && r.order == order && r.depth == depth
  {
    Request(UserRequest(url, urlInfo), order, depth)
  }

  /** `Request(url:order:depth:)`, available when the extra information is `Void`. */
  function NewRequestWithoutInfo(url: URL, order: UInt64, depth: UInt64): (r: Request<()>)
    ensures r.Url() == url && r.UrlInfo() == () && r.order == order && r.depth == depth
  {
    Request(UserRequestWithoutInfo(url), order, depth)
  }

  /** Writing one forwarded field and then the other is the same as writing both in the other order. */
  lemma ForwardedWritesCommute<I>(r: Request<I>, url: URL, urlInfo: I)
    ensures r.SetUrl(url).SetUrlInfo(urlInfo) == r.SetUrlInfo(urlInfo).SetUrl(url)
    ensures r.SetUrl(url).SetUrlInfo(urlInfo) == NewRequest(url, urlInfo, r.order, r.depth)
  {
  }

  /** Writing back what was read changes nothing. */
  lemma WriteWhatWasRead<I>(r: Request<I>)
    ensures r.SetUrl(r.Url()) == r && r.SetUrlInfo(r.UrlInfo()) == r
  {
  }
}
