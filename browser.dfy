/** What the pages share: the outcome of a `fetch` to one of the handlers, and the message a
    page's `catch` shows for a failed one. */
module Browser {
  import opened Common
  import opened Http

  /** What `await fetch(...)` followed by `await response.json()` gives a page: a response
      whose status is not ok (with its `statusText`), an error thrown by the request or the
      body parse (with its message), or the parsed body of an ok response. */
  datatype FetchReply = HttpError(statusText: string) | Thrown(message: string) | Delivered(body: Json)

  /** The reply a page sees for a handler's response: ok exactly for a 2xx status. */
  function ReplyOf(r: Response, statusText: string): (f: FetchReply)
    ensures f.Delivered? <==> 200 <= r.status < 300
    ensures f.Delivered? ==> f.body == r.body
    ensures !(200 <= r.status < 300) ==> f == HttpError(statusText)
  {
    if 200 <= r.status < 300 then Delivered(r.body) else HttpError(statusText)
  }

  /** `err.message || fallback` in a page's `catch`, where a non-ok response throws
      `new Error(`${prefix}: ${response.statusText}`)`. The page always shows some message. */
  function FailureText(prefix: string, fallback: string, r: FetchReply): (t: string)
    requires !r.Delivered?
    ensures r.HttpError? ==> t == prefix + ": " + r.statusText
    ensures r.Thrown? ==> t == (if r.message != "" then r.message else fallback)
    ensures fallback != "" ==> t != ""
  {
    match r
    case HttpError(statusText) => prefix + ": " + statusText
    case Thrown(message) => if message != "" then message else fallback
  }
}
