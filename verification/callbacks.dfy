/** How a REST wrapper reports the outcome of its one request. The success
    adapter hands the response body and its status text to the success
    callback; the error adapter hands the error itself, with a one-line
    reason, to the error callback. The HTTP exchange is abstract: the reply
    is a parameter. */
module Callbacks {
  import opened Wrappers
  import opened RestRequests

  /** What the server sent back. */
  datatype Response = Response(data: string, status: nat, statusText: string)

  /** A failed exchange: `response` is None when no reply arrived at all
      (a network failure, a refused connection). */
  datatype HttpError = HttpError(message: string, response: Option<Response>)

  /** How the request's promise settled. */
  datatype Reply = Fulfilled(response: Response) | Rejected(error: HttpError)

  /** One invocation of a user callback: `Delivered` is
      `successCallback(data, statusText)`, `Failed` is
      `errorCallback(error, detail)`. */
  datatype Report =
    | Delivered(data: string, statusText: string)
    | Failed(error: HttpError, detail: string)

  /** The success adapter: the body and the status text, nothing else. */
  function SuccessReport(response: Response): (report: Report)
    ensures report.Delivered?
    ensures report.data == response.data && report.statusText == response.statusText
  {
    Delivered(response.data, response.statusText)
  }

  /** The error adapter: the reason is the server's status text when a
      response arrived, and the error's own message otherwise. */
  function ErrorReport(error: HttpError): (report: Report)
    ensures report.Failed? && report.error == error
    ensures error.response.Some? ==> report.detail == error.response.value.statusText
    ensures error.response.None? ==> report.detail == error.message
  {
    match error.response
    case Some(response) => Failed(error, response.statusText)
    case None => Failed(error, error.message)
  }

  /** The one callback a settled request triggers. */
  function ReportOf(reply: Reply): (report: Report)
    ensures report.Delivered? <==> reply.Fulfilled?
    ensures reply.Fulfilled? ==> report == Delivered(reply.response.data, reply.response.statusText)
    ensures reply.Rejected? ==> report.error == reply.error
    ensures reply.Rejected? ==>
              report.detail == (if reply.error.response.Some? then reply.error.response.value.statusText
                                else reply.error.message)
  {
    match reply
    case Fulfilled(response) => SuccessReport(response)
    case Rejected(error) => ErrorReport(error)
  }

  /** One call of a REST wrapper: the request it sends (None when its guard
      returns first) and the callbacks it triggers once `reply` settles. */
  function Perform(call: RestCall, reply: Reply): (r: (Option<Request>, seq<Report>))
    ensures r.0.None? <==> "" in RequiredArgs(call)
    ensures r.0.Some? ==> r.0.value == RequestFor(call) && r.0.value.path == PathOf(call)
    ensures r.0.None? ==> r.1 == []
    ensures r.0.Some? ==> |r.1| == 1 && (r.1[0].Delivered? <==> reply.Fulfilled?)
    ensures r.0.Some? && reply.Fulfilled? ==>
              r.1[0] == Delivered(reply.response.data, reply.response.statusText)
    ensures r.0.Some? && reply.Rejected? ==>
              && r.1[0].error == reply.error
              && r.1[0].detail == (if reply.error.response.Some? then reply.error.response.value.statusText
                                   else reply.error.message)
  {
    match Plan(call)
    case None => (None, [])
    case Some(request) => (Some(request), [ReportOf(reply)])
  }
}
