/**
 * The HTTP client wrapper. The transport itself is an oracle; what is kept is how
 * the request URL is formed and how a transport error is wrapped.
 */
module Client {
  import opened Host
  import opened Sandbox

  /** What the HTTP collaborator reports for one request: the response rendered as
      a string and the raw body, or the text of a transport error. */
  datatype Delivery = Delivered(response: string, body: string) | Undelivered(message: string)

  /** Sends a POST to a full URL with the given headers and payload. */
  type Transport = (string, map<string, string>, JsVal) -> Delivery

  /** PostRequest: POST to baseUrl + url. */
  function PostRequest(baseUrl: string, url: string, headers: map<string, string>, data: JsVal, send: Transport)
    : (r: Go<(string, string)>)
    ensures !r.Panicked?
    ensures r.Returned? <==> send(baseUrl + url, headers, data).Delivered?
    ensures r.Returned? ==> send(baseUrl + url, headers, data) == Delivered(r.value.0, r.value.1)
    ensures r.Failed? ==> r.error == "Error making POST request: " + send(baseUrl + url, headers, data).message
  {
    match send(baseUrl + url, headers, data)
    case Delivered(response, body) => Returned((response, body))
    case Undelivered(e) => Failed("Error making POST request: " + e)
  }
}
