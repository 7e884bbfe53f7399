/** The success page the checkout returns to (server.js:288-316), without its HTML. */
module Success {
  import opened Wrappers

  /** The two pages the route can send. */
  datatype SuccessPage =
      /** HTTP 400, naming the status it was given */
    | NotSuccessful(httpStatus: nat, shownStatus: string)
      /** HTTP 200, naming the address the confirmation went to */
    | ThankYou(httpStatus: nat, shownEmail: string)

  /** The statuses the gate of server.js:292 lets through. */
  predicate Succeeded(status: Option<string>)
  {
    status == Some("succeeded") || status == Some("active")
  }

  /** The page for the `status` and `email` query parameters: the 400 page
      unless the status is 'succeeded' or 'active', showing the status or
      'unknown'; otherwise the 200 page, showing the email or 'your email'
      (the same text the page's link back to the home page carries as its
      `email` parameter). */
  function SuccessPageOf(status: Option<string>, email: Option<string>): (p: SuccessPage)
    ensures p.NotSuccessful? <==> !Succeeded(status)
    ensures p.NotSuccessful? ==> p.httpStatus == 400 && p.shownStatus == (if Truthy(status) then status.value else "unknown")
    ensures p.ThankYou? ==> p.httpStatus == 200 && p.shownEmail == (if Truthy(email) then email.value else "your email")
  {
    if status != Some("succeeded") && status != Some("active") then
      NotSuccessful(400, if Truthy(status) then status.value else "unknown")
    else
      ThankYou(200, if Truthy(email) then email.value else "your email")
  }
}
