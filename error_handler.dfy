/** `handleAuthError`: maps the HTTP status of a failed authentication reply to
    the text shown to the user, and dispatches one sign-in failure. */
module ErrorHandler {
  import opened JsValues
  import opened UserSlice

  /** `{ status, data }` of the reply; `message` is `data.message`. */
  datatype AuthReply = AuthReply(status: int, message: Option<string>)

  /** The returned text and the actions dispatched, in order. */
  datatype Handled = Handled(text: string, dispatched: seq<Action>)

  function HandleAuthError(reply: AuthReply): (h: Handled)
    ensures |h.dispatched| == 1 && h.dispatched[0].SignInFailure?
    ensures reply.status == 404 ==> h.text == "User does not exist. Please register."
    ensures reply.status == 401 ==> h.text == "Invalid credentials. Please try again."
    ensures reply.status == 409 ==> h.text == "User already exists. Please try logging in."
    ensures reply.status in {404, 401, 409} ==> h.dispatched[0].message == reply.message
    ensures reply.status !in {404, 401, 409} ==>
      && h.text == (if Truthy(reply.message) then reply.message.value else "An error occurred. Please try again.")
      && h.dispatched[0].message == Some(if Truthy(reply.message) then reply.message.value else "An error occurred.")
  {
    if reply.status == 404 then
      Handled("User does not exist. Please register.", [SignInFailure(reply.message)])
    else if reply.status == 401 then
      Handled("Invalid credentials. Please try again.", [SignInFailure(reply.message)])
    else if reply.status == 409 then
      Handled("User already exists. Please try logging in.", [SignInFailure(reply.message)])
    else
      Handled(OrElse(reply.message, "An error occurred. Please try again."),
              [SignInFailure(Some(OrElse(reply.message, "An error occurred.")))])
  }

  /** Dispatched to the store, the failure keeps the user, stops loading and
      records the message; outside the three known statuses the recorded
      error is never empty. */
  lemma HandledFailureInStore(s: UserState, reply: AuthReply, decode: Decoder)
    ensures var t := Reduce(s, HandleAuthError(reply).dispatched[0], decode);
      && t.currentUser == s.currentUser && !t.loading
      && t.error == HandleAuthError(reply).dispatched[0].message
      && (reply.status !in {404, 401, 409} ==> Truthy(t.error))
  {
  }
}
