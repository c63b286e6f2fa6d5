/** The classification `handleErrors` applies to a failed call: which
    alerts it raises and how often it clears the token. */
module Errors {
  import opened Seqs
  import opened Text

  /** An error as the handler sees it: its name and message, and the
      status of the request it came from when one was sent. */
  datatype HttpError = HttpError(name: string, message: string, status: Option<int>)

  /** The alerts the client can raise, one per alert text. */
  datatype Alert =
    | MalformedToken        // the token in the cookies cannot be put in a header
    | TokenExpired          // 401
    | ServerUnavailable     // 0
    | InternalServerError   // 500
    | ActionForbidden       // 403
    | DataNotFound          // 404
    | DataRejected          // 400
    | Generic(text: string) // an error without a request, shown as `${error}`
    | WrongCredentials      // the token endpoint refused the login

  /** What one call of the handler does: the alerts in the order they are
      shown and the number of `setToken("", "")` calls it makes. */
  datatype Handling = Handling(alerts: seq<Alert>, resets: nat)

  /** The marker of the header-encoding failure a corrupted token causes. */
  const EncodingMarker: string := "ISO-8859-1"

  /** The alert of the status chain; a status outside it raises none. */
  function StatusAlert(status: int): (a: Option<Alert>)
    ensures a.None? <==> status !in {0, 400, 401, 403, 404, 500}
    ensures a == Some(TokenExpired) <==> status == 401
  {
    if status == 401 then Some(TokenExpired)
    else if status == 0 then Some(ServerUnavailable)
    else if status == 500 then Some(InternalServerError)
    else if status == 403 then Some(ActionForbidden)
    else if status == 404 then Some(DataNotFound)
    else if status == 400 then Some(DataRejected)
    else None
  }

  function AsSeq<T>(o: Option<T>): seq<T> {
    if o.None? then [] else [o.value]
  }

  /** `${error}` of a JavaScript error, `Error.prototype.toString`: the
      message alone when the name is empty, the name alone when the
      message is empty, otherwise the name, a colon and the message. */
  function ErrorText(e: HttpError): (r: string)
    ensures e.name == "" ==> r == e.message
    ensures e.name != "" && e.message == "" ==> r == e.name
    ensures e.name != "" && e.message != "" ==>
      |r| == |e.name| + 2 + |e.message| &&
      r[..|e.name|] == e.name && r[|e.name|..|e.name| + 2] == ": " && r[|e.name| + 2..] == e.message
  {
    if e.name == "" then e.message
    else if e.message == "" then e.name
    else e.name + ": " + e.message
  }

  /** `handleErrors(error)`: the encoding check and the request check are
      independent, so a corrupted token on a request answered 401 raises
      both alerts and clears the token twice. */
  function Classify(e: HttpError): (h: Handling)
    ensures h.resets == (if Occurs(e.message, EncodingMarker) then 1 else 0)
                      + (if e.status == Some(401) then 1 else 0)
    ensures h.resets > 0 <==> Occurs(e.message, EncodingMarker) || e.status == Some(401)
    ensures h.alerts == (if Occurs(e.message, EncodingMarker) then [MalformedToken] else []) +
      (if e.status.None? then [Generic(ErrorText(e))] else AsSeq(StatusAlert(e.status.value)))
    ensures MalformedToken in h.alerts <==> Occurs(e.message, EncodingMarker)
    ensures e.status.None? ==> h.alerts[|h.alerts| - 1] == Generic(ErrorText(e))
    ensures e.status.Some? && e.status.value !in {0, 400, 401, 403, 404, 500} ==>
              h.alerts == (if Occurs(e.message, EncodingMarker) then [MalformedToken] else [])
    ensures |h.alerts| <= 2
  {
    var encoding := if IndexOf(e.message, EncodingMarker) != -1 then [MalformedToken] else [];
    match e.status
    case None => Handling(encoding + [Generic(ErrorText(e))], |encoding|)
    case Some(status) =>
      Handling(encoding + AsSeq(StatusAlert(status)), |encoding| + (if status == 401 then 1 else 0))
  }

  /** Both checks fire on one error: the token-format alert comes first,
      then the expiry alert, and the token is cleared twice. */
  lemma BothAlertsFire(e: HttpError)
    requires Occurs(e.message, EncodingMarker) && e.status == Some(401)
    ensures Classify(e) == Handling([MalformedToken, TokenExpired], 2)
  {
  }

  /** An error raised before any request was sent and without the marker
      raises one generic alert and leaves the token alone. */
  lemma UnmarkedWithoutRequest(e: HttpError)
    requires !Occurs(e.message, EncodingMarker) && e.status.None?
    ensures Classify(e) == Handling([Generic(ErrorText(e))], 0)
  {
  }

  /** A text without the marker's first letter cannot contain the marker. */
  lemma NoMarkerWithoutI(text: string)
    requires forall k :: 0 <= k < |text| ==> text[k] != 'I'
    ensures !Occurs(text, EncodingMarker)
  {
    forall i | 0 <= i && i + |EncodingMarker| <= |text| ensures !OccursAt(text, EncodingMarker, i) {
      assert text[i..i + |EncodingMarker|][0] == text[i] != EncodingMarker[0];
    }
  }
}
